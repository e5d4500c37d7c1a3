/** The opaque payloads a mod package registers, reduced to what the registry inspects. */
module Resources {

  /** A loaded plugin assembly (`System.Reflection.Assembly`), identified by its full name. */
  datatype ModuleId = ModuleId(fullName: string)

  /** Which registration path produced a resource: an `Archetype`, an `Enumeration`, or a
      `System.Type` registered as a model type or as a component type. */
  datatype Kind = Archetype | Enumeration | ModelType | ComponentType

  /** A registered resource.
      - `localId`: the kind-specific part of its key (an archetype's `Id`, an enumeration's
        `ExternalId`, a type's `FullName`);
      - `assembly`: the assembly it comes from (`archetype.Type.Assembly`,
        `enumeration.GetType().Assembly`, `type.Assembly`);
      - `isBase`: the kind's base predicate (`IsBaseArchetype`, `EnumBaseType == GetType()`,
        the type equals its model or component base type);
      - `isModel`, `isComponent`: for types, whether `IModel` resp. `IComponent` is assignable
        from it. */
  datatype Resource = Resource(
    kind: Kind,
    localId: string,
    assembly: ModuleId,
    isBase: bool,
    isModel: bool,
    isComponent: bool)
  {
    /** The stored object is a `System.Type`. */
    predicate IsType() {
      kind == ModelType || kind == ComponentType
    }
  }

  /** The exceptions the core can raise. */
  datatype Error =
    | KeyNotFound(key: string)           // KeyNotFoundException on a string-keyed dictionary
    | ModuleNotMapped(assembly: ModuleId)  // KeyNotFoundException on the module-to-package memo
    | InvalidCast(key: string)           // InvalidCastException from a typed lookup
    | DuplicateKey(key: string)          // ArgumentException from Dictionary.Add
    | ArgumentNull                       // ArgumentNullException from Dictionary.Remove(null)
}
