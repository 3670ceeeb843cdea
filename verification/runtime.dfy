/** What the builder learns from reflection and from resource loading, fixed up front.
    Class loading, alias lookup, constructor invocation, setter introspection and reading
    property files are all answered by a `World` value instead of by the JVM. */
module Runtime {
  import opened Results
  import opened ConfigNodes

  /** The interface a built component is cast to, which its class must implement. */
  datatype Role =
    | InterceptorRole
    | ObjectFactoryRole
    | ObjectWrapperFactoryRole
    | ReflectorFactoryRole
    | DatabaseIdProviderRole
    | TransactionFactoryRole
    | DataSourceFactoryRole

  datatype World = World(
    knownSetters: set<string>,              // properties `MetaClass.hasSetter` accepts on Configuration
    propertyResources: map<string, Props>,  // classpath resources readable as property files
    propertyUrls: map<string, Props>,       // URLs readable as property files
    mapperResources: set<string>,           // classpath resources that open as mapper streams
    mapperUrls: set<string>,                // URLs that open as mapper streams
    aliases: map<string, string>,           // the type-alias registry: alias -> class name
    classes: set<string>,                   // class names the class loaders can load
    constructible: set<string>,             // classes whose no-argument constructor succeeds
    implementations: set<(Role, string)>,   // (interface, class) pairs where the class implements it
    jdbcTypes: set<string>)                 // names of the JdbcType enum constants

  /** `Resources.classForName`: a class name only, no alias lookup; a null name fails. */
  function ClassForName(w: World, name: Option<string>): (r: Result<string>)
    ensures r.Success? <==> name.Some? && name.value in w.classes
    ensures r.Success? ==> r.value == name.value
  {
    match name
    case None => Failure(MissingType)
    case Some(n) => if n in w.classes then Success(n) else Failure(ClassNotFound(n))
  }

  /** `resolveClass`: null stays null; otherwise an alias is looked up first and a
      class name is loaded when no alias matches. */
  function ResolveClass(w: World, name: Option<string>): (r: Result<Option<string>>)
    ensures name.None? ==> r == Success(None)
    ensures name.Some? && name.value in w.aliases ==> r == Success(Some(w.aliases[name.value]))
    ensures name.Some? && name.value !in w.aliases ==>
              (r.Success? <==> name.value in w.classes) && (r.Success? ==> r.value == name)
  {
    match name
    case None => Success(None)
    case Some(n) =>
      if n in w.aliases then Success(Some(w.aliases[n]))
      else if n in w.classes then Success(Some(n))
      else Failure(ClassNotFound(n))
  }

  /** `cls` is what `name` resolves to, it can be constructed, and it implements `role`. */
  predicate Builds(w: World, name: Option<string>, role: Role, cls: string)
  {
    && ResolveClass(w, name) == Success(Some(cls))
    && cls in w.constructible
    && (role, cls) in w.implementations
  }

  /** `(Role) resolveClass(name).getDeclaredConstructor().newInstance()`: resolving a null
      name yields null and the constructor lookup then fails; the new instance must pass
      the cast to the section's interface. The instance is identified by its class. */
  function Instantiate(w: World, name: Option<string>, role: Role): (r: Result<string>)
    ensures name.None? ==> r == Failure(MissingType)
    ensures r.Success? ==> Builds(w, name, role, r.value)
    ensures forall cls :: Builds(w, name, role, cls) ==> r == Success(cls)
  {
    var resolved :- ResolveClass(w, name);
    match resolved
    case None => Failure(MissingType)
    case Some(cls) =>
      if cls !in w.constructible then Failure(NotInstantiable(cls))
      else if (role, cls) !in w.implementations then Failure(NotAssignable(cls))
      else Success(cls)
  }

  /** `resolveJdbcType`: null stays null; otherwise the name must be a JdbcType constant. */
  function ResolveJdbcType(w: World, name: Option<string>): (r: Result<Option<string>>)
    ensures r.Success? <==> name.None? || name.value in w.jdbcTypes
    ensures r.Success? ==> r.value == name
  {
    match name
    case None => Success(None)
    case Some(n) => if n in w.jdbcTypes then Success(Some(n)) else Failure(UnknownJdbcType(n))
  }
}
