/** What the builder does to the Configuration it owns, as a log of registrations,
    and the fixed phases of the build that issue them. */
module Registrations {
  import opened Results
  import opened ConfigNodes

  /** The sections of `parseConfiguration`, in the order it runs them. */
  datatype Phase =
    | PropertiesPhase
    | SettingsReadPhase
    | VfsLogPhase
    | TypeAliasesPhase
    | PluginsPhase
    | ObjectFactoryPhase
    | ObjectWrapperFactoryPhase
    | ReflectorFactoryPhase
    | SettingsApplyPhase
    | EnvironmentsPhase
    | DatabaseIdPhase
    | TypeHandlersPhase
    | MappersPhase

  const PhaseOrder: seq<Phase> := [
    PropertiesPhase, SettingsReadPhase, VfsLogPhase, TypeAliasesPhase, PluginsPhase,
    ObjectFactoryPhase, ObjectWrapperFactoryPhase, ReflectorFactoryPhase, SettingsApplyPhase,
    EnvironmentsPhase, DatabaseIdPhase, TypeHandlersPhase, MappersPhase]

  /** The position of a phase in the build. */
  function Rank(p: Phase): nat
  {
    match p
    case PropertiesPhase => 0
    case SettingsReadPhase => 1
    case VfsLogPhase => 2
    case TypeAliasesPhase => 3
    case PluginsPhase => 4
    case ObjectFactoryPhase => 5
    case ObjectWrapperFactoryPhase => 6
    case ReflectorFactoryPhase => 7
    case SettingsApplyPhase => 8
    case EnvironmentsPhase => 9
    case DatabaseIdPhase => 10
    case TypeHandlersPhase => 11
    case MappersPhase => 12
  }

  /** A component built by resolve, construct and `setProperties`: its class and the bag
      it was configured with. */
  datatype Component = Component(cls: string, props: Props)

  /** `Environment`: an id, a transaction factory, and the factory whose data source it uses. */
  datatype Environment = Environment(id: string, transactionFactory: Component, dataSourceFactory: Component)

  datatype Action =
    | SetVfsImpl(cls: string)
    | SetLogImpl(logImpl: Option<string>)
    | RegisterAliasPackage(pkg: Option<string>)
    | RegisterAlias(cls: string)
    | RegisterNamedAlias(alias: string, cls: string)
    | AddInterceptor(interceptor: Component)
    | SetObjectFactory(factory: Component)
    | SetObjectWrapperFactory(cls: string)
    | SetReflectorFactory(cls: string)
    | ApplySettings(values: Props)
    | SetDatabaseId(provider: Component, dataSource: Component)
    | RegisterHandlerPackage(pkg: Option<string>)
    | RegisterHandler1(handler: Option<string>)
    | RegisterHandler2(java: string, handler: Option<string>)
    | RegisterHandler3(java: string, jdbc: string, handler: Option<string>)
    | AddMappers(pkg: Option<string>)
    | ParseMapperResource(resource: string)
    | ParseMapperUrl(url: string)
    | AddMapper(cls: string)

  /** The phase that issues a given kind of registration. */
  function SectionOf(a: Action): Phase
  {
    match a
    case SetVfsImpl(_) => VfsLogPhase
    case SetLogImpl(_) => VfsLogPhase
    case RegisterAliasPackage(_) => TypeAliasesPhase
    case RegisterAlias(_) => TypeAliasesPhase
    case RegisterNamedAlias(_, _) => TypeAliasesPhase
    case AddInterceptor(_) => PluginsPhase
    case SetObjectFactory(_) => ObjectFactoryPhase
    case SetObjectWrapperFactory(_) => ObjectWrapperFactoryPhase
    case SetReflectorFactory(_) => ReflectorFactoryPhase
    case ApplySettings(_) => SettingsApplyPhase
    case SetDatabaseId(_, _) => DatabaseIdPhase
    case RegisterHandlerPackage(_) => TypeHandlersPhase
    case RegisterHandler1(_) => TypeHandlersPhase
    case RegisterHandler2(_, _) => TypeHandlersPhase
    case RegisterHandler3(_, _, _) => TypeHandlersPhase
    case AddMappers(_) => MappersPhase
    case ParseMapperResource(_) => MappersPhase
    case ParseMapperUrl(_) => MappersPhase
    case AddMapper(_) => MappersPhase
  }

  /** Every registration in `acts` belongs to phase `p`. */
  predicate AllOf(acts: seq<Action>, p: Phase)
  {
    forall i :: 0 <= i < |acts| ==> SectionOf(acts[i]) == p
  }
}
