# MyBatis `XMLConfigBuilder`, modelled in Dafny

This project models the decision logic of MyBatis's `XMLConfigBuilder`. That class reads the
`mybatis-config.xml` document and wires up a `Configuration`. The model has no XML, reflection
or I/O:

- The document is an immutable `Node` tree. Each node has a name, a string attribute map and
  ordered children.
- Class loading, alias lookup, no-argument construction, setter introspection and reading
  property files and mapper streams are answered by a `World` value fixed up front.
- Each section processor is a pure function. It takes its node (or `None` when the section is
  absent) and returns either a `BuildError` or its effect. Most effects are a list of
  registrations (`Action`s) such as `AddInterceptor`, `RegisterHandler2`, `ParseMapperResource`
  or `AddMappers`. The properties bag, the environment target and the installed `Environment`
  are held as state.
- `parseConfiguration` runs the sections in the fixed order `PhaseOrder`. Its outcome is either
  the final state or the first failing section, with its error and the state the earlier
  sections reached. `parse` wraps any section error in one `SectionFailed` error. A `parsed`
  flag lets it succeed at most once per builder. This is modelled both as a pure
  `Builder -> (Builder, Result)` step and as a small class with a mutable flag.

Modules: `Results` (Option, Result, error taxonomy), `ConfigNodes`, `Runtime`, `Registrations`,
`Traversal` (child-by-child processing where the first failure aborts), `Properties`,
`Settings`, `Components` (type aliases, plugins, the three reflection factories, the
database-id provider, type handlers), `Environments`, `Mappers` and `ConfigBuilder`.

Where a natural reading and the code differ, the model follows the code:
- A type handler that gives `javaType` but no `jdbcType` is registered with the two-argument
  form `(javaType, handler)`. Without `javaType`, the `jdbcType` attribute is still resolved
  (and may fail), but it never affects which form is used.
- A null environment target fails with "No environment specified" only when at least one
  `environment` child is examined. A child without an `id` fails separately.
- When properties are merged, the variables passed to the builder override both the
  external file and the declared pairs.
- An unknown-settings error carries every unknown key. The Java code reports only the first
  one it meets, in hash order.

## Model

| member | source | states |
|---|---|---|
| Runtime.ClassForName | src/main/java/org/apache/ibatis/builder/xml/XMLConfigBuilder.java:211 | loading a class by name succeeds exactly for loadable names and yields that name; a null name fails |
| Runtime.ResolveClass | src/main/java/org/apache/ibatis/builder/xml/XMLConfigBuilder.java:444-447 | null stays null; an alias wins over a class name; otherwise the name must load |
| Runtime.Instantiate | src/main/java/org/apache/ibatis/builder/xml/XMLConfigBuilder.java:229-230 | resolve, construct, cast: succeeds exactly with the class the name resolves to when that class is constructible and implements the section's interface; a null type fails |
| Runtime.ResolveJdbcType | src/main/java/org/apache/ibatis/builder/xml/XMLConfigBuilder.java:446 | null stays null; otherwise the name must be a JdbcType constant |
| Traversal.Traverse | src/main/java/org/apache/ibatis/builder/xml/XMLConfigBuilder.java:226-233 | children are processed in document order; the result has one entry per child exactly when every child succeeds; otherwise the error is that of the first failing child |
| Properties.ExternalProperties | src/main/java/org/apache/ibatis/builder/xml/XMLConfigBuilder.java:279-283 | the resource file, else the URL file, else nothing is loaded; an unreadable source fails |
| Properties.PropertiesElement | src/main/java/org/apache/ibatis/builder/xml/XMLConfigBuilder.java:264-296 | an absent section leaves the variables unchanged; resource plus url fails; otherwise the section succeeds exactly when the external source (if any) is readable, and the bag is the declared pairs overlaid by the external file, overlaid by the inherited variables |
| Properties.DeclaredOnlyWithoutSource | src/main/java/org/apache/ibatis/builder/xml/XMLConfigBuilder.java:269-291 | with neither resource nor url the section succeeds with the declared pairs overlaid by the inherited variables only |
| Settings.SettingsAsProperties | src/main/java/org/apache/ibatis/builder/xml/XMLConfigBuilder.java:155-169 | an absent section is an empty bag; the bag is returned exactly when every key is a known setter; otherwise the error names only unknown keys of the section |
| Settings.Segments | src/main/java/org/apache/ibatis/builder/xml/XMLConfigBuilder.java:176 | the comma-separated pieces before any are discarded: at least one piece, and no piece holds a comma |
| Settings.JoinSegments | src/main/java/org/apache/ibatis/builder/xml/XMLConfigBuilder.java:176 | the pieces between commas lose nothing: joining them with commas gives back the original value |
| Settings.SegmentsJoin | src/main/java/org/apache/ibatis/builder/xml/XMLConfigBuilder.java:176 | splitting comma-joined, comma-free pieces gives back the same pieces |
| Settings.DropTrailingEmpty | src/main/java/org/apache/ibatis/builder/xml/XMLConfigBuilder.java:176 | the result is a prefix of the pieces, ends in a non-empty piece, and everything cut off is empty |
| Settings.Split | src/main/java/org/apache/ibatis/builder/xml/XMLConfigBuilder.java:176 | `split(",")`: a comma-free value is one piece; otherwise the pieces between commas with the trailing empty ones removed, each comma-free |
| Settings.NonEmpty | src/main/java/org/apache/ibatis/builder/xml/XMLConfigBuilder.java:177-178 | skipping empty pieces keeps every non-empty piece, with its multiplicity, and only those |
| Settings.NonEmptyConcat | src/main/java/org/apache/ibatis/builder/xml/XMLConfigBuilder.java:176-178 | skipping empty pieces keeps the order: the filter distributes over concatenation |
| Settings.SplitKeepsNames | src/main/java/org/apache/ibatis/builder/xml/XMLConfigBuilder.java:176-178 | the trailing empty pieces `split` discards would have been skipped anyway: no class name is lost |
| Settings.VfsClassNames | src/main/java/org/apache/ibatis/builder/xml/XMLConfigBuilder.java:176-178 | the class names taken from `vfsImpl` are exactly the non-empty pieces between commas, in the order written and with repeats, each comma-free |
| Settings.VfsAction | src/main/java/org/apache/ibatis/builder/xml/XMLConfigBuilder.java:180-181 | one VFS class is installed exactly when it loads |
| Settings.LoadCustomVfsImpl | src/main/java/org/apache/ibatis/builder/xml/XMLConfigBuilder.java:171-184 | no `vfsImpl` installs nothing; otherwise one install per named class in order, and it succeeds exactly when every name loads |
| Settings.LoadCustomLogImpl | src/main/java/org/apache/ibatis/builder/xml/XMLConfigBuilder.java:186-189 | no `logImpl` installs null; an alias installs the aliased class; otherwise the name installs itself exactly when it loads, and fails with class-not-found when it does not |
| Settings.EffectiveSettings | src/main/java/org/apache/ibatis/builder/xml/XMLConfigBuilder.java:298-332 | every defaulted setting is present, absent keys take their documented default, given keys keep their value, unread keys never appear |
| Settings.EmptySettingsApplyDefaults | src/main/java/org/apache/ibatis/builder/xml/XMLConfigBuilder.java:300-331 | an empty settings bag applies exactly the documented defaults (`PARTIAL`, `SESSION`, `OTHER`, ...) |
| Settings.UnreadSettingsIgnored | src/main/java/org/apache/ibatis/builder/xml/XMLConfigBuilder.java:298-332 | keys the settings section does not read do not change what it applies |
| Settings.DefaultedSettingsAlwaysApplied | src/main/java/org/apache/ibatis/builder/xml/XMLConfigBuilder.java:298-332 | every setting with a default is applied whatever the bag holds |
| Components.AliasAction | src/main/java/org/apache/ibatis/builder/xml/XMLConfigBuilder.java:200-220 | a package child scans the package; otherwise the type must load, and a null alias selects the one-argument form while a given alias selects (alias, class) |
| Components.TypeAliasesElement | src/main/java/org/apache/ibatis/builder/xml/XMLConfigBuilder.java:196-222 | an absent section registers nothing; otherwise one registration per child in order, succeeding exactly when every child does |
| Components.PluginAction | src/main/java/org/apache/ibatis/builder/xml/XMLConfigBuilder.java:226-232 | an interceptor is built exactly when the `interceptor` name resolves to a constructible class implementing Interceptor, and it carries that class and the child's pairs |
| Components.PluginsElement | src/main/java/org/apache/ibatis/builder/xml/XMLConfigBuilder.java:224-235 | interceptors join the chain one per child, in document order, and the section fails exactly when some interceptor cannot be built |
| Components.ObjectFactoryElement | src/main/java/org/apache/ibatis/builder/xml/XMLConfigBuilder.java:237-245 | an absent section is a no-op; otherwise it installs exactly one factory, exactly when `type` resolves to a constructible ObjectFactory class, configured with the child pairs |
| Components.ObjectWrapperFactoryElement | src/main/java/org/apache/ibatis/builder/xml/XMLConfigBuilder.java:247-253 | an absent section is a no-op; otherwise it installs exactly one factory, exactly when `type` resolves to a constructible ObjectWrapperFactory class |
| Components.ReflectorFactoryElement | src/main/java/org/apache/ibatis/builder/xml/XMLConfigBuilder.java:255-261 | an absent section is a no-op; otherwise it installs exactly one factory, exactly when `type` resolves to a constructible ReflectorFactory class |
| Components.ProviderType | src/main/java/org/apache/ibatis/builder/xml/XMLConfigBuilder.java:380-383 | the legacy provider type `VENDOR` becomes `DB_VENDOR`; every other type, null included, is kept |
| Components.DatabaseIdProviderElement | src/main/java/org/apache/ibatis/builder/xml/XMLConfigBuilder.java:375-393 | the section succeeds exactly when the provider type builds a DatabaseIdProvider; a database id is set exactly when an environment is installed, from that provider and that environment's data source |
| Components.VendorIsDbVendor | src/main/java/org/apache/ibatis/builder/xml/XMLConfigBuilder.java:380-383 | the legacy type `VENDOR` is read as `DB_VENDOR`: a `VENDOR` provider section behaves exactly like a `DB_VENDOR` one |
| Components.TypeHandlerAction | src/main/java/org/apache/ibatis/builder/xml/XMLConfigBuilder.java:430-458 | a package child registers the package; otherwise all three names must resolve, and the form is (handler) without `javaType`, (java, handler) without `jdbcType`, (java, jdbc, handler) with both |
| Components.JdbcTypeIgnoredWithoutJavaType | src/main/java/org/apache/ibatis/builder/xml/XMLConfigBuilder.java:444-457 | without `javaType`, a resolvable `jdbcType` has no effect on the registration |
| Components.TypeHandlersElement | src/main/java/org/apache/ibatis/builder/xml/XMLConfigBuilder.java:426-460 | one registration per child in order, succeeding exactly when every child does |
| Environments.TransactionManagerElement | src/main/java/org/apache/ibatis/builder/xml/XMLConfigBuilder.java:395-404 | a missing transaction manager fails; otherwise it succeeds exactly when `type` builds a TransactionFactory, configured with its pairs |
| Environments.DataSourceElement | src/main/java/org/apache/ibatis/builder/xml/XMLConfigBuilder.java:407-419 | a missing data source fails; otherwise it succeeds exactly when `type` builds a DataSourceFactory, configured with its pairs |
| Environments.BuildEnvironment | src/main/java/org/apache/ibatis/builder/xml/XMLConfigBuilder.java:360-369 | an environment is built exactly when both factories are; the transaction manager's error comes first; the environment carries the given id and both factories |
| Environments.SelectEnvironment | src/main/java/org/apache/ibatis/builder/xml/XMLConfigBuilder.java:350-372 | a null target fails once a child is examined; nothing is installed exactly when every child has an id different from the target; otherwise the installed environment is built from the first child whose id equals the target |
| Environments.LaterEnvironmentsIgnored | src/main/java/org/apache/ibatis/builder/xml/XMLConfigBuilder.java:357-371 | children after the first match, duplicates included, never affect the result |
| Environments.EnvironmentsElement | src/main/java/org/apache/ibatis/builder/xml/XMLConfigBuilder.java:340-348 | an absent section is a no-op; an explicit builder id wins over `default`; the section succeeds exactly when selection by the chosen target does, and installs what it selects |
| Environments.NullTargetNeedsAChild | src/main/java/org/apache/ibatis/builder/xml/XMLConfigBuilder.java:501-504 | with no target and no `default`, the section fails exactly when it has a child, and then with "no environment specified" |
| Mappers.MapperAction | src/main/java/org/apache/ibatis/builder/xml/XMLConfigBuilder.java:466-497 | a package child adds the package; otherwise the conflict error arises exactly when zero or several of resource/url/class are given; with exactly one, the child succeeds exactly when that resource or URL is readable or that class loads, and it selects the branch |
| Mappers.MappersElement | src/main/java/org/apache/ibatis/builder/xml/XMLConfigBuilder.java:462-499 | one registration per child in order, succeeding exactly when every child does |
| Mappers.ConflictingReferenceFailsSection | src/main/java/org/apache/ibatis/builder/xml/XMLConfigBuilder.java:493-496 | a single ambiguous or empty mapper reference fails the whole section |
| ConfigBuilder.PropertiesStep | src/main/java/org/apache/ibatis/builder/xml/XMLConfigBuilder.java:288-295 | succeeds exactly when the section does; the Configuration variables become the merged bag, and so do the parser variables when the section is present; the target, environment, settings and registrations are untouched |
| ConfigBuilder.SettingsReadStep | src/main/java/org/apache/ibatis/builder/xml/XMLConfigBuilder.java:128 | the validated settings bag is kept for the later sections; nothing is registered or applied yet |
| ConfigBuilder.VfsLogActions | src/main/java/org/apache/ibatis/builder/xml/XMLConfigBuilder.java:129-130 | succeeds exactly when both the VFS and the log overrides do; a VFS failure comes first; the VFS registrations precede the log one |
| ConfigBuilder.EnvironmentsStep | src/main/java/org/apache/ibatis/builder/xml/XMLConfigBuilder.java:340-348 | succeeds exactly when the section does; the builder's target becomes the chosen id and the selected environment, if any, replaces the installed one; variables, settings and registrations are untouched |
| ConfigBuilder.DatabaseIdStep | src/main/java/org/apache/ibatis/builder/xml/XMLConfigBuilder.java:145 | succeeds exactly when the provider section does, appends its registrations, and computes a database id only from the environment already installed |
| ConfigBuilder.RunSection | src/main/java/org/apache/ibatis/builder/xml/XMLConfigBuilder.java:122-149 | each section runs its own element: it succeeds exactly when that element does; the properties section installs the merged bag (and changes nothing at all when absent) and the environments section the target and environment, each changing nothing else; a registering section appends the element's registrations and changes nothing else |
| ConfigBuilder.RunSections | src/main/java/org/apache/ibatis/builder/xml/XMLConfigBuilder.java:122-153 | a run stops at a section it was given; completed sections' registrations are kept in place |
| ConfigBuilder.AbortsAtFirstFailingSection | src/main/java/org/apache/ibatis/builder/xml/XMLConfigBuilder.java:122-153 | when every earlier section succeeds and section k fails, the run aborts at section k with its error and the state the earlier sections reached |
| ConfigBuilder.AbortedAtAFailingSection | src/main/java/org/apache/ibatis/builder/xml/XMLConfigBuilder.java:122-153 | every abort is at a section that fails after all the sections before it succeeded, with its error and their state |
| ConfigBuilder.CompletesWhenNoSectionFails | src/main/java/org/apache/ibatis/builder/xml/XMLConfigBuilder.java:122-153 | a run completes exactly when every section succeeds in turn, and ends in the state they reach |
| ConfigBuilder.ParseConfiguration | src/main/java/org/apache/ibatis/builder/xml/XMLConfigBuilder.java:112-153 | a document whose root is not `configuration` fails before any section; a failure is at a section of the fixed order; registrations already made are kept |
| ConfigBuilder.SectionStepPreserves | src/main/java/org/apache/ibatis/builder/xml/XMLConfigBuilder.java:126-149 | one section step keeps the log in section order and keeps database ids tied to the installed environment |
| ConfigBuilder.RunSectionsOrdered | src/main/java/org/apache/ibatis/builder/xml/XMLConfigBuilder.java:122-153 | sections run in increasing order keep the log in section order; an aborted run registered nothing of the failing section or any later one |
| ConfigBuilder.ParseRegistersInPhaseOrder | src/main/java/org/apache/ibatis/builder/xml/XMLConfigBuilder.java:122-153 | a parse registers in the fixed section order, stops at the first failure, and sets a database id only from the installed environment |
| ConfigBuilder.UnknownSettingAbortsBeforeAnyRegistration | src/main/java/org/apache/ibatis/builder/xml/XMLConfigBuilder.java:126-129 | an unknown setting aborts at the settings-read section, before any registration or environment |
| ConfigBuilder.InitialState | src/main/java/org/apache/ibatis/builder/xml/XMLConfigBuilder.java:97-105 | a new builder starts with the caller's properties as both the configuration and the parser variables, its environment id as the target, no environment and no registrations |
| ConfigBuilder.ParseOnce | src/main/java/org/apache/ibatis/builder/xml/XMLConfigBuilder.java:107-115 | the builder is marked parsed whatever happens; a marked builder fails with reuse; otherwise success exactly when every section succeeds, and a failure is wrapped once |
| ConfigBuilder.XmlConfigBuilder.Parse | src/main/java/org/apache/ibatis/builder/xml/XMLConfigBuilder.java:107-115 | the mutable builder is marked parsed on every call; a second call fails with reuse; the result is that of the pure parse step |
| ConfigBuilder.ParseSucceedsAtMostOnce | src/main/java/org/apache/ibatis/builder/xml/XMLConfigBuilder.java:107-111 | in any run of repeated calls, every call after the first reports reuse |
| ConfigBuilder.RunSectionsKeeps | src/main/java/org/apache/ibatis/builder/xml/XMLConfigBuilder.java:122-153 | a property of the state that every section of the run preserves holds wherever the run stops |
| ConfigBuilder.ParseInstallsPropertiesBag | src/main/java/org/apache/ibatis/builder/xml/XMLConfigBuilder.java:112-153 | a completed parse holds the bag the properties section merged, as both the Configuration and the parser variables; no later section replaces it |
| ConfigBuilder.ParseInstallsTheBuildersEnvironment | src/main/java/org/apache/ibatis/builder/xml/XMLConfigBuilder.java:340-348 | with an environment id given to the constructor, a completed parse keeps it as the target and any installed environment carries that id, whatever `default` says |

## Left out

- Settings.Segments, Settings.JoinSegments, Settings.SegmentsJoin: these state facts about
  the pieces between commas before Java's `split` discards trailing empty pieces;
  `Settings.Split` models that discarding, and `Settings.SplitKeepsNames` shows it never
  removes a class name.
- XML parsing and XPath. The document is a given `Node` tree. `Child` takes the first child
  with a name, as `evalNode` does. `ChildProps` follows the name/value attribute convention of
  `XNode.getChildrenAsProperties`; `XNode` is not part of this model.
- `${...}` placeholder substitution in attribute values. It is done by the document parser with
  the variables installed by the properties section. The model records those variables but
  does not substitute them.
- Reflection is abstracted as `World`: the alias table, loadable classes, constructible
  classes, which classes implement which section interface (the cast after
  `newInstance`), JdbcType names and known setters. Aliases registered by the typeAliases section are
  recorded as actions. They are not fed back into later alias lookups, and alias keys are not
  case-folded, because the registry internals are foreign.
- `setProperties` on a built component is recorded as the component's property bag. The
  instances themselves are identified by their class.
- Settings.EffectiveSettings: states the raw string each setting receives. It omits the
  boolean, integer, enum and class parsing done by `booleanValueOf`, `integerValueOf`,
  `valueOf`, `resolveResultSetType`, `resolveClass` and `createInstance`, so an invalid enum
  or class value does not fail in the model. That parsing lives in `BaseBuilder` and the enum
  types, which are not part of this model.
- The mapper XML sub-parser (`XMLMapperBuilder`) and the stream lifecycle. A readable
  resource or URL is recorded as `ParseMapperResource` / `ParseMapperUrl`, and the
  sub-parser's own failures are not modelled.
- `DataSourceFactory.getDataSource` and `DatabaseIdProvider.getDatabaseId`. The database id is
  recorded as computed by the given provider from the installed environment's data source
  factory.
- Registrations are recorded and never fail. The registries themselves can reject an entry:
  `TypeHandlerRegistry.register` with a null handler class, an alias already bound to another
  class, or `addMapper` of a mapper type already known. The registries are not part of this
  model, so those failures are not modelled.
- The type-alias and type-handler registries' package scans. They are recorded with the
  package name, which may be null.
- When a section fails, the effects it made before failing are dropped. `Aborted` carries the
  state after the last completed section. The Java builder leaves those partial effects in a
  Configuration that is discarded anyway.
- `ErrorContext`, exception message text, `newConfig` (a failing `Configuration` constructor)
  and the constructor overloads that only differ in input stream type.
- Concurrency. The once-only flag is modelled for single-threaded use only, as in the source.
