/** The sections that resolve, construct and register components: type aliases, plugins,
    the three reflection factories, the database-id provider and type handlers. */
module Components {
  import opened Results
  import opened ConfigNodes
  import opened Runtime
  import opened Registrations
  import opened Traversal

  /** One child of `<typeAliases>`: a package scan, or a class registered under its
      default alias (no `alias` attribute) or under the given alias. */
  function AliasAction(w: World, c: Node): (r: Result<Action>)
    ensures c.name == "package" ==> r == Success(RegisterAliasPackage(Attr(c, "name")))
    ensures c.name != "package" ==> (r.Success? <==> ClassForName(w, Attr(c, "type")).Success?)
    ensures c.name != "package" && r.Success? ==>
              && (r.value.RegisterAlias? <==> Attr(c, "alias").None?)
              && (r.value.RegisterNamedAlias? <==> Attr(c, "alias").Some?)
              && (r.value.RegisterNamedAlias? ==> r.value.alias == Attr(c, "alias").value)
              && r.value.cls == Attr(c, "type").value
  {
    if c.name == "package" then Success(RegisterAliasPackage(Attr(c, "name")))
    else
      var alias := Attr(c, "alias");
      var cls :- ClassForName(w, Attr(c, "type"));
      match alias
      case None => Success(RegisterAlias(cls))
      case Some(a) => Success(RegisterNamedAlias(a, cls))
  }

  /** `typeAliasesElement`: one registration per child, in document order. */
  function TypeAliasesElement(w: World, node: Option<Node>): (r: Result<seq<Action>>)
    ensures node.None? ==> r == Success([])
    ensures node.Some? ==>
              var cs := node.value.children;
              && (r.Success? <==> forall i :: 0 <= i < |cs| ==> AliasAction(w, cs[i]).Success?)
              && (r.Success? ==> |r.value| == |cs|
                                 && forall i :: 0 <= i < |cs| ==> r.value[i] == AliasAction(w, cs[i]).value)
    ensures r.Success? ==> AllOf(r.value, TypeAliasesPhase)
  {
    match node
    case None => Success([])
    case Some(ctx) => Traverse(ctx.children, c => AliasAction(w, c))
  }

  /** One `<plugin>`: the interceptor named by its `interceptor` attribute, configured
      with the child's name/value pairs. */
  function PluginAction(w: World, c: Node): (r: Result<Action>)
    ensures r.Success? ==>
              && r.value.AddInterceptor?
              && Builds(w, Attr(c, "interceptor"), InterceptorRole, r.value.interceptor.cls)
              && r.value.interceptor.props == ChildProps(c)
    ensures forall cls :: Builds(w, Attr(c, "interceptor"), InterceptorRole, cls) ==>
              r == Success(AddInterceptor(Component(cls, ChildProps(c))))
  {
    var cls :- Instantiate(w, Attr(c, "interceptor"), InterceptorRole);
    Success(AddInterceptor(Component(cls, ChildProps(c))))
  }

  /** `pluginsElement`: interceptors join the chain in document order. */
  function PluginsElement(w: World, node: Option<Node>): (r: Result<seq<Action>>)
    ensures node.None? ==> r == Success([])
    ensures node.Some? ==>
              var cs := node.value.children;
              && (r.Success? <==> forall i :: 0 <= i < |cs| ==> PluginAction(w, cs[i]).Success?)
              && (r.Success? ==> |r.value| == |cs|
                                 && forall i :: 0 <= i < |cs| ==> r.value[i] == PluginAction(w, cs[i]).value)
    ensures r.Success? ==> AllOf(r.value, PluginsPhase)
  {
    match node
    case None => Success([])
    case Some(ctx) => Traverse(ctx.children, c => PluginAction(w, c))
  }

  /** `objectFactoryElement`: the factory named by `type`, configured with the child pairs. */
  function ObjectFactoryElement(w: World, node: Option<Node>): (r: Result<seq<Action>>)
    ensures node.None? ==> r == Success([])
    ensures node.Some? && r.Success? ==>
              && |r.value| == 1
              && r.value[0].SetObjectFactory?
              && Builds(w, Attr(node.value, "type"), ObjectFactoryRole, r.value[0].factory.cls)
              && r.value[0].factory.props == ChildProps(node.value)
    ensures node.Some? ==>
              forall cls :: Builds(w, Attr(node.value, "type"), ObjectFactoryRole, cls) ==>
                r == Success([SetObjectFactory(Component(cls, ChildProps(node.value)))])
    ensures r.Success? ==> AllOf(r.value, ObjectFactoryPhase)
  {
    match node
    case None => Success([])
    case Some(ctx) =>
      var cls :- Instantiate(w, Attr(ctx, "type"), ObjectFactoryRole);
      Success([SetObjectFactory(Component(cls, ChildProps(ctx)))])
  }

  /** `objectWrapperFactoryElement`: the factory named by `type`; no properties are applied. */
  function ObjectWrapperFactoryElement(w: World, node: Option<Node>): (r: Result<seq<Action>>)
    ensures node.None? ==> r == Success([])
    ensures node.Some? && r.Success? ==>
              && |r.value| == 1
              && r.value[0].SetObjectWrapperFactory?
              && Builds(w, Attr(node.value, "type"), ObjectWrapperFactoryRole, r.value[0].cls)
    ensures node.Some? ==>
              forall cls :: Builds(w, Attr(node.value, "type"), ObjectWrapperFactoryRole, cls) ==>
                r == Success([SetObjectWrapperFactory(cls)])
    ensures r.Success? ==> AllOf(r.value, ObjectWrapperFactoryPhase)
  {
    match node
    case None => Success([])
    case Some(ctx) =>
      var cls :- Instantiate(w, Attr(ctx, "type"), ObjectWrapperFactoryRole);
      Success([SetObjectWrapperFactory(cls)])
  }

  /** `reflectorFactoryElement`: the factory named by `type`; no properties are applied. */
  function ReflectorFactoryElement(w: World, node: Option<Node>): (r: Result<seq<Action>>)
    ensures node.None? ==> r == Success([])
    ensures node.Some? && r.Success? ==>
              && |r.value| == 1
              && r.value[0].SetReflectorFactory?
              && Builds(w, Attr(node.value, "type"), ReflectorFactoryRole, r.value[0].cls)
    ensures node.Some? ==>
              forall cls :: Builds(w, Attr(node.value, "type"), ReflectorFactoryRole, cls) ==>
                r == Success([SetReflectorFactory(cls)])
    ensures r.Success? ==> AllOf(r.value, ReflectorFactoryPhase)
  {
    match node
    case None => Success([])
    case Some(ctx) =>
      var cls :- Instantiate(w, Attr(ctx, "type"), ReflectorFactoryRole);
      Success([SetReflectorFactory(cls)])
  }

  /** The provider type actually resolved: the legacy name `VENDOR` means `DB_VENDOR`. */
  function ProviderType(t: Option<string>): (r: Option<string>)
    ensures r.None? <==> t.None?
    ensures t == Some("VENDOR") ==> r == Some("DB_VENDOR")
    ensures t != Some("VENDOR") ==> r == t
  {
    if t == Some("VENDOR") then Some("DB_VENDOR") else t
  }

  /** `databaseIdProviderElement`: the provider is always built and configured, but a
      database id is set only when an environment was installed before this section. */
  function DatabaseIdProviderElement(w: World, node: Option<Node>, env: Option<Environment>): (r: Result<seq<Action>>)
    ensures node.None? ==> r == Success([])
    ensures node.Some? && r.Success? ==>
              exists cls :: Builds(w, ProviderType(Attr(node.value, "type")), DatabaseIdProviderRole, cls)
    ensures r.Success? ==> (|r.value| == 1 <==> node.Some? && env.Some?) && |r.value| <= 1
    ensures r.Success? && |r.value| == 1 ==>
              && r.value[0].SetDatabaseId?
              && Builds(w, ProviderType(Attr(node.value, "type")), DatabaseIdProviderRole, r.value[0].provider.cls)
              && r.value[0].provider.props == ChildProps(node.value)
              && r.value[0].dataSource == env.value.dataSourceFactory
    ensures node.Some? ==>
              forall cls :: Builds(w, ProviderType(Attr(node.value, "type")), DatabaseIdProviderRole, cls) ==>
                r.Success?
    ensures r.Success? ==> AllOf(r.value, DatabaseIdPhase)
  {
    match node
    case None => Success([])
    case Some(ctx) =>
      var cls :- Instantiate(w, ProviderType(Attr(ctx, "type")), DatabaseIdProviderRole);
      var provider := Component(cls, ChildProps(ctx));
      match env
      case None => Success([])
      case Some(e) => Success([SetDatabaseId(provider, e.dataSourceFactory)])
  }

  /** Writing `VENDOR` and writing `DB_VENDOR` configure the same provider. */
  lemma VendorIsDbVendor(w: World, ctx: Node, env: Option<Environment>)
    requires Attr(ctx, "type") == Some("VENDOR")
    ensures DatabaseIdProviderElement(w, Some(ctx), env)
         == DatabaseIdProviderElement(w, Some(ctx.(attributes := ctx.attributes["type" := "DB_VENDOR"])), env)
  {
  }

  /** One child of `<typeHandlers>`: a package scan, or a handler registered by the form
      the attributes select; all three names are resolved before the form is chosen. */
  function TypeHandlerAction(w: World, c: Node): (r: Result<Action>)
    ensures c.name == "package" ==> r == Success(RegisterHandlerPackage(Attr(c, "name")))
    ensures c.name != "package" ==>
              (r.Success? <==> && ResolveClass(w, Attr(c, "javaType")).Success?
                               && ResolveJdbcType(w, Attr(c, "jdbcType")).Success?
                               && ResolveClass(w, Attr(c, "handler")).Success?)
    ensures c.name != "package" && r.Success? ==>
              var java := ResolveClass(w, Attr(c, "javaType")).value;
              var handler := ResolveClass(w, Attr(c, "handler")).value;
              && (r.value.RegisterHandler1? <==> Attr(c, "javaType").None?)
              && (r.value.RegisterHandler2? <==> Attr(c, "javaType").Some? && Attr(c, "jdbcType").None?)
              && (r.value.RegisterHandler3? <==> Attr(c, "javaType").Some? && Attr(c, "jdbcType").Some?)
              && r.value.handler == handler
              && (!r.value.RegisterHandler1? ==> Some(r.value.java) == java)
              && (r.value.RegisterHandler3? ==> r.value.jdbc == Attr(c, "jdbcType").value)
  {
    if c.name == "package" then Success(RegisterHandlerPackage(Attr(c, "name")))
    else
      var java :- ResolveClass(w, Attr(c, "javaType"));
      var jdbc :- ResolveJdbcType(w, Attr(c, "jdbcType"));
      var handler :- ResolveClass(w, Attr(c, "handler"));
      match java
      case Some(j) =>
        (match jdbc
         case None => Success(RegisterHandler2(j, handler))
         case Some(t) => Success(RegisterHandler3(j, t, handler)))
      case None => Success(RegisterHandler1(handler))
  }

  /** Without `javaType` the `jdbcType` attribute only has to resolve: the registration
      is the same as if it were not written at all. */
  lemma JdbcTypeIgnoredWithoutJavaType(w: World, c: Node)
    requires c.name != "package"
    requires Attr(c, "javaType").None?
    requires ResolveJdbcType(w, Attr(c, "jdbcType")).Success?
    ensures TypeHandlerAction(w, c) == TypeHandlerAction(w, c.(attributes := c.attributes - {"jdbcType"}))
  {
  }

  /** `typeHandlersElement`: one registration per child, in document order. */
  function TypeHandlersElement(w: World, node: Option<Node>): (r: Result<seq<Action>>)
    ensures node.None? ==> r == Success([])
    ensures node.Some? ==>
              var cs := node.value.children;
              && (r.Success? <==> forall i :: 0 <= i < |cs| ==> TypeHandlerAction(w, cs[i]).Success?)
              && (r.Success? ==> |r.value| == |cs|
                                 && forall i :: 0 <= i < |cs| ==> r.value[i] == TypeHandlerAction(w, cs[i]).value)
    ensures r.Success? ==> AllOf(r.value, TypeHandlersPhase)
  {
    match node
    case None => Success([])
    case Some(ctx) => Traverse(ctx.children, c => TypeHandlerAction(w, c))
  }
}
