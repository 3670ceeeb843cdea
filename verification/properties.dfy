/** The `<properties>` section: declared pairs, then an external property file, then the
    variables the builder was constructed with, each layer overriding the one before. */
module Properties {
  import opened Results
  import opened ConfigNodes
  import opened Runtime

  /** `r` is `declared`, overlaid by `external`, overlaid by `vars`. */
  predicate LayeredOver(r: Props, declared: Props, external: Props, vars: Props)
  {
    && r.Keys == declared.Keys + external.Keys + vars.Keys
    && (forall k :: k in vars ==> r[k] == vars[k])
    && (forall k :: k in external && k !in vars ==> r[k] == external[k])
    && (forall k :: k in declared && k !in external && k !in vars ==> r[k] == declared[k])
  }

  /** The pairs read from the `resource` or `url` attribute, if one is given. */
  function ExternalProperties(w: World, resource: Option<string>, url: Option<string>): (r: Result<Props>)
    requires resource.None? || url.None?
    ensures resource.None? && url.None? ==> r == Success(map[])
    ensures resource.Some? ==> (r.Success? <==> resource.value in w.propertyResources)
    ensures resource.Some? && r.Success? ==> r.value == w.propertyResources[resource.value]
    ensures url.Some? ==> (r.Success? <==> url.value in w.propertyUrls)
    ensures url.Some? && r.Success? ==> r.value == w.propertyUrls[url.value]
  {
    if resource.Some? then
      if resource.value in w.propertyResources then Success(w.propertyResources[resource.value])
      else Failure(PropertySourceUnreadable(resource.value))
    else if url.Some? then
      if url.value in w.propertyUrls then Success(w.propertyUrls[url.value])
      else Failure(PropertySourceUnreadable(url.value))
    else Success(map[])
  }

  /** `propertiesElement`: the new variable bag (installed in both the document parser
      and the Configuration), given the variables already present. */
  function PropertiesElement(w: World, node: Option<Node>, vars: Option<Props>): (r: Result<Option<Props>>)
    ensures node.None? ==> r == Success(vars)
    ensures node.Some? && Attr(node.value, "resource").Some? && Attr(node.value, "url").Some? ==>
              r == Failure(AmbiguousPropertySource)
    ensures node.Some? && (Attr(node.value, "resource").None? || Attr(node.value, "url").None?) ==>
              (r.Success? <==> ExternalProperties(w, Attr(node.value, "resource"), Attr(node.value, "url")).Success?)
    ensures node.Some? && r.Success? ==>
              && r.value.Some?
              && (Attr(node.value, "resource").None? || Attr(node.value, "url").None?)
              && var external := ExternalProperties(w, Attr(node.value, "resource"), Attr(node.value, "url"));
                 external.Success?
                 && LayeredOver(r.value.value, ChildProps(node.value), external.value,
                                if vars.Some? then vars.value else map[])
  {
    match node
    case None => Success(vars)
    case Some(ctx) =>
      var declared := ChildProps(ctx);
      var resource := Attr(ctx, "resource");
      var url := Attr(ctx, "url");
      if resource.Some? && url.Some? then Failure(AmbiguousPropertySource)
      else
        var external :- ExternalProperties(w, resource, url);
        var merged := declared + external;
        Success(Some(if vars.Some? then merged + vars.value else merged))
  }

  /** With neither `resource` nor `url`, only the declared pairs and the inherited
      variables make up the bag, and the variables win every collision. */
  lemma DeclaredOnlyWithoutSource(w: World, ctx: Node, vars: Option<Props>)
    requires Attr(ctx, "resource").None? && Attr(ctx, "url").None?
    ensures PropertiesElement(w, Some(ctx), vars).Success?
    ensures var bag := PropertiesElement(w, Some(ctx), vars).value.value;
            var inherited := if vars.Some? then vars.value else map[];
            && bag.Keys == ChildProps(ctx).Keys + inherited.Keys
            && (forall k :: k in inherited ==> bag[k] == inherited[k])
            && (forall k :: k in ChildProps(ctx) && k !in inherited ==> bag[k] == ChildProps(ctx)[k])
  {
  }
}
