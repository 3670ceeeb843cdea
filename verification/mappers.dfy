/** The `<mappers>` section: package scans, and mapper references that name exactly one
    of a classpath resource, a URL or a mapper interface. */
module Mappers {
  import opened Results
  import opened ConfigNodes
  import opened Runtime
  import opened Registrations
  import opened Traversal

  function Present(o: Option<string>): nat
  {
    if o.Some? then 1 else 0
  }

  /** How many of `resource`, `url` and `class` a mapper child gives. */
  function ReferenceCount(c: Node): nat
  {
    Present(Attr(c, "resource")) + Present(Attr(c, "url")) + Present(Attr(c, "class"))
  }

  /** One child of `<mappers>`. A resource or URL reference is handed to the mapper XML
      parser (recorded, not performed) once its stream opens; a class reference must load. */
  function MapperAction(w: World, c: Node): (r: Result<Action>)
    ensures c.name == "package" ==> r == Success(AddMappers(Attr(c, "name")))
    ensures c.name != "package" ==> (r == Failure(MapperReferenceConflict) <==> ReferenceCount(c) != 1)
    ensures c.name != "package" && ReferenceCount(c) == 1 ==>
              (r.Success? <==> || (Attr(c, "resource").Some? && Attr(c, "resource").value in w.mapperResources)
                               || (Attr(c, "url").Some? && Attr(c, "url").value in w.mapperUrls)
                               || (Attr(c, "class").Some? && Attr(c, "class").value in w.classes))
    ensures c.name != "package" && r.Success? ==>
              && ReferenceCount(c) == 1
              && (r.value.ParseMapperResource? <==> Attr(c, "resource").Some?)
              && (r.value.ParseMapperUrl? <==> Attr(c, "url").Some?)
              && (r.value.AddMapper? <==> Attr(c, "class").Some?)
    ensures r.Success? && r.value.ParseMapperResource? ==> Some(r.value.resource) == Attr(c, "resource") && r.value.resource in w.mapperResources
    ensures r.Success? && r.value.ParseMapperUrl? ==> Some(r.value.url) == Attr(c, "url") && r.value.url in w.mapperUrls
    ensures r.Success? && r.value.AddMapper? ==> Some(r.value.cls) == Attr(c, "class") && r.value.cls in w.classes
  {
    if c.name == "package" then Success(AddMappers(Attr(c, "name")))
    else
      var resource := Attr(c, "resource");
      var url := Attr(c, "url");
      var mapperClass := Attr(c, "class");
      if resource.Some? && url.None? && mapperClass.None? then
        if resource.value in w.mapperResources then Success(ParseMapperResource(resource.value))
        else Failure(MapperSourceUnreadable(resource.value))
      else if resource.None? && url.Some? && mapperClass.None? then
        if url.value in w.mapperUrls then Success(ParseMapperUrl(url.value))
        else Failure(MapperSourceUnreadable(url.value))
      else if resource.None? && url.None? && mapperClass.Some? then
        var cls :- ClassForName(w, mapperClass);
        Success(AddMapper(cls))
      else Failure(MapperReferenceConflict)
  }

  /** `mappersElement`: one registration per child, in document order. */
  function MappersElement(w: World, node: Option<Node>): (r: Result<seq<Action>>)
    ensures node.None? ==> r == Success([])
    ensures node.Some? ==>
              var cs := node.value.children;
              && (r.Success? <==> forall i :: 0 <= i < |cs| ==> MapperAction(w, cs[i]).Success?)
              && (r.Success? ==> |r.value| == |cs|
                                 && forall i :: 0 <= i < |cs| ==> r.value[i] == MapperAction(w, cs[i]).value)
    ensures r.Success? ==> AllOf(r.value, MappersPhase)
  {
    match node
    case None => Success([])
    case Some(ctx) => Traverse(ctx.children, c => MapperAction(w, c))
  }

  /** A mapper child that is not a package scan and gives zero or several references
      makes the whole section fail, whatever the other children say. */
  lemma ConflictingReferenceFailsSection(w: World, ctx: Node, k: nat)
    requires k < |ctx.children|
    requires ctx.children[k].name != "package" && ReferenceCount(ctx.children[k]) != 1
    ensures MappersElement(w, Some(ctx)).Failure?
  {
  }
}
