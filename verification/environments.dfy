/** The `<environments>` section: choosing the target environment id, finding the first
    declared environment with that id, and building its transaction factory and data
    source factory. */
module Environments {
  import opened Results
  import opened ConfigNodes
  import opened Runtime
  import opened Registrations

  /** `transactionManagerElement`: the section is mandatory inside a selected environment. */
  function TransactionManagerElement(w: World, node: Option<Node>): (r: Result<Component>)
    ensures node.None? ==> r == Failure(MissingTransactionFactory)
    ensures r.Success? ==>
              && node.Some?
              && Builds(w, Attr(node.value, "type"), TransactionFactoryRole, r.value.cls)
              && r.value.props == ChildProps(node.value)
    ensures node.Some? ==>
              forall cls :: Builds(w, Attr(node.value, "type"), TransactionFactoryRole, cls) ==>
                r == Success(Component(cls, ChildProps(node.value)))
  {
    match node
    case None => Failure(MissingTransactionFactory)
    case Some(ctx) =>
      var cls :- Instantiate(w, Attr(ctx, "type"), TransactionFactoryRole);
      Success(Component(cls, ChildProps(ctx)))
  }

  /** `dataSourceElement`: the section is mandatory inside a selected environment. */
  function DataSourceElement(w: World, node: Option<Node>): (r: Result<Component>)
    ensures node.None? ==> r == Failure(MissingDataSourceFactory)
    ensures r.Success? ==>
              && node.Some?
              && Builds(w, Attr(node.value, "type"), DataSourceFactoryRole, r.value.cls)
              && r.value.props == ChildProps(node.value)
    ensures node.Some? ==>
              forall cls :: Builds(w, Attr(node.value, "type"), DataSourceFactoryRole, cls) ==>
                r == Success(Component(cls, ChildProps(node.value)))
  {
    match node
    case None => Failure(MissingDataSourceFactory)
    case Some(ctx) =>
      var cls :- Instantiate(w, Attr(ctx, "type"), DataSourceFactoryRole);
      Success(Component(cls, ChildProps(ctx)))
  }

  /** Materialises one `<environment>`: the transaction manager is built (and may fail)
      before the data source is looked at. */
  function BuildEnvironment(w: World, id: string, c: Node): (r: Result<Environment>)
    ensures r.Success? <==> && TransactionManagerElement(w, Child(c, "transactionManager")).Success?
                            && DataSourceElement(w, Child(c, "dataSource")).Success?
    ensures Child(c, "transactionManager").None? ==> r == Failure(MissingTransactionFactory)
    ensures TransactionManagerElement(w, Child(c, "transactionManager")).Failure? ==>
              r == Failure(TransactionManagerElement(w, Child(c, "transactionManager")).error)
    ensures TransactionManagerElement(w, Child(c, "transactionManager")).Success? && Child(c, "dataSource").None? ==>
              r == Failure(MissingDataSourceFactory)
    ensures r.Success? ==>
              && r.value.id == id
              && Success(r.value.transactionFactory) == TransactionManagerElement(w, Child(c, "transactionManager"))
              && Success(r.value.dataSourceFactory) == DataSourceElement(w, Child(c, "dataSource"))
  {
    var tx :- TransactionManagerElement(w, Child(c, "transactionManager"));
    var ds :- DataSourceElement(w, Child(c, "dataSource"));
    Success(Environment(id, tx, ds))
  }

  /** The child carries an id, and it is not the target. */
  predicate IdMismatch(target: string, c: Node)
  {
    Attr(c, "id").Some? && Attr(c, "id").value != target
  }

  /** The loop of `environmentsElement` with `isSpecifiedEnvironment` inlined: each child
      in turn needs a target and an id; the first whose id equals the target is built and
      the loop stops; running out of children installs nothing. */
  function SelectEnvironment(w: World, target: Option<string>, cs: seq<Node>): (r: Result<Option<Environment>>)
    ensures |cs| > 0 && target.None? ==> r == Failure(NoEnvironmentSpecified)
    ensures r == Success(None) <==> forall i :: 0 <= i < |cs| ==> target.Some? && IdMismatch(target.value, cs[i])
    ensures r.Success? && r.value.Some? ==>
              && target.Some?
              && exists k :: && 0 <= k < |cs|
                             && Attr(cs[k], "id") == target
                             && (forall i :: 0 <= i < k ==> IdMismatch(target.value, cs[i]))
                             && BuildEnvironment(w, target.value, cs[k]) == Success(r.value.value)
  {
    if |cs| == 0 then Success(None)
    else if target.None? then
      assert cs[0] in cs;  // the first child is examined, so the loop does not run out
      Failure(NoEnvironmentSpecified)
    else
      var id := Attr(cs[0], "id");
      if id.None? then Failure(MissingEnvironmentId)
      else if id.value == target.value then
        var env :- BuildEnvironment(w, id.value, cs[0]);
        Success(Some(env))
      else
        var r := SelectEnvironment(w, target, cs[1..]);
        assert forall i :: 1 <= i < |cs| ==> cs[i] == cs[1..][i - 1];
        r
  }

  /** Once the first matching environment is reached nothing after it is examined:
      duplicates, malformed children and missing ids further down make no difference. */
  lemma {:induction false} LaterEnvironmentsIgnored(w: World, t: string, cs: seq<Node>, k: nat)
    requires k < |cs|
    requires Attr(cs[k], "id") == Some(t)
    requires forall i :: 0 <= i < k ==> IdMismatch(t, cs[i])
    ensures SelectEnvironment(w, Some(t), cs) == SelectEnvironment(w, Some(t), cs[..k + 1])
    ensures SelectEnvironment(w, Some(t), cs) ==
              match BuildEnvironment(w, t, cs[k])
              case Success(e) => Success(Some(e))
              case Failure(err) => Failure(err)
  {
    if k == 0 {
      assert cs[..1][0] == cs[0];
    } else {
      assert IdMismatch(t, cs[0]);
      LaterEnvironmentsIgnored(w, t, cs[1..], k - 1);
      assert cs[1..][..k] == cs[..k + 1][1..];
      assert cs[..k + 1][0] == cs[0];
    }
  }

  /** `environmentsElement`: the builder's own environment id wins over the `default`
      attribute, and the (possibly updated) target is returned alongside the environment
      to install, if any. */
  function EnvironmentsElement(w: World, node: Option<Node>, target: Option<string>): (r: Result<(Option<string>, Option<Environment>)>)
    ensures node.None? ==> r == Success((target, None))
    ensures node.Some? && r.Success? && target.Some? ==> r.value.0 == target
    ensures node.Some? && r.Success? && target.None? ==> r.value.0 == Attr(node.value, "default")
    ensures node.Some? && node.value.children == [] ==> r.Success? && r.value.1.None?
    ensures r.Success? && r.value.1.Some? ==> r.value.0 == Some(r.value.1.value.id)
    ensures node.Some? ==>
              var t := if target.Some? then target else Attr(node.value, "default");
              && (r.Success? <==> SelectEnvironment(w, t, node.value.children).Success?)
              && (r.Success? ==> r.value.1 == SelectEnvironment(w, t, node.value.children).value)
  {
    match node
    case None => Success((target, None))
    case Some(ctx) =>
      var t := if target.Some? then target else Attr(ctx, "default");
      var env :- SelectEnvironment(w, t, ctx.children);
      Success((t, env))
  }

  /** A null target is reported only when a child is examined. */
  lemma NullTargetNeedsAChild(w: World, ctx: Node)
    requires Attr(ctx, "default").None?
    ensures EnvironmentsElement(w, Some(ctx), None).Failure? <==> |ctx.children| > 0
    ensures |ctx.children| > 0 ==> EnvironmentsElement(w, Some(ctx), None) == Failure(NoEnvironmentSpecified)
  {
  }
}
