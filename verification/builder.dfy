/** `XMLConfigBuilder` itself: the fixed sequence of sections run against one owned
    Configuration, and the once-only `parse`. */
module ConfigBuilder {
  import opened Results
  import opened ConfigNodes
  import opened Runtime
  import opened Registrations
  import opened Properties
  import opened Settings
  import opened Components
  import opened Environments
  import opened Mappers

  /** What the builder and its Configuration hold while sections run. */
  datatype State = State(
    variables: Option<Props>,          // Configuration variables
    parserVariables: Option<Props>,    // variables the document parser substitutes with
    target: Option<string>,            // the builder's environment id
    environment: Option<Environment>,  // the Configuration's environment
    actions: seq<Action>)              // every other registration, in the order made

  /** The state plus the settings bag read by the settings-read section, which later
      sections consume. */
  datatype Stage = Stage(st: State, settings: Props)

  /** `after` keeps `before` as a prefix and adds only registrations of phase `p`. */
  predicate Extends(before: seq<Action>, after: seq<Action>, p: Phase)
  {
    |before| <= |after| && after[..|before|] == before && AllOf(after[|before|..], p)
  }

  /** What a successful section `p` may change: it appends registrations of its own
      phase only, only the properties section replaces the variables, only the
      environments section replaces the target and the environment, and the database-id
      section computes ids from the environment already installed. */
  predicate StepFacts(g: Stage, next: Stage, p: Phase)
  {
    && Extends(g.st.actions, next.st.actions, p)
    && (p != PropertiesPhase ==>
          next.st.variables == g.st.variables && next.st.parserVariables == g.st.parserVariables)
    && (p != EnvironmentsPhase ==> next.st.target == g.st.target && next.st.environment == g.st.environment)
    && (p == DatabaseIdPhase ==>
          forall i :: |g.st.actions| <= i < |next.st.actions| ==>
            g.st.environment.Some? && next.st.actions[i].dataSource == g.st.environment.value.dataSourceFactory)
  }

  /** Appends the registrations of a section that only registers. The second ensures is
      the definition itself, kept so that callers need not unfold it. */
  function Record(g: Stage, acts: seq<Action>, p: Phase): (r: Stage)
    requires p != DatabaseIdPhase && AllOf(acts, p)
    ensures StepFacts(g, r, p)
    ensures r == g.(st := g.st.(actions := g.st.actions + acts))
  {
    var r := g.(st := g.st.(actions := g.st.actions + acts));
    assert r.st.actions[|g.st.actions|..] == acts;
    r
  }

  /** The properties section: the merged bag goes to the parser and the Configuration. */
  function PropertiesStep(w: World, root: Node, g: Stage): (r: Result<Stage>)
    ensures r.Success? ==> StepFacts(g, r.value, PropertiesPhase)
    ensures r.Success? <==> PropertiesElement(w, Child(root, "properties"), g.st.variables).Success?
    ensures r.Success? && Child(root, "properties").None? ==> r.value == g
    ensures r.Success? ==> PropertiesElement(w, Child(root, "properties"), g.st.variables) == Success(r.value.st.variables)
    ensures r.Success? && Child(root, "properties").Some? ==> r.value.st.parserVariables == r.value.st.variables
    ensures r.Success? ==>
              r.value == g.(st := g.st.(variables := r.value.st.variables, parserVariables := r.value.st.parserVariables))
  {
    var node := Child(root, "properties");
    var vars :- PropertiesElement(w, node, g.st.variables);
    if node.None? then Success(g)
    else
      var r := g.(st := g.st.(variables := vars, parserVariables := vars));
      assert r.st.actions[|g.st.actions|..] == [];
      Success(r)
  }

  /** The settings-read section: the validated bag is kept for later sections. */
  function SettingsReadStep(w: World, root: Node, g: Stage): (r: Result<Stage>)
    ensures r.Success? ==> StepFacts(g, r.value, SettingsReadPhase)
    ensures r.Success? <==> SettingsAsProperties(w, Child(root, "settings")).Success?
    ensures r.Success? ==> SettingsAsProperties(w, Child(root, "settings")) == Success(r.value.settings)
    ensures r.Success? ==> r.value.st == g.st
  {
    var props :- SettingsAsProperties(w, Child(root, "settings"));
    var r := g.(settings := props);
    assert r.st.actions[|g.st.actions|..] == [];
    Success(r)
  }

  /** The VFS and log overrides taken from the settings bag, in that order: every VFS
      class is loaded before the log implementation is resolved. */
  function VfsLogActions(w: World, settings: Props): (r: Result<seq<Action>>)
    ensures r.Success? <==> LoadCustomVfsImpl(w, settings).Success? && LoadCustomLogImpl(w, settings).Success?
    ensures r.Success? ==> r.value == LoadCustomVfsImpl(w, settings).value + [LoadCustomLogImpl(w, settings).value]
    ensures LoadCustomVfsImpl(w, settings).Failure? ==> r == Failure(LoadCustomVfsImpl(w, settings).error)
    ensures r.Success? ==> AllOf(r.value, VfsLogPhase)
  {
    var vfs :- LoadCustomVfsImpl(w, settings);
    var log :- LoadCustomLogImpl(w, settings);
    Success(vfs + [log])
  }

  /** The environments section: the target may be updated, and the selected environment,
      if any, replaces the installed one. */
  function EnvironmentsStep(w: World, root: Node, g: Stage): (r: Result<Stage>)
    ensures r.Success? ==> StepFacts(g, r.value, EnvironmentsPhase)
    ensures r.Success? <==> EnvironmentsElement(w, Child(root, "environments"), g.st.target).Success?
    ensures r.Success? ==>
              && EnvironmentsElement(w, Child(root, "environments"), g.st.target).Success?
              && var selected := EnvironmentsElement(w, Child(root, "environments"), g.st.target).value;
              && r.value.st.target == selected.0
              && r.value.st.environment == (if selected.1.Some? then selected.1 else g.st.environment)
              && r.value.st.actions == g.st.actions
    ensures r.Success? ==>
              r.value == g.(st := g.st.(target := r.value.st.target, environment := r.value.st.environment))
  {
    var selected :- EnvironmentsElement(w, Child(root, "environments"), g.st.target);
    var env := if selected.1.Some? then selected.1 else g.st.environment;
    var r := g.(st := g.st.(target := selected.0, environment := env));
    assert r.st.actions[|g.st.actions|..] == [];
    Success(r)
  }

  /** The database-id section, reading the environment installed so far. */
  function DatabaseIdStep(w: World, root: Node, g: Stage): (r: Result<Stage>)
    ensures r.Success? ==> StepFacts(g, r.value, DatabaseIdPhase)
    ensures Appends(g, r, DatabaseIdProviderElement(w, Child(root, "databaseIdProvider"), g.st.environment))
  {
    var acts :- DatabaseIdProviderElement(w, Child(root, "databaseIdProvider"), g.st.environment);
    var r := g.(st := g.st.(actions := g.st.actions + acts));
    assert r.st.actions[|g.st.actions|..] == acts;
    assert forall i :: |g.st.actions| <= i < |r.st.actions| ==> r.st.actions[i] == acts[i - |g.st.actions|];
    Success(r)
  }

  /** The section succeeds exactly when `element` does, and then appends what it
      produced to the registrations, changing nothing else. */
  predicate Appends(g: Stage, r: Result<Stage>, element: Result<seq<Action>>)
  {
    && (r.Success? <==> element.Success?)
    && (r.Success? ==> r.value == g.(st := g.st.(actions := g.st.actions + element.value)))
  }

  /** One section of `parseConfiguration`, reading its node from the root element. Each
      section runs its own element of the document: it succeeds exactly when that element
      does, and a registering section appends the element's registrations and changes
      nothing else. */
  function RunSection(w: World, root: Node, p: Phase, g: Stage): (r: Result<Stage>)
    ensures r.Success? ==> StepFacts(g, r.value, p)
    ensures p == PropertiesPhase ==>
              (r.Success? <==> PropertiesElement(w, Child(root, "properties"), g.st.variables).Success?)
    ensures p == PropertiesPhase && r.Success? ==>
              && Success(r.value.st.variables) == PropertiesElement(w, Child(root, "properties"), g.st.variables)
              && (Child(root, "properties").Some? ==> r.value.st.parserVariables == r.value.st.variables)
              && r.value == g.(st := g.st.(variables := r.value.st.variables, parserVariables := r.value.st.parserVariables))
    ensures p == PropertiesPhase && r.Success? && Child(root, "properties").None? ==> r.value == g
    ensures p == SettingsReadPhase ==>
              && (r.Success? <==> SettingsAsProperties(w, Child(root, "settings")).Success?)
              && (r.Success? ==> r.value == g.(settings := SettingsAsProperties(w, Child(root, "settings")).value))
    ensures p == VfsLogPhase ==> Appends(g, r, VfsLogActions(w, g.settings))
    ensures p == TypeAliasesPhase ==> Appends(g, r, TypeAliasesElement(w, Child(root, "typeAliases")))
    ensures p == PluginsPhase ==> Appends(g, r, PluginsElement(w, Child(root, "plugins")))
    ensures p == ObjectFactoryPhase ==> Appends(g, r, ObjectFactoryElement(w, Child(root, "objectFactory")))
    ensures p == ObjectWrapperFactoryPhase ==>
              Appends(g, r, ObjectWrapperFactoryElement(w, Child(root, "objectWrapperFactory")))
    ensures p == ReflectorFactoryPhase ==> Appends(g, r, ReflectorFactoryElement(w, Child(root, "reflectorFactory")))
    ensures p == SettingsApplyPhase ==> Appends(g, r, Success([ApplySettings(EffectiveSettings(g.settings))]))
    ensures p == EnvironmentsPhase ==>
              (r.Success? <==> EnvironmentsElement(w, Child(root, "environments"), g.st.target).Success?)
    ensures p == EnvironmentsPhase && r.Success? ==>
              var selected := EnvironmentsElement(w, Child(root, "environments"), g.st.target).value;
              && r.value.st.target == selected.0
              && r.value.st.environment == (if selected.1.Some? then selected.1 else g.st.environment)
              && r.value.st.actions == g.st.actions
              && r.value == g.(st := g.st.(target := r.value.st.target, environment := r.value.st.environment))
    ensures p == DatabaseIdPhase ==>
              Appends(g, r, DatabaseIdProviderElement(w, Child(root, "databaseIdProvider"), g.st.environment))
    ensures p == TypeHandlersPhase ==> Appends(g, r, TypeHandlersElement(w, Child(root, "typeHandlers")))
    ensures p == MappersPhase ==> Appends(g, r, MappersElement(w, Child(root, "mappers")))
  {
    match p
    case PropertiesPhase => PropertiesStep(w, root, g)
    case SettingsReadPhase => SettingsReadStep(w, root, g)
    case VfsLogPhase =>
      var acts :- VfsLogActions(w, g.settings);
      Success(Record(g, acts, p))
    case TypeAliasesPhase =>
      var acts :- TypeAliasesElement(w, Child(root, "typeAliases"));
      Success(Record(g, acts, p))
    case PluginsPhase =>
      var acts :- PluginsElement(w, Child(root, "plugins"));
      Success(Record(g, acts, p))
    case ObjectFactoryPhase =>
      var acts :- ObjectFactoryElement(w, Child(root, "objectFactory"));
      Success(Record(g, acts, p))
    case ObjectWrapperFactoryPhase =>
      var acts :- ObjectWrapperFactoryElement(w, Child(root, "objectWrapperFactory"));
      Success(Record(g, acts, p))
    case ReflectorFactoryPhase =>
      var acts :- ReflectorFactoryElement(w, Child(root, "reflectorFactory"));
      Success(Record(g, acts, p))
    case SettingsApplyPhase =>
      Success(Record(g, [ApplySettings(EffectiveSettings(g.settings))], p))
    case EnvironmentsPhase => EnvironmentsStep(w, root, g)
    case DatabaseIdPhase => DatabaseIdStep(w, root, g)
    case TypeHandlersPhase =>
      var acts :- TypeHandlersElement(w, Child(root, "typeHandlers"));
      Success(Record(g, acts, p))
    case MappersPhase =>
      var acts :- MappersElement(w, Child(root, "mappers"));
      Success(Record(g, acts, p))
  }

  /** How a run of sections ends: with the final state, or at the first failing section
      with its error and the state reached by the sections before it. */
  datatype Outcome = Done(st: State) | Aborted(at: Phase, cause: BuildError, reached: State)

  /** The sections of one document, as a function of the phase and the stage so far. The
      ensures is the definition itself, kept so that callers need not unfold the lambda. */
  function Sections(w: World, root: Node): (step: (Phase, Stage) -> Result<Stage>)
    ensures forall p, g :: step(p, g) == RunSection(w, root, p, g)
  {
    (p, g) => RunSection(w, root, p, g)
  }

  /** Every successful step obeys `StepFacts` for its phase. */
  ghost predicate WellBehaved(step: (Phase, Stage) -> Result<Stage>)
  {
    forall p, g :: step(p, g).Success? ==> StepFacts(g, step(p, g).value, p)
  }

  lemma SectionsWellBehaved(w: World, root: Node)
    ensures WellBehaved(Sections(w, root))
  {
  }

  /** `after` keeps every registration of `before`, in place. */
  predicate KeepsLog(before: State, after: State)
  {
    |before.actions| <= |after.actions| && after.actions[..|before.actions|] == before.actions
  }

  /** Runs the sections `ps` in order, stopping at the first one that fails. */
  function RunSections(step: (Phase, Stage) -> Result<Stage>, g: Stage, ps: seq<Phase>): (o: Outcome)
    ensures |ps| == 0 ==> o == Done(g.st)
    ensures o.Aborted? ==> o.at in ps
    ensures WellBehaved(step) && o.Done? ==> KeepsLog(g.st, o.st)
    ensures WellBehaved(step) && o.Aborted? ==> KeepsLog(g.st, o.reached)
    decreases |ps|
  {
    if |ps| == 0 then Done(g.st)
    else
      match step(ps[0], g)
      case Failure(e) => Aborted(ps[0], e, g.st)
      case Success(next) =>
        var o := RunSections(step, next, ps[1..]);
        assert forall q :: q in ps[1..] ==> q in ps;
        o
  }

  /** The stage after the first `k` sections of `ps`, or the error of the first of them
      that fails. */
  function RunPrefix(step: (Phase, Stage) -> Result<Stage>, g: Stage, ps: seq<Phase>, k: nat): Result<Stage>
    requires k <= |ps|
    decreases k
  {
    if k == 0 then Success(g)
    else
      match step(ps[0], g)
      case Failure(e) => Failure(e)
      case Success(next) => RunPrefix(step, next, ps[1..], k - 1)
  }

  /** A run aborts at section `ps[k]`, with that section's error and the stage the
      sections before it reached, when those sections all succeed and `ps[k]` fails. */
  lemma {:induction false} AbortsAtFirstFailingSection(
    step: (Phase, Stage) -> Result<Stage>, g: Stage, ps: seq<Phase>, k: nat, mid: Stage, e: BuildError)
    requires k < |ps|
    requires RunPrefix(step, g, ps, k) == Success(mid)
    requires step(ps[k], mid) == Failure(e)
    ensures RunSections(step, g, ps) == Aborted(ps[k], e, mid.st)
    decreases k
  {
    if k > 0 {
      var next := step(ps[0], g).value;
      assert ps[1..][k - 1] == ps[k];
      AbortsAtFirstFailingSection(step, next, ps[1..], k - 1, mid, e);
    }
  }

  /** Conversely, every abort happens at some section `ps[k]` that fails after all the
      sections before it succeeded. */
  lemma {:induction false} AbortedAtAFailingSection(step: (Phase, Stage) -> Result<Stage>, g: Stage, ps: seq<Phase>)
    requires RunSections(step, g, ps).Aborted?
    ensures exists k :: && 0 <= k < |ps|
                        && ps[k] == RunSections(step, g, ps).at
                        && RunPrefix(step, g, ps, k).Success?
                        && RunPrefix(step, g, ps, k).value.st == RunSections(step, g, ps).reached
                        && step(ps[k], RunPrefix(step, g, ps, k).value) == Failure(RunSections(step, g, ps).cause)
    decreases |ps|
  {
    var o := RunSections(step, g, ps);
    if step(ps[0], g).Failure? {
      assert RunPrefix(step, g, ps, 0) == Success(g);
    } else {
      var next := step(ps[0], g).value;
      AbortedAtAFailingSection(step, next, ps[1..]);
      var j :| && 0 <= j < |ps[1..]|
               && ps[1..][j] == o.at
               && RunPrefix(step, next, ps[1..], j).Success?
               && RunPrefix(step, next, ps[1..], j).value.st == o.reached
               && step(ps[1..][j], RunPrefix(step, next, ps[1..], j).value) == Failure(o.cause);
      assert RunPrefix(step, g, ps, j + 1) == RunPrefix(step, next, ps[1..], j);
    }
  }

  /** A run completes exactly when every section succeeds in turn, and then ends in the
      stage the whole sequence reaches. */
  lemma {:induction false} CompletesWhenNoSectionFails(step: (Phase, Stage) -> Result<Stage>, g: Stage, ps: seq<Phase>)
    ensures RunSections(step, g, ps).Done? <==> RunPrefix(step, g, ps, |ps|).Success?
    ensures RunSections(step, g, ps).Done? ==> RunSections(step, g, ps).st == RunPrefix(step, g, ps, |ps|).value.st
    decreases |ps|
  {
    if |ps| > 0 && step(ps[0], g).Success? {
      CompletesWhenNoSectionFails(step, step(ps[0], g).value, ps[1..]);
    }
  }

  /** `parseConfiguration`: the `/configuration` element must exist, and the sections run
      in `PhaseOrder` with an empty settings bag to start. */
  function ParseConfiguration(w: World, doc: Node, st: State): (o: Outcome)
    ensures doc.name != "configuration" ==> o == Aborted(PropertiesPhase, NoConfigurationElement, st)
    ensures o.Aborted? ==> o.at in PhaseOrder && KeepsLog(st, o.reached)
    ensures o.Done? ==> doc.name == "configuration" && KeepsLog(st, o.st)
  {
    if doc.name != "configuration" then Aborted(PropertiesPhase, NoConfigurationElement, st)
    else
      SectionsWellBehaved(w, doc);
      RunSections(Sections(w, doc), Stage(st, map[]), PhaseOrder)
  }

  /** Registrations appear grouped by section, in section order. */
  predicate InPhaseOrder(acts: seq<Action>)
  {
    forall i, j :: 0 <= i < j < |acts| ==> Rank(SectionOf(acts[i])) <= Rank(SectionOf(acts[j]))
  }

  predicate RanksBelow(acts: seq<Action>, n: nat)
  {
    forall i :: 0 <= i < |acts| ==> Rank(SectionOf(acts[i])) < n
  }

  predicate StrictlyIncreasing(ps: seq<Phase>)
  {
    forall i, j :: 0 <= i < j < |ps| ==> Rank(ps[i]) < Rank(ps[j])
  }

  /** A database id recorded so far was computed from the data source of the
      environment the Configuration holds. */
  predicate DatabaseIdFromEnvironment(st: State)
  {
    forall i :: 0 <= i < |st.actions| && st.actions[i].SetDatabaseId? ==>
      st.environment.Some? && st.actions[i].dataSource == st.environment.value.dataSourceFactory
  }

  lemma PhaseOrderIsStrict()
    ensures StrictlyIncreasing(PhaseOrder)
  {
  }

  /** One successful section keeps the log in section order, adds nothing ranked above
      its own phase, and keeps database ids tied to the installed environment, provided
      nothing before it was ranked at or above it. */
  lemma SectionStepPreserves(p: Phase, g: Stage, next: Stage)
    requires StepFacts(g, next, p)
    requires InPhaseOrder(g.st.actions)
    requires RanksBelow(g.st.actions, Rank(p))
    requires DatabaseIdFromEnvironment(g.st)
    ensures InPhaseOrder(next.st.actions)
    ensures RanksBelow(next.st.actions, Rank(p) + 1)
    ensures DatabaseIdFromEnvironment(next.st)
  {
  }

  /** Running well-behaved sections in strictly increasing order keeps the registration
      log in section order, never lets a later section register before an earlier one,
      and leaves a database id tied to the installed environment. A run that aborts at a
      section has registered nothing of that section or any later one. */
  lemma {:induction false} RunSectionsOrdered(step: (Phase, Stage) -> Result<Stage>, g: Stage, ps: seq<Phase>)
    requires WellBehaved(step)
    requires StrictlyIncreasing(ps)
    requires InPhaseOrder(g.st.actions)
    requires |ps| > 0 ==> RanksBelow(g.st.actions, Rank(ps[0]))
    requires DatabaseIdFromEnvironment(g.st)
    ensures var o := RunSections(step, g, ps);
            && (o.Done? ==> InPhaseOrder(o.st.actions) && DatabaseIdFromEnvironment(o.st))
            && (o.Aborted? ==> InPhaseOrder(o.reached.actions) && RanksBelow(o.reached.actions, Rank(o.at)))
    decreases |ps|
  {
    if |ps| > 0 && step(ps[0], g).Success? {
      var next := step(ps[0], g).value;
      SectionStepPreserves(ps[0], g, next);
      var rest := ps[1..];
      assert StrictlyIncreasing(rest) by {
        forall i, j | 0 <= i < j < |rest| ensures Rank(rest[i]) < Rank(rest[j]) {
          assert rest[i] == ps[i + 1] && rest[j] == ps[j + 1];
        }
      }
      if |rest| > 0 {
        assert Rank(ps[0]) < Rank(rest[0]);
      }
      RunSectionsOrdered(step, next, rest);
    }
  }

  /** A parse that starts from an empty registration log registers in section order; a
      parse that fails at a section has registered nothing of that section or after it;
      a database id is only ever computed from the installed environment. */
  lemma ParseRegistersInPhaseOrder(w: World, doc: Node, st: State)
    requires st.actions == []
    ensures var o := ParseConfiguration(w, doc, st);
            && (o.Done? ==> InPhaseOrder(o.st.actions) && DatabaseIdFromEnvironment(o.st))
            && (o.Aborted? ==> RanksBelow(o.reached.actions, Rank(o.at)))
  {
    if doc.name == "configuration" {
      PhaseOrderIsStrict();
      SectionsWellBehaved(w, doc);
      RunSectionsOrdered(Sections(w, doc), Stage(st, map[]), PhaseOrder);
    }
  }

  /** Settings are validated before any of them is used: an unknown key aborts the parse
      at the settings-read section, after the properties section and before anything
      has been registered. */
  lemma UnknownSettingAbortsBeforeAnyRegistration(w: World, doc: Node, st: State)
    requires doc.name == "configuration"
    requires PropertiesElement(w, Child(doc, "properties"), st.variables).Success?
    requires Child(doc, "settings").Some?
    requires !(ChildProps(Child(doc, "settings").value).Keys <= w.knownSetters)
    ensures var o := ParseConfiguration(w, doc, st);
            && o.Aborted?
            && o.at == SettingsReadPhase
            && o.cause.UnknownSettings?
            && o.reached.actions == st.actions
            && o.reached.environment == st.environment
  {
  }

  /** The builder: whether `parse` has been called, and what it was constructed with. */
  datatype Builder = Builder(
    parsed: bool,
    world: World,
    document: Node,
    environment: Option<string>,
    props: Option<Props>)

  /** The constructor: not yet parsed; the caller's properties become both the
      Configuration variables and the parser variables. */
  function InitialState(b: Builder): (st: State)
    ensures st.variables == b.props && st.parserVariables == b.props
    ensures st.target == b.environment
    ensures st.environment.None? && st.actions == []
  {
    State(b.props, b.props, b.environment, None, [])
  }

  /** `parse`: marks the builder as used before running any section, so it is marked
      even when the sections fail; a second call fails without running anything. */
  function ParseOnce(b: Builder): (r: (Builder, Result<State>))
    ensures r.0 == b.(parsed := true)
    ensures b.parsed ==> r.1 == Failure(Reused)
    ensures !b.parsed ==>
              var o := ParseConfiguration(b.world, b.document, InitialState(b));
              && (r.1.Success? <==> o.Done?)
              && (o.Done? ==> r.1.value == o.st)
              && (o.Aborted? ==> r.1 == Failure(SectionFailed(o.cause)))
  {
    if b.parsed then (b, Failure(Reused))
    else
      var result :=
        match ParseConfiguration(b.world, b.document, InitialState(b))
        case Done(st) => Success(st)
        case Aborted(_, e, _) => Failure(SectionFailed(e));
      (b.(parsed := true), result)
  }

  /** The results of calling `parse` `n` times on one builder. */
  function ParseRepeatedly(b: Builder, n: nat): (rs: seq<Result<State>>)
    ensures |rs| == n
    decreases n
  {
    if n == 0 then []
    else [ParseOnce(b).1] + ParseRepeatedly(ParseOnce(b).0, n - 1)
  }

  /** However often `parse` is called, only the first call on a fresh builder can
      succeed; every later call reports reuse. */
  lemma {:induction false} ParseSucceedsAtMostOnce(b: Builder, n: nat)
    ensures forall i :: 1 <= i < n ==> ParseRepeatedly(b, n)[i] == Failure(Reused)
    ensures b.parsed ==> forall i :: 0 <= i < n ==> ParseRepeatedly(b, n)[i] == Failure(Reused)
    decreases n
  {
    if n > 0 {
      var b' := ParseOnce(b).0;
      assert b'.parsed;
      ParseSucceedsAtMostOnce(b', n - 1);
      var rs := ParseRepeatedly(b, n);
      var tail := ParseRepeatedly(b', n - 1);
      assert rs == [ParseOnce(b).1] + tail;
      assert forall i :: 0 <= i < n - 1 ==> tail[i] == Failure(Reused);
      forall i | 1 <= i < n ensures rs[i] == Failure(Reused) {
        assert rs[i] == tail[i - 1];
      }
    }
  }

  /** A property of the state that every section of `ps` preserves holds wherever the
      run stops. */
  lemma {:induction false} RunSectionsKeeps(
    step: (Phase, Stage) -> Result<Stage>, g: Stage, ps: seq<Phase>, inv: State -> bool)
    requires inv(g.st)
    requires forall p, s: Stage :: p in ps && inv(s.st) && step(p, s).Success? ==> inv(step(p, s).value.st)
    ensures RunSections(step, g, ps).Done? ==> inv(RunSections(step, g, ps).st)
    ensures RunSections(step, g, ps).Aborted? ==> inv(RunSections(step, g, ps).reached)
    decreases |ps|
  {
    if |ps| > 0 && step(ps[0], g).Success? {
      assert ps[0] in ps;
      assert forall q :: q in ps[1..] ==> q in ps;
      RunSectionsKeeps(step, step(ps[0], g).value, ps[1..], inv);
    }
  }

  /** A builder constructed with an environment id keeps it as the target through the
      whole parse, so any environment a completed parse installs carries that id, whatever
      the `default` attribute says. */
  lemma ParseInstallsTheBuildersEnvironment(b: Builder, t: string)
    requires !b.parsed && b.environment == Some(t)
    ensures ParseOnce(b).1.Success? ==>
              && ParseOnce(b).1.value.target == Some(t)
              && (ParseOnce(b).1.value.environment.Some? ==> ParseOnce(b).1.value.environment.value.id == t)
  {
    if b.document.name == "configuration" {
      var step := Sections(b.world, b.document);
      var inv := (st: State) => st.target == Some(t) && (st.environment.Some? ==> st.environment.value.id == t);
      forall p, s: Stage | p in PhaseOrder && inv(s.st) && step(p, s).Success?
        ensures inv(step(p, s).value.st)
      {
        assert step(p, s) == RunSection(b.world, b.document, p, s);
      }
      RunSectionsKeeps(step, Stage(InitialState(b), map[]), PhaseOrder, inv);
    }
  }

  /** A completed parse holds the bag the properties section merged, both as the
      Configuration variables and as the parser variables: no later section replaces it. */
  lemma ParseInstallsPropertiesBag(b: Builder)
    requires !b.parsed
    ensures ParseOnce(b).1.Success? ==>
              && PropertiesElement(b.world, Child(b.document, "properties"), b.props)
                 == Success(ParseOnce(b).1.value.variables)
              && ParseOnce(b).1.value.parserVariables == ParseOnce(b).1.value.variables
  {
    if b.document.name == "configuration" {
      var step := Sections(b.world, b.document);
      var g0 := Stage(InitialState(b), map[]);
      var first := step(PropertiesPhase, g0);
      if first.Success? {
        var bag := first.value.st.variables;
        var inv := (st: State) => st.variables == bag && st.parserVariables == bag;
        var rest := PhaseOrder[1..];
        assert PhaseOrder[0] == PropertiesPhase && PropertiesPhase !in rest;
        forall p, s: Stage | p in rest && inv(s.st) && step(p, s).Success?
          ensures inv(step(p, s).value.st)
        {
          assert step(p, s) == RunSection(b.world, b.document, p, s);
        }
        RunSectionsKeeps(step, first.value, rest, inv);
        assert RunSections(step, g0, PhaseOrder) == RunSections(step, first.value, rest);
      }
    }
  }

  /** The builder object with its mutable `parsed` flag. */
  class XmlConfigBuilder {
    var parsed: bool
    const world: World
    const document: Node
    const environment: Option<string>
    const props: Option<Props>

    constructor(w: World, doc: Node, environment: Option<string>, props: Option<Props>)
      ensures !parsed && world == w && document == doc
      ensures this.environment == environment && this.props == props
    {
      parsed := false;
      world := w;
      document := doc;
      this.environment := environment;
      this.props := props;
    }

    method Parse() returns (r: Result<State>)
      modifies this
      ensures parsed
      ensures old(parsed) ==> r == Failure(Reused)
      ensures r == ParseOnce(Builder(old(parsed), world, document, environment, props)).1
    {
      var step := ParseOnce(Builder(parsed, world, document, environment, props));
      parsed := true;
      r := step.1;
    }
  }
}
