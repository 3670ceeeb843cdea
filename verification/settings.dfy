/** The `<settings>` section: reading and validating the bag before anything is applied,
    the `vfsImpl` and `logImpl` overrides taken from it, and the values `settingsElement`
    hands to the Configuration (the raw strings, with each documented default filled in). */
module Settings {
  import opened Results
  import opened ConfigNodes
  import opened Runtime
  import opened Registrations
  import opened Traversal

  /** `settingsAsProperties`: an absent section is an empty bag; otherwise every key must
      name a settable property of Configuration, and all keys are checked before the bag
      is returned to anything that applies it. */
  function SettingsAsProperties(w: World, node: Option<Node>): (r: Result<Props>)
    ensures node.None? ==> r == Success(map[])
    ensures node.Some? ==> (r.Success? <==> ChildProps(node.value).Keys <= w.knownSetters)
    ensures node.Some? && r.Success? ==> r.value == ChildProps(node.value)
    ensures r.Failure? ==> && node.Some?
                           && r.error.UnknownSettings?
                           && r.error.keys != {}
                           && r.error.keys <= ChildProps(node.value).Keys
                           && (forall k :: k in r.error.keys ==> k !in w.knownSetters)
  {
    match node
    case None => Success(map[])
    case Some(ctx) =>
      var props := ChildProps(ctx);
      var unknown := props.Keys - w.knownSetters;
      if unknown != {} then Failure(UnknownSettings(unknown))
      else
        assert forall k :: k in props.Keys ==> k in unknown || k in w.knownSetters;
        Success(props)
  }

  /** The pieces of `s` between commas, empty pieces included (`"a,,b"` has three). */
  function Segments(s: string): (r: seq<string>)
    ensures |r| >= 1
    ensures forall i :: 0 <= i < |r| ==> ',' !in r[i]
  {
    if |s| == 0 then [""]
    else
      var rest := Segments(s[1..]);
      if s[0] == ',' then [""] + rest else [[s[0]] + rest[0]] + rest[1..]
  }

  /** Puts comma-free pieces back together with commas between them. */
  function Join(xs: seq<string>): string
    requires |xs| >= 1
  {
    if |xs| == 1 then xs[0] else xs[0] + "," + Join(xs[1..])
  }

  /** Splitting loses nothing: joining the pieces gives back the original text. */
  lemma {:induction false} JoinSegments(s: string)
    ensures Join(Segments(s)) == s
  {
    if |s| == 0 {
    } else {
      var rest := Segments(s[1..]);
      JoinSegments(s[1..]);
      if s[0] == ',' {
        assert Segments(s) == [""] + rest;
        assert Join(Segments(s)) == "" + "," + Join(rest);
      } else {
        if |rest| == 1 {
          assert Join(Segments(s)) == [s[0]] + rest[0];
        } else {
          var tail := rest[1..];
          assert Join(rest) == rest[0] + "," + Join(tail);
          assert Segments(s) == [[s[0]] + rest[0]] + tail;
          assert Join(Segments(s)) == ([s[0]] + rest[0]) + "," + Join(tail);
        }
        assert s == [s[0]] + s[1..];
      }
    }
  }

  /** Splitting a comma-free prefix glued to `t` extends the first piece of `t`. */
  lemma {:induction false} SegmentsOfPrefix(x: string, t: string)
    requires ',' !in x
    ensures Segments(x + t) == [x + Segments(t)[0]] + Segments(t)[1..]
  {
    if |x| == 0 {
      var st := Segments(t);
      assert x + t == t && x + st[0] == st[0];
      assert st == [st[0]] + st[1..];
    } else {
      SegmentsOfPrefix(x[1..], t);
      assert x[0] in x;
      assert (x + t)[0] == x[0] && (x + t)[1..] == x[1..] + t;
      var rest := Segments(x[1..] + t);
      assert rest[0] == x[1..] + Segments(t)[0];
      assert rest[1..] == Segments(t)[1..];
      assert Segments(x + t) == [[x[0]] + rest[0]] + rest[1..];
      assert [x[0]] + (x[1..] + Segments(t)[0]) == x + Segments(t)[0];
    }
  }

  /** Joining comma-free pieces and splitting again gives back the same pieces. */
  lemma {:induction false} SegmentsJoin(xs: seq<string>)
    requires |xs| >= 1
    requires forall i :: 0 <= i < |xs| ==> ',' !in xs[i]
    ensures Segments(Join(xs)) == xs
  {
    if |xs| == 1 {
      SegmentsOfPrefix(xs[0], "");
      assert xs[0] + "" == xs[0];
    } else {
      var j := Join(xs[1..]);
      SegmentsJoin(xs[1..]);
      SegmentsOfPrefix(xs[0], "," + j);
      assert Segments("," + j) == [""] + Segments(j) by {
        assert ("," + j)[1..] == j;
      }
      assert Join(xs) == xs[0] + ("," + j);
      var st := Segments("," + j);
      assert st[0] == "" && st[1..] == Segments(j);
      assert Segments(Join(xs)) == [xs[0] + ""] + Segments(j);
      assert xs[0] + "" == xs[0];
      assert xs == [xs[0]] + xs[1..];
    }
  }

  /** `xs` without its run of trailing empty entries. */
  function DropTrailingEmpty(xs: seq<string>): (r: seq<string>)
    ensures |r| <= |xs| && r == xs[..|r|]
    ensures |r| == 0 || r[|r| - 1] != ""
    ensures forall i :: |r| <= i < |xs| ==> xs[i] == ""
  {
    if |xs| == 0 then []
    else if xs[|xs| - 1] == "" then
      var r := DropTrailingEmpty(xs[..|xs| - 1]);
      assert xs[..|xs| - 1][..|r|] == xs[..|r|];
      r
    else xs
  }

  /** `String.split(",")`: a text without a comma comes back whole (so `""` gives one
      empty piece); otherwise the pieces between commas, with trailing empty pieces
      discarded (so `"a,,"` gives one piece and `","` none). */
  function Split(s: string): (r: seq<string>)
    ensures ',' !in s ==> r == [s]
    ensures |r| <= |Segments(s)| && r == Segments(s)[..|r|]
    ensures forall i :: 0 <= i < |r| ==> ',' !in r[i]
    ensures forall i :: |r| <= i < |Segments(s)| ==> Segments(s)[i] == ""
    ensures ',' in s && |r| > 0 ==> r[|r| - 1] != ""
  {
    if ',' !in s then
      SegmentsOfPrefix(s, "");
      assert s + "" == s;
      [s]
    else DropTrailingEmpty(Segments(s))
  }

  /** The non-empty entries of `xs`, in their original order. */
  function NonEmpty(xs: seq<string>): (r: seq<string>)
    ensures |r| <= |xs|
    ensures forall i :: 0 <= i < |r| ==> r[i] != "" && r[i] in xs
    ensures forall x :: x in xs && x != "" ==> x in r
    ensures multiset(r) == multiset(xs)["" := 0]
  {
    if |xs| == 0 then []
    else
      assert xs == [xs[0]] + xs[1..];
      if xs[0] == "" then NonEmpty(xs[1..])
      else [xs[0]] + NonEmpty(xs[1..])
  }

  /** Filtering distributes over concatenation: order and repetitions are kept. */
  lemma {:induction false} NonEmptyConcat(a: seq<string>, b: seq<string>)
    ensures NonEmpty(a + b) == NonEmpty(a) + NonEmpty(b)
  {
    if |a| == 0 {
      assert a + b == b;
    } else {
      assert (a + b)[0] == a[0];
      assert (a + b)[1..] == a[1..] + b;
      NonEmptyConcat(a[1..], b);
    }
  }

  /** A run of empty pieces contributes nothing. */
  lemma {:induction false} NonEmptyOfEmpties(xs: seq<string>)
    requires forall i :: 0 <= i < |xs| ==> xs[i] == ""
    ensures NonEmpty(xs) == []
  {
    if |xs| > 0 {
      NonEmptyOfEmpties(xs[1..]);
    }
  }

  /** Discarding trailing empty pieces never discards a class name. */
  lemma SplitKeepsNames(s: string)
    ensures NonEmpty(Split(s)) == NonEmpty(Segments(s))
  {
    var xs := Segments(s);
    var r := Split(s);
    assert xs == r + xs[|r|..];
    NonEmptyConcat(r, xs[|r|..]);
    NonEmptyOfEmpties(xs[|r|..]);
  }

  /** The class names `loadCustomVfsImpl` loads from a `vfsImpl` value: the comma-separated
      pieces, skipping empty ones. */
  function VfsClassNames(value: string): (r: seq<string>)
    ensures forall i :: 0 <= i < |r| ==> r[i] != "" && ',' !in r[i]
    ensures forall x :: x in Segments(value) && x != "" ==> x in r
    ensures multiset(r) == multiset(Segments(value))["" := 0]
    ensures r == NonEmpty(Segments(value))
  {
    SplitKeepsNames(value);
    NonEmpty(Split(value))
  }

  function VfsAction(w: World, name: string): (r: Result<Action>)
    ensures r.Success? <==> name in w.classes
    ensures r.Success? ==> r.value == SetVfsImpl(name)
  {
    var cls :- ClassForName(w, Some(name));
    Success(SetVfsImpl(cls))
  }

  /** `loadCustomVfsImpl`: one `setVfsImpl` per named class, in the order written, and
      every name must load. */
  function LoadCustomVfsImpl(w: World, settings: Props): (r: Result<seq<Action>>)
    ensures "vfsImpl" !in settings ==> r == Success([])
    ensures "vfsImpl" in settings ==>
              var names := VfsClassNames(settings["vfsImpl"]);
              && (r.Success? <==> forall i :: 0 <= i < |names| ==> names[i] in w.classes)
              && (r.Success? ==> |r.value| == |names|
                                 && forall i :: 0 <= i < |names| ==> r.value[i] == SetVfsImpl(names[i]))
    ensures r.Success? ==> AllOf(r.value, VfsLogPhase)
  {
    match Lookup(settings, "vfsImpl")
    case None => Success([])
    case Some(value) => Traverse(VfsClassNames(value), n => VfsAction(w, n))
  }

  /** `loadCustomLogImpl`: the `logImpl` setting resolved as a class or alias; an absent
      setting installs null. */
  function LoadCustomLogImpl(w: World, settings: Props): (r: Result<Action>)
    ensures "logImpl" !in settings ==> r == Success(SetLogImpl(None))
    ensures "logImpl" in settings && settings["logImpl"] in w.aliases ==>
              r == Success(SetLogImpl(Some(w.aliases[settings["logImpl"]])))
    ensures "logImpl" in settings && settings["logImpl"] !in w.aliases ==>
              && (r.Success? <==> settings["logImpl"] in w.classes)
              && (r.Success? ==> r.value == SetLogImpl(Some(settings["logImpl"])))
              && (r.Failure? ==> r.error == ClassNotFound(settings["logImpl"]))
  {
    var cls :- ResolveClass(w, Lookup(settings, "logImpl"));
    Success(SetLogImpl(cls))
  }

  /** The settings `settingsElement` falls back to when the key is absent. */
  const SettingDefaults: map<string, string> := map[
    "autoMappingBehavior" := "PARTIAL",
    "autoMappingUnknownColumnBehavior" := "NONE",
    "cacheEnabled" := "true",
    "lazyLoadingEnabled" := "false",
    "aggressiveLazyLoading" := "false",
    "useColumnLabel" := "true",
    "useGeneratedKeys" := "false",
    "defaultExecutorType" := "SIMPLE",
    "mapUnderscoreToCamelCase" := "false",
    "safeRowBoundsEnabled" := "false",
    "localCacheScope" := "SESSION",
    "jdbcTypeForNull" := "OTHER",
    "lazyLoadTriggerMethods" := "equals,clone,hashCode,toString",
    "safeResultHandlerEnabled" := "true",
    "callSettersOnNulls" := "false",
    "useActualParamName" := "true",
    "returnInstanceForEmptyRow" := "false",
    "shrinkWhitespacesInSql" := "false",
    "argNameBasedConstructorAutoMapping" := "false",
    "nullableOnForEach" := "false"]

  /** The settings `settingsElement` reads that stay null when absent. */
  const OptionalSettings: set<string> := {
    "proxyFactory", "defaultStatementTimeout", "defaultFetchSize", "defaultResultSetType",
    "defaultScriptingLanguage", "defaultEnumTypeHandler", "logPrefix", "configurationFactory",
    "defaultSqlProviderType"}

  /** The raw value `settingsElement` passes on for every setting it reads. */
  function EffectiveSettings(props: Props): (r: Props)
    ensures r.Keys == SettingDefaults.Keys + (OptionalSettings * props.Keys)
    ensures forall k :: k in SettingDefaults && k !in props ==> r[k] == SettingDefaults[k]
    ensures forall k :: k in r && k in props ==> r[k] == props[k]
  {
    map k | k in SettingDefaults.Keys + (OptionalSettings * props.Keys) ::
      if k in props then props[k] else SettingDefaults[k]
  }

  /** An empty settings bag applies exactly the documented defaults. */
  lemma EmptySettingsApplyDefaults()
    ensures EffectiveSettings(map[]) == SettingDefaults
  {
  }

  /** Keys `settingsElement` does not read (such as `vfsImpl` or `logImpl`, consumed
      earlier) have no influence on what it applies. */
  lemma UnreadSettingsIgnored(props: Props, key: string, value: string)
    requires key !in SettingDefaults && key !in OptionalSettings
    ensures EffectiveSettings(props[key := value]) == EffectiveSettings(props)
  {
  }

  /** Every setting with a documented default is applied, whatever the bag holds. */
  lemma DefaultedSettingsAlwaysApplied(props: Props)
    ensures SettingDefaults.Keys <= EffectiveSettings(props).Keys
  {
  }
}
