/** Runner.Run of tck/framework/framework.go: the planning pass over the
    registry, the image pre-flight check, the image pulls, the listener
    events and the execution of every planned test, with the lemmas that
    say what the plan contains. */
module Runner {
  import opened Framework

  /** What the planning pass hands to AboutToStart and to the execution
      loop. */
  datatype Plan = Plan(suites: seq<Suite>, tests: map<string, seq<Testcase>>, required: set<string>)

  /** `r.config.Images[i]`: a Go map yields "" for a missing key. */
  function Lookup(m: map<string, string>, k: string): (v: string)
    ensures v != "" ==> k in m && m[k] == v
  {
    if k in m then m[k] else ""
  }

  predicate AllMapped(cfg: Config, required: set<string>) {
    forall i :: i in required ==> Mapped(cfg, i)
  }

  predicate PullsSucceed(cfg: Config, required: set<string>, pullFails: set<string>) {
    cfg.noPull || forall i :: i in required ==> Lookup(cfg.images, i) !in pullFails
  }

  function CaseImages(cfg: Config, cs: seq<Testcase>): set<string> {
    set c | c in cs && TestSelected(cfg, c) :: c.image
  }

  // ---------------------------------------------------------------------
  // Lemmas the loops of Run rely on
  // ---------------------------------------------------------------------

  lemma NamesOfSnoc(items: seq<Item>, x: Item)
    ensures NamesOf(items + [x]) == NamesOf(items) + {x.Name()}
  {
    var l, r := NamesOf(items + [x]), NamesOf(items) + {x.Name()};
    forall n | n in r ensures n in l {
      if n != x.Name() {
        var it :| it in items && it.Name() == n;
        assert it in items + [x];
      } else {
        assert x in items + [x];
      }
    }
  }

  lemma {:induction false} WellNamedSnoc(items: seq<Item>, x: Item)
    ensures WellNamed(items + [x]) <==>
      WellNamed(items) && x.Name() != "" && x.Description() != "" && x.Name() !in NamesOf(items)
  {
    var all := items + [x];
    assert all[..|items|] == items;
    forall i | 0 <= i < |items| ensures all[i] == items[i] && all[..i] == items[..i] {
    }
  }

  lemma {:induction false} WellNamedPrefix(a: seq<Item>, b: seq<Item>)
    requires a <= b
    ensures WellNamed(b) ==> WellNamed(a)
  {
    forall i | 0 <= i < |a| ensures a[i] == b[i] && a[..i] == b[..i] {
    }
  }

  lemma {:induction false} CheckedItemsPrefix(cfg: Config, ss: seq<Suite>, i: nat)
    requires i <= |ss|
    ensures CheckedItems(cfg, ss[..i]) <= CheckedItems(cfg, ss)
    decreases |ss|
  {
    if i < |ss| {
      var p := ss[..|ss| - 1];
      assert p[..i] == ss[..i];
      CheckedItemsPrefix(cfg, p, i);
    } else {
      assert ss[..i] == ss;
    }
  }

  lemma CaseItemsSnoc(cs: seq<Testcase>, j: nat)
    requires j < |cs|
    ensures CaseItems(cs[..j + 1]) == CaseItems(cs[..j]) + [CaseItem(cs[j])]
  {
  }

  lemma CaseImagesSnoc(cfg: Config, cs: seq<Testcase>, j: nat)
    requires j < |cs|
    ensures CaseImages(cfg, cs[..j + 1]) ==
      CaseImages(cfg, cs[..j]) + (if TestSelected(cfg, cs[j]) then {cs[j].image} else {})
  {
    assert cs[..j + 1] == cs[..j] + [cs[j]];
    var l, r := CaseImages(cfg, cs[..j + 1]), CaseImages(cfg, cs[..j]) + (if TestSelected(cfg, cs[j]) then {cs[j].image} else {});
    forall x | x in r ensures x in l {
      if x !in CaseImages(cfg, cs[..j]) {
        assert cs[j] in cs[..j + 1];
      } else {
        var c :| c in cs[..j] && TestSelected(cfg, c) && c.image == x;
        assert c in cs[..j + 1];
      }
    }
  }

  lemma RequiredImagesSnoc(cfg: Config, ss: seq<Suite>, i: nat)
    requires i < |ss|
    ensures RequiredImages(cfg, ss[..i + 1]) ==
      RequiredImages(cfg, ss[..i]) + (if SuiteSelected(cfg, ss[i]) then CaseImages(cfg, ss[i].cases) else {})
  {
    assert ss[..i + 1] == ss[..i] + [ss[i]];
    var l := RequiredImages(cfg, ss[..i + 1]);
    var r := RequiredImages(cfg, ss[..i]) + (if SuiteSelected(cfg, ss[i]) then CaseImages(cfg, ss[i].cases) else {});
    forall x | x in r ensures x in l {
      if x in RequiredImages(cfg, ss[..i]) {
        var s, c :| s in ss[..i] && c in s.cases && SuiteSelected(cfg, s) && TestSelected(cfg, c) && c.image == x;
        assert s in ss[..i + 1];
      } else {
        var c :| c in ss[i].cases && TestSelected(cfg, c) && c.image == x;
        assert ss[i] in ss[..i + 1];
      }
    }
    forall x | x in l ensures x in r {
      var s, c :| s in ss[..i + 1] && c in s.cases && SuiteSelected(cfg, s) && TestSelected(cfg, c) && c.image == x;
      if s != ss[i] {
        assert s in ss[..i];
      }
    }
  }

  // ---------------------------------------------------------------------
  // The planning pass (framework.go:84-103)
  // ---------------------------------------------------------------------

  /** checkTest and testShouldRun for one case. */
  method PlanCase(cfg: Config, c: Testcase, names: map<string, Item>, ghost items: seq<Item>)
    returns (r: Result<map<string, Item>, Fault>, run: bool)
    requires WellNamed(items) && names.Keys == NamesOf(items)
    ensures r.Ok? <==> WellNamed(items + [CaseItem(c)])
    ensures r.Err? ==> r.error.IsNameFault()
    ensures r.Ok? ==> r.value.Keys == NamesOf(items + [CaseItem(c)])
    ensures run == TestSelected(cfg, c)
  {
    WellNamedSnoc(items, CaseItem(c));
    NamesOfSnoc(items, CaseItem(c));
    r := CheckName(CaseItem(c), names);
    run := TestShouldRun(cfg, c);
  }

  /** The inner loop for one selected suite: every case is name-checked;
      a selected case is planned, its image required and a port of 0
      replaced by the suite's. */
  method PlanCases(cfg: Config, s: Suite, names: map<string, Item>, ghost done: seq<Item>)
    returns (r: Result<map<string, Item>, Fault>, planned: seq<Testcase>, images: set<string>, resolved: Suite)
    requires SuiteSelected(cfg, s)
    requires WellNamed(done) && names.Keys == NamesOf(done)
    ensures r.Ok? <==> WellNamed(done + CaseItems(s.cases))
    ensures r.Err? ==> r.error.IsNameFault()
    ensures r.Ok? ==> r.value.Keys == NamesOf(done + CaseItems(s.cases))
    ensures r.Ok? ==> planned == PlannedTests(cfg, s, s.cases)
    ensures r.Ok? ==> images == CaseImages(cfg, s.cases)
    ensures r.Ok? ==> resolved == ResolveSuite(cfg, s)
  {
    var ns := names;
    var cases := s.cases;
    planned, images := [], {};
    for j := 0 to |s.cases|
      invariant WellNamed(done + CaseItems(s.cases[..j]))
      invariant ns.Keys == NamesOf(done + CaseItems(s.cases[..j]))
      invariant planned == PlannedTests(cfg, s, s.cases[..j])
      invariant images == CaseImages(cfg, s.cases[..j])
      invariant |cases| == |s.cases|
      invariant forall k :: 0 <= k < j ==> cases[k] == ResolveCase(cfg, s, s.cases[k])
      invariant forall k :: j <= k < |s.cases| ==> cases[k] == s.cases[k]
    {
      var c := s.cases[j];
      ghost var items := done + CaseItems(s.cases[..j]);
      CaseItemsSnoc(s.cases, j);
      assert done + CaseItems(s.cases[..j + 1]) == items + [CaseItem(c)];
      var checked, run := PlanCase(cfg, c, ns, items);
      if checked.Err? {
        assert CaseItems(s.cases[..j + 1]) <= CaseItems(s.cases);
        WellNamedPrefix(items + [CaseItem(c)], done + CaseItems(s.cases));
        return checked, planned, images, s;
      }
      ns := checked.value;
      assert s.cases[..j + 1][..j] == s.cases[..j];
      CaseImagesSnoc(cfg, s.cases, j);
      if run {
        planned := planned + [ResolveCase(cfg, s, c)];
        images := images + {c.image};
        if c.port == 0 {
          cases := cases[j := c.(port := s.port)];
        }
      }
    }
    assert s.cases[..|s.cases|] == s.cases;
    r := Ok(ns);
    resolved := s.(cases := cases);
  }

  /** One iteration of the loop over the registry: the suite is
      name-checked and, when selected, its cases are planned. */
  method PlanSuite(cfg: Config, s: Suite, names: map<string, Item>, ghost before: seq<Item>)
    returns (r: Result<map<string, Item>, Fault>, selected: bool, planned: seq<Testcase>, images: set<string>, resolved: Suite)
    requires WellNamed(before) && names.Keys == NamesOf(before)
    ensures r.Ok? <==> WellNamed(before + SuiteItems(cfg, s))
    ensures r.Err? ==> r.error.IsNameFault()
    ensures r.Ok? ==> r.value.Keys == NamesOf(before + SuiteItems(cfg, s))
    ensures r.Ok? ==> selected == SuiteSelected(cfg, s) && resolved == ResolveSuite(cfg, s)
    ensures r.Ok? && selected ==> planned == PlannedTests(cfg, s, s.cases) && images == CaseImages(cfg, s.cases)
  {
    WellNamedSnoc(before, SuiteItem(s));
    NamesOfSnoc(before, SuiteItem(s));
    planned, images, resolved := [], {}, s;
    var checked := CheckName(SuiteItem(s), names);
    if checked.Err? {
      WellNamedPrefix(before + [SuiteItem(s)], before + SuiteItems(cfg, s));
      return checked, false, planned, images, resolved;
    }
    selected := SuiteShouldRun(cfg, s);
    if !selected {
      assert before + SuiteItems(cfg, s) == before + [SuiteItem(s)];
      return checked, selected, planned, images, resolved;
    }
    assert before + SuiteItems(cfg, s) == before + [SuiteItem(s)] + CaseItems(s.cases);
    r, planned, images, resolved := PlanCases(cfg, s, checked.value, before + [SuiteItem(s)]);
  }

  /** The loop over the registry: each suite is name-checked; a selected
      suite enters the plan and its cases are planned. The registry comes
      back with the ports resolved. */
  method PlanRun(cfg: Config, registry: seq<Suite>) returns (r: Result<Plan, Fault>, resolved: seq<Suite>)
    ensures r.Ok? <==> WellNamed(CheckedItems(cfg, registry))
    ensures r.Err? ==> r.error.IsNameFault()
    ensures r.Ok? ==> r.value == Plan(PlannedSuites(cfg, registry), TestsMap(cfg, registry), RequiredImages(cfg, registry))
    ensures r.Ok? ==> resolved == Resolve(cfg, registry)
  {
    var names: map<string, Item> := map[];
    var suites: seq<Suite> := [];
    var tests: map<string, seq<Testcase>> := map[];
    var required: set<string> := {};
    resolved := registry;
    for i := 0 to |registry|
      invariant WellNamed(CheckedItems(cfg, registry[..i]))
      invariant names.Keys == NamesOf(CheckedItems(cfg, registry[..i]))
      invariant suites == PlannedSuites(cfg, registry[..i])
      invariant tests == TestsMap(cfg, registry[..i])
      invariant required == RequiredImages(cfg, registry[..i])
      invariant |resolved| == |registry|
      invariant forall k :: 0 <= k < i ==> resolved[k] == ResolveSuite(cfg, registry[k])
    {
      var s := registry[i];
      assert registry[..i + 1][..i] == registry[..i];
      assert CheckedItems(cfg, registry[..i + 1]) == CheckedItems(cfg, registry[..i]) + SuiteItems(cfg, s);
      var step, selected, planned, images, suite := PlanSuite(cfg, s, names, CheckedItems(cfg, registry[..i]));
      if step.Err? {
        CheckedItemsPrefix(cfg, registry, i + 1);
        WellNamedPrefix(CheckedItems(cfg, registry[..i + 1]), CheckedItems(cfg, registry));
        return Err(step.error), resolved;
      }
      RequiredImagesSnoc(cfg, registry, i);
      names := step.value;
      resolved := resolved[i := suite];
      if selected {
        suites := suites + [suite];
        if planned != [] {
          tests := tests[s.name := planned];
        }
        required := required + images;
      }
    }
    assert registry[..|registry|] == registry;
    r := Ok(Plan(suites, tests, required));
  }

  // ---------------------------------------------------------------------
  // Pre-flight checks (framework.go:105-117)
  // ---------------------------------------------------------------------

  /** Every required image must map to a non-empty reference; the first
      missing one met (map order) aborts the run. */
  method CheckImages(cfg: Config, required: set<string>) returns (fault: Option<Fault>)
    ensures fault.None? <==> AllMapped(cfg, required)
    ensures fault.Some? ==>
      fault.value.MissingImage? && fault.value.image in required && !Mapped(cfg, fault.value.image)
  {
    var rest := required;
    while rest != {}
      invariant rest <= required
      invariant forall i :: i in required - rest ==> Mapped(cfg, i)
      decreases rest
    {
      var i :| i in rest;
      if Lookup(cfg.images, i) == "" {
        return Some(MissingImage(i));
      }
      rest := rest - {i};
    }
    return None;
  }

  /** Unless pulling is disabled, every required image is pulled once; a
      failed pull aborts the run. `pullFails` holds the references whose
      pull fails. */
  method PullImages(cfg: Config, required: set<string>, pullFails: set<string>) returns (fault: Option<Fault>)
    ensures fault.None? <==> PullsSucceed(cfg, required, pullFails)
    ensures fault.Some? ==>
      && fault.value.PullFailed?
      && fault.value.image in required
      && fault.value.reference == Lookup(cfg.images, fault.value.image)
      && fault.value.reference in pullFails
  {
    if cfg.noPull {
      return None;
    }
    var rest := required;
    while rest != {}
      invariant rest <= required
      invariant forall i :: i in required - rest ==> Lookup(cfg.images, i) !in pullFails
      decreases rest
    {
      var i :| i in rest;
      var reference := Lookup(cfg.images, i);
      if reference in pullFails {
        return Some(PullFailed(i, reference));
      }
      rest := rest - {i};
    }
    return None;
  }

  // ---------------------------------------------------------------------
  // Execution (framework.go:119-126) and Run
  // ---------------------------------------------------------------------

  /** SuiteStart for every planned suite, then Testcase.Run for each of its
      planned tests (a suite absent from the map has none). */
  method Execute(suites: seq<Suite>, tests: map<string, seq<Testcase>>, world: string -> Behaviour)
    returns (events: seq<Event>)
    ensures events == Execution(suites, tests, world)
  {
    events := [];
    for i := 0 to |suites|
      invariant events == Execution(suites[..i], tests, world)
    {
      var s := suites[i];
      assert suites[..i + 1][..i] == suites[..i];
      events := events + [SuiteStart(s)];
      var cs := TestsOf(tests, s.name);
      for j := 0 to |cs|
        invariant events == Execution(suites[..i], tests, world) + [SuiteStart(s)] + TestEvents(cs[..j], world)
      {
        assert TestEvents(cs[..j + 1], world) == TestEvents(cs[..j], world) + TestEvents([cs[j]], world);
        events := events + [Executed(cs[j], RunTest(cs[j], world(cs[j].name)))];
      }
      assert cs[..|cs|] == cs;
    }
    assert suites[..|suites|] == suites;
  }

  /** Runner.Run. `world` gives each test's collaborators' behaviour by test
      name and `pullFails` the image references whose pull fails. A run that
      aborts has produced no listener event at all. The registry comes back
      with the ports resolved as the source resolves them in place. */
  method Run(cfg: Config, registry: seq<Suite>, world: string -> Behaviour, pullFails: set<string>)
    returns (r: RunResult, resolved: seq<Suite>)
    ensures r.Aborted? && r.fault.IsNameFault() <==> !WellNamed(CheckedItems(cfg, registry))
    ensures WellNamed(CheckedItems(cfg, registry)) ==> resolved == Resolve(cfg, registry)
    ensures r.Aborted? && r.fault.MissingImage? <==>
      WellNamed(CheckedItems(cfg, registry)) && !AllMapped(cfg, RequiredImages(cfg, registry))
    ensures r.Aborted? && r.fault.MissingImage? ==>
      r.fault.image in RequiredImages(cfg, registry) && !Mapped(cfg, r.fault.image)
    ensures r.Aborted? && r.fault.PullFailed? <==>
      && WellNamed(CheckedItems(cfg, registry))
      && AllMapped(cfg, RequiredImages(cfg, registry))
      && !PullsSucceed(cfg, RequiredImages(cfg, registry), pullFails)
    ensures r.Completed? ==>
      var suites, tests := PlannedSuites(cfg, registry), TestsMap(cfg, registry);
      r.events == [AboutToStart(suites, tests)] + Execution(suites, tests, world)
  {
    var plan;
    plan, resolved := PlanRun(cfg, registry);
    if plan.Err? {
      return Aborted(plan.error), resolved;
    }
    var p := plan.value;
    var missing := CheckImages(cfg, p.required);
    if missing.Some? {
      return Aborted(missing.value), resolved;
    }
    var pull := PullImages(cfg, p.required, pullFails);
    if pull.Some? {
      return Aborted(pull.value), resolved;
    }
    var events := Execute(p.suites, p.tests, world);
    r := Completed([AboutToStart(p.suites, p.tests)] + events);
  }
}

/** What the plan and the event sequence of Runner.Run contain. */
module RunnerProperties {
  import opened Framework
  import opened Runner

  /** With no suite focus every suite enters the plan, in registry order. */
  lemma {:induction false} NoSuiteFocusPlansEverySuite(cfg: Config, ss: seq<Suite>)
    requires |cfg.focusedSuites| == 0
    ensures PlannedSuites(cfg, ss) == Resolve(cfg, ss)
  {
    if ss != [] {
      var p := ss[..|ss| - 1];
      NoSuiteFocusPlansEverySuite(cfg, p);
      assert Resolve(cfg, ss) == Resolve(cfg, p) + [ResolveSuite(cfg, ss[|ss| - 1])];
    }
  }

  /** Every planned suite gets its SuiteStart, whether or not any of its
      tests is planned. */
  lemma {:induction false} ExecutionStartsEverySuite(suites: seq<Suite>, tests: map<string, seq<Testcase>>, world: string -> Behaviour)
    ensures forall i :: 0 <= i < |suites| ==> SuiteStart(suites[i]) in Execution(suites, tests, world)
  {
    if suites != [] {
      var p := suites[..|suites| - 1];
      ExecutionStartsEverySuite(p, tests, world);
      var e := Execution(suites, tests, world);
      var pe := Execution(p, tests, world);
      assert e == pe + [SuiteStart(suites[|suites| - 1])] + TestEvents(TestsOf(tests, suites[|suites| - 1].name), world);
      forall i | 0 <= i < |suites| ensures SuiteStart(suites[i]) in e {
        if i < |p| {
          assert suites[i] == p[i];
          var k :| 0 <= k < |pe| && pe[k] == SuiteStart(p[i]);
          assert e[k] == pe[k];
        } else {
          assert e[|pe|] == SuiteStart(suites[i]);
        }
      }
    }
  }

  /** With no suite focus, Run announces every suite of the registry. */
  lemma NoSuiteFocusStartsEverySuite(cfg: Config, ss: seq<Suite>, world: string -> Behaviour)
    requires |cfg.focusedSuites| == 0
    ensures forall i :: 0 <= i < |ss| ==>
      SuiteStart(ResolveSuite(cfg, ss[i])) in Execution(PlannedSuites(cfg, ss), TestsMap(cfg, ss), world)
  {
    var planned := PlannedSuites(cfg, ss);
    NoSuiteFocusPlansEverySuite(cfg, ss);
    ExecutionStartsEverySuite(planned, TestsMap(cfg, ss), world);
    forall i | 0 <= i < |ss|
      ensures SuiteStart(ResolveSuite(cfg, ss[i])) in Execution(planned, TestsMap(cfg, ss), world)
    {
      assert planned[i] == Resolve(cfg, ss)[i] == ResolveSuite(cfg, ss[i]);
    }
  }

  /** The planned tests of a suite are exactly its selected cases, resolved. */
  lemma {:induction false} PlannedTestsAreSelectedCases(cfg: Config, s: Suite, cs: seq<Testcase>)
    ensures forall t :: t in PlannedTests(cfg, s, cs) <==>
      exists c :: c in cs && TestSelected(cfg, c) && t == ResolveCase(cfg, s, c)
  {
    if cs != [] {
      var p := cs[..|cs| - 1];
      var last := cs[|cs| - 1];
      PlannedTestsAreSelectedCases(cfg, s, p);
      assert cs == p + [last];
      forall t | t in PlannedTests(cfg, s, cs) ensures exists c :: c in cs && TestSelected(cfg, c) && t == ResolveCase(cfg, s, c) {
        if t in PlannedTests(cfg, s, p) {
          var c :| c in p && TestSelected(cfg, c) && t == ResolveCase(cfg, s, c);
          assert c in cs;
        }
      }
      forall t | exists c :: c in cs && TestSelected(cfg, c) && t == ResolveCase(cfg, s, c) ensures t in PlannedTests(cfg, s, cs) {
        var c :| c in cs && TestSelected(cfg, c) && t == ResolveCase(cfg, s, c);
        if c != last {
          assert c in p;
        }
      }
    }
  }

  /** A suite focused by name runs none of its tests when the test focus
      names none of them: test selection ignores suite focus. */
  lemma {:induction false} FocusedSuiteWithUnrelatedTestFocus(cfg: Config, s: Suite, cs: seq<Testcase>)
    requires s.name in cfg.focusedSuites
    requires |cfg.focusedTests| > 0
    requires forall c :: c in cs ==> !Focused(cfg, c)
    ensures SuiteSelected(cfg, s)
    ensures PlannedTests(cfg, s, cs) == []
  {
    if cs != [] {
      var p := cs[..|cs| - 1];
      assert forall c :: c in p ==> c in cs;
      FocusedSuiteWithUnrelatedTestFocus(cfg, s, p);
      assert cs[|cs| - 1] in cs;
    }
  }

  /** The tests in Executed events, in order. */
  function ExecutedTests(events: seq<Event>): seq<Testcase> {
    if events == [] then []
    else
      ExecutedTests(events[..|events| - 1])
      + (if events[|events| - 1].Executed? then [events[|events| - 1].test] else [])
  }

  /** The concatenation of every planned suite's planned tests. */
  function PlannedTestOrder(suites: seq<Suite>, tests: map<string, seq<Testcase>>): seq<Testcase> {
    if suites == [] then []
    else PlannedTestOrder(suites[..|suites| - 1], tests) + TestsOf(tests, suites[|suites| - 1].name)
  }

  lemma {:induction false} ExecutedTestsAppend(a: seq<Event>, b: seq<Event>)
    ensures ExecutedTests(a + b) == ExecutedTests(a) + ExecutedTests(b)
    decreases |b|
  {
    if b != [] {
      var p := b[..|b| - 1];
      assert (a + b)[..|a + b| - 1] == a + p;
      ExecutedTestsAppend(a, p);
    } else {
      assert a + b == a;
    }
  }

  lemma {:induction false} ExecutedTestsOfTestEvents(cs: seq<Testcase>, world: string -> Behaviour)
    ensures ExecutedTests(TestEvents(cs, world)) == cs
    decreases |cs|
  {
    if cs != [] {
      var p := cs[..|cs| - 1];
      assert TestEvents(cs, world)[..|cs| - 1] == TestEvents(p, world);
      ExecutedTestsOfTestEvents(p, world);
    }
  }

  /** Each planned test is executed exactly once, in plan order, and each
      execution ends in exactly one notification (RunTest). */
  lemma {:induction false} ExecutionRunsEachPlannedTestOnce(suites: seq<Suite>, tests: map<string, seq<Testcase>>, world: string -> Behaviour)
    ensures ExecutedTests(Execution(suites, tests, world)) == PlannedTestOrder(suites, tests)
  {
    if suites != [] {
      var p := suites[..|suites| - 1];
      var s := suites[|suites| - 1];
      ExecutionRunsEachPlannedTestOnce(p, tests, world);
      var te := TestEvents(TestsOf(tests, s.name), world);
      ExecutedTestsAppend(Execution(p, tests, world) + [SuiteStart(s)], te);
      ExecutedTestsAppend(Execution(p, tests, world), [SuiteStart(s)]);
      assert ExecutedTests([SuiteStart(s)]) == [];
      ExecutedTestsOfTestEvents(TestsOf(tests, s.name), world);
    }
  }

  // ---------------------------------------------------------------------
  // The tests map built by the plan
  // ---------------------------------------------------------------------

  lemma {:induction false} SuiteItemChecked(cfg: Config, ss: seq<Suite>, s: Suite)
    requires s in ss
    ensures SuiteItem(s) in CheckedItems(cfg, ss)
  {
    var p := ss[..|ss| - 1];
    var last := ss[|ss| - 1];
    assert ss == p + [last];
    if s != last {
      assert s in p;
      SuiteItemChecked(cfg, p, s);
    }
  }

  /** Only names the checks have claimed key the tests map. */
  lemma {:induction false} TestsMapKeys(cfg: Config, ss: seq<Suite>)
    ensures forall n :: n in TestsMap(cfg, ss) ==> n in NamesOf(CheckedItems(cfg, ss))
  {
    if ss != [] {
      var p := ss[..|ss| - 1];
      var last := ss[|ss| - 1];
      TestsMapKeys(cfg, p);
      var before, items := CheckedItems(cfg, p), CheckedItems(cfg, ss);
      assert items == before + SuiteItems(cfg, last);
      forall n | n in TestsMap(cfg, ss) ensures n in NamesOf(items) {
        if n == last.name {
          assert items[|before|] == SuiteItem(last);
          assert SuiteItem(last) in items;
        } else {
          assert n in TestsMap(cfg, p);
          assert n in NamesOf(before);
          var it :| it in before && it.Name() == n;
          assert it in items;
        }
      }
    }
  }

  /** The last suite's name is claimed by no earlier item. */
  lemma LastSuiteNameFresh(cfg: Config, ss: seq<Suite>)
    requires ss != [] && WellNamed(CheckedItems(cfg, ss))
    ensures WellNamed(CheckedItems(cfg, ss[..|ss| - 1]))
    ensures ss[|ss| - 1].name !in NamesOf(CheckedItems(cfg, ss[..|ss| - 1]))
  {
    var before, items := CheckedItems(cfg, ss[..|ss| - 1]), CheckedItems(cfg, ss);
    assert items == before + SuiteItems(cfg, ss[|ss| - 1]);
    WellNamedPrefix(before, items);
    var k := |before|;
    assert items[k] == SuiteItem(ss[|ss| - 1]) && items[..k] == before;
  }

  /** When the names check out, the tests map holds, under each selected
      suite's name, exactly that suite's planned tests: no later suite
      overwrites an earlier one's entry. */
  lemma {:induction false} TestsMapHoldsPlannedTests(cfg: Config, ss: seq<Suite>)
    requires WellNamed(CheckedItems(cfg, ss))
    ensures forall s :: s in ss && SuiteSelected(cfg, s) ==>
      TestsOf(TestsMap(cfg, ss), s.name) == PlannedTests(cfg, s, s.cases)
  {
    if ss != [] {
      var p := ss[..|ss| - 1];
      var last := ss[|ss| - 1];
      LastSuiteNameFresh(cfg, ss);
      TestsMapHoldsPlannedTests(cfg, p);
      TestsMapKeys(cfg, p);
      var m, ts := TestsMap(cfg, p), PlannedTests(cfg, last, last.cases);
      assert TestsMap(cfg, ss) == if SuiteSelected(cfg, last) && ts != [] then m[last.name := ts] else m;
      assert last.name !in m;
      forall s | s in ss && SuiteSelected(cfg, s)
        ensures TestsOf(TestsMap(cfg, ss), s.name) == PlannedTests(cfg, s, s.cases)
      {
        if s in p {
          SuiteItemChecked(cfg, p, s);
          assert SuiteItem(s).Name() in NamesOf(CheckedItems(cfg, p));
          assert s.name != last.name;
        } else {
          assert ss == p + [last];
        }
      }
    }
  }

  /** The selected cases of every selected suite, resolved, in registry
      order. */
  function SelectedTestOrder(cfg: Config, ss: seq<Suite>): seq<Testcase> {
    if ss == [] then []
    else
      var last := ss[|ss| - 1];
      SelectedTestOrder(cfg, ss[..|ss| - 1])
      + (if SuiteSelected(cfg, last) then PlannedTests(cfg, last, last.cases) else [])
  }

  lemma {:induction false} PlannedTestOrderOfPlan(cfg: Config, ss: seq<Suite>, tests: map<string, seq<Testcase>>)
    requires forall s :: s in ss && SuiteSelected(cfg, s) ==> TestsOf(tests, s.name) == PlannedTests(cfg, s, s.cases)
    ensures PlannedTestOrder(PlannedSuites(cfg, ss), tests) == SelectedTestOrder(cfg, ss)
  {
    if ss != [] {
      var p := ss[..|ss| - 1];
      var last := ss[|ss| - 1];
      assert ss == p + [last];
      PlannedTestOrderOfPlan(cfg, p, tests);
      if SuiteSelected(cfg, last) {
        assert last in ss;
        var ps := PlannedSuites(cfg, ss);
        assert ps == PlannedSuites(cfg, p) + [ResolveSuite(cfg, last)];
        assert ps[..|ps| - 1] == PlannedSuites(cfg, p);
        assert PlannedTestOrder(ps, tests) == PlannedTestOrder(PlannedSuites(cfg, p), tests) + TestsOf(tests, last.name);
        assert TestsOf(tests, last.name) == PlannedTests(cfg, last, last.cases);
        assert SelectedTestOrder(cfg, ss) == SelectedTestOrder(cfg, p) + PlannedTests(cfg, last, last.cases);
      } else {
        assert PlannedSuites(cfg, ss) == PlannedSuites(cfg, p) + [] == PlannedSuites(cfg, p);
        assert SelectedTestOrder(cfg, ss) == SelectedTestOrder(cfg, p) + [] == SelectedTestOrder(cfg, p);
      }
    }
  }

  /** A completed Run executes the selected cases of the selected suites,
      each once, in registry order and, within a suite, in case order. */
  lemma CompletedRunExecutesSelectedTests(cfg: Config, registry: seq<Suite>, world: string -> Behaviour)
    requires WellNamed(CheckedItems(cfg, registry))
    ensures var suites, tests := PlannedSuites(cfg, registry), TestsMap(cfg, registry);
      ExecutedTests([AboutToStart(suites, tests)] + Execution(suites, tests, world)) == SelectedTestOrder(cfg, registry)
  {
    var suites, tests := PlannedSuites(cfg, registry), TestsMap(cfg, registry);
    TestsMapHoldsPlannedTests(cfg, registry);
    PlannedTestOrderOfPlan(cfg, registry, tests);
    ExecutionRunsEachPlannedTestOnce(suites, tests, world);
    ExecutedTestsAppend([AboutToStart(suites, tests)], Execution(suites, tests, world));
    assert ExecutedTests([AboutToStart(suites, tests)]) == [];
  }
}
