/** The planning and execution engine of the conformance harness
    (tck/framework/framework.go): name checks over one shared namespace,
    suite and test focus, the run plan, the image pre-flight check, the
    per-test setup / body / teardown / notification state machine and the
    readiness loop of the default container setup.

    Docker, the network and the clock are not modelled: every call into them
    is an abstract input (an error or not, a probe answer), and sleeps are
    recorded as integer milliseconds. */
module Framework {

  datatype Option<T> = None | Some(value: T)

  datatype Result<T, E> = Ok(value: T) | Err(error: E)

  /** A value handed to Go's `panic`. What the recovering defer of
      Testcase.Run looks at is whether its dynamic type implements `error`
      (`runnerError` is an interface type, so the type assertion matches
      every error). */
  datatype PanicValue = ErrorValue(message: string) | OtherValue(message: string)

  /** The runtime error raised by dereferencing a nil *Container; Go runtime
      errors implement `error`. */
  const NilDereference: PanicValue :=
    ErrorValue("runtime error: invalid memory address or nil pointer dereference")

  // ---------------------------------------------------------------------
  // Records
  // ---------------------------------------------------------------------

  /** A test case. The body and the optional hooks are code; the model keeps
      only whether a custom hook is installed (the body's behaviour is an
      input of RunTest). */
  datatype Testcase = Testcase(
    name: string,
    description: string,
    optional: bool,
    image: string,
    port: int,
    customSetUp: bool,
    customTearDown: bool)

  datatype Suite = Suite(name: string, description: string, cases: seq<Testcase>, port: int)

  /** The listener is replaced by the events RunResult records. */
  datatype Config = Config(
    images: map<string, string>,
    focusedTests: seq<string>,
    focusedSuites: seq<string>,
    noPull: bool)

  datatype Container = Container(id: string, hostPort: int)

  // ---------------------------------------------------------------------
  // Focus
  // ---------------------------------------------------------------------

  predicate Focused(cfg: Config, t: Testcase) {
    t.name in cfg.focusedTests
  }

  /** A suite runs with no suite focus, when named, or when one of its cases
      is a focused test. */
  predicate SuiteSelected(cfg: Config, s: Suite) {
    || |cfg.focusedSuites| == 0
    || s.name in cfg.focusedSuites
    || exists c :: c in s.cases && Focused(cfg, c)
  }

  /** A test runs with no test focus or when named; suite focus plays no part. */
  predicate TestSelected(cfg: Config, t: Testcase) {
    |cfg.focusedTests| == 0 || Focused(cfg, t)
  }

  method IsTestFocused(cfg: Config, t: Testcase) returns (b: bool)
    ensures b <==> Focused(cfg, t)
  {
    for i := 0 to |cfg.focusedTests|
      invariant forall k :: 0 <= k < i ==> cfg.focusedTests[k] != t.name
    {
      if cfg.focusedTests[i] == t.name {
        return true;
      }
    }
    return false;
  }

  method SuiteShouldRun(cfg: Config, s: Suite) returns (b: bool)
    ensures b <==> SuiteSelected(cfg, s)
  {
    if |cfg.focusedSuites| == 0 {
      return true;
    }
    for i := 0 to |cfg.focusedSuites|
      invariant forall k :: 0 <= k < i ==> cfg.focusedSuites[k] != s.name
    {
      if cfg.focusedSuites[i] == s.name {
        return true;
      }
    }
    for j := 0 to |s.cases|
      invariant forall k :: 0 <= k < j ==> !Focused(cfg, s.cases[k])
    {
      var f := IsTestFocused(cfg, s.cases[j]);
      if f {
        return true;
      }
    }
    return false;
  }

  method TestShouldRun(cfg: Config, t: Testcase) returns (b: bool)
    ensures b <==> TestSelected(cfg, t)
  {
    if |cfg.focusedTests| == 0 {
      return true;
    }
    b := IsTestFocused(cfg, t);
  }

  // ---------------------------------------------------------------------
  // Name checks: one namespace shared by suites and tests
  // ---------------------------------------------------------------------

  /** An entry of the `names` map: the suite or test that claimed a name. */
  datatype Item = SuiteItem(suite: Suite) | CaseItem(test: Testcase)
  {
    function Name(): string {
      match this
      case SuiteItem(s) => s.name
      case CaseItem(t) => t.name
    }
    function Description(): string {
      match this
      case SuiteItem(s) => s.description
      case CaseItem(t) => t.description
    }
  }

  /** Why a run aborts before the listener hears anything. */
  datatype Fault =
    | MissingName(item: Item)
    | MissingDescription(item: Item)
    | DuplicateName(item: Item, previous: Item)
    | MissingImage(image: string)
    | PullFailed(image: string, reference: string)
  {
    predicate IsNameFault() {
      MissingName? || MissingDescription? || DuplicateName?
    }
  }

  function NamesOf(items: seq<Item>): set<string> {
    set it | it in items :: it.Name()
  }

  /** Every item has a name and a description, and no item reuses the name
      of an earlier one. */
  predicate WellNamed(items: seq<Item>) {
    forall i :: 0 <= i < |items| ==>
      && items[i].Name() != ""
      && items[i].Description() != ""
      && items[i].Name() !in NamesOf(items[..i])
  }

  /** checkSuite / checkTest: reject an empty name, then an empty
      description, then a name already claimed; otherwise claim the name. */
  function CheckName(item: Item, names: map<string, Item>): (r: Result<map<string, Item>, Fault>)
    ensures r.Ok? <==> item.Name() != "" && item.Description() != "" && item.Name() !in names
    ensures r.Ok? ==> r.value.Keys == names.Keys + {item.Name()}
    ensures r.Ok? ==> forall n :: n in names ==> r.value[n] == names[n]
    ensures r.Err? ==> r.error.IsNameFault() && r.error.item == item
    ensures r.Err? && r.error.DuplicateName? ==> item.Name() in names && r.error.previous == names[item.Name()]
  {
    if item.Name() == "" then Err(MissingName(item))
    else if item.Description() == "" then Err(MissingDescription(item))
    else if item.Name() in names then Err(DuplicateName(item, names[item.Name()]))
    else Ok(names[item.Name() := item])
  }

  function CaseItems(cs: seq<Testcase>): (r: seq<Item>)
    ensures |r| == |cs|
  {
    seq(|cs|, i requires 0 <= i < |cs| => CaseItem(cs[i]))
  }

  /** The items one suite contributes to the checks: its own, then, only when
      it is selected, every one of its cases whether selected or not. */
  function SuiteItems(cfg: Config, s: Suite): seq<Item> {
    [SuiteItem(s)] + (if SuiteSelected(cfg, s) then CaseItems(s.cases) else [])
  }

  /** Every item the name checks of Run visit, in order. */
  function CheckedItems(cfg: Config, ss: seq<Suite>): seq<Item> {
    if ss == [] then [] else CheckedItems(cfg, ss[..|ss| - 1]) + SuiteItems(cfg, ss[|ss| - 1])
  }

  // ---------------------------------------------------------------------
  // The plan
  // ---------------------------------------------------------------------

  /** Port resolution: a selected test of a selected suite with port 0 takes
      the suite's port; nothing else changes. */
  function ResolveCase(cfg: Config, s: Suite, c: Testcase): Testcase {
    if TestSelected(cfg, c) && c.port == 0 then c.(port := s.port) else c
  }

  function ResolveSuite(cfg: Config, s: Suite): Suite {
    if SuiteSelected(cfg, s)
    then s.(cases := seq(|s.cases|, i requires 0 <= i < |s.cases| => ResolveCase(cfg, s, s.cases[i])))
    else s
  }

  /** The registry after Run has resolved the ports. */
  function Resolve(cfg: Config, ss: seq<Suite>): (r: seq<Suite>)
    ensures |r| == |ss|
  {
    seq(|ss|, i requires 0 <= i < |ss| => ResolveSuite(cfg, ss[i]))
  }

  /** The selected cases of a suite, as resolved, in order. */
  function PlannedTests(cfg: Config, s: Suite, cs: seq<Testcase>): seq<Testcase> {
    if cs == [] then []
    else
      PlannedTests(cfg, s, cs[..|cs| - 1])
      + (if TestSelected(cfg, cs[|cs| - 1]) then [ResolveCase(cfg, s, cs[|cs| - 1])] else [])
  }

  /** The selected suites, as resolved, in registry order. */
  function PlannedSuites(cfg: Config, ss: seq<Suite>): seq<Suite> {
    if ss == [] then []
    else
      PlannedSuites(cfg, ss[..|ss| - 1])
      + (if SuiteSelected(cfg, ss[|ss| - 1]) then [ResolveSuite(cfg, ss[|ss| - 1])] else [])
  }

  /** The `tests` map handed to AboutToStart: a suite has an entry only when
      at least one of its tests is selected. */
  function TestsMap(cfg: Config, ss: seq<Suite>): map<string, seq<Testcase>> {
    if ss == [] then map[]
    else
      var s := ss[|ss| - 1];
      var m := TestsMap(cfg, ss[..|ss| - 1]);
      var ts := PlannedTests(cfg, s, s.cases);
      if SuiteSelected(cfg, s) && ts != [] then m[s.name := ts] else m
  }

  /** The images of every selected test of every selected suite. */
  function RequiredImages(cfg: Config, ss: seq<Suite>): set<string> {
    set s, c | s in ss && c in s.cases && SuiteSelected(cfg, s) && TestSelected(cfg, c) :: c.image
  }

  /** A missing key reads as "" from a Go map, so both abort the run. */
  predicate Mapped(cfg: Config, image: string) {
    image in cfg.images && cfg.images[image] != ""
  }

  // ---------------------------------------------------------------------
  // Testcase.Run
  // ---------------------------------------------------------------------

  /** What one test's collaborators do: what the setup hook returned (a
      container or nil, an error or nil) or the value it panicked with, the
      value the body panics with if any, and the value the teardown hook
      panics with if any. */
  datatype SetUpResult =
    | Returned(container: Option<Container>, err: Option<string>)
    | SetUpPanicked(value: PanicValue)

  datatype Behaviour = Behaviour(setUp: SetUpResult, body: Option<PanicValue>, tearDown: Option<PanicValue>)

  datatype Hook = DefaultHook | CustomHook

  datatype Outcome =
    | Pass
    | HardFailure(detail: PanicValue)
    | OptionalFailure(detail: PanicValue)
    | TechnicalError(detail: PanicValue)

  /** The observable steps of one Testcase.Run, in order. */
  datatype Step =
    | SetUp(hook: Hook)
    | Body(hostPort: int)
    | TearDown(hook: Hook)
    | Notify(outcome: Outcome)

  function SetUpHook(t: Testcase): Hook {
    if t.customSetUp then CustomHook else DefaultHook
  }

  function TearDownHook(t: Testcase): Hook {
    if t.customTearDown then CustomHook else DefaultHook
  }

  /** The recovering defer of Testcase.Run. */
  function Classify(t: Testcase, p: Option<PanicValue>): (o: Outcome)
    ensures o.Pass? <==> p.None?
    ensures o.TechnicalError? <==> p.Some? && p.value.ErrorValue?
    ensures o.OptionalFailure? <==> p.Some? && p.value.OtherValue? && t.optional
    ensures o.HardFailure? <==> p.Some? && p.value.OtherValue? && !t.optional
    ensures !o.Pass? ==> p == Some(o.detail)
  {
    match p
    case None => Pass
    case Some(ErrorValue(m)) => TechnicalError(p.value)
    case Some(OtherValue(m)) => if t.optional then OptionalFailure(p.value) else HardFailure(p.value)
  }

  /** A setup that returned a container and no error. */
  predicate Provisioned(b: Behaviour) {
    b.setUp.Returned? && b.setUp.err.None? && b.setUp.container.Some?
  }

  function OutcomeOf(steps: seq<Step>): Outcome
    requires |steps| > 0 && steps[|steps| - 1].Notify?
  {
    steps[|steps| - 1].outcome
  }

  /** Testcase.Run: setup, then the body, then the deferred teardown, then
      exactly one notification from the recovering defer. The teardown defer
      is registered only after a setup that returned no error, and runs
      before the recovering defer, so a teardown panic replaces a body panic
      and is the value classified. */
  function RunTest(t: Testcase, b: Behaviour): (steps: seq<Step>)
    ensures |steps| >= 2 && steps[0] == SetUp(SetUpHook(t)) && steps[|steps| - 1].Notify?
    ensures forall i :: 0 <= i < |steps| - 1 ==> !steps[i].Notify?
    ensures (exists i :: 0 <= i < |steps| && steps[i].Body?) <==> Provisioned(b)
    ensures (exists i :: 0 <= i < |steps| && steps[i].TearDown?) <==> Provisioned(b)
    // setup runs exactly once on every path
    ensures !Provisioned(b) ==> |steps| == 2
    ensures Provisioned(b) ==>
      && |steps| == 4
      && steps[1] == Body(b.setUp.container.value.hostPort)
      && steps[2] == TearDown(TearDownHook(t))
    // a setup error is wrapped as runnerError: an error, so a technical one
    ensures b.setUp.Returned? && b.setUp.err.Some? ==>
      OutcomeOf(steps) == TechnicalError(ErrorValue(b.setUp.err.value))
    ensures b.setUp.SetUpPanicked? ==> OutcomeOf(steps) == Classify(t, Some(b.setUp.value))
    // nil container and nil error: reading hostPort faults before the body runs
    ensures b.setUp == Returned(None, None) ==> OutcomeOf(steps) == TechnicalError(NilDereference)
    ensures Provisioned(b) && b.tearDown.Some? ==> OutcomeOf(steps) == Classify(t, b.tearDown)
    ensures Provisioned(b) && b.tearDown.None? ==> OutcomeOf(steps) == Classify(t, b.body)
  {
    var start := [SetUp(SetUpHook(t))];
    match b.setUp
    case SetUpPanicked(p) => start + [Notify(Classify(t, Some(p)))]
    case Returned(container, err) =>
      if err.Some? then
        start + [Notify(Classify(t, Some(ErrorValue(err.value))))]
      else if container.None? then
        start + [Notify(Classify(t, Some(NilDereference)))]
      else
        var raised := if b.tearDown.Some? then b.tearDown else b.body;
        var steps := start + [Body(container.value.hostPort), TearDown(TearDownHook(t)), Notify(Classify(t, raised))];
        assert steps[1].Body? && steps[2].TearDown?;
        steps
  }

  /** defaultTearDownContainer: kill, then remove only if the kill worked;
      either error is re-raised as a panic of an error value. */
  function DefaultTearDownContainer(killErr: Option<string>, removeErr: Option<string>): (p: Option<PanicValue>)
    ensures p.None? <==> killErr.None? && removeErr.None?
    ensures p.Some? ==> p.value.ErrorValue?
    ensures killErr.Some? ==> p == Some(ErrorValue(killErr.value))
    ensures killErr.None? && removeErr.Some? ==> p == Some(ErrorValue(removeErr.value))
  {
    if killErr.Some? then Some(ErrorValue(killErr.value))
    else if removeErr.Some? then Some(ErrorValue(removeErr.value))
    else None
  }

  // ---------------------------------------------------------------------
  // Run
  // ---------------------------------------------------------------------

  datatype Event =
    | AboutToStart(suites: seq<Suite>, tests: map<string, seq<Testcase>>)
    | SuiteStart(suite: Suite)
    | Executed(test: Testcase, steps: seq<Step>)

  datatype RunResult = Aborted(fault: Fault) | Completed(events: seq<Event>)

  function TestsOf(tests: map<string, seq<Testcase>>, name: string): seq<Testcase> {
    if name in tests then tests[name] else []
  }

  function TestEvents(cs: seq<Testcase>, world: string -> Behaviour): (r: seq<Event>)
    ensures |r| == |cs|
  {
    seq(|cs|, i requires 0 <= i < |cs| => Executed(cs[i], RunTest(cs[i], world(cs[i].name))))
  }

  /** The events after AboutToStart: per planned suite a SuiteStart, then
      one execution per test of that suite in the plan. */
  function Execution(suites: seq<Suite>, tests: map<string, seq<Testcase>>, world: string -> Behaviour): seq<Event> {
    if suites == [] then []
    else
      var s := suites[|suites| - 1];
      Execution(suites[..|suites| - 1], tests, world) + [SuiteStart(s)] + TestEvents(TestsOf(tests, s.name), world)
  }
}
