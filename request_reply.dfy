/** The request / reply suite (tck/framework/request_reply.go): the suite
    literal, the verdicts of the cases that judge a status code or a body,
    and the container setup that passes the port in $PORT.

    An HTTP exchange is an input: either the error `http.DefaultClient.Do`
    returned, or the status and the body (or the error reading it). A
    verdict is the value the case body panics with, if any, which
    Framework.Classify turns into the listener notification. */
module RequestReply {
  import opened Framework
  import opened Provisioning
  import opened Decimal

  // ---------------------------------------------------------------------
  // The suite literal
  // ---------------------------------------------------------------------

  function Case(name: string, description: string, optional: bool, image: string): Testcase {
    Testcase(name, description, optional, image, 0, false, false)
  }

  /** rr-0000 is commented out in the source and is not part of the suite. */
  const RequestReplySuite: Suite := Suite(
    "rr", "Request / Reply Interaction",
    [ Case("rr-0001", "MUST NOT reply on paths other than / or methods other than POST", false, "upper"),
      Case("rr-0002", "MUST honor the Accept header", false, "upper"),
      Case("rr-0003", "SHOULD reply with 415 on unrecognized Content-Type", true, "upper"),
      Case("rr-0004", "MUST reply with 5xx on unmarshalling error", false, "upper"),
      Case("rr-0005", "SHOULD reply with 406 on inability to marshall back", true, "upper"),
      Case("rr-0006", "MUST survive invocation errors", true, "divider"),
      Case("rr-0007", "MAY support functions that maintain state", true, "counter"),
      Case("rr-0008", "MUST assume application/octet-stream when no Content-Type", false, "md5"),
      Case("rr-0009", "MUST assume Accept: */* when no Accept set", false, "upper")
    ],
    8080)

  function CaseNames(s: Suite): (names: seq<string>)
    ensures |names| == |s.cases|
    ensures forall i :: 0 <= i < |s.cases| ==> names[i] == s.cases[i].name
  {
    seq(|s.cases|, i requires 0 <= i < |s.cases| => s.cases[i].name)
  }

  /** Nine cases rr-0001 .. rr-0009 with distinct names, on port 8080. */
  lemma RequestReplySuiteNames()
    ensures RequestReplySuite.name == "rr" && RequestReplySuite.port == 8080
    ensures CaseNames(RequestReplySuite) ==
      ["rr-0001", "rr-0002", "rr-0003", "rr-0004", "rr-0005", "rr-0006", "rr-0007", "rr-0008", "rr-0009"]
    ensures forall i, j :: 0 <= i < j < |RequestReplySuite.cases| ==>
      RequestReplySuite.cases[i].name != RequestReplySuite.cases[j].name
  {
  }

  /** Optional exactly for rr-0003, rr-0005, rr-0006 and rr-0007, all
      described, all with the default container hooks and no port of
      their own. */
  lemma RequestReplySuiteFlags()
    ensures forall c :: c in RequestReplySuite.cases ==>
      (c.optional <==> c.name in {"rr-0003", "rr-0005", "rr-0006", "rr-0007"})
    ensures forall c :: c in RequestReplySuite.cases ==> c.port == 0 && !c.customSetUp && !c.customTearDown
    ensures RequestReplySuite.description != "" && forall c :: c in RequestReplySuite.cases ==> c.description != ""
  {
  }

  // ---------------------------------------------------------------------
  // Exchanges and verdicts
  // ---------------------------------------------------------------------

  /** A response: its status and what reading its body gave. */
  datatype Reply = Reply(status: int, body: Result<string, string>)

  /** One `http.DefaultClient.Do`: the transport error, or the response. */
  type Exchange = Result<Reply, string>

  /** The status-only cases: a transport error is re-panicked as the error
      it is; a response the case does not accept is a string panic. */
  function StatusVerdict(call: Exchange, accepted: bool, message: string): (p: Option<PanicValue>)
    ensures p.None? <==> call.Ok? && accepted
    ensures call.Err? ==> p == Some(ErrorValue(call.error))
    ensures call.Ok? && !accepted ==> p == Some(OtherValue(message))
  {
    if call.Err? then Some(ErrorValue(call.error))
    else if !accepted then Some(OtherValue(message))
    else None
  }

  /** rr-0003: the unrecognized Content-Type must draw a 415. */
  function Rr0003(call: Exchange): (p: Option<PanicValue>)
    ensures p.None? <==> call.Ok? && call.value.status == 415
    ensures p.Some? && p.value.OtherValue? <==> call.Ok? && call.value.status != 415
  {
    StatusVerdict(call, call.Ok? && call.value.status == 415,
      if call.Ok? then "Expected 415 http code, got " + Format(call.value.status) else "")
  }

  /** rr-0004: malformed JSON must draw a status of 500 or more. */
  function Rr0004(call: Exchange): (p: Option<PanicValue>)
    ensures p.None? <==> call.Ok? && call.value.status >= 500
    ensures p.Some? && p.value.OtherValue? <==> call.Ok? && call.value.status < 500
  {
    StatusVerdict(call, call.Ok? && call.value.status >= 500,
      if call.Ok? then "Expected 5xx http code, got " + Format(call.value.status) else "")
  }

  /** rr-0005: an Accept the function cannot produce must draw a 406. */
  function Rr0005(call: Exchange): (p: Option<PanicValue>)
    ensures p.None? <==> call.Ok? && call.value.status == 406
    ensures p.Some? && p.value.OtherValue? <==> call.Ok? && call.value.status != 406
  {
    StatusVerdict(call, call.Ok? && call.value.status == 406,
      if call.Ok? then "Expected 406 http code, got " + Format(call.value.status) else "")
  }

  /** The body check of rr-0001 for one response: a read error is
      re-panicked, "HELLO" means the function answered where it must not. */
  function HelloVerdict(reply: Reply, message: string): (p: Option<PanicValue>)
    ensures p.None? <==> reply.body.Ok? && reply.body.value != "HELLO"
    ensures reply.body.Err? ==> p == Some(ErrorValue(reply.body.error))
    ensures reply.body == Ok("HELLO") ==> p == Some(OtherValue(message))
  {
    match reply.body
    case Err(e) => Some(ErrorValue(e))
    case Ok(text) => if text == "HELLO" then Some(OtherValue(message)) else None
  }

  /** rr-0001: POST on /bogus, then PUT on /. The error of the first `Do`
      is never checked, so a transport failure there surfaces as the nil
      dereference of `response.Body`. */
  function Rr0001(bogusPath: Exchange, put: Exchange): (p: Option<PanicValue>)
    ensures p.None? <==>
      && bogusPath.Ok? && bogusPath.value.body.Ok? && bogusPath.value.body.value != "HELLO"
      && put.Ok? && put.value.body.Ok? && put.value.body.value != "HELLO"
    // a failure (not a technical error) exactly when a body that was read says HELLO
    ensures p.Some? && p.value.OtherValue? <==>
      || (bogusPath.Ok? && bogusPath.value.body == Ok("HELLO"))
      || (bogusPath.Ok? && bogusPath.value.body.Ok? && put.Ok? && put.value.body == Ok("HELLO"))
    ensures bogusPath.Err? ==> p == Some(NilDereference)
  {
    if bogusPath.Err? then Some(NilDereference)
    else
      var first := HelloVerdict(bogusPath.value, "The function function should only be exposed on /");
      if first.Some? then first
      else if put.Err? then Some(ErrorValue(put.error))
      else HelloVerdict(put.value, "The function should only be exposed on /")
  }

  /** 1 + 2 + ... + n. */
  function SumTo(n: nat): nat {
    if n == 0 then 0 else SumTo(n - 1) + n
  }

  lemma {:induction false} Gauss(n: nat)
    ensures 2 * SumTo(n) == n * (n + 1)
  {
    if n > 0 {
      Gauss(n - 1);
    }
  }

  /** The total rr-0007 expects after the calls with 1 .. 100. */
  lemma CounterTotal()
    ensures SumTo(100) == 100 * 101 / 2 == 5050
  {
    Gauss(100);
  }

  /** The helper `f` of rr-0007 on one exchange: the number the counter
      answered, or the value it puts on the error channel. A non-200 status
      is reported as a string, the other failures as errors; a body that
      Atoi refuses is its syntax error. */
  function CounterCall(call: Exchange): (r: Result<int, PanicValue>)
    ensures r.Ok? <==> call.Ok? && call.value.status == 200 && call.value.body.Ok? && Parse(call.value.body.value).Some?
    ensures r.Ok? ==> r.value == Parse(call.value.body.value).value
    ensures r.Err? && r.error.OtherValue? <==> call.Ok? && call.value.status != 200
  {
    if call.Err? then Err(ErrorValue(call.error))
    else if call.value.status != 200 then Err(OtherValue("Expected 200 http code, got " + Format(call.value.status)))
    else if call.value.body.Err? then Err(ErrorValue(call.value.body.error))
    else
      var text := call.value.body.value;
      match Parse(text)
      case None => Err(ErrorValue("strconv.Atoi: parsing " + text + ": invalid syntax"))
      case Some(n) => Ok(n)
  }

  /** rr-0007 after the 99 concurrent calls: `poolErrors` is what they put
      on the channel, in channel order; `final` is the call with 100. */
  function Rr0007(poolErrors: seq<PanicValue>, final: Exchange): (p: Option<PanicValue>)
    ensures p.None? <==> poolErrors == [] && CounterCall(final) == Ok(SumTo(100))
    ensures poolErrors != [] ==> p == Some(poolErrors[0])
    ensures poolErrors == [] && CounterCall(final).Err? ==> p == Some(CounterCall(final).error)
    ensures poolErrors == [] && CounterCall(final).Ok? && CounterCall(final).value != 5050 ==> p.Some? && p.value.OtherValue?
  {
    CounterTotal();
    if poolErrors != [] then Some(poolErrors[0])
    else
      match CounterCall(final)
      case Err(e) => Some(e)
      case Ok(result) =>
        if result != 100 * 101 / 2 then
          Some(OtherValue("Expected invocations of counter with values 1..100 to sum up to 5050, got " + Format(result)))
        else None
  }

  /** A counter that answers "5050" with a 200 makes rr-0007 pass when no
      concurrent call failed, whether the answer carries a sign or not. */
  lemma Rr0007Passes()
    ensures Rr0007([], Ok(Reply(200, Ok("5050")))) == None
    ensures Rr0007([], Ok(Reply(200, Ok("+5050")))) == None
    ensures Rr0007([], Ok(Reply(200, Ok("5049")))).Some?
  {
    CounterTotal();
    assert Parse("5050") == Some(5050) by { ParseFormat(5050); assert Format(5050) == "5050"; }
    assert Parse("+5050") == Some(5050) by { assert "+5050"[1..] == "5050"; ParseFormat(5050); assert Format(5050) == "5050"; }
  }

  /** How a verdict is reported for an optional case and for a required
      one: only a string panic depends on the Optional flag. */
  lemma StatusFailuresAreGraded(call: Exchange)
    requires call.Ok?
    ensures call.value.status != 415 ==> Classify(RequestReplySuite.cases[2], Rr0003(call)).OptionalFailure?
    ensures call.value.status < 500 ==> Classify(RequestReplySuite.cases[3], Rr0004(call)).HardFailure?
    ensures call.value.status != 406 ==> Classify(RequestReplySuite.cases[4], Rr0005(call)).OptionalFailure?
  {
  }

  // ---------------------------------------------------------------------
  // Container setup through $PORT
  // ---------------------------------------------------------------------

  /** The container port the function is told to listen on. */
  const PortEnvPort: int := 4321

  /** setUpContainerUsingPortEnvVar: pull (even when pulls are switched
      off), bind container port 4321 to a free host port with PORT=4321 in
      the environment, then dial with backoff 10 ms * 2^i; unlike the
      default setup the last dial error is returned, and a ready container
      gets a further fixed 1000 ms. Used only by the commented-out rr-0000. */
  method SetUpContainerUsingPortEnvVar(
    image: string,
    pull: Option<string>, freePort: Result<int, string>, create: Result<string, string>, start: Option<string>,
    dials: seq<Option<string>>)
    returns (r: SetUpResult, request: Option<ContainerSpec>, sleeps: seq<nat>)
    requires |dials| == MaxAttempts
    ensures r.Returned?
    ensures r.container.Some? <==>
      pull.None? && freePort.Ok? && create.Ok? && start.None? && LeadingFailures(dials, 0) < MaxAttempts
    ensures r.container.Some? ==> r == Returned(Some(Container(create.value, freePort.value)), None)
    ensures r.container.None? ==> r.err.Some?
    ensures pull.Some? ==> r == Returned(None, pull)
    ensures pull.None? && freePort.Ok? ==>
      request == Some(ContainerSpec(image, PortEnvPort, freePort.value, ["PORT=4321"]))
    ensures pull.None? && freePort.Ok? && create.Ok? && start.None? ==>
      && (LeadingFailures(dials, 0) < MaxAttempts ==> sleeps == Backoff(10, LeadingFailures(dials, 0)) + [1000])
      && (LeadingFailures(dials, 0) == MaxAttempts ==>
            sleeps == Backoff(10, MaxAttempts) && r.err == dials[MaxAttempts - 1])
  {
    sleeps := [];
    if pull.Some? {
      return Returned(None, pull), None, sleeps;
    }
    if freePort.Err? {
      return Returned(None, Some(freePort.error)), None, sleeps;
    }
    var hostPort := freePort.value;
    request := Some(ContainerSpec(image, PortEnvPort, hostPort, ["PORT=4321"]));
    if create.Err? {
      return Returned(None, Some(create.error)), request, sleeps;
    }
    if start.Some? {
      return Returned(None, start), request, sleeps;
    }
    var ready, attempts, err;
    ready, attempts, err, sleeps := PollReady(dials, 10);
    if err.Some? {
      return Returned(None, err), request, sleeps;
    }
    sleeps := sleeps + [1000];
    r := Returned(Some(Container(create.value, hostPort)), None);
  }
}
