/** The streaming suite (tck/framework/streaming.go): the suite literal,
    the helpers that send frames to and read frames from one invocation
    stream, and the three case bodies built from them.

    A gRPC invocation stream is an InvokeClient object: it records what was
    sent and whether the send side was closed, and answers Recv from a
    script of what the function under test replies. Dialing and opening a
    stream are abstract results. */
module Streaming {
  import opened Framework

  // ---------------------------------------------------------------------
  // The suite literal
  // ---------------------------------------------------------------------

  const StreamingSuite: Suite := Suite(
    "s", "Streaming Interaction",
    [ Testcase("s-0001", "MUST fail if first InputFrame is not StartFrame", false, "upper", 0, false, false),
      Testcase("s-0002", "MUST fail if subsequent InputFrame is a StartFrame", false, "upper", 0, false, false),
      Testcase("s-0003", "MUST honor the expectedContentTypes header", false, "repeater", 0, false, false)
    ],
    8081)

  /** Three required cases s-0001 .. s-0003 with distinct names on port
      8081, with the default container hooks. */
  lemma StreamingSuiteShape()
    ensures StreamingSuite.name == "s" && StreamingSuite.port == 8081
    ensures |StreamingSuite.cases| == 3
    ensures StreamingSuite.cases[0].name == "s-0001"
    ensures StreamingSuite.cases[1].name == "s-0002"
    ensures StreamingSuite.cases[2].name == "s-0003"
    ensures forall i, j :: 0 <= i < j < |StreamingSuite.cases| ==>
      StreamingSuite.cases[i].name != StreamingSuite.cases[j].name
    ensures forall c :: c in StreamingSuite.cases ==>
      !c.optional && c.port == 0 && !c.customSetUp && !c.customTearDown
    ensures StreamingSuite.description != "" && forall c :: c in StreamingSuite.cases ==> c.description != ""
  {
  }

  // ---------------------------------------------------------------------
  // Frames and the invocation stream
  // ---------------------------------------------------------------------

  /** What the harness sends. Payloads are byte strings, compared as
      sequences. */
  datatype InputSignal =
    | StartFrame(expectedContentTypes: seq<string>, inputNames: seq<string>, outputNames: seq<string>)
    | DataFrame(argIndex: int, contentType: string, payload: string, headers: map<string, string>)

  datatype OutputFrame = OutputFrame(contentType: string, payload: string)

  /** An error from Recv: the end of the stream, a gRPC status carrying a
      message, or any other failure. */
  datatype RecvError = EndOfStream | Status(message: string) | Broken(message: string)

  datatype Received = Signal(frame: OutputFrame) | Failed(err: RecvError)

  /** The status message with which an invoker refuses a stream that does
      not open with a StartFrame. */
  const StartExpected: string := "Expected first frame to be of type Start"

  const ContextCanceled: string := "context canceled"

  function ErrorText(e: RecvError): string {
    match e
    case EndOfStream => "EOF"
    case Status(m) => m
    case Broken(m) => m
  }

  /** What the next Recv yields: once the replies run out the stream is
      at its end. */
  function Head(inbox: seq<Received>): Received {
    if inbox == [] then Failed(EndOfStream) else inbox[0]
  }

  function Tail<T>(s: seq<T>): seq<T> {
    if s == [] then [] else s[1..]
  }

  /** What the next Send returns: once the scripted failures run out every
      send succeeds. */
  function NextSend(results: seq<Option<string>>): Option<string> {
    if results == [] then None else results[0]
  }

  /** The next k sends all succeed. */
  predicate SendsSucceed(results: seq<Option<string>>, k: nat) {
    forall i :: 0 <= i < k && i < |results| ==> results[i].None?
  }

  /** One invocation stream: what was sent, whether the send side is
      closed, what the function will reply, and what the coming sends and
      the close will return. */
  class InvokeClient {
    var sent: seq<InputSignal>
    var closed: bool
    var inbox: seq<Received>
    var sendResults: seq<Option<string>>
    const closeError: Option<string>

    constructor(replies: seq<Received>, sendResults: seq<Option<string>>, closeError: Option<string>)
      ensures sent == [] && !closed && inbox == replies
      ensures this.sendResults == sendResults && this.closeError == closeError
    {
      sent, closed, inbox := [], false, replies;
      this.sendResults, this.closeError := sendResults, closeError;
    }

    method Send(s: InputSignal) returns (err: Option<string>)
      modifies this
      ensures err == NextSend(old(sendResults)) && sendResults == Tail(old(sendResults))
      ensures sent == if err.None? then old(sent) + [s] else old(sent)
      ensures inbox == old(inbox) && closed == old(closed)
    {
      err := NextSend(sendResults);
      sendResults := Tail(sendResults);
      if err.None? {
        sent := sent + [s];
      }
    }

    method Recv() returns (r: Received)
      modifies this
      ensures r == Head(old(inbox)) && inbox == Tail(old(inbox))
      ensures sent == old(sent) && closed == old(closed) && sendResults == old(sendResults)
    {
      if inbox == [] {
        r := Failed(EndOfStream);
      } else {
        r := inbox[0];
        inbox := inbox[1..];
      }
    }

    method CloseSend() returns (err: Option<string>)
      modifies this
      ensures err == closeError
      ensures closed == (old(closed) || closeError.None?)
      ensures sent == old(sent) && inbox == old(inbox) && sendResults == old(sendResults)
    {
      err := closeError;
      if err.None? {
        closed := true;
      }
    }
  }

  // ---------------------------------------------------------------------
  // Verdicts on one received item
  // ---------------------------------------------------------------------

  /** expectData: an error is re-panicked as the error it is; a frame of
      another content type or another payload is a string panic. */
  function DataVerdict(r: Received, contentType: string, payload: string): (p: Option<PanicValue>)
    ensures p.None? <==> r == Signal(OutputFrame(contentType, payload))
    ensures r.Failed? ==> p == Some(ErrorValue(ErrorText(r.err)))
    ensures p.Some? && p.value.OtherValue? <==> r.Signal? && r.frame != OutputFrame(contentType, payload)
  {
    match r
    case Failed(e) => Some(ErrorValue(ErrorText(e)))
    case Signal(f) =>
      if f.contentType != contentType then
        Some(OtherValue("Expected DataFrame contentType to be " + contentType + ", got " + f.contentType))
      else if f.payload != payload then
        Some(OtherValue("Expected DataFrame payload to be " + f.payload + ", got " + payload))
      else None
  }

  /** expectEOF: only the end of the stream passes; data or any other
      error is a string panic. */
  function EndVerdict(r: Received): (p: Option<PanicValue>)
    ensures p.None? <==> r == Failed(EndOfStream)
    ensures p.Some? ==> p.value.OtherValue?
  {
    if r == Failed(EndOfStream) then None
    else Some(OtherValue("Expected to receive EOF, either got data or a different error"))
  }

  /** The rejection check of s-0001 and s-0002: only a status error with
      exactly the StartFrame message passes; any other error is re-panicked
      as an error; data is a string panic. */
  function RejectionVerdict(r: Received): (p: Option<PanicValue>)
    ensures p.None? <==> r == Failed(Status(StartExpected))
    ensures p.Some? && p.value.OtherValue? <==> r.Signal?
    ensures r.Failed? && r != Failed(Status(StartExpected)) ==> p == Some(ErrorValue(ErrorText(r.err)))
  {
    match r
    case Signal(_) => Some(OtherValue("Expected error, got data"))
    case Failed(e) => if e == Status(StartExpected) then None else Some(ErrorValue(ErrorText(e)))
  }

  // ---------------------------------------------------------------------
  // The helpers on a stream
  // ---------------------------------------------------------------------

  /** sendData: exactly one data frame, with no headers. */
  method SendData(client: InvokeClient, index: int, contentType: string, payload: string) returns (p: Option<PanicValue>)
    modifies client
    ensures client.inbox == old(client.inbox) && client.closed == old(client.closed)
    ensures client.sendResults == Tail(old(client.sendResults))
    ensures NextSend(old(client.sendResults)).None? ==>
      p.None? && client.sent == old(client.sent) + [DataFrame(index, contentType, payload, map[])]
    ensures NextSend(old(client.sendResults)).Some? ==>
      p == Some(ErrorValue(NextSend(old(client.sendResults)).value)) && client.sent == old(client.sent)
  {
    var err := client.Send(DataFrame(index, contentType, payload, map[]));
    p := if err.Some? then Some(ErrorValue(err.value)) else None;
  }

  /** sendEOF: close the send side. */
  method SendEnd(client: InvokeClient) returns (p: Option<PanicValue>)
    modifies client
    ensures client.sent == old(client.sent) && client.inbox == old(client.inbox)
    ensures client.sendResults == old(client.sendResults)
    ensures client.closed == (old(client.closed) || client.closeError.None?)
    ensures client.closeError.None? ==> p.None? && client.closed
    ensures client.closeError.Some? ==> p == Some(ErrorValue(client.closeError.value))
  {
    var err := client.CloseSend();
    p := if err.Some? then Some(ErrorValue(err.value)) else None;
  }

  /** expectData: consumes exactly one received item. */
  method ExpectData(client: InvokeClient, contentType: string, payload: string) returns (p: Option<PanicValue>)
    modifies client
    ensures p == DataVerdict(Head(old(client.inbox)), contentType, payload)
    ensures client.inbox == Tail(old(client.inbox))
    ensures client.sent == old(client.sent) && client.closed == old(client.closed)
    ensures client.sendResults == old(client.sendResults)
  {
    var r := client.Recv();
    p := DataVerdict(r, contentType, payload);
  }

  /** expectEOF: consumes exactly one received item. */
  method ExpectEnd(client: InvokeClient) returns (p: Option<PanicValue>)
    modifies client
    ensures p == EndVerdict(Head(old(client.inbox)))
    ensures client.inbox == Tail(old(client.inbox))
    ensures client.sent == old(client.sent) && client.closed == old(client.closed)
    ensures client.sendResults == old(client.sendResults)
  {
    var r := client.Recv();
    p := EndVerdict(r);
  }

  // ---------------------------------------------------------------------
  // The case bodies
  // ---------------------------------------------------------------------

  /** grpc.DialContext with WithBlock: a context that is already done
      fails the dial with the context's error; otherwise the dial's own
      result. */
  function Dial(contextDone: bool, dialError: Option<string>): (err: Option<string>)
    ensures contextDone ==> err == Some(ContextCanceled)
    ensures !contextDone ==> err == dialError
  {
    if contextDone then Some(ContextCanceled) else dialError
  }

  function Start(contentTypes: seq<string>): InputSignal {
    StartFrame(contentTypes, ["words", "numbers"], ["repeated"])
  }

  /** s-0001: data before any StartFrame must be refused with the StartFrame
      message, and a later well-formed invocation that sends nothing must
      end cleanly. */
  method S0001(dialError: Option<string>, firstOpen: Option<string>, secondOpen: Option<string>,
               first: InvokeClient, second: InvokeClient)
    returns (p: Option<PanicValue>)
    requires first != second
    modifies first, second
    ensures p.None? <==>
      && dialError.None? && firstOpen.None? && secondOpen.None?
      && SendsSucceed(old(first.sendResults), 1) && Head(old(first.inbox)) == Failed(Status(StartExpected))
      && SendsSucceed(old(second.sendResults), 1) && second.closeError.None?
      && Head(old(second.inbox)) == Failed(EndOfStream)
    // data where the refusal was due is a failure of the function, not of the harness
    ensures dialError.None? && firstOpen.None? && SendsSucceed(old(first.sendResults), 1) && Head(old(first.inbox)).Signal? ==>
      p.Some? && p.value.OtherValue?
    ensures p.None? ==>
      && first.sent == old(first.sent) + [DataFrame(0, "text/plain", "hello", map[])]
      && second.sent == old(second.sent) + [Start(["application/json"])] && second.closed
  {
    var err := Dial(false, dialError);
    if err.Some? { return Some(ErrorValue(err.value)); }
    if firstOpen.Some? { return Some(ErrorValue(firstOpen.value)); }
    p := SendData(first, 0, "text/plain", "hello");
    if p.Some? { return; }
    var r := first.Recv();
    p := RejectionVerdict(r);
    if p.Some? { return; }
    if secondOpen.Some? { return Some(ErrorValue(secondOpen.value)); }
    err := second.Send(Start(["application/json"]));
    if err.Some? { return Some(ErrorValue(err.value)); }
    p := SendEnd(second);
    if p.Some? { return; }
    p := ExpectEnd(second);
  }

  /** s-0002: a second StartFrame must be refused with the StartFrame
      message, and a later invocation must still answer something other
      than an error. */
  method S0002(dialError: Option<string>, firstOpen: Option<string>, secondOpen: Option<string>,
               first: InvokeClient, second: InvokeClient)
    returns (p: Option<PanicValue>)
    requires first != second
    modifies first, second
    ensures p.None? <==>
      && dialError.None? && firstOpen.None? && secondOpen.None?
      && SendsSucceed(old(first.sendResults), 2) && Head(old(first.inbox)) == Failed(Status(StartExpected))
      && SendsSucceed(old(second.sendResults), 1) && Head(old(second.inbox)).Signal?
    ensures dialError.None? && firstOpen.None? && SendsSucceed(old(first.sendResults), 2) && Head(old(first.inbox)).Signal? ==>
      p.Some? && p.value.OtherValue?
    ensures p.None? ==>
      && first.sent == old(first.sent) + [Start(["application/json"]), Start(["application/json"])]
      && second.sent == old(second.sent) + [Start(["application/json"])]
  {
    var err := Dial(false, dialError);
    if err.Some? { return Some(ErrorValue(err.value)); }
    if firstOpen.Some? { return Some(ErrorValue(firstOpen.value)); }
    err := first.Send(Start(["application/json"]));
    if err.Some? { return Some(ErrorValue(err.value)); }
    err := first.Send(Start(["application/json"]));
    if err.Some? { return Some(ErrorValue(err.value)); }
    var r := first.Recv();
    p := RejectionVerdict(r);
    if p.Some? { return; }
    if secondOpen.Some? { return Some(ErrorValue(secondOpen.value)); }
    err := second.Send(Start(["application/json"]));
    if err.Some? { return Some(ErrorValue(err.value)); }
    r := second.Recv();
    if r.Failed? { return Some(ErrorValue(ErrorText(r.err))); }
  }

  /** One exchange of s-0003 answered correctly: the stream accepts what is
      sent and replies with two frames of the negotiated content type
      carrying `payload`, then ends. */
  predicate Repeated(inbox: seq<Received>, sendResults: seq<Option<string>>, closeError: Option<string>,
                     contentType: string, payload: string)
  {
    && SendsSucceed(sendResults, 3) && closeError.None?
    && |inbox| >= 2
    && inbox[0] == Signal(OutputFrame(contentType, payload))
    && inbox[1] == Signal(OutputFrame(contentType, payload))
    && Head(inbox[2..]) == Failed(EndOfStream)
  }

  /** One exchange of s-0003: ask for `contentType`, send the word "hello"
      on input 0 and the JSON number 2 on input 1, expect the word twice,
      close, expect the end. */
  method RepeatExchange(client: InvokeClient, contentType: string, payload: string) returns (p: Option<PanicValue>)
    modifies client
    ensures p.None? <==> Repeated(old(client.inbox), old(client.sendResults), client.closeError, contentType, payload)
    ensures p.None? ==>
      && client.sent == old(client.sent) + [
           Start([contentType]),
           DataFrame(0, "text/plain", "hello", map[]),
           DataFrame(1, "application/json", "2", map[])]
      && client.closed
  {
    ghost var inbox := client.inbox;
    var err := client.Send(Start([contentType]));
    if err.Some? { return Some(ErrorValue(err.value)); }
    p := SendData(client, 0, "text/plain", "hello");
    if p.Some? { return; }
    p := SendData(client, 1, "application/json", "2");
    if p.Some? { return; }
    p := ExpectData(client, contentType, payload);
    if p.Some? { return; }
    assert inbox[0] == Signal(OutputFrame(contentType, payload));
    p := ExpectData(client, contentType, payload);
    if p.Some? { return; }
    assert inbox[1] == Signal(OutputFrame(contentType, payload));
    assert client.inbox == inbox[2..];
    p := SendEnd(client);
    if p.Some? { return; }
    p := ExpectEnd(client);
  }

  /** s-0003 as written: `cancel()` is called on the dial's context before
      the dial, so the dial always fails with the context's error and the
      case is a technical error whatever the function does. */
  method S0003AsWritten(dialError: Option<string>, firstOpen: Option<string>, secondOpen: Option<string>,
                        first: InvokeClient, second: InvokeClient)
    returns (p: Option<PanicValue>)
    requires first != second
    modifies first, second
    ensures p == Some(ErrorValue(ContextCanceled))
    ensures Classify(StreamingSuite.cases[2], p).TechnicalError?
    ensures first.sent == old(first.sent) && second.sent == old(second.sent)
  {
    var err := Dial(true, dialError);
    // the dial's error is always set, so the exchanges are never reached
    p := Some(ErrorValue(err.value));
  }

  /** s-0003 with the context cancelled only when the case returns (as in
      s-0001 and s-0002): the text/plain exchange must answer "hello"
      twice, the application/json exchange the JSON string "hello" twice. */
  method S0003(dialError: Option<string>, firstOpen: Option<string>, secondOpen: Option<string>,
               first: InvokeClient, second: InvokeClient)
    returns (p: Option<PanicValue>)
    requires first != second
    modifies first, second
    ensures p.None? <==>
      && dialError.None? && firstOpen.None? && secondOpen.None?
      && Repeated(old(first.inbox), old(first.sendResults), first.closeError, "text/plain", "hello")
      && Repeated(old(second.inbox), old(second.sendResults), second.closeError, "application/json", "\"hello\"")
  {
    var err := Dial(false, dialError);
    if err.Some? { return Some(ErrorValue(err.value)); }
    if firstOpen.Some? { return Some(ErrorValue(firstOpen.value)); }
    p := RepeatExchange(first, "text/plain", "hello");
    if p.Some? { return; }
    if secondOpen.Some? { return Some(ErrorValue(secondOpen.value)); }
    p := RepeatExchange(second, "application/json", "\"hello\"");
  }
}
