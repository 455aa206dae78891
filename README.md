# Invoker specification TCK, modelled in Dafny

The riff invoker TCK is a Go harness that checks function invokers. It
starts each sample function in a container, talks to it over HTTP
(request / reply) or gRPC (streaming), and reports every test case as
pass, hard failure, optional failure or technical error. This project
models the harness's planning and outcome engine, the verdicts of its
two test suites and the sample functions the suites exercise. It then
proves what each of them promises.

| file | module | models |
|---|---|---|
| `framework.dfy` | `Framework` | records (`Suite`, `Testcase`, `Config`, `Container`), focus predicates, name checks, the plan `Run` builds, `Testcase.Run` as a sequence of steps ending in one notification, the default teardown |
| `runner.dfy` | `Runner`, `RunnerProperties` | `Runner.Run` as a method with loops over the registry, image checks and pulls, and the execution of every planned test; lemmas about the plan |
| `provisioning.dfy` | `Provisioning` | the readiness loop with exponential backoff and `defaultSetUpContainer` |
| `decimal.dfy` | `Decimal` | decimal formatting and `strconv.Atoi`-style parsing used by rr-0007 and by the Java repeater's error text |
| `request_reply.dfy` | `RequestReply` | the `rr` suite literal, the verdicts of rr-0001, rr-0003, rr-0004, rr-0005 and rr-0007, and `setUpContainerUsingPortEnvVar` |
| `streaming.dfy` | `Streaming` | the `s` suite literal, an invocation stream client as a class, `sendData`, `sendEOF`, `expectData`, `expectEOF` and the s-0001 .. s-0003 exchanges |
| `registry.dfy` | `Registry` | the suite list of `tck/main.go` and the proof that it passes the name checks under any focus |
| `md5_hex.dfy` | `Md5Hex` | `MD5.bytesToHex` over an array of Java bytes |
| `java_repeater.dfy` | `JavaRepeater` | `Repeater.apply` on finite sequences |
| `hundred_divider.dfy` | `HundredDivider` | `HundredDivider.apply` with Java's truncating 32-bit division |
| `node_repeater.dfy` | `NodeRepeater` | the Node `Zipper` and `Repeater` streams as classes with in-place buffers |

Docker, HTTP, gRPC, the clock and free-port allocation are inputs. A
container start is a `Result`. A readiness probe is a sequence of ten
`Option<string>` results. A stream is a scripted inbox of received items
and a scripted list of send results. Sleeps are integer milliseconds.

A Go panic value is either an `ErrorValue`, which implements `error`, or
an `OtherValue`, such as a string. `Testcase.Run` recovers with a type
assertion to the interface type `runnerError`, so any `error` value is a
technical error, whatever raised it.

Where the prose description of the TCK and the code disagree, the model
follows the code:

- Classification depends on whether the recovered value implements
  `error`, not on whether the harness or the function caused it
  (`tck/framework/framework.go:194`).
- A teardown panic does not end the run. The teardown defer runs before
  the recovering defer, so the teardown panic replaces any body panic
  and is classified like one (`tck/framework/framework.go:192-224`).
- The `tests` map handed to `AboutToStart` is keyed by suite pointer. The
  model keys it by suite name, which is unique once the name checks pass;
  `RunnerProperties.TestsMapHoldsPlannedTests` shows that no suite's
  entry is then overwritten.
- `setUpContainerUsingPortEnvVar` pulls its image even when `NoPull` is
  set.

## Model

| member | source | states |
|---|---|---|
| Framework.IsTestFocused | tck/framework/framework.go:182-189 | the search loop answers true exactly when the test's name is in the test-focus list |
| Framework.SuiteShouldRun | tck/framework/framework.go:157-172 | true exactly when suite focus is empty, names the suite, or names one of its cases as a focused test |
| Framework.TestShouldRun | tck/framework/framework.go:175-180 | true exactly when test focus is empty or names the test; suite focus plays no part |
| Framework.CheckName | tck/framework/framework.go:130-154 | accepts exactly a non-empty name and description whose name is not yet claimed; on success the name map gains that one key and keeps every other entry; a duplicate reports the item that claimed the name first |
| Framework.Classify | tck/framework/framework.go:192-204 | Pass exactly when nothing was recovered; TechnicalError exactly for an `error` value; otherwise OptionalFailure or HardFailure by the Optional flag; the recovered value is the reported detail |
| Framework.RunTest | tck/framework/framework.go:191-226 | setup comes first and runs exactly once, and exactly one notification comes last (two steps when setup fails, four when it provisions); the body and the teardown run exactly when setup returned a container and no error; a setup error is a technical error; a nil container with no error faults before the body; a teardown panic supersedes the body's |
| Framework.DefaultTearDownContainer | tck/framework/framework.go:267-276 | panics exactly when the kill or the remove fails, always with an `error`, with the kill error when the kill fails and otherwise with the remove error |
| Runner.PlanCase | tck/framework/framework.go:91-101 | the name check succeeds exactly when the item list stays well named; the test is planned exactly when it is selected |
| Runner.PlanCases | tck/framework/framework.go:91-102 | the loop over a selected suite's cases name-checks every case, plans the selected ones in order, collects their images and resolves their ports |
| Runner.PlanSuite | tck/framework/framework.go:84-102 | one registry step: suite and, when selected, cases name-checked; planned tests, images and resolved suite as the plan functions say |
| Runner.PlanRun | tck/framework/framework.go:77-103 | the planning loop succeeds exactly when every checked item is well named, and then yields the planned suites, the tests map, the required images and the resolved registry |
| Runner.CheckImages | tck/framework/framework.go:105-109 | no fault exactly when every required image maps to a non-empty reference; a fault names a required image without one |
| Runner.PullImages | tck/framework/framework.go:111-117 | no fault exactly when pulls are switched off or no required image's reference fails to pull; a fault names the image and its reference |
| Runner.Execute | tck/framework/framework.go:121-126 | the events are each planned suite's SuiteStart followed by one execution per planned test, in order |
| Runner.Run | tck/framework/framework.go:77-128 | aborts with a name fault exactly when the checked items are not well named, with a missing image exactly when names pass and some required image is unmapped, with a pull failure exactly when both pass and a pull fails; otherwise AboutToStart, then the execution of the plan |
| Runner.WellNamedSnoc | tck/framework/framework.go:130-154 | appending one item keeps the list well named exactly when the item has a name, a description and an unclaimed name |
| Runner.CheckedItemsPrefix | tck/framework/framework.go:84-92 | the items checked for a prefix of the registry are a prefix of those checked for the whole registry |
| RunnerProperties.NoSuiteFocusPlansEverySuite | tck/framework/framework.go:86-87 | with no suite focus every suite of the registry is planned, in order, as resolved |
| RunnerProperties.ExecutionStartsEverySuite | tck/framework/framework.go:121-122 | every planned suite gets a SuiteStart event |
| RunnerProperties.NoSuiteFocusStartsEverySuite | tck/framework/framework.go:86-87 | with no suite focus every suite gets SuiteStart, even when none of its tests is selected |
| RunnerProperties.PlannedTestsAreSelectedCases | tck/framework/framework.go:93-101 | the planned tests are exactly the selected cases, with port 0 replaced by the suite's port |
| RunnerProperties.FocusedSuiteWithUnrelatedTestFocus | tck/framework/framework.go:157-180 | a suite focused by name runs, but plans no test when only unrelated tests are focused |
| RunnerProperties.ExecutedTestsOfTestEvents | tck/framework/framework.go:123-125 | running a suite's tests executes exactly those tests, in order |
| RunnerProperties.ExecutionRunsEachPlannedTestOnce | tck/framework/framework.go:121-126 | the executed tests are the planned tests of every planned suite, each once, in plan order |
| RunnerProperties.TestsMapKeys | tck/framework/framework.go:81-96 | only names the checks have claimed key the tests map |
| RunnerProperties.TestsMapHoldsPlannedTests | tck/framework/framework.go:81-96 | once the names check out, the tests map holds under each selected suite exactly that suite's selected cases, resolved, in case order |
| RunnerProperties.PlannedTestOrderOfPlan | tck/framework/framework.go:84-96 | with such a map, the tests of the planned suites, suite after suite, are the selected cases of the selected suites in registry order |
| RunnerProperties.CompletedRunExecutesSelectedTests | tck/framework/framework.go:77-126 | the events of a completed Run execute the selected cases of the selected suites, each once, in registry order and then case order |
| Provisioning.BackoffTotal | tck/framework/framework.go:258 | n doubling sleeps from base add up to base * (2^n - 1) |
| Provisioning.WorstCaseBackoff | tck/framework/framework.go:251-259 | ten failed probes sleep 20460 ms in the default setup and 10230 ms in the port-env setup |
| Provisioning.LeadingFailures | tck/framework/framework.go:251-257 | the index of the first successful probe: every earlier probe failed and, below ten, that one succeeded |
| Provisioning.LeadingFailuresIs | tck/framework/framework.go:251-257 | any index with only failures before it and a success at it is the one LeadingFailures finds |
| Provisioning.PollReady | tck/framework/framework.go:251-259 | ready exactly when some probe succeeds; attempts up to and including the first success, else ten; when never ready, the last probe's error; one doubling sleep per failed probe |
| Provisioning.DefaultSetUpContainer | tck/framework/framework.go:228-265 | as written: a free-port, create or start error is returned; once started, the container is returned with no error whatever the probes said |
| Provisioning.CheckedSetUpContainer | tck/framework/framework.go:228-265 | as evidently intended: a container is returned exactly when every step succeeded and some probe succeeded; otherwise an error, which is the last probe's error when only the probes failed |
| Provisioning.NeverReadyProbes | tck/framework/framework.go:251-259 | ten refused probes never find a success |
| Provisioning.NeverReadySetUps | tck/framework/framework.go:228-265 | on ten refused probes the setup as written returns the container and no error, while the intended setup returns no container and the error "connection refused" |
| Decimal.Natural | tck/framework/request_reply.go:280 | decimal digits without a leading zero |
| Decimal.NaturalValue | tck/framework/request_reply.go:280 | the digits Natural writes read back as the number |
| Decimal.Parse | tck/framework/request_reply.go:297-300 | succeeds exactly on digits with an optional sign; the value is the one the digits spell, negated after '-' and unchanged after '+' |
| Decimal.ParseFormat | tck/framework/request_reply.go:280-300 | parsing a formatted integer gives it back |
| Decimal.FormatInjective | tck/framework/request_reply.go:280 | different integers format differently |
| RequestReply.RequestReplySuiteNames | tck/framework/request_reply.go:21-392 | suite "rr" on port 8080 with the nine cases rr-0001 .. rr-0009, in order, with distinct names |
| RequestReply.RequestReplySuiteFlags | tck/framework/request_reply.go:21-392 | optional exactly on rr-0003, rr-0005, rr-0006 and rr-0007; every case described, with no port of its own and the default hooks |
| RequestReply.StatusVerdict | tck/framework/request_reply.go:162-168 | passes exactly when the call succeeded with an accepted status; a transport error is re-panicked as an `error`; a wrong status panics with a message |
| RequestReply.Rr0003 | tck/framework/request_reply.go:150-170 | passes exactly on status 415; any other status is a failure, not a technical error |
| RequestReply.Rr0004 | tck/framework/request_reply.go:171-190 | passes exactly on a status of 500 or more |
| RequestReply.Rr0005 | tck/framework/request_reply.go:191-211 | passes exactly on status 406 |
| RequestReply.HelloVerdict | tck/framework/request_reply.go:79-83 | passes exactly when the body was read and is not "HELLO"; a read error is an `error` panic; "HELLO" is a failure |
| RequestReply.Rr0001 | tck/framework/request_reply.go:51-85 | passes exactly when both bodies were read and neither is "HELLO"; fails exactly when a body that was read is "HELLO"; a failed bogus-path request faults on the nil response |
| RequestReply.Gauss | tck/framework/request_reply.go:313-326 | twice the sum 1 + .. + n is n(n+1) |
| RequestReply.CounterTotal | tck/framework/request_reply.go:320-326 | the hundred increments add up to 100*101/2 = 5050 |
| RequestReply.CounterCall | tck/framework/request_reply.go:280-303 | a counter call yields a number exactly when the status is 200 and the body parses; a wrong status is a failure message, the other faults are `error` panics |
| RequestReply.Rr0007 | tck/framework/request_reply.go:270-329 | passes exactly when no worker enqueued an error and the final call returns 5050; the first enqueued error wins; a wrong total is a failure |
| RequestReply.Rr0007Passes | tck/framework/request_reply.go:313-326 | "5050" and "+5050" pass and "5049" fails |
| RequestReply.StatusFailuresAreGraded | tck/framework/request_reply.go:150-211 | a wrong status is an optional failure for rr-0003 and rr-0005 and a hard failure for rr-0004 |
| RequestReply.SetUpContainerUsingPortEnvVar | tck/framework/request_reply.go:395-437 | a container exactly when the pull, port, create and start succeed and some dial succeeds; container port 4321 with PORT=4321; doubling 10 ms sleeps then 1000 ms on success; the last dial error when every dial fails |
| Streaming.StreamingSuiteShape | tck/framework/streaming.go:16-208 | suite "s" on port 8081 with three required cases s-0001 .. s-0003, distinct names, all described, default hooks |
| Streaming.InvokeClient.Send | tck/framework/streaming.go:223-237 | a send that succeeds appends its signal; one that fails appends nothing; the scripted result is consumed |
| Streaming.InvokeClient.Recv | tck/framework/streaming.go:239-242 | receives exactly the next item, end of stream once the replies run out |
| Streaming.InvokeClient.CloseSend | tck/framework/streaming.go:217-221 | closes the send side exactly when closing succeeds |
| Streaming.DataVerdict | tck/framework/streaming.go:239-248 | passes exactly on an output frame with the expected content type and payload; a receive error is an `error` panic; any other frame is a failure |
| Streaming.EndVerdict | tck/framework/streaming.go:210-215 | passes exactly on end of stream; anything else is a failure |
| Streaming.RejectionVerdict | tck/framework/streaming.go:40-47 | passes exactly on the status "Expected first frame to be of type Start"; data instead is a failure; another error is an `error` panic |
| Streaming.SendData | tck/framework/streaming.go:223-237 | sends exactly one data frame with the given index, content type and payload and no headers, or panics with the send error |
| Streaming.SendEnd | tck/framework/streaming.go:217-221 | closes the send side, or panics with the close error and leaves the send side as it was |
| Streaming.ExpectData | tck/framework/streaming.go:239-248 | consumes exactly one item and judges it by DataVerdict |
| Streaming.ExpectEnd | tck/framework/streaming.go:210-215 | consumes exactly one item and judges it by EndVerdict |
| Streaming.S0001 | tck/framework/streaming.go:21-69 | passes exactly when data before a StartFrame is refused with the StartFrame message and a later empty invocation ends cleanly; data instead of the refusal is a failure |
| Streaming.S0002 | tck/framework/streaming.go:70-142 | passes exactly when a second StartFrame is refused with the StartFrame message and a later invocation replies |
| Streaming.RepeatExchange | tck/framework/streaming.go:159-178 | passes exactly when ("hello", 2) comes back as two frames of the negotiated type followed by end of stream |
| Streaming.S0003AsWritten | tck/framework/streaming.go:143-206 | as written: the context is cancelled before the dial, so the case is always a technical error and sends nothing |
| Streaming.S0003 | tck/framework/streaming.go:143-206 | as evidently intended: passes exactly when both invocations repeat "hello" twice, as text and as JSON |
| Registry.RegisteredSuitesWellNamed | tck/main.go:12 | under any focus the registered suites pass every name check, so Run never aborts with a name fault on them |
| Md5Hex.Unsigned | tck/samples/java/src/main/java/io/projectriff/tck/MD5.java:25 | `b & 0xFF` lies in 0 .. 255 and maps a negative byte to b + 256 |
| Md5Hex.HighNibble | tck/samples/java/src/main/java/io/projectriff/tck/MD5.java:26 | `v >>> 4` is v / 16 |
| Md5Hex.LowNibble | tck/samples/java/src/main/java/io/projectriff/tck/MD5.java:27 | `v & 0x0F` is v % 16 |
| Md5Hex.HexAt | tck/samples/java/src/main/java/io/projectriff/tck/MD5.java:24-28 | characters 2i and 2i+1 are the table digits of byte i's high and low nibble |
| Md5Hex.BytesToHex | tck/samples/java/src/main/java/io/projectriff/tck/MD5.java:22-30 | the filled char array is the hex encoding of the byte array |
| Md5Hex.HexShape | tck/samples/java/src/main/java/io/projectriff/tck/MD5.java:9 | twice as many characters as bytes, and only lowercase hex digits |
| Md5Hex.UnhexHex | tck/samples/java/src/main/java/io/projectriff/tck/MD5.java:24-28 | decoding every pair of characters gives the bytes back |
| Md5Hex.HexInjective | tck/samples/java/src/main/java/io/projectriff/tck/MD5.java:24-28 | different byte arrays encode differently |
| Md5Hex.HelloDigest | tck/framework/request_reply.go:349 | the 16-byte md5 digest of "hello" encodes to 5d41402abc4b2a76b9719d911017c592 |
| JavaRepeater.RepeatTruncates | tck/samples/java/src/main/java/io/projectriff/tck/Repeater.java:15 | only the first min(|words|, |numbers|) elements of either input matter |
| JavaRepeater.RepeatFailsOnNegativeCount | tck/samples/java/src/main/java/io/projectriff/tck/Repeater.java:15 | the flux ends in an error exactly when some zipped count is negative |
| JavaRepeater.RepeatLength | tck/samples/java/src/main/java/io/projectriff/tck/Repeater.java:15 | without an error the output is as long as the zipped counts add up to |
| JavaRepeater.RepeatEmitsWords | tck/samples/java/src/main/java/io/projectriff/tck/Repeater.java:15 | every output item is one of the words |
| JavaRepeater.RepeatHelloTwice | tck/framework/streaming.go:172-176 | ("hello", 2) gives "hello" twice |
| HundredDivider.TruncDiv | tck/samples/java/src/main/java/io/projectriff/tck/HundredDivider.java:9 | the quotient's magnitude is the quotient of the magnitudes, and its sign is negative only when the operands' signs differ |
| HundredDivider.TruncDivRemainder | tck/samples/java/src/main/java/io/projectriff/tck/HundredDivider.java:9 | the remainder is smaller than the divisor and has the dividend's sign |
| HundredDivider.JavaDiv | tck/samples/java/src/main/java/io/projectriff/tck/HundredDivider.java:9 | MIN_VALUE / -1 wraps to MIN_VALUE; every other quotient truncates |
| HundredDivider.Apply | tck/samples/java/src/main/java/io/projectriff/tck/HundredDivider.java:7-10 | throws exactly for 0; otherwise the result lies in -100 .. 100 and result * x falls short of 100 by less than abs(x) |
| HundredDivider.ApplyExamples | tck/framework/request_reply.go:233 | 2 gives 50, 4 gives 25, -3 gives -33, and 0 throws |
| HundredDivider.ApplyIsEuclidean | tck/samples/java/src/main/java/io/projectriff/tck/HundredDivider.java:9 | with the positive dividend 100, truncation agrees with Euclidean division |
| NodeRepeater.Bound | tck/samples/node/repeater.js:22 | at most the size and every buffer's length, and equal to one of them |
| NodeRepeater.Zipper.constructor | tck/samples/node/repeater.js:6-19 | one empty buffer per input stream, not waiting, nothing pushed |
| NodeRepeater.Zipper.OnData | tck/samples/node/repeater.js:11-17 | appends the chunk to its own stream's buffer, then reads that buffer's length when waiting |
| NodeRepeater.Zipper.Read | tck/samples/node/repeater.js:21-41 | the new state is the one ReadSpec gives for the old state |
| NodeRepeater.BoundOf | tck/samples/node/repeater.js:22 | the loop computes Math.min(size, every buffer's length) |
| NodeRepeater.Splice | tck/samples/node/repeater.js:28-29 | returns the first `bound` items of every buffer and leaves the rest |
| NodeRepeater.ZipWith | tck/samples/node/repeater.js:30-37 | the reducer extends tuple i with the next stream's item i, spreading an array |
| NodeRepeater.ZipAll | tck/samples/node/repeater.js:28-37 | the tuples are the reduce of the removed items, stream after stream |
| NodeRepeater.ReduceTuple | tck/samples/node/repeater.js:30-36 | tuple i holds the i-th removed item of every stream in stream order, with an array chunk of the first stream spread into it |
| NodeRepeater.ReadMovesBoundItems | tck/samples/node/repeater.js:22-40 | waits exactly when bound is 0; otherwise removes exactly `bound` items from the front of every buffer and appends `bound` tuples after what was already pushed |
| NodeRepeater.WaitsOnlyWhenStarved | tck/samples/node/repeater.js:22-25 | with a positive size the zipper only waits when some stream has nothing buffered |
| NodeRepeater.OnDataAppendsToOwnBuffer | tck/samples/node/repeater.js:11-13 | a chunk changes only its own stream's buffer when the zipper is not waiting |
| NodeRepeater.Repeater.Transform | tck/samples/node/repeater.js:49-55 | as written: pushes item 1 of the tuple as many times as item 0 is a positive number |
| NodeRepeater.Repeater.TransformIntended | tck/samples/node/repeater.js:49-55 | as evidently intended: pushes the word, item 0, as many times as the count, item 1 |
| NodeRepeater.ZippedTuple | tck/samples/node/repeater.js:59 | zipping words with numbers makes the tuple [word, number] |
| NodeRepeater.AsWrittenEmitsNothing | tck/samples/node/repeater.js:49-53 | as written, the pipeline emits nothing when no word is one the model coerces to a number (a string of decimal digits) |
| NodeRepeater.NumericWordRepeatsNumber | tck/samples/node/repeater.js:49-53 | as written, a word of digits is coerced to the count: ("2", 5) emits 5 twice |
| NodeRepeater.ReadZipsPrefixes | tck/samples/node/repeater.js:21-41 | after the words and then the numbers are buffered, a read of `size` pushes the first min(size, words, numbers) [word, number] tuples and waits exactly when that minimum is 0 |
| NodeRepeater.ZipInputs | tck/samples/node/repeater.js:6-62 | a Zipper fed every word, then every number, through its data handler and then read with `size` pushes the zip of the first min(size, words, numbers) words and numbers |
| NodeRepeater.HelloIsDropped | tck/samples/node/repeater.js:50 | ("hello", 2) yields nothing from the Node pipeline but "hello" twice from the Java repeater |
| NodeRepeater.IntendedMatchesJava | tck/samples/node/repeater.js:49-55 | with the count read from item 1, the Node pipeline emits what the Java repeater emits, for every non-negative count |

## Left out

- Docker, HTTP, gRPC, free-port allocation and the clock are inputs to the model. Sleeps are integer milliseconds. `math.Pow` on floats is the exact power of two.
- `Runner.Run` overwrites `c.Port` in place on the shared `Testcase`. The model returns the resolved registry instead, so aliasing between suites that share a case is not captured.
- The text of Go panic messages (`%v` formatting of suites, tests and errors) is not modelled. A fault records the item or image it is about.
- `panic(nil)` is not modelled. A recovered value is always present when a panic happened.
- The bodies of rr-0002, rr-0006, rr-0008 and rr-0009 are not modelled. They compare response headers and bodies. Their expected values are covered where they concern a sample: HundredDivider.ApplyExamples and Md5Hex.HelloDigest.
- rr-0007's worker pool (goroutines, wait group, error channel) is reduced to the list of errors the workers enqueued and the final call.
- Decimal.Parse: the 64-bit range limit of `strconv.Atoi` is not modelled.
- `http.NewRequest` errors are not modelled. The requests are built from constant URLs.
- `mime.ParseMediaType` and `reflect.DeepEqual` are string and sequence equality. The difference between a nil and an empty header map is not modelled.
- NodeRepeater.Repetitions: `i < repetition` coerces a string to a number. The model coerces a string of decimal digits to its value and every other string to NaN. JavaScript also accepts surrounding whitespace, a sign, a fraction, an exponent, hexadecimal and "Infinity", and coerces a one-element array; those are not modelled. Non-integer numbers are not modelled.
- NodeRepeater.AsWrittenEmitsNothing: its hypothesis excludes only digit strings, the words the model coerces. JavaScript would also take a word such as " 2", "+3", "1e1" or "0x2" as a count, and the lemma says nothing about such words.
- Streaming.Dial: the gRPC library is not part of this model. `Dial` states the behaviour assumed of `grpc.DialContext` with `WithBlock`: a context that is already done fails the dial with that context's error ("context canceled"), and otherwise the dial's own result is returned. `Streaming.S0003AsWritten` rests on that assumption.
- Node stream piping, backpressure and the calls Node makes to `_read` are not modelled. `_read` and the data handler are methods that a caller invokes.
- NodeRepeater.Zipper.constructor requires at least one input stream. With none, `reduce` without an initial value throws. The sample always builds the zipper with two streams.
- Reactor's scheduling of `Flux` is not modelled. The Java repeater works on the finite sequences the fluxes emit.
- The md5 digest itself is a library computation; only the hex encoding is modelled.
- `Counter.java` (concurrency through an uninitialised `AtomicInteger`), `Concurrency.java` (a sleep) and `divider.js` (floating-point division) are not part of this model.
- `tck/main.go` is modelled only for its suite list. Its command-line flags, TOML decoding and console listener are output and glue.
- rr-0000 and its port-env setup are commented out of the suite (`tck/framework/request_reply.go:26-50`). `setUpContainerUsingPortEnvVar` is modelled anyway.

## Findings

| source | as written | input that shows it | evidently intended | confidence | as-written member | corrected member |
|---|---|---|---|---|---|---|
| tck/framework/framework.go:253 | `_, err := http.DefaultClient.Do(req)` declares a new `err` inside the loop, so the check after the loop sees the nil `err` of ContainerStart | ten probes that all fail with "connection refused": the setup still returns the container and no error | a container that never answered is reported as a setup error, as `setUpContainerUsingPortEnvVar` does | high, not executed | Provisioning.DefaultSetUpContainer, Provisioning.NeverReadyProbes, Provisioning.NeverReadySetUps | Provisioning.CheckedSetUpContainer |
| tck/framework/streaming.go:148-150 | `cancel()` runs right after `context.WithTimeout`, so the blocking `grpc.DialContext` runs under a context that is already cancelled | any invoker, even one that repeats correctly: s-0003 is always a technical error with "context canceled" | cancel deferred until the case ends, so the dial waits for the function | medium (assumes DialContext fails at once on a cancelled context), not executed | Streaming.S0003AsWritten | Streaming.S0003 |
| tck/samples/node/repeater.js:50-52 | the count is read from `tuple[0]` and the word from `tuple[1]`, but `Zipper(words, numbers)` puts the word first | words ["hello"], numbers [2]: the tuple is ["hello", 2], `0 < "hello"` is false, nothing is emitted where s-0003 expects "hello" twice | the count is `tuple[1]` and the word `tuple[0]`, matching the Java repeater | high, not executed | NodeRepeater.Repeater.Transform, NodeRepeater.HelloIsDropped, NodeRepeater.NumericWordRepeatsNumber | NodeRepeater.Repeater.TransformIntended, NodeRepeater.IntendedMatchesJava |
