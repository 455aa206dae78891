/** Container setup with readiness polling: defaultSetUpContainer of
    tck/framework/framework.go, and the bounded retry loop with exponential
    backoff that it shares in shape with the $PORT setup of
    request_reply.go. Docker calls, the free-port lookup and the probes are
    inputs; sleeps are recorded in integer milliseconds. */
module Provisioning {
  import opened Framework

  /** Both readiness loops try at most this many probes. */
  const MaxAttempts: nat := 10

  function Pow2(n: nat): (r: nat)
    ensures r >= 1
  {
    if n == 0 then 1 else 2 * Pow2(n - 1)
  }

  /** The sleeps after the first n failed probes: base, 2 base, 4 base, ... */
  function Backoff(base: nat, n: nat): (r: seq<nat>)
    ensures |r| == n
  {
    seq(n, i requires 0 <= i < n => base * Pow2(i))
  }

  function Total(s: seq<nat>): nat {
    if s == [] then 0 else Total(s[..|s| - 1]) + s[|s| - 1]
  }

  /** The sleeps add up to base * (2^n - 1). */
  lemma {:induction false} BackoffTotal(base: nat, n: nat)
    ensures Total(Backoff(base, n)) == base * (Pow2(n) - 1)
  {
    if n > 0 {
      assert Backoff(base, n)[..n - 1] == Backoff(base, n - 1);
      BackoffTotal(base, n - 1);
      calc {
        Total(Backoff(base, n));
        base * (Pow2(n - 1) - 1) + base * Pow2(n - 1);
        { assert base * (Pow2(n - 1) - 1) == base * Pow2(n - 1) - base; }
        base * (2 * Pow2(n - 1)) - base;
        base * (Pow2(n) - 1);
      }
    }
  }

  /** Worst cases: the default loop sleeps 20460 ms in all, the loop on
      $PORT 10230 ms. */
  lemma WorstCaseBackoff()
    ensures Total(Backoff(20, MaxAttempts)) == 20460
    ensures Total(Backoff(10, MaxAttempts)) == 10230
  {
    assert Pow2(MaxAttempts) == 1024;
    BackoffTotal(20, MaxAttempts);
    BackoffTotal(10, MaxAttempts);
  }

  /** The answer of each of the ten probes the loop may make: None when the
      endpoint answered, the error otherwise. */
  predicate ProbeOk(probes: seq<Option<string>>, i: nat)
    requires |probes| == MaxAttempts && i < MaxAttempts
  {
    probes[i].None?
  }

  /** The number of probes that fail before the first answer, at most ten,
      counting from probe `from`. */
  function LeadingFailures(probes: seq<Option<string>>, from: nat): (n: nat)
    requires |probes| == MaxAttempts && from <= MaxAttempts
    ensures from <= n <= MaxAttempts
    ensures forall i :: from <= i < n ==> !ProbeOk(probes, i)
    ensures n < MaxAttempts ==> ProbeOk(probes, n)
    decreases MaxAttempts - from
  {
    if from == MaxAttempts || ProbeOk(probes, from) then from else LeadingFailures(probes, from + 1)
  }

  lemma {:induction false} LeadingFailuresIs(probes: seq<Option<string>>, from: nat, n: nat)
    requires |probes| == MaxAttempts && from <= n <= MaxAttempts
    requires forall i :: from <= i < n ==> !ProbeOk(probes, i)
    requires n < MaxAttempts ==> ProbeOk(probes, n)
    ensures LeadingFailures(probes, from) == n
    decreases n - from
  {
    if from < n {
      LeadingFailuresIs(probes, from + 1, n);
    }
  }

  /** The readiness loop: probe, stop at the first answer, otherwise sleep
      base * 2^i after failed probe i; at most ten probes. `lastError` is
      what the loop variable holds afterwards. */
  method PollReady(probes: seq<Option<string>>, base: nat)
    returns (ready: bool, attempts: nat, lastError: Option<string>, sleeps: seq<nat>)
    requires |probes| == MaxAttempts
    ensures ready <==> LeadingFailures(probes, 0) < MaxAttempts
    ensures attempts == if ready then LeadingFailures(probes, 0) + 1 else MaxAttempts
    ensures ready ==> lastError.None?
    ensures !ready ==> lastError == probes[MaxAttempts - 1] && lastError.Some?
    ensures sleeps == Backoff(base, LeadingFailures(probes, 0))
  {
    ready, attempts, lastError, sleeps := false, 0, None, [];
    var i := 0;
    while i < MaxAttempts
      invariant 0 <= i <= MaxAttempts
      invariant attempts == i
      invariant forall k :: 0 <= k < i ==> !ProbeOk(probes, k)
      invariant i > 0 ==> lastError == probes[i - 1]
      invariant sleeps == Backoff(base, i)
    {
      attempts := attempts + 1;
      lastError := probes[i];
      if lastError.None? {
        ready := true;
        LeadingFailuresIs(probes, 0, i);
        return;
      }
      sleeps := sleeps + [base * Pow2(i)];
      i := i + 1;
    }
    LeadingFailuresIs(probes, 0, MaxAttempts);
  }

  /** What a container is created with: image, exposed container port,
      the host port bound on 0.0.0.0, and environment. */
  datatype ContainerSpec = ContainerSpec(image: string, exposedPort: int, hostPort: int, env: seq<string>)

  /** defaultSetUpContainer as written: the probe error is assigned with
      `:=` inside the loop, which declares a new `err`, so the check after
      the loop sees the nil error of ContainerStart and the container is
      returned whether or not any probe answered. */
  method DefaultSetUpContainer(
    image: string, t: Testcase,
    freePort: Result<int, string>, create: Result<string, string>, start: Option<string>,
    probes: seq<Option<string>>)
    returns (r: SetUpResult, request: Option<ContainerSpec>, sleeps: seq<nat>)
    requires |probes| == MaxAttempts
    ensures r.Returned?
    ensures freePort.Err? ==> r == Returned(None, Some(freePort.error)) && request.None? && sleeps == []
    ensures freePort.Ok? ==> request == Some(ContainerSpec(image, t.port, freePort.value, []))
    ensures freePort.Ok? && create.Err? ==> r == Returned(None, Some(create.error)) && sleeps == []
    ensures freePort.Ok? && create.Ok? && start.Some? ==> r == Returned(None, start) && sleeps == []
    ensures freePort.Ok? && create.Ok? && start.None? ==>
      && r == Returned(Some(Container(create.value, freePort.value)), None)
      && sleeps == Backoff(20, LeadingFailures(probes, 0))
  {
    sleeps := [];
    if freePort.Err? {
      return Returned(None, Some(freePort.error)), None, sleeps;
    }
    var hostPort := freePort.value;
    request := Some(ContainerSpec(image, t.port, hostPort, []));
    if create.Err? {
      return Returned(None, Some(create.error)), request, sleeps;
    }
    if start.Some? {
      return Returned(None, start), request, sleeps;
    }
    var err: Option<string> := None;
    var ready, attempts, shadowed;
    ready, attempts, shadowed, sleeps := PollReady(probes, 20);
    if err.Some? {
      return Returned(None, err), request, sleeps;
    }
    r := Returned(Some(Container(create.value, hostPort)), None);
  }

  /** defaultSetUpContainer as evidently intended: the probe error reaches
      the check after the loop, as in the $PORT setup of request_reply.go,
      so a container is only returned once a probe has answered. */
  method CheckedSetUpContainer(
    image: string, t: Testcase,
    freePort: Result<int, string>, create: Result<string, string>, start: Option<string>,
    probes: seq<Option<string>>)
    returns (r: SetUpResult, request: Option<ContainerSpec>, sleeps: seq<nat>)
    requires |probes| == MaxAttempts
    ensures r.Returned?
    ensures r.container.Some? <==>
      freePort.Ok? && create.Ok? && start.None? && LeadingFailures(probes, 0) < MaxAttempts
    ensures r.container.Some? ==> r == Returned(Some(Container(create.value, freePort.value)), None)
    ensures r.container.None? ==> r.err.Some?
    ensures freePort.Ok? && create.Ok? && start.None? && r.container.None? ==> r.err == probes[MaxAttempts - 1]
    ensures freePort.Ok? && create.Ok? && start.None? ==> sleeps == Backoff(20, LeadingFailures(probes, 0))
  {
    sleeps := [];
    if freePort.Err? {
      return Returned(None, Some(freePort.error)), None, sleeps;
    }
    var hostPort := freePort.value;
    request := Some(ContainerSpec(image, t.port, hostPort, []));
    if create.Err? {
      return Returned(None, Some(create.error)), request, sleeps;
    }
    if start.Some? {
      return Returned(None, start), request, sleeps;
    }
    var ready, attempts, err;
    ready, attempts, err, sleeps := PollReady(probes, 20);
    if err.Some? {
      return Returned(None, err), request, sleeps;
    }
    r := Returned(Some(Container(create.value, hostPort)), None);
  }

  /** Ten refused probes: none of them succeeds. */
  lemma NeverReadyProbes()
    ensures var probes := seq(MaxAttempts, i => Some("connection refused"));
      |probes| == MaxAttempts && LeadingFailures(probes, 0) == MaxAttempts
  {
    var probes := seq(MaxAttempts, i => Some("connection refused"));
    LeadingFailuresIs(probes, 0, MaxAttempts);
  }

  /** The discrepancy: when no probe ever answers, the setup as written
      still hands back a container and no error, so the test body runs
      against a container that never became ready; the intended setup
      reports the last probe's error instead. */
  method NeverReadySetUps(image: string, t: Testcase, id: string, hostPort: int)
    returns (asWritten: SetUpResult, intended: SetUpResult)
    ensures asWritten == Returned(Some(Container(id, hostPort)), None)
    ensures intended == Returned(None, Some("connection refused"))
  {
    var probes := seq(MaxAttempts, i => Some("connection refused"));
    NeverReadyProbes();
    var request, sleeps;
    asWritten, request, sleeps := DefaultSetUpContainer(image, t, Ok(hostPort), Ok(id), None, probes);
    intended, request, sleeps := CheckedSetUpContainer(image, t, Ok(hostPort), Ok(id), None, probes);
  }
}
