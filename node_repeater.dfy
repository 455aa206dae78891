/** The Node repeater sample (tck/samples/node/repeater.js): a Zipper that
    buffers the chunks of each input stream and emits tuples once every
    stream has data, and a Repeater that turns a tuple into repeated
    items. Streams run in object mode; a chunk is a JavaScript value. */
module NodeRepeater {
  import JavaRepeater
  import Decimal

  /** The JavaScript values the streams carry. Numbers are integers. */
  datatype Value = Str(s: string) | Num(n: int) | Arr(items: seq<Value>) | Undefined

  // ---------------------------------------------------------------------
  // The Zipper, as functions on its state
  // ---------------------------------------------------------------------

  datatype ZipState = ZipState(arrays: seq<seq<Value>>, waitingForData: bool, pushed: seq<Value>)

  function Min(a: int, b: int): int {
    if a < b then a else b
  }

  /** Math.min(size, ...lengths): size when there are no buffers. */
  function Bound(size: int, arrays: seq<seq<Value>>): (b: int)
    ensures b <= size
    ensures forall k :: 0 <= k < |arrays| ==> b <= |arrays[k]|
    ensures b == size || exists k :: 0 <= k < |arrays| && b == |arrays[k]|
  {
    if arrays == [] then size else Min(Bound(size, arrays[..|arrays| - 1]), |arrays[|arrays| - 1]|)
  }

  /** A tuple built so far is spread; any other value starts a new one. */
  function Spread(v: Value): seq<Value> {
    if v.Arr? then v.items else [v]
  }

  /** One step of the reduce: extend the first `bound` tuples with the
      matching items of the next stream. */
  function ZipStep(prev: seq<Value>, curr: seq<Value>, bound: nat): (r: seq<Value>)
    requires |prev| >= bound && |curr| >= bound
    ensures |r| == bound
  {
    seq(bound, i requires 0 <= i < bound => Arr(Spread(prev[i]) + [curr[i]]))
  }

  predicate Holds(cols: seq<seq<Value>>, bound: nat) {
    forall k :: 0 <= k < |cols| ==> |cols[k]| >= bound
  }

  /** `reduce` without an initial value over the removed items of every
      stream: a single stream is passed through untouched. */
  function Reduce(cols: seq<seq<Value>>, bound: nat): (r: seq<Value>)
    requires |cols| >= 1 && Holds(cols, bound)
    ensures |cols| == 1 ==> r == cols[0]
    ensures |cols| >= 2 ==> |r| == bound
    ensures |r| >= bound
  {
    if |cols| == 1 then cols[0] else ZipStep(Reduce(cols[..|cols| - 1], bound), cols[|cols| - 1], bound)
  }

  function Fronts(arrays: seq<seq<Value>>, n: nat): (r: seq<seq<Value>>)
    requires Holds(arrays, n)
    ensures |r| == |arrays| && Holds(r, n)
  {
    seq(|arrays|, k requires 0 <= k < |arrays| => arrays[k][..n])
  }

  function Backs(arrays: seq<seq<Value>>, n: nat): (r: seq<seq<Value>>)
    requires Holds(arrays, n)
    ensures |r| == |arrays|
  {
    seq(|arrays|, k requires 0 <= k < |arrays| => arrays[k][n..])
  }

  /** What `_read(size)` does to the state: with nothing to take it only
      starts waiting; otherwise it takes `bound` items off the front of
      every buffer (none when bound is negative, as splice does) and
      pushes the tuples. */
  function ReadSpec(size: int, s: ZipState): ZipState
    requires |s.arrays| >= 1
  {
    var bound := Bound(size, s.arrays);
    if bound == 0 then s.(waitingForData := true)
    else
      var take: nat := if bound < 0 then 0 else bound;
      ZipState(Backs(s.arrays, take), false, s.pushed + Reduce(Fronts(s.arrays, take), take))
  }

  /** The data handler: append to the chunk's own buffer, then read as
      much as that buffer holds if the zipper was waiting. */
  function OnDataSpec(index: nat, chunk: Value, s: ZipState): ZipState
    requires index < |s.arrays|
  {
    var grown := s.(arrays := s.arrays[index := s.arrays[index] + [chunk]]);
    if s.waitingForData then ReadSpec(|grown.arrays[index]|, grown) else grown
  }

  // ---------------------------------------------------------------------
  // The Zipper object
  // ---------------------------------------------------------------------

  class Zipper {
    var arrays: seq<seq<Value>>
    var waitingForData: bool
    var pushed: seq<Value>

    function State(): ZipState
      reads this
    {
      ZipState(arrays, waitingForData, pushed)
    }

    /** One empty buffer per input stream, not waiting. */
    constructor(streams: nat)
      requires streams >= 1
      ensures arrays == seq(streams, _ => []) && !waitingForData && pushed == []
    {
      arrays := seq(streams, _ => []);
      waitingForData := false;
      pushed := [];
    }

    method OnData(index: nat, chunk: Value)
      requires index < |arrays|
      modifies this
      ensures State() == OnDataSpec(index, chunk, old(State()))
    {
      arrays := arrays[index := arrays[index] + [chunk]];
      if waitingForData {
        Read(|arrays[index]|);
      }
    }

    method Read(size: int)
      requires |arrays| >= 1
      modifies this
      ensures State() == ReadSpec(size, old(State()))
    {
      var bound := BoundOf(size, arrays);
      if bound == 0 {
        waitingForData := true;
        return;
      }
      waitingForData := false;
      var take: nat := if bound < 0 then 0 else bound;
      var removed, rest := Splice(arrays, take);
      arrays := rest;
      var tuples := ZipAll(removed, take);
      PushAll(tuples);
    }

    /** .forEach(result => this.push(result)) */
    method PushAll(tuples: seq<Value>)
      modifies this
      ensures pushed == old(pushed) + tuples
      ensures arrays == old(arrays) && waitingForData == old(waitingForData)
    {
      for i := 0 to |tuples|
        invariant pushed == old(pushed) + tuples[..i]
        invariant arrays == old(arrays) && waitingForData == old(waitingForData)
      {
        pushed := pushed + [tuples[i]];
      }
      assert tuples[..|tuples|] == tuples;
    }
  }

  /** Math.min(size, ...this.arrays.map(a => a.length)) */
  method BoundOf(size: int, arrays: seq<seq<Value>>) returns (bound: int)
    ensures bound == Bound(size, arrays)
  {
    bound := size;
    for k := 0 to |arrays|
      invariant bound == Bound(size, arrays[..k])
    {
      assert arrays[..k + 1][..k] == arrays[..k];
      bound := Min(bound, |arrays[k]|);
    }
    assert arrays[..|arrays|] == arrays;
  }

  /** this.arrays.map(a => a.splice(0, bound)): the removed fronts, and
      what each buffer keeps. */
  method Splice(arrays: seq<seq<Value>>, take: nat) returns (removed: seq<seq<Value>>, rest: seq<seq<Value>>)
    requires Holds(arrays, take)
    ensures removed == Fronts(arrays, take) && rest == Backs(arrays, take)
  {
    removed, rest := [], arrays;
    for k := 0 to |arrays|
      invariant |rest| == |arrays|
      invariant removed == Fronts(arrays, take)[..k]
      invariant forall j :: 0 <= j < |rest| ==> rest[j] == if j < k then arrays[j][take..] else arrays[j]
    {
      removed := removed + [rest[k][..take]];
      rest := rest[k := rest[k][take..]];
    }
  }

  /** The body of the reducer: extend each tuple with the next stream's
      item. */
  method ZipWith(prev: seq<Value>, curr: seq<Value>, bound: nat) returns (result: seq<Value>)
    requires |prev| >= bound && |curr| >= bound
    ensures result == ZipStep(prev, curr, bound)
  {
    result := [];
    for i := 0 to bound
      invariant result == ZipStep(prev, curr, bound)[..i]
    {
      var previous := Spread(prev[i]);
      result := result + [Arr(previous + [curr[i]])];
    }
  }

  /** The reduce over a prefix, one stream further. */
  lemma ReduceStep(cols: seq<seq<Value>>, bound: nat, k: nat)
    requires k < |cols| && Holds(cols, bound)
    ensures Holds(cols[..k + 1], bound)
    ensures k == 0 ==> Reduce(cols[..1], bound) == cols[0]
    ensures k > 0 ==> Reduce(cols[..k + 1], bound) == ZipStep(Reduce(cols[..k], bound), cols[k], bound)
  {
    var prefix := cols[..k + 1];
    assert prefix[..k] == cols[..k] && prefix[k] == cols[k];
  }

  /** The `.reduce` over the removed fronts. */
  method ZipAll(removed: seq<seq<Value>>, take: nat) returns (tuples: seq<Value>)
    requires |removed| >= 1 && Holds(removed, take)
    ensures tuples == Reduce(removed, take)
  {
    tuples := removed[0];
    ReduceStep(removed, take, 0);
    for k := 1 to |removed|
      invariant tuples == Reduce(removed[..k], take)
    {
      ReduceStep(removed, take, k);
      tuples := ZipWith(tuples, removed[k], take);
    }
    assert removed[..|removed|] == removed;
  }

  // ---------------------------------------------------------------------
  // Properties of the Zipper
  // ---------------------------------------------------------------------

  /** Tuple i is the i-th removed item of every stream in stream order,
      with an array chunk of the first stream spread into it. */
  lemma {:induction false} ReduceTuple(cols: seq<seq<Value>>, bound: nat, i: nat)
    requires |cols| >= 2 && Holds(cols, bound) && i < bound
    ensures Reduce(cols, bound)[i] ==
      Arr(Spread(cols[0][i]) + seq(|cols| - 1, k requires 0 <= k < |cols| - 1 => cols[k + 1][i]))
  {
    var n := |cols|;
    if n > 2 {
      ReduceTuple(cols[..n - 1], bound, i);
      var rest := seq(n - 2, k requires 0 <= k < n - 2 => cols[k + 1][i]);
      assert seq(n - 1, k requires 0 <= k < n - 1 => cols[k + 1][i]) == rest + [cols[n - 1][i]];
    }
  }

  /** A read that has something to take removes exactly `bound` items from
      the front of every buffer, emits one tuple per removed position (when
      there are at least two streams), and stops waiting. */
  lemma ReadMovesBoundItems(size: int, s: ZipState)
    requires |s.arrays| >= 2
    ensures var bound := Bound(size, s.arrays);
      var t := ReadSpec(size, s);
      && |t.arrays| == |s.arrays|
      && (bound == 0 <==> t.waitingForData)
      && (bound > 0 ==>
            && |t.pushed| == |s.pushed| + bound
            && t.pushed[..|s.pushed|] == s.pushed
            && forall k :: 0 <= k < |s.arrays| ==> s.arrays[k] == s.arrays[k][..bound] + t.arrays[k])
  {
    var bound := Bound(size, s.arrays);
    if bound > 0 {
      var t := ReadSpec(size, s);
      assert t.pushed == s.pushed + Reduce(Fronts(s.arrays, bound), bound);
    }
  }

  /** With a positive request size, the zipper only starts waiting when
      some stream has nothing buffered. */
  lemma WaitsOnlyWhenStarved(size: int, s: ZipState)
    requires |s.arrays| >= 1 && size >= 1
    ensures ReadSpec(size, s).waitingForData ==> exists k :: 0 <= k < |s.arrays| && s.arrays[k] == []
  {
  }

  /** A chunk lands only in its own stream's buffer. */
  lemma OnDataAppendsToOwnBuffer(index: nat, chunk: Value, s: ZipState)
    requires index < |s.arrays| && !s.waitingForData
    ensures var t := OnDataSpec(index, chunk, s);
      && t.arrays[index] == s.arrays[index] + [chunk]
      && (forall k :: 0 <= k < |s.arrays| && k != index ==> t.arrays[k] == s.arrays[k])
      && t.pushed == s.pushed && !t.waitingForData
  {
  }

  // ---------------------------------------------------------------------
  // The Repeater
  // ---------------------------------------------------------------------

  /** `v[k]` in JavaScript: an element of an array, a one-character
      string, or undefined. */
  function Index(v: Value, k: nat): Value {
    match v
    case Arr(items) => if k < |items| then items[k] else Undefined
    case Str(s) => if k < |s| then Str([s[k]]) else Undefined
    case _ => Undefined
  }

  /** A string that `<` coerces to a whole number: decimal digits only. */
  predicate Numeric(w: string) {
    |w| >= 1 && Decimal.AllDigits(w)
  }

  /** How many times `for (let i = 0; i < repetition; i++)` runs: a
      positive number runs that often; `<` coerces a string of decimal
      digits to its value; any other string, and undefined, compares as
      NaN and runs nothing. */
  function Repetitions(v: Value): nat {
    match v
    case Num(n) => if n > 0 then n else 0
    case Str(w) => if Numeric(w) then Decimal.DigitsValue(w) else 0
    case _ => 0
  }

  /** What `_transform` pushes for one tuple as written: item 1, as many
      times as item 0 says. */
  function TransformOutput(tuple: Value): seq<Value> {
    JavaRepeater.Copies(Index(tuple, 1), Repetitions(Index(tuple, 0)))
  }

  /** What `_transform` evidently means to push: the zipper puts the word
      first and the count second, so the count is item 1. */
  function IntendedOutput(tuple: Value): seq<Value> {
    JavaRepeater.Copies(Index(tuple, 0), Repetitions(Index(tuple, 1)))
  }

  class Repeater {
    var pushed: seq<Value>

    constructor()
      ensures pushed == []
    {
      pushed := [];
    }

    /** _transform as written. */
    method Transform(tuple: Value)
      modifies this
      ensures pushed == old(pushed) + TransformOutput(tuple)
    {
      var repetition := Index(tuple, 0);
      for i := 0 to Repetitions(repetition)
        invariant pushed == old(pushed) + JavaRepeater.Copies(Index(tuple, 1), i)
      {
        pushed := pushed + [Index(tuple, 1)];
      }
    }

    /** _transform with the count read from item 1 and the word from
      item 0. */
    method TransformIntended(tuple: Value)
      modifies this
      ensures pushed == old(pushed) + IntendedOutput(tuple)
    {
      var repetition := Index(tuple, 1);
      for i := 0 to Repetitions(repetition)
        invariant pushed == old(pushed) + JavaRepeater.Copies(Index(tuple, 0), i)
      {
        pushed := pushed + [Index(tuple, 0)];
      }
    }
  }

  // ---------------------------------------------------------------------
  // The pipeline Zipper(words, numbers) -> Repeater
  // ---------------------------------------------------------------------

  function Strs(words: seq<string>): (r: seq<Value>)
    ensures |r| == |words|
  {
    seq(|words|, i requires 0 <= i < |words| => Str(words[i]))
  }

  function Nums(numbers: seq<int>): (r: seq<Value>)
    ensures |r| == |numbers|
  {
    seq(|numbers|, i requires 0 <= i < |numbers| => Num(numbers[i]))
  }

  /** The tuples the zipper emits for the words and the numbers, in
      order, when both streams deliver the same number of chunks. */
  function Zipped(words: seq<string>, numbers: seq<int>): (r: seq<Value>)
    requires |words| == |numbers|
    ensures |r| == |words|
  {
    Reduce([Strs(words), Nums(numbers)], |words|)
  }

  function Outputs(tuples: seq<Value>): seq<Value> {
    if tuples == [] then [] else TransformOutput(tuples[0]) + Outputs(tuples[1..])
  }

  function IntendedOutputs(tuples: seq<Value>): seq<Value> {
    if tuples == [] then [] else IntendedOutput(tuples[0]) + IntendedOutputs(tuples[1..])
  }

  lemma ZippedTuple(words: seq<string>, numbers: seq<int>, i: nat)
    requires |words| == |numbers| && i < |words|
    ensures Zipped(words, numbers)[i] == Arr([Str(words[i]), Num(numbers[i])])
  {
  }

  lemma ZippedTail(words: seq<string>, numbers: seq<int>)
    requires |words| == |numbers| && |words| >= 1
    ensures Zipped(words, numbers)[1..] == Zipped(words[1..], numbers[1..])
  {
    var a, b := Zipped(words, numbers)[1..], Zipped(words[1..], numbers[1..]);
    forall i | 0 <= i < |a|
      ensures a[i] == b[i]
    {
      ZippedTuple(words, numbers, i + 1);
      ZippedTuple(words[1..], numbers[1..], i);
    }
  }

  /** As written, the repeater reads the word as the count; a word that is
      not a string of digits compares as NaN, so nothing is emitted. */
  lemma {:induction false} AsWrittenEmitsNothing(words: seq<string>, numbers: seq<int>)
    requires |words| == |numbers|
    requires forall i :: 0 <= i < |words| ==> !Numeric(words[i])
    ensures Outputs(Zipped(words, numbers)) == []
    decreases |words|
  {
    if words != [] {
      ZippedTuple(words, numbers, 0);
      ZippedTail(words, numbers);
      assert forall i :: 0 <= i < |words| - 1 ==> words[1..][i] == words[i + 1];
      AsWrittenEmitsNothing(words[1..], numbers[1..]);
    }
  }

  /** A word of digits is taken as the count as written: ("2", 5) emits
      the number 5 twice. */
  lemma NumericWordRepeatsNumber()
    ensures Outputs(Zipped(["2"], [5])) == [Num(5), Num(5)]
  {
    ZippedTuple(["2"], [5], 0);
    assert Decimal.DigitsValue("2") == 2 by {
      assert "2"[..0] == [];
    }
    assert Outputs(Zipped(["2"], [5])) == TransformOutput(Arr([Str("2"), Num(5)])) + Outputs([]);
  }

  /** The s-0003 exchange ("hello", 2): the Node pipeline as written emits
      nothing where the Java repeater emits "hello" twice. */
  lemma HelloIsDropped()
    ensures Outputs(Zipped(["hello"], [2])) == []
    ensures JavaRepeater.Repeat(["hello"], [2]).items == ["hello", "hello"]
  {
    assert !Decimal.IsDigit("hello"[0]);
    AsWrittenEmitsNothing(["hello"], [2]);
    JavaRepeater.RepeatHelloTwice();
  }

  /** With the count read from item 1, the Node pipeline emits exactly
      what the Java repeater emits, for every non-negative count. */
  lemma {:induction false} IntendedMatchesJava(words: seq<string>, numbers: seq<int>)
    requires |words| == |numbers|
    requires forall i :: 0 <= i < |numbers| ==> numbers[i] >= 0
    ensures JavaRepeater.Repeat(words, numbers).error.None?
    ensures IntendedOutputs(Zipped(words, numbers)) == Strs(JavaRepeater.Repeat(words, numbers).items)
    decreases |words|
  {
    if words != [] {
      ZippedTuple(words, numbers, 0);
      ZippedTail(words, numbers);
      IntendedMatchesJava(words[1..], numbers[1..]);
      var here := JavaRepeater.Copies(words[0], numbers[0]);
      var rest := JavaRepeater.Repeat(words[1..], numbers[1..]).items;
      assert Strs(here + rest) == Strs(here) + Strs(rest);
      assert IntendedOutput(Zipped(words, numbers)[0]) == Strs(here);
    }
  }

  /** The zipper of module.exports after every word arrived on the first
      input and every number on the second, asked for `size` tuples:
      Math.min(size, |words|, |numbers|) tuples are pushed (none for a
      non-positive size), each the word and the number at that position,
      and the zipper waits exactly when there was nothing to take. */
  lemma ReadZipsPrefixes(words: seq<string>, numbers: seq<int>, size: int)
    ensures var b := Min(Min(size, |words|), |numbers|);
      var t := ReadSpec(size, ZipState([Strs(words), Nums(numbers)], false, []));
      var n := if b < 0 then 0 else b;
      && t.pushed == Zipped(words[..n], numbers[..n])
      && t.waitingForData == (b == 0)
  {
    var arrays := [Strs(words), Nums(numbers)];
    assert arrays[..1][..0] == [];
    assert Bound(size, arrays) == Min(Min(size, |words|), |numbers|);
    var b := Bound(size, arrays);
    var n := if b < 0 then 0 else b;
    if b != 0 {
      assert Strs(words)[..n] == Strs(words[..n]);
      assert Nums(numbers)[..n] == Nums(numbers[..n]);
      assert Fronts(arrays, n) == [Strs(words[..n]), Nums(numbers[..n])];
    }
  }

  /** module.exports for a words stream and a numbers stream: each chunk
      reaches the zipper as one data event, the words first, then the
      numbers; then the zipper is read with `size`. */
  method ZipInputs(words: seq<string>, numbers: seq<int>, size: int) returns (tuples: seq<Value>)
    ensures var b := Min(Min(size, |words|), |numbers|);
      var n := if b < 0 then 0 else b;
      tuples == Zipped(words[..n], numbers[..n])
  {
    var z := new Zipper(2);
    assert z.arrays == [[], []];
    for i := 0 to |words|
      invariant z.arrays == [Strs(words)[..i], []] && !z.waitingForData && z.pushed == []
    {
      z.OnData(0, Str(words[i]));
      assert Strs(words)[..i + 1] == Strs(words)[..i] + [Str(words[i])];
    }
    assert Strs(words)[..|words|] == Strs(words);
    for i := 0 to |numbers|
      invariant z.arrays == [Strs(words), Nums(numbers)[..i]] && !z.waitingForData && z.pushed == []
    {
      z.OnData(1, Num(numbers[i]));
      assert Nums(numbers)[..i + 1] == Nums(numbers)[..i] + [Num(numbers[i])];
    }
    assert Nums(numbers)[..|numbers|] == Nums(numbers);
    z.Read(size);
    ReadZipsPrefixes(words, numbers, size);
    tuples := z.pushed;
  }
}
