/** The Java repeater sample (Repeater.apply): zip the words with the
    numbers and replace each pair (w, n) by n copies of w. The two fluxes
    are modelled as the finite sequences they emit; the result is what the
    output flux emits and the error it ends with, if any. */
module JavaRepeater {
  import opened Framework
  import opened Decimal

  datatype FluxResult = FluxResult(items: seq<string>, error: Option<string>)

  /** Collections.nCopies(n, w) for n >= 0. */
  function Copies<T>(w: T, n: nat): (r: seq<T>)
    ensures |r| == n && forall i :: 0 <= i < n ==> r[i] == w
  {
    seq(n, _ => w)
  }

  /** zipWith stops with the shorter input; a negative count makes
      nCopies throw, which ends the flux with that error after what was
      already emitted. */
  function Repeat(words: seq<string>, numbers: seq<int>): (r: FluxResult)
    decreases |words|
  {
    if words == [] || numbers == [] then FluxResult([], None)
    else if numbers[0] < 0 then FluxResult([], Some("List length = " + Format(numbers[0])))
    else
      var rest := Repeat(words[1..], numbers[1..]);
      FluxResult(Copies(words[0], numbers[0]) + rest.items, rest.error)
  }

  function Min(a: nat, b: nat): nat {
    if a < b then a else b
  }

  /** The counts of the pairs zipWith forms, added up. */
  function TotalCount(numbers: seq<int>): int {
    if numbers == [] then 0 else numbers[0] + TotalCount(numbers[1..])
  }

  /** Only the first min(|words|, |numbers|) elements of either input
      matter. */
  lemma {:induction false} RepeatTruncates(words: seq<string>, numbers: seq<int>)
    ensures var m := Min(|words|, |numbers|);
      Repeat(words, numbers) == Repeat(words[..m], numbers[..m])
    decreases |words|
  {
    var m := Min(|words|, |numbers|);
    if m > 0 {
      RepeatTruncates(words[1..], numbers[1..]);
      assert words[..m][1..] == words[1..][..m - 1];
      assert numbers[..m][1..] == numbers[1..][..m - 1];
    }
  }

  /** The flux fails exactly when some zipped count is negative. */
  lemma {:induction false} RepeatFailsOnNegativeCount(words: seq<string>, numbers: seq<int>)
    ensures Repeat(words, numbers).error.Some? <==>
      exists i :: 0 <= i < Min(|words|, |numbers|) && numbers[i] < 0
    decreases |words|
  {
    if words != [] && numbers != [] && numbers[0] >= 0 {
      RepeatFailsOnNegativeCount(words[1..], numbers[1..]);
      if exists i :: 0 <= i < Min(|words|, |numbers|) && numbers[i] < 0 {
        var i :| 0 <= i < Min(|words|, |numbers|) && numbers[i] < 0;
        assert numbers[1..][i - 1] < 0;
      }
    }
  }

  /** Without an error, pair (w, n) contributes n items: the output is as
      long as the zipped counts add up to. */
  lemma {:induction false} RepeatLength(words: seq<string>, numbers: seq<int>)
    ensures var m := Min(|words|, |numbers|);
      Repeat(words, numbers).error.None? ==> |Repeat(words, numbers).items| == TotalCount(numbers[..m])
    decreases |words|
  {
    var m := Min(|words|, |numbers|);
    if m > 0 && numbers[0] >= 0 {
      RepeatLength(words[1..], numbers[1..]);
      assert numbers[..m][1..] == numbers[1..][..m - 1];
    }
  }

  /** Every emitted item is one of the words. */
  lemma {:induction false} RepeatEmitsWords(words: seq<string>, numbers: seq<int>)
    ensures forall x :: x in Repeat(words, numbers).items ==> x in words
    decreases |words|
  {
    if words != [] && numbers != [] && numbers[0] >= 0 {
      RepeatEmitsWords(words[1..], numbers[1..]);
      forall x | x in Repeat(words, numbers).items
        ensures x in words
      {
        if x !in Copies(words[0], numbers[0]) {
          assert x in Repeat(words[1..], numbers[1..]).items;
        }
      }
    }
  }

  /** The s-0003 exchange: ("hello", 2) repeats the word twice. */
  lemma RepeatHelloTwice()
    ensures Repeat(["hello"], [2]) == FluxResult(["hello", "hello"], None)
  {
    assert Copies("hello", 2) == ["hello", "hello"];
  }
}
