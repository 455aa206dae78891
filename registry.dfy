/** The suites the command-line runner registers (tck/main.go): request /
    reply, then streaming. Their names and descriptions pass the checks of
    Run whatever the focus. */
module Registry {
  import opened Framework
  import RequestReply
  import Streaming

  const Suites: seq<Suite> := [RequestReply.RequestReplySuite, Streaming.StreamingSuite]

  /** Items with non-empty names and descriptions and pairwise distinct
      names are well named. */
  lemma DistinctNamesWellNamed(items: seq<Item>)
    requires forall i :: 0 <= i < |items| ==> items[i].Name() != "" && items[i].Description() != ""
    requires forall i, j :: 0 <= i < j < |items| ==> items[i].Name() != items[j].Name()
    ensures WellNamed(items)
  {
    forall i | 0 <= i < |items|
      ensures items[i].Name() !in NamesOf(items[..i])
    {
      forall it | it in items[..i]
        ensures it.Name() != items[i].Name()
      {
        var j :| 0 <= j < i && items[..i][j] == it;
      }
    }
  }

  /** The names of a list of items, in order. */
  function ItemNames(items: seq<Item>): (r: seq<string>)
    ensures |r| == |items| && forall i :: 0 <= i < |items| ==> r[i] == items[i].Name()
  {
    seq(|items|, i requires 0 <= i < |items| => items[i].Name())
  }

  predicate Distinct(names: seq<string>) {
    forall i, j :: 0 <= i < j < |names| ==> names[i] != names[j]
  }

  predicate StartWith(names: seq<string>, c: char) {
    forall i :: 0 <= i < |names| ==> names[i] != "" && names[i][0] == c
  }

  predicate Described(items: seq<Item>) {
    forall i :: 0 <= i < |items| ==> items[i].Description() != ""
  }

  lemma ConcatDistinct(a: seq<string>, b: seq<string>, ca: char, cb: char)
    requires Distinct(a) && Distinct(b) && StartWith(a, ca) && StartWith(b, cb) && ca != cb
    ensures Distinct(a + b) && forall i :: 0 <= i < |a + b| ==> (a + b)[i] != ""
  {
    forall i, j | 0 <= i < j < |a + b|
      ensures (a + b)[i] != (a + b)[j]
    {
      if i < |a| && j >= |a| {
        assert (a + b)[i][0] == ca && (a + b)[j][0] == cb;
      }
    }
  }

  lemma ConsDistinct(x: string, names: seq<string>)
    requires Distinct(names) && x !in names
    ensures Distinct([x] + names)
  {
  }

  /** The items a suite contributes when it is selected. */
  lemma SelectedItems(cfg: Config, s: Suite)
    requires SuiteSelected(cfg, s)
    ensures ItemNames(SuiteItems(cfg, s)) == [s.name] + seq(|s.cases|, i requires 0 <= i < |s.cases| => s.cases[i].name)
    ensures s.description != "" && (forall c :: c in s.cases ==> c.description != "") ==> Described(SuiteItems(cfg, s))
  {
    var items := SuiteItems(cfg, s);
    forall i | 1 <= i < |items|
      ensures items[i] == CaseItem(s.cases[i - 1])
    {
    }
  }

  /** A suite whose own name and case names are distinct, share a first
      character and are all described contributes such items whatever
      the focus. */
  lemma SuiteItemsNamed(cfg: Config, s: Suite, names: seq<string>, c: char)
    requires names == seq(|s.cases|, i requires 0 <= i < |s.cases| => s.cases[i].name)
    requires Distinct(names) && StartWith([s.name] + names, c) && s.name !in names
    requires s.description != "" && forall t :: t in s.cases ==> t.description != ""
    ensures var items := SuiteItems(cfg, s);
      Distinct(ItemNames(items)) && StartWith(ItemNames(items), c) && Described(items)
  {
    if SuiteSelected(cfg, s) {
      SelectedItems(cfg, s);
      ConsDistinct(s.name, names);
    } else {
      assert SuiteItems(cfg, s) == [SuiteItem(s)];
      assert ItemNames([SuiteItem(s)]) == [s.name];
      assert ([s.name] + names)[0] == s.name;
    }
  }

  /** The request / reply suite contributes "rr", then its case names when
      it is selected: all distinct, all starting with 'r', all described. */
  lemma RequestReplyItems(cfg: Config)
    ensures var items := SuiteItems(cfg, RequestReply.RequestReplySuite);
      Distinct(ItemNames(items)) && StartWith(ItemNames(items), 'r') && Described(items)
  {
    var rr := RequestReply.RequestReplySuite;
    RequestReply.RequestReplySuiteNames();
    RequestReply.RequestReplySuiteFlags();
    var names := RequestReply.CaseNames(rr);
    SuiteItemsNamed(cfg, rr, names, 'r');
  }

  /** The streaming suite contributes "s", then its case names when it is
      selected: all distinct, all starting with 's', all described. */
  lemma StreamingItems(cfg: Config)
    ensures var items := SuiteItems(cfg, Streaming.StreamingSuite);
      Distinct(ItemNames(items)) && StartWith(ItemNames(items), 's') && Described(items)
  {
    var s := Streaming.StreamingSuite;
    Streaming.StreamingSuiteShape();
    var names := seq(|s.cases|, i requires 0 <= i < |s.cases| => s.cases[i].name);
    assert names == ["s-0001", "s-0002", "s-0003"];
    SuiteItemsNamed(cfg, s, names, 's');
  }

  /** Whatever suites and tests are focused, the registered suites pass
      the name checks, so Run never aborts with a name fault on them. */
  lemma RegisteredSuitesWellNamed(cfg: Config)
    ensures WellNamed(CheckedItems(cfg, Suites))
  {
    var rr, s := RequestReply.RequestReplySuite, Streaming.StreamingSuite;
    var a, b := SuiteItems(cfg, rr), SuiteItems(cfg, s);
    assert Suites[..1] == [rr] && [rr][..0] == [];
    assert CheckedItems(cfg, [rr]) == a;
    var items := CheckedItems(cfg, Suites);
    assert items == a + b;
    RequestReplyItems(cfg);
    StreamingItems(cfg);
    assert ItemNames(items) == ItemNames(a) + ItemNames(b);
    ConcatDistinct(ItemNames(a), ItemNames(b), 'r', 's');
    DistinctNamesWellNamed(items);
  }
}
