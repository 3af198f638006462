/** Splitting the region after the export header into Sets, and printing it back. */
module Framing {
  import opened Wire

  datatype WireSet = WireSet(id: u16, body: bytes)

  /** A clean split: the Sets, and fewer than four bytes left over. */
  datatype Split = Split(sets: seq<WireSet>, tail: bytes)

  function SplitSets(r: bytes): Option<Split>
    decreases |r|
  {
    if |r| < 4 then Some(Split([], r))
    else
      var length := U16(r, 2);
      if length < 4 || length > |r| then None
      else
        var rest := SplitSets(r[length..]);
        if rest.None? then None
        else Some(Split([WireSet(U16(r, 0), r[4..length])] + rest.value.sets, rest.value.tail))
  }

  /** `Done` Sets are off; `rest` is the split of what remains. */
  ghost function Resume(done: seq<WireSet>, rest: Option<Split>): Option<Split> {
    if rest.None? then None else Some(Split(done + rest.value.sets, rest.value.tail))
  }

  lemma ResumeUnfold(done: seq<WireSet>, r: bytes)
    ensures |r| < 4 ==> Resume(done, SplitSets(r)) == Some(Split(done, r))
    ensures |r| >= 4 && 4 <= U16(r, 2) <= |r| ==>
      Resume(done, SplitSets(r))
      == Resume(done + [WireSet(U16(r, 0), r[4..U16(r, 2)])], SplitSets(r[U16(r, 2)..]))
  {
    if |r| < 4 {
      assert done + [] == done;
    } else if 4 <= U16(r, 2) <= |r| {
      var s := WireSet(U16(r, 0), r[4..U16(r, 2)]);
      var rest := SplitSets(r[U16(r, 2)..]);
      if rest.Some? {
        assert done + ([s] + rest.value.sets) == done + [s] + rest.value.sets;
      }
    }
  }

  /** NetFlow v9: the two length checks are separate branches. */
  method SplitFlowsets(data: bytes) returns (r: Option<seq<WireSet>>)
    ensures r == if SplitSets(data).None? then None else Some(SplitSets(data).value.sets)
  {
    hide SplitSets;
    var region, out := data, [];
    ResumeStart(SplitSets(data));
    while |region| >= 4
      invariant SplitSets(data) == Resume(out, SplitSets(region))
      decreases |region|
    {
      var id, length := U16(region, 0), U16(region, 2);
      if length < 4 {
        SplitFails(region);
        return None;
      }
      if length > |region| {
        SplitFails(region);
        return None;
      }
      ResumeUnfold(out, region);
      out := out + [WireSet(id, region[4..length])];
      region := region[length..];
    }
    ResumeUnfold(out, region);
    r := Some(out);
  }

  /** IPFIX: one combined check. */
  method SplitIpfixSets(data: bytes) returns (r: Option<seq<WireSet>>)
    ensures r == if SplitSets(data).None? then None else Some(SplitSets(data).value.sets)
  {
    hide SplitSets;
    var region, out := data, [];
    ResumeStart(SplitSets(data));
    while |region| >= 4
      invariant SplitSets(data) == Resume(out, SplitSets(region))
      decreases |region|
    {
      var id, length := U16(region, 0), U16(region, 2);
      if length < 4 || length > |region| {
        SplitFails(region);
        return None;
      }
      ResumeUnfold(out, region);
      out := out + [WireSet(id, region[4..length])];
      region := region[length..];
    }
    ResumeUnfold(out, region);
    r := Some(out);
  }

  lemma ResumeStart(s: Option<Split>)
    ensures Resume([], s) == s
  {
    if s.Some? {
      assert [] + s.value.sets == s.value.sets;
    }
  }

  lemma SplitFails(r: bytes)
    requires |r| >= 4 && !(4 <= U16(r, 2) <= |r|)
    ensures SplitSets(r) == None
  {
  }

  // The printer.

  predicate Printable(s: WireSet) {
    |s.body| + 4 < TWO_16
  }

  function PrintSet(s: WireSet): bytes
    requires Printable(s)
  {
    Put16(s.id) + Put16(|s.body| + 4) + s.body
  }

  predicate AllPrintable(sets: seq<WireSet>) {
    forall s :: s in sets ==> Printable(s)
  }

  function Join(sets: seq<WireSet>): bytes
    requires AllPrintable(sets)
  {
    if sets == [] then [] else PrintSet(sets[0]) + Join(sets[1..])
  }

  lemma SplitPrinted(s: WireSet, after: bytes)
    requires Printable(s)
    ensures SplitSets(PrintSet(s) + after) == Resume([s], SplitSets(after))
  {
    var h, r := Put16(s.id) + Put16(|s.body| + 4), PrintSet(s) + after;
    assert r[..4] == h && r[0] == h[0] && r[1] == h[1] && r[2] == h[2] && r[3] == h[3];
    assert U16(h, 0) == U16(Put16(s.id), 0) && U16(h, 2) == U16(Put16(|s.body| + 4), 0);
    assert r[4..|s.body| + 4] == s.body && r[|s.body| + 4..] == after;
    ResumeUnfold([], r);
    assert [] + [s] == [s];
    ResumeStart(SplitSets(r));
    hide SplitSets, PrintSet;
  }

  /** Splitting inverts joining, and what follows the joined Sets is split on its own. */
  lemma {:induction false} SplitJoined(sets: seq<WireSet>, more: bytes)
    requires AllPrintable(sets)
    ensures SplitSets(Join(sets) + more) == Resume(sets, SplitSets(more))
  {
    hide SplitSets, PrintSet;
    if sets == [] {
      assert Join(sets) + more == more;
      ResumeStart(SplitSets(more));
    } else {
      var after := Join(sets[1..]) + more;
      assert Join(sets) + more == PrintSet(sets[0]) + after;
      SplitPrinted(sets[0], after);
      SplitJoined(sets[1..], more);
      if SplitSets(more).Some? {
        assert [sets[0]] + (sets[1..] + SplitSets(more).value.sets) == sets + SplitSets(more).value.sets;
      }
    }
  }

  /** The framing round trip, with any tail too short to be a Set header. */
  lemma FramingRoundTrip(sets: seq<WireSet>, tail: bytes)
    requires AllPrintable(sets) && |tail| < 4
    ensures SplitSets(Join(sets) + tail) == Some(Split(sets, tail))
  {
    SplitJoined(sets, tail);
    assert sets + [] == sets;
  }

  /** One turn of an accepted split. */
  lemma SplitFirst(r: bytes)
    requires |r| >= 4 && SplitSets(r).Some?
    ensures 4 <= U16(r, 2) <= |r| && SplitSets(r[U16(r, 2)..]).Some?
    ensures var n := U16(r, 2);
      var rest := SplitSets(r[n..]).value;
      SplitSets(r).value == Split([WireSet(U16(r, 0), r[4..n])] + rest.sets, rest.tail)
  {
  }

  lemma JoinCons(s: WireSet, sets: seq<WireSet>)
    requires Printable(s) && AllPrintable(sets)
    ensures AllPrintable([s] + sets) && Join([s] + sets) == PrintSet(s) + Join(sets)
  {
    assert ([s] + sets)[1..] == sets;
    hide PrintSet;
  }

  lemma RestJoined(r: bytes, n: nat, a: bytes, b: bytes)
    requires n <= |r| && a + b == r[n..]
    ensures r[..n] + a + b == r
  {
    Regroup(r[..n], a, b);
  }

  /** And back: an accepted region is exactly its Sets, printed, followed by its tail. */
  lemma {:induction false} SplitIsExact(r: bytes)
    requires SplitSets(r).Some?
    ensures var sp := SplitSets(r).value;
      AllPrintable(sp.sets) && |sp.tail| < 4 && Join(sp.sets) + sp.tail == r
    decreases |r|
  {
    if |r| >= 4 {
      var n := U16(r, 2);
      SplitFirst(r);
      SplitIsExact(r[n..]);
      hide SplitSets, PrintSet, Join;
      var rest := SplitSets(r[n..]).value;
      HeaderExact(r);
      JoinCons(WireSet(U16(r, 0), r[4..n]), rest.sets);
      RestJoined(r, n, Join(rest.sets), rest.tail);
    } else {
      assert Join([]) + r == r;
    }
  }

  lemma HeaderExact(r: bytes)
    requires |r| >= 4 && 4 <= U16(r, 2) <= |r|
    ensures Printable(WireSet(U16(r, 0), r[4..U16(r, 2)]))
    ensures PrintSet(WireSet(U16(r, 0), r[4..U16(r, 2)])) == r[..U16(r, 2)]
  {
    var n := U16(r, 2);
    assert Put16(U16(r, 0)) == r[0..2] && Put16(n) == r[2..4];
    assert r[..n] == r[0..2] + r[2..4] + r[4..n];
  }
}
