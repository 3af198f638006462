/** The iteration order of the cache's ordered maps: exporter, then domain, then template id. */
module KeyOrder {
  import opened Flow

  /** Lexicographic order of strings by code point. */
  predicate StringLess(a: string, b: string) {
    if b == "" then false
    else if a == "" then true
    else a[0] < b[0] || (a[0] == b[0] && StringLess(a[1..], b[1..]))
  }

  predicate KeyLess(a: TemplateKey, b: TemplateKey) {
    || StringLess(a.exporter, b.exporter)
    || (a.exporter == b.exporter && a.domain < b.domain)
    || (a.exporter == b.exporter && a.domain == b.domain && a.templateId < b.templateId)
  }

  lemma {:induction false} StringTotal(a: string, b: string)
    ensures StringLess(a, b) || a == b || StringLess(b, a)
    ensures !(StringLess(a, b) && StringLess(b, a))
    ensures !StringLess(a, a)
  {
    if a != "" && b != "" {
      StringTotal(a[1..], b[1..]);
      assert a == [a[0]] + a[1..] && b == [b[0]] + b[1..];
    }
    if a != "" {
      StringTotal(a[1..], a[1..]);
    }
  }

  lemma {:induction false} StringTransitive(a: string, b: string, c: string)
    requires StringLess(a, b) && StringLess(b, c)
    ensures StringLess(a, c)
  {
    if a != "" && a[0] == b[0] == c[0] {
      StringTransitive(a[1..], b[1..], c[1..]);
    }
  }

  lemma KeyTotal(a: TemplateKey, b: TemplateKey)
    ensures KeyLess(a, b) || a == b || KeyLess(b, a)
    ensures !(KeyLess(a, b) && KeyLess(b, a))
    ensures !KeyLess(a, a)
  {
    StringTotal(a.exporter, b.exporter);
    StringTotal(a.exporter, a.exporter);
  }

  lemma KeyTransitive(a: TemplateKey, b: TemplateKey, c: TemplateKey)
    requires KeyLess(a, b) && KeyLess(b, c)
    ensures KeyLess(a, c)
  {
    if StringLess(a.exporter, b.exporter) && StringLess(b.exporter, c.exporter) {
      StringTransitive(a.exporter, b.exporter, c.exporter);
    }
  }

  /** Strings compare at the first character that differs, and a string comes before its extensions. */
  lemma {:induction false} StringOrder(common: string, x: char, y: char, s: string, t: string)
    ensures x < y ==> StringLess(common + [x] + s, common + [y] + t)
    ensures StringLess(common, common + [x] + s)
  {
    if common != "" {
      var a, b := common + [x] + s, common + [y] + t;
      assert a[1..] == common[1..] + [x] + s && b[1..] == common[1..] + [y] + t;
      StringOrder(common[1..], x, y, s, t);
    }
  }

  /** Exporters decide first, then domains, then template ids. */
  lemma FieldOrder(a: TemplateKey, b: TemplateKey)
    ensures StringLess(a.exporter, b.exporter) ==> KeyLess(a, b)
    ensures a.exporter == b.exporter && a.domain < b.domain ==> KeyLess(a, b)
    ensures a.exporter == b.exporter && a.domain == b.domain ==> (KeyLess(a, b) <==> a.templateId < b.templateId)
  {
    StringTotal(a.exporter, b.exporter);
  }

  ghost predicate IsLeast(m: TemplateKey, s: set<TemplateKey>) {
    m in s && forall k :: k in s && k != m ==> KeyLess(m, k)
  }

  lemma {:induction false} LeastExists(s: set<TemplateKey>) returns (m: TemplateKey)
    requires s != {}
    ensures IsLeast(m, s)
  {
    hide KeyLess;
    var k :| k in s;
    if s == {k} {
      m := k;
    } else {
      var r := LeastExists(s - {k});
      KeyTotal(k, r);
      m := if KeyLess(k, r) then k else r;
      forall j | j in s && j != m
        ensures KeyLess(m, j)
      {
        if m == k && j != r {
          KeyTransitive(k, r, j);
        }
      }
    }
  }

  lemma LeastUnique(a: TemplateKey, b: TemplateKey, s: set<TemplateKey>)
    requires IsLeast(a, s) && IsLeast(b, s)
    ensures a == b
  {
    KeyTotal(a, b);
  }

  /** The keys of a set in increasing order: what iterating an ordered map visits. */
  ghost function SortedKeys(s: set<TemplateKey>): (ks: seq<TemplateKey>)
    ensures forall k :: k in ks <==> k in s
  {
    if s == {} then []
    else
      var m := LeastOf(s);
      [m] + SortedKeys(s - {m})
  }

  ghost function LeastOf(s: set<TemplateKey>): (m: TemplateKey)
    requires s != {}
    ensures IsLeast(m, s)
  {
    assert exists m :: IsLeast(m, s) by {
      var m := LeastExists(s);
    }
    var m :| IsLeast(m, s);
    m
  }

  ghost predicate Increasing(ks: seq<TemplateKey>) {
    forall i, j :: 0 <= i < j < |ks| ==> KeyLess(ks[i], ks[j])
  }

  lemma {:induction false} SortedIncreasing(s: set<TemplateKey>)
    ensures Increasing(SortedKeys(s))
    ensures |SortedKeys(s)| == |s|
  {
    hide KeyLess;
    if s != {} {
      var m := LeastOf(s);
      SortedIncreasing(s - {m});
      var ks := SortedKeys(s);
      forall i, j | 0 <= i < j < |ks|
        ensures KeyLess(ks[i], ks[j])
      {
        assert ks[j] in SortedKeys(s - {m});
      }
    }
  }

  /** The order is the only one: increasing sequences over equal sets are equal. */
  lemma {:induction false} IncreasingUnique(a: seq<TemplateKey>, s: set<TemplateKey>)
    requires Increasing(a) && forall k :: k in a <==> k in s
    ensures a == SortedKeys(s)
  {
    hide KeyLess;
    if a == [] {
    } else {
      assert a[0] in s;
      assert IsLeast(a[0], s) by {
        forall k | k in s && k != a[0] ensures KeyLess(a[0], k) {
          assert k in a;
        }
      }
      LeastUnique(a[0], LeastOf(s), s);
      forall k ensures k in a[1..] <==> k in s - {a[0]} {
        KeyTotal(a[0], a[0]);
        if k in a[1..] {
          var i :| 1 <= i < |a| && a[i] == k;
        }
      }
      IncreasingUnique(a[1..], s - {a[0]});
    }
  }

  method FindLeast(s: set<TemplateKey>) returns (least: TemplateKey)
    requires s != {}
    ensures IsLeast(least, s)
  {
    hide KeyLess;
    least :| least in s;
    var seen := {least};
    while seen != s
      invariant seen <= s && IsLeast(least, seen)
      decreases |s - seen|
    {
      var k :| k in s - seen;
      KeyTotal(least, k);
      if KeyLess(k, least) {
        forall j | j in seen && j != least ensures KeyLess(k, j) {
          KeyTransitive(k, least, j);
        }
        least := k;
      }
      assert s - (seen + {k}) < s - seen;
      seen := seen + {k};
    }
  }

  /** Listing the keys of a map, smallest first, as the ordered map's iterator does. */
  method ListKeys(s: set<TemplateKey>) returns (ks: seq<TemplateKey>)
    ensures ks == SortedKeys(s)
  {
    ks := [];
    var rest := s;
    while rest != {}
      invariant SortedKeys(s) == ks + SortedKeys(rest)
      decreases |rest|
    {
      var least := FindLeast(rest);
      LeastUnique(least, LeastOf(rest), rest);
      ks := ks + [least];
      rest := rest - {least};
    }
  }

  ghost function Filter(ks: seq<TemplateKey>, keep: TemplateKey -> bool): (r: seq<TemplateKey>)
    ensures forall k :: k in r <==> k in ks && keep(k)
  {
    if ks == [] then []
    else (if keep(ks[0]) then [ks[0]] else []) + Filter(ks[1..], keep)
  }

  lemma {:induction false} FilterIncreasing(ks: seq<TemplateKey>, keep: TemplateKey -> bool)
    requires Increasing(ks)
    ensures Increasing(Filter(ks, keep))
  {
    hide KeyLess;
    if ks != [] {
      FilterIncreasing(ks[1..], keep);
      var r, t := Filter(ks, keep), Filter(ks[1..], keep);
      forall i, j | 0 <= i < j < |r| ensures KeyLess(r[i], r[j]) {
        if keep(ks[0]) && i == 0 {
          assert r[j] in t && r[j] in ks[1..];
        }
      }
    }
  }

  /** Filtering the sorted keys of a set sorts the filtered set. */
  lemma FilterSorted(s: set<TemplateKey>, keep: TemplateKey -> bool, t: set<TemplateKey>)
    requires t == set k | k in s && keep(k)
    ensures Filter(SortedKeys(s), keep) == SortedKeys(t)
  {
    SortedIncreasing(s);
    FilterIncreasing(SortedKeys(s), keep);
    IncreasingUnique(Filter(SortedKeys(s), keep), t);
  }
}
