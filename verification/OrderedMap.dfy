/** A map with text keys that lists its entries in key order, as the list of its entries. */
module OrderedMap {
  import opened Wrappers

  datatype Named<T> = Named(name: string, value: T)

  predicate Less(a: string, b: string) {
    b != "" && (a == "" || a[0] < b[0] || (a[0] == b[0] && Less(a[1..], b[1..])))
  }

  predicate Sorted<T>(xs: seq<Named<T>>) {
    forall i, j :: 0 <= i < j < |xs| ==> Less(xs[i].name, xs[j].name)
  }

  predicate Has<T>(xs: seq<Named<T>>, name: string) {
    exists i :: 0 <= i < |xs| && xs[i].name == name
  }

  function Insert<T>(xs: seq<Named<T>>, e: Named<T>): seq<Named<T>> {
    if xs == [] || Less(xs[|xs| - 1].name, e.name) then xs + [e]
    else Insert(xs[..|xs| - 1], e) + [xs[|xs| - 1]]
  }

  /** Inserting entries one by one; nothing if a key repeats. */
  function Build<T>(xs: seq<Named<T>>): Option<seq<Named<T>>> {
    if xs == [] then Some([])
    else
      var rest := Build(xs[..|xs| - 1]);
      if rest.None? || Has(rest.value, xs[|xs| - 1].name) then None else Some(Insert(rest.value, xs[|xs| - 1]))
  }

  function MapValues<T, U>(f: Named<T> -> U, xs: seq<Named<T>>): (ys: seq<Named<U>>)
    ensures |ys| == |xs| && forall i :: 0 <= i < |xs| ==> ys[i] == Named(xs[i].name, f(xs[i]))
  {
    seq(|xs|, i requires 0 <= i < |xs| => Named(xs[i].name, f(xs[i])))
  }

  predicate DistinctKeys<T>(xs: seq<Named<T>>) {
    forall i, j :: 0 <= i < j < |xs| ==> xs[i].name != xs[j].name
  }

  // ---------------------------------------------------------------- the order

  lemma {:induction false} LessTotal(a: string, b: string)
    requires a != b
    ensures Less(a, b) || Less(b, a)
  {
    if a != "" && b != "" && a[0] == b[0] {
      assert a == [a[0]] + a[1..] && b == [b[0]] + b[1..];
      LessTotal(a[1..], b[1..]);
    }
  }

  lemma {:induction false} LessTransitive(a: string, b: string, c: string)
    requires Less(a, b) && Less(b, c)
    ensures Less(a, c)
  {
    if a != "" && a[0] == b[0] && b[0] == c[0] { LessTransitive(a[1..], b[1..], c[1..]); }
  }

  lemma {:induction false} LessIrreflexive(a: string)
    ensures !Less(a, a)
  {
    if a != "" { LessIrreflexive(a[1..]); }
  }

  lemma SortedIsDistinct<T>(xs: seq<Named<T>>)
    requires Sorted(xs)
    ensures DistinctKeys(xs)
  {
    forall i, j | 0 <= i < j < |xs| ensures xs[i].name != xs[j].name { LessIrreflexive(xs[j].name); }
  }

  /** A proper prefix, or smaller at the first difference. */
  ghost predicate Before(a: string, b: string, k: nat) {
    && k <= |a| && k < |b| && a[..k] == b[..k] && (k < |a| ==> a[k] < b[k])
  }

  lemma BeforeStep(a: string, b: string, k: nat)
    requires a != "" && b != "" && a[0] == b[0]
    ensures Before(a, b, k + 1) <==> Before(a[1..], b[1..], k)
  {
    if k < |a| && k + 1 < |b| {
      assert a[..k + 1] == [a[0]] + a[1..][..k] && b[..k + 1] == [b[0]] + b[1..][..k];
      if a[..k + 1] == b[..k + 1] { assert a[1..][..k] == a[..k + 1][1..] && b[1..][..k] == b[..k + 1][1..]; }
    }
  }

  lemma SameStart(a: string, b: string, k: nat)
    requires Before(a, b, k) && k > 0
    ensures a[0] == b[0]
  {
    assert a[..k][0] == b[..k][0];
  }

  /** The order of the keys is the order of their characters. */
  lemma {:induction false} LessExactly(a: string, b: string)
    ensures Less(a, b) <==> exists k: nat :: Before(a, b, k)
  {
    if a == "" || b == "" || a[0] != b[0] {
      if Less(a, b) { assert Before(a, b, 0); }
      if k: nat :| Before(a, b, k) && k > 0 { SameStart(a, b, k); }
    } else {
      LessExactly(a[1..], b[1..]);
      if k: nat :| Before(a[1..], b[1..], k) { BeforeStep(a, b, k); }
      if k: nat :| Before(a, b, k) {
        assert k > 0;
        BeforeStep(a, b, k - 1);
      }
    }
  }

  // ---------------------------------------------------------------- inserting

  lemma {:induction false} InsertPermutes<T>(xs: seq<Named<T>>, e: Named<T>)
    ensures multiset(Insert(xs, e)) == multiset(xs) + multiset{e} && |Insert(xs, e)| == |xs| + 1
  {
    if xs != [] && !Less(xs[|xs| - 1].name, e.name) {
      InsertPermutes(xs[..|xs| - 1], e);
      assert xs == xs[..|xs| - 1] + [xs[|xs| - 1]];
    }
  }

  lemma {:induction false} InsertMembers<T>(xs: seq<Named<T>>, e: Named<T>, i: nat)
    requires i < |Insert(xs, e)|
    ensures Insert(xs, e)[i] == e || Insert(xs, e)[i] in xs
  {
    if xs != [] && !Less(xs[|xs| - 1].name, e.name) {
      var n := |xs| - 1;
      InsertPermutes(xs[..n], e);
      if i < |Insert(xs[..n], e)| {
        InsertMembers(xs[..n], e, i);
        assert Insert(xs, e)[i] == Insert(xs[..n], e)[i];
      } else {
        assert Insert(xs, e)[i] == xs[n];
      }
    }
  }

  lemma {:induction false} InsertSorted<T>(xs: seq<Named<T>>, e: Named<T>)
    requires Sorted(xs) && !Has(xs, e.name)
    ensures Sorted(Insert(xs, e))
  {
    if xs == [] {
    } else if Less(xs[|xs| - 1].name, e.name) {
      forall i | 0 <= i < |xs| ensures Less(xs[i].name, e.name) {
        if i < |xs| - 1 { LessTransitive(xs[i].name, xs[|xs| - 1].name, e.name); }
      }
    } else {
      var n := |xs| - 1;
      LessTotal(e.name, xs[n].name);
      InsertSorted(xs[..n], e);
      var front := Insert(xs[..n], e);
      forall i | 0 <= i < |front| ensures Less(front[i].name, xs[n].name) { InsertMembers(xs[..n], e, i); }
    }
  }

  lemma {:induction false} InsertMaps<T, U>(f: Named<T> -> U, xs: seq<Named<T>>, e: Named<T>)
    ensures MapValues(f, Insert(xs, e)) == Insert(MapValues(f, xs), Named(e.name, f(e)))
  {
    var ys := MapValues(f, xs);
    if xs == [] || Less(xs[|xs| - 1].name, e.name) {
      assert MapValues(f, xs + [e]) == ys + [Named(e.name, f(e))];
    } else {
      var n := |xs| - 1;
      InsertMaps(f, xs[..n], e);
      assert MapValues(f, xs[..n]) == ys[..n];
      assert MapValues(f, Insert(xs[..n], e) + [xs[n]]) == MapValues(f, Insert(xs[..n], e)) + [ys[n]];
    }
  }

  // ---------------------------------------------------------------- building

  lemma {:induction false} BuildKeeps<T>(xs: seq<Named<T>>)
    ensures Build(xs).Some? ==> Sorted(Build(xs).value) && multiset(Build(xs).value) == multiset(xs)
  {
    if xs != [] {
      var n := |xs| - 1;
      BuildKeeps(xs[..n]);
      assert xs == xs[..n] + [xs[n]];
      if Build(xs).Some? {
        InsertSorted(Build(xs[..n]).value, xs[n]);
        InsertPermutes(Build(xs[..n]).value, xs[n]);
      }
    }
  }

  lemma HasIsMembership<T>(xs: seq<Named<T>>, ys: seq<Named<T>>, name: string)
    requires multiset(xs) == multiset(ys)
    ensures Has(xs, name) <==> Has(ys, name)
  {
    if Has(xs, name) {
      var i :| 0 <= i < |xs| && xs[i].name == name;
      assert xs[i] in multiset(ys);
    }
    if Has(ys, name) {
      var i :| 0 <= i < |ys| && ys[i].name == name;
      assert ys[i] in multiset(xs);
    }
  }

  /** The map can be built exactly when no key repeats. */
  lemma {:induction false} BuildsIffDistinct<T>(xs: seq<Named<T>>)
    ensures Build(xs).Some? <==> DistinctKeys(xs)
  {
    if xs != [] {
      var n := |xs| - 1;
      BuildsIffDistinct(xs[..n]);
      BuildKeeps(xs[..n]);
      if Build(xs[..n]).Some? {
        HasIsMembership(Build(xs[..n]).value, xs[..n], xs[n].name);
      }
      if DistinctKeys(xs[..n]) && !Has(xs[..n], xs[n].name) {
        forall i, j | 0 <= i < j < |xs| ensures xs[i].name != xs[j].name {
          if j < n { assert xs[..n][i].name != xs[..n][j].name; } else { assert xs[..n][i] == xs[i]; }
        }
      }
      if DistinctKeys(xs) {
        assert forall i :: 0 <= i < n ==> xs[..n][i] == xs[i];
      }
    }
  }

  /** Building from a sorted list changes nothing. */
  lemma {:induction false} BuildOfSorted<T>(xs: seq<Named<T>>)
    requires Sorted(xs)
    ensures Build(xs) == Some(xs)
  {
    if xs != [] {
      var n := |xs| - 1;
      BuildOfSorted(xs[..n]);
      SortedIsDistinct(xs);
      assert xs == xs[..n] + [xs[n]];
      if n > 0 { assert xs[..n][n - 1] == xs[n - 1]; }
    }
  }

  lemma MapsHas<T, U>(f: Named<T> -> U, xs: seq<Named<T>>, name: string)
    ensures Has(MapValues(f, xs), name) <==> Has(xs, name)
  {
    var ys := MapValues(f, xs);
    if Has(xs, name) {
      var i :| 0 <= i < |xs| && xs[i].name == name;
      assert ys[i].name == name;
    }
    if Has(ys, name) {
      var i :| 0 <= i < |ys| && ys[i].name == name;
      assert xs[i].name == name;
    }
  }

  /** Building and then mapping the values is mapping and then building. */
  lemma {:induction false} BuildMaps<T, U>(f: Named<T> -> U, xs: seq<Named<T>>)
    ensures Build(MapValues(f, xs)) == if Build(xs).Some? then Some(MapValues(f, Build(xs).value)) else None
  {
    if xs != [] {
      var n := |xs| - 1;
      var ys := MapValues(f, xs);
      BuildMaps(f, xs[..n]);
      assert MapValues(f, xs[..n]) == ys[..n];
      if Build(xs[..n]).Some? {
        MapsHas(f, Build(xs[..n]).value, xs[n].name);
        InsertMaps(f, Build(xs[..n]).value, xs[n]);
      }
    } else {
      assert MapValues(f, xs) == [];
    }
  }

  lemma {:induction false} PrefixBuilds<T>(xs: seq<Named<T>>, n: nat)
    requires n <= |xs| && Build(xs).Some?
    ensures Build(xs[..n]).Some?
  {
    if n < |xs| {
      PrefixBuilds(xs[..|xs| - 1], n);
      assert xs[..|xs| - 1][..n] == xs[..n];
    } else {
      assert xs[..n] == xs;
    }
  }

  /** The loop that fills the map, stopping at a repeated key. */
  method Collect<T>(entries: seq<Named<T>>) returns (r: Option<seq<Named<T>>>)
    ensures r == Build(entries)
  {
    var collected: seq<Named<T>> := [];
    for n := 0 to |entries|
      invariant Build(entries[..n]) == Some(collected)
    {
      assert entries[..n + 1][..n] == entries[..n];
      if Has(collected, entries[n].name) {
        if Build(entries).Some? { PrefixBuilds(entries, n + 1); }
        return None;
      }
      collected := Insert(collected, entries[n]);
    }
    assert entries[..|entries|] == entries;
    return Some(collected);
  }
}
