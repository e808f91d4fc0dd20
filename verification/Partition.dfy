/** Cutting a list of sized items into consecutive parts, where part number `k` has an empty size of its own and each
    item after the first costs one separator. */
module Partition {

  /** `base(k)` is the size of part `k` (counted from one) with no items in it. */
  datatype Problem = Problem(sizes: seq<nat>, base: nat -> nat, limit: nat)

  /** Items `from..to`, each with one separator. */
  function Span(sizes: seq<nat>, from: nat, to: nat): nat
    requires to <= |sizes|
  {
    if from >= to then 0 else Span(sizes, from, to - 1) + sizes[to - 1] + 1
  }

  /** The size of part `k` when it holds items `from..to`. */
  function PartSize(p: Problem, k: nat, from: nat, to: nat): nat
    requires to <= |p.sizes|
  {
    if from >= to then p.base(k) else p.base(k) + Span(p.sizes, from, to) - 1
  }

  predicate Fits(p: Problem, k: nat, from: nat, to: nat)
    requires to <= |p.sizes|
  {
    PartSize(p, k, from, to) <= p.limit
  }

  /** Where part `i` starts, when part `j` ends before item `ends[j]`. */
  function Start(ends: seq<nat>, i: nat): nat
    requires i <= |ends|
  {
    if i == 0 then 0 else ends[i - 1]
  }

  predicate PartOk(p: Problem, ends: seq<nat>, i: nat)
    requires i < |ends|
  {
    Start(ends, i) < ends[i] <= |p.sizes| && Fits(p, i + 1, Start(ends, i), ends[i])
  }

  /** Non-empty parts, one after another, each within the limit. */
  predicate ValidParts(p: Problem, ends: seq<nat>) {
    forall i :: 0 <= i < |ends| ==> PartOk(p, ends, i)
  }

  predicate Complete(p: Problem, ends: seq<nat>) {
    ValidParts(p, ends) && Start(ends, |ends|) == |p.sizes|
  }

  /** The part could not have taken the item after it. */
  predicate FullAt(p: Problem, ends: seq<nat>, i: nat)
    requires i < |ends|
  {
    ends[i] < |p.sizes| ==> !Fits(p, i + 1, Start(ends, i), ends[i] + 1)
  }

  predicate Full(p: Problem, ends: seq<nat>) {
    forall i :: 0 <= i < |ends| ==> FullAt(p, ends, i)
  }

  lemma {:induction false} SpanMonotone(sizes: seq<nat>, a: nat, b: nat, c: nat, d: nat)
    requires a <= b <= c <= d <= |sizes|
    ensures Span(sizes, b, c) <= Span(sizes, a, d)
    decreases d
  {
    if c < d {
      SpanMonotone(sizes, a, b, c, d - 1);
    } else if b < c {
      SpanMonotone(sizes, a, b, c - 1, d - 1);
    }
  }

  lemma {:induction false} StaysAhead(p: Problem, g: seq<nat>, s: seq<nat>, i: nat)
    requires ValidParts(p, g) && Full(p, g) && ValidParts(p, s) && i < |g| && i < |s|
    ensures s[i] <= g[i]
  {
    if i > 0 { StaysAhead(p, g, s, i - 1); }
    assert PartOk(p, g, i) && PartOk(p, s, i) && FullAt(p, g, i);
    if g[i] < s[i] {
      SpanMonotone(p.sizes, Start(s, i), Start(g, i), g[i] + 1, s[i]);
    }
  }

  /** No split into parts of these bases has fewer parts than one whose parts are full. */
  lemma FullIsShortest(p: Problem, g: seq<nat>, s: seq<nat>)
    requires ValidParts(p, g) && Full(p, g) && Complete(p, s)
    ensures |g| <= |s|
  {
    if |s| < |g| {
      assert PartOk(p, g, |s|);
      if |s| > 0 { StaysAhead(p, g, s, |s| - 1); }
    }
  }

  function Concat<T>(parts: seq<seq<T>>): seq<T> {
    if parts == [] then [] else Concat(parts[..|parts| - 1]) + parts[|parts| - 1]
  }

  function Cut<T>(items: seq<T>, ends: seq<nat>, i: nat): seq<T>
    requires i < |ends| && Start(ends, i) <= ends[i] <= |items|
  {
    items[Start(ends, i)..ends[i]]
  }

  /** The parts, put back together in order, are the list. */
  lemma {:induction false} CutsRejoin<T>(p: Problem, items: seq<T>, ends: seq<nat>, parts: seq<seq<T>>)
    requires |items| == |p.sizes| && ValidParts(p, ends) && |parts| == |ends|
    requires forall i :: 0 <= i < |ends| ==> CutOk(p, items, ends, parts, i)
    ensures Start(ends, |ends|) <= |items| && Concat(parts) == items[..Start(ends, |ends|)]
  {
    if ends == [] {
      assert items[..0] == [];
    } else {
      var n := |ends| - 1;
      ValidPrefix(p, ends, n);
      forall i | 0 <= i < n ensures CutOk(p, items, ends[..n], parts[..n], i) {
        assert CutOk(p, items, ends, parts, i);
        StartOfPrefix(ends, n, i);
      }
      CutsRejoin(p, items, ends[..n], parts[..n]);
      assert CutOk(p, items, ends, parts, n);
      Append(items, Start(ends, n), ends[n]);
    }
  }

  predicate CutOk<T(==)>(p: Problem, items: seq<T>, ends: seq<nat>, parts: seq<seq<T>>, i: nat)
    requires i < |ends| && i < |parts|
  {
    Start(ends, i) <= ends[i] <= |items| && parts[i] == Cut(items, ends, i)
  }

  lemma Append<T>(items: seq<T>, a: nat, b: nat)
    requires a <= b <= |items|
    ensures items[..a] + items[a..b] == items[..b]
  {}

  lemma StartOfPrefix(ends: seq<nat>, n: nat, i: nat)
    requires i <= n <= |ends|
    ensures Start(ends[..n], i) == Start(ends, i)
  {}

  lemma ValidPrefix(p: Problem, ends: seq<nat>, n: nat)
    requires ValidParts(p, ends) && n <= |ends|
    ensures ValidParts(p, ends[..n]) && Start(ends[..n], n) == Start(ends, n)
  {
    forall i | 0 <= i < n ensures PartOk(p, ends[..n], i) {
      assert PartOk(p, ends, i);
      StartOfPrefix(ends, n, i);
    }
  }

  /** Adding one more full part. */
  lemma OneMorePart(p: Problem, ends: seq<nat>, to: nat)
    requires ValidParts(p, ends) && Full(p, ends)
    requires Start(ends, |ends|) < to <= |p.sizes| && Fits(p, |ends| + 1, Start(ends, |ends|), to)
    requires to < |p.sizes| ==> !Fits(p, |ends| + 1, Start(ends, |ends|), to + 1)
    ensures ValidParts(p, ends + [to]) && Full(p, ends + [to]) && Start(ends + [to], |ends| + 1) == to
  {
    var more := ends + [to];
    assert more[..|ends|] == ends;
    forall i | 0 <= i < |more| ensures PartOk(p, more, i) && FullAt(p, more, i) {
      StartOfPrefix(more, |ends|, if i < |ends| then i else |ends|);
      if i < |ends| { assert PartOk(p, ends, i) && FullAt(p, ends, i); }
    }
  }
}
