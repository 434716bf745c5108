/**
 Report periods and the per-period amount maps built over them.

 A report row keeps one amount per period under the period's key, plus a
 "total" entry, all in the same dictionary; `map<Key, int>` stands for that
 dictionary restricted to its numeric entries.
 */
module Periods {

  type Key = string

  /** The dictionary key every row uses for its grand total. */
  const TotalKey: Key := "total"

  /** No period key occurs twice. */
  ghost predicate Distinct(ps: seq<Key>) {
    forall i, j :: 0 <= i < j < |ps| ==> ps[i] != ps[j]
  }

  /**
   The shape of the period lists the host calendar hands to the report:
   distinct keys, none of them the "total" key.
   */
  ghost predicate ValidPeriods(ps: seq<Key>) {
    Distinct(ps) && TotalKey !in ps
  }

  /** `m.get(k, 0)` */
  function Get0(m: map<Key, int>, k: Key): int {
    if k in m then m[k] else 0
  }

  /** `for k in ps: m[k] = v` */
  function Fill(m: map<Key, int>, ps: seq<Key>, v: int): (r: map<Key, int>)
    ensures r.Keys == m.Keys + set k | k in ps
    ensures forall k :: k in ps ==> r[k] == v
    ensures forall k :: k in m && k !in ps ==> r[k] == m[k]
    decreases |ps|
  {
    if ps == [] then m else Fill(m[ps[0] := v], ps[1..], v)
  }

  /** `{k: 0 for k in ps}` */
  function Zeros(ps: seq<Key>): (r: map<Key, int>)
    ensures r.Keys == set k | k in ps
    ensures forall k :: k in r ==> r[k] == 0
  {
    Fill(map[], ps, 0)
  }

  /** How many times `k` is listed in `ps`. */
  function Count(ps: seq<Key>, k: Key): nat
    decreases |ps|
  {
    if ps == [] then 0 else (if ps[0] == k then 1 else 0) + Count(ps[1..], k)
  }

  /**
   `for k in ps: m[k] = m.get(k, 0) + v`: a key listed twice is credited twice,
   exactly as the dictionary update does.
   */
  function AddEach(m: map<Key, int>, ps: seq<Key>, v: int): (r: map<Key, int>)
    ensures r.Keys == m.Keys + set k | k in ps
    ensures forall k :: Get0(r, k) == Get0(m, k) + Count(ps, k) * v
    decreases |ps|
  {
    if ps == [] then m
    else
      var r := AddEach(m[ps[0] := Get0(m, ps[0]) + v], ps[1..], v);
      CreditFirst(m, ps, _ => v, r);
      r
  }

  /**
   `for k in ps: m[k] = m.get(k, 0) + amounts.get(k, 0)`: adds one row's
   per-period amounts into an accumulating row.
   */
  function AddAmounts(m: map<Key, int>, ps: seq<Key>, amounts: map<Key, int>): (r: map<Key, int>)
    ensures r.Keys == m.Keys + set k | k in ps
    ensures forall k :: Get0(r, k) == Get0(m, k) + Count(ps, k) * Get0(amounts, k)
    decreases |ps|
  {
    if ps == [] then m
    else
      var r := AddAmounts(m[ps[0] := Get0(m, ps[0]) + Get0(amounts, ps[0])], ps[1..], amounts);
      CreditFirst(m, ps, k => Get0(amounts, k), r);
      r
  }

  /**
   Crediting the first listed key and then the rest of the list credits
   every key once per listing.
   */
  lemma CreditFirst(m: map<Key, int>, ps: seq<Key>, amount: Key -> int, r: map<Key, int>)
    requires ps != []
    requires forall k :: Get0(r, k) == Get0(m[ps[0] := Get0(m, ps[0]) + amount(ps[0])], k) + Count(ps[1..], k) * amount(k)
    ensures forall k :: Get0(r, k) == Get0(m, k) + Count(ps, k) * amount(k)
  {
    var m' := m[ps[0] := Get0(m, ps[0]) + amount(ps[0])];
    forall k
      ensures Get0(r, k) == Get0(m, k) + Count(ps, k) * amount(k)
    {
      var c := Count(ps[1..], k);
      if k == ps[0] {
        CreditedOnceMore(Get0(m, k), amount(k), c, Get0(m', k), Get0(r, k));
      } else {
        assert Get0(m', k) == Get0(m, k);
      }
    }
  }

  /** A key credited once and then `c` more times holds its base plus `1 + c` credits. */
  lemma CreditedOnceMore(base: int, v: int, c: int, x: int, y: int)
    requires x == base + v && y == x + c * v
    ensures y == base + (1 + c) * v
  {
    Distribute(v, 1, c);
  }

  /** Multiplication distributes over addition, from either side. */
  lemma Distribute(c: int, a: int, b: int)
    ensures c * (a + b) == c * a + c * b
    ensures (a + b) * c == a * c + b * c
  {
  }

  /** An accumulator holding `n * s` that takes `n * a` more holds `n * (s + a)`. */
  lemma ScaledStep(n: int, s: int, a: int, x: int, y: int)
    requires x == n * s && y == x + n * a
    ensures y == n * (s + a)
  {
    Distribute(n, s, a);
  }

  /** In a list without repeats every listed key occurs exactly once. */
  lemma {:induction false} DistinctOnce(ps: seq<Key>, k: Key)
    requires Distinct(ps)
    ensures Count(ps, k) == (if k in ps then 1 else 0)
    decreases |ps|
  {
    if ps != [] {
      assert Distinct(ps[1..]) by {
        forall i, j | 0 <= i < j < |ps[1..]| ensures ps[1..][i] != ps[1..][j] {
          assert ps[1..][i] == ps[i + 1] && ps[1..][j] == ps[j + 1];
        }
      }
      DistinctOnce(ps[1..], k);
      if k == ps[0] {
        assert k !in ps[1..] by {
          forall j | 0 <= j < |ps[1..]| ensures ps[1..][j] != k {
            assert ps[1..][j] == ps[j + 1];
          }
        }
      } else {
        assert k in ps <==> k in ps[1..] by {
          assert ps == [ps[0]] + ps[1..];
        }
      }
    }
  }

  /** `for k in ps: m[k] = f(k)` on an empty dictionary. */
  function Tabulate(ps: seq<Key>, f: Key -> int): (m: map<Key, int>)
    ensures m.Keys == set k | k in ps
    ensures forall k :: k in m ==> m[k] == f(k)
    decreases |ps|
  {
    if ps == [] then map[]
    else
      var last := ps[|ps| - 1];
      assert forall k :: k in ps <==> k in ps[..|ps| - 1] || k == last by {
        assert ps == ps[..|ps| - 1] + [last];
      }
      Tabulate(ps[..|ps| - 1], f)[last := f(last)]
  }

  /** `sum(m.get(k, 0) for k in ps)`, taken over the list (a repeated key counts again). */
  function SumOver(ps: seq<Key>, m: map<Key, int>): int
    decreases |ps|
  {
    if ps == [] then 0 else SumOver(ps[..|ps| - 1], m) + Get0(m, ps[|ps| - 1])
  }

  /** Summing a map that holds `v` under every listed key gives `v` once per period. */
  lemma {:induction false} SumOverConstant(ps: seq<Key>, m: map<Key, int>, v: int)
    requires forall k :: k in ps ==> k in m && m[k] == v
    ensures SumOver(ps, m) == |ps| * v
  {
    if ps != [] {
      var init := ps[..|ps| - 1];
      assert forall k :: k in init ==> k in ps;
      SumOverConstant(init, m, v);
      assert ps[|ps| - 1] in ps;
    }
  }

  /** Two maps that agree on the listed keys sum to the same amount over them. */
  lemma {:induction false} SumOverAgree(ps: seq<Key>, m1: map<Key, int>, m2: map<Key, int>)
    requires forall k :: k in ps ==> Get0(m1, k) == Get0(m2, k)
    ensures SumOver(ps, m1) == SumOver(ps, m2)
    decreases |ps|
  {
    if ps != [] {
      var init := ps[..|ps| - 1];
      assert forall k :: k in init ==> k in ps;
      SumOverAgree(init, m1, m2);
      assert ps[|ps| - 1] in ps;
    }
  }

  /**
   `for k in ps: m[k] = f(k); m["total"] += f(k)`: each period's amount is
   written into the row and added to the row's own "total" entry. A period
   listed under the "total" key itself overwrites that entry, which is then
   added to again.
   */
  function SetAndTally(m: map<Key, int>, ps: seq<Key>, f: Key -> int): (r: map<Key, int>)
    requires TotalKey in m
    ensures r.Keys == m.Keys + set k | k in ps
    ensures forall k :: k in ps && k != TotalKey ==> r[k] == f(k)
    ensures forall k :: k in m && k !in ps && k != TotalKey ==> r[k] == m[k]
    ensures TotalKey !in ps ==> r[TotalKey] == m[TotalKey] + SumOver(ps, r)
    decreases |ps|
  {
    if ps == [] then m
    else
      var init, k := ps[..|ps| - 1], ps[|ps| - 1];
      var prev := SetAndTally(m, init, f);
      var written := prev[k := f(k)];
      var r := written[TotalKey := written[TotalKey] + f(k)];
      assert forall j :: j in ps <==> j in init || j == k by {
        assert ps == init + [k];
      }
      assert TotalKey !in ps ==> SumOver(init, r) == SumOver(init, prev) by {
        if TotalKey !in ps {
          SumOverAgree(init, r, prev);
        }
      }
      r
  }

  /**
   `for k, v in zip(ks, vs): m.setdefault(k, v)` on an empty dictionary: every
   listed key holds the value of its first listing.
   */
  function KeepFirst(ks: seq<Key>, vs: seq<int>): (m: map<Key, int>)
    requires |ks| == |vs|
    ensures m.Keys == set k | k in ks
    ensures forall i :: FirstAt(ks, i) ==> m[ks[i]] == vs[i]
    decreases |ks|
  {
    if ks == [] then map[]
    else
      var n := |ks| - 1;
      var prev := KeepFirst(ks[..n], vs[..n]);
      KeepFirstExtends(ks, vs, ks[..n], prev);
      if ks[n] in prev then prev else prev[ks[n] := vs[n]]
  }

  /**
   The `setdefault` step: a map holding the first listings of all but the
   last key, given the last listing only when its key is new, holds the
   first listings of all the keys.
   */
  lemma KeepFirstExtends(ks: seq<Key>, vs: seq<int>, init: seq<Key>, prev: map<Key, int>)
    requires |ks| == |vs| && ks != [] && init == ks[..|ks| - 1]
    requires prev.Keys == set j | j in init
    requires forall i :: FirstAt(init, i) ==> prev[ks[i]] == vs[i]
    ensures var k, v := ks[|ks| - 1], vs[|vs| - 1];
      var m := if k in prev then prev else prev[k := v];
      && m.Keys == (set j | j in ks)
      && forall i :: FirstAt(ks, i) ==> m[ks[i]] == vs[i]
  {
    var n := |ks| - 1;
    var k, v := ks[n], vs[n];
    var m := if k in prev then prev else prev[k := v];
    assert ks == init + [k];
    forall i | FirstAt(ks, i)
      ensures m[ks[i]] == vs[i]
    {
      if i < n {
        assert FirstAt(init, i);
      } else {
        assert k !in init;
      }
    }
  }

  /** `ks[i]` is the first listing of its key. */
  ghost predicate FirstAt(ks: seq<Key>, i: int) {
    0 <= i < |ks| && forall l :: 0 <= l < i ==> ks[l] != ks[i]
  }

  /** One more listing extends `KeepFirst` only when its key is new. */
  lemma KeepFirstStep(ks: seq<Key>, vs: seq<int>, k: Key, v: int)
    requires |ks| == |vs|
    ensures KeepFirst(ks + [k], vs + [v])
      == (if k in KeepFirst(ks, vs) then KeepFirst(ks, vs) else KeepFirst(ks, vs)[k := v])
  {
    assert (ks + [k])[..|ks|] == ks && (vs + [v])[..|vs|] == vs;
  }
}
