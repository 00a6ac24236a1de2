/**
 * Ordered dictionaries with the semantics of JavaScript objects built by
 * assignment and merged by `extend` (Object.assign): assigning an existing key
 * replaces its value in place, a new key goes to the end.
 */
module Dict {
  import opened Base

  function Keys(p: Params): (ks: seq<string>)
    ensures |ks| == |p|
    ensures forall i :: 0 <= i < |p| ==> ks[i] == p[i].0
  {
    seq(|p|, i requires 0 <= i < |p| => p[i].0)
  }

  predicate HasKey(p: Params, k: string) {
    k in Keys(p)
  }

  predicate Distinct(ks: seq<string>) {
    forall i, j :: 0 <= i < j < |ks| ==> ks[i] != ks[j]
  }

  /** `p[k]`: the value at the first occurrence of `k`, `undefined` if there is none. */
  function Get(p: Params, k: string): (v: Json)
    ensures !HasKey(p, k) ==> v == JUndef
  {
    if p == [] then JUndef
    else if p[0].0 == k then p[0].1
    else Get(p[1..], k)
  }

  /** `p[k] = v`. */
  function Put(p: Params, k: string, v: Json): Params {
    if p == [] then [(k, v)]
    else if p[0].0 == k then [(k, v)] + p[1..]
    else [p[0]] + Put(p[1..], k, v)
  }

  /** Assignment replaces an existing key in place and appends a new one. */
  lemma {:induction false} PutKeys(p: Params, k: string, v: Json)
    ensures Keys(Put(p, k, v)) == if HasKey(p, k) then Keys(p) else Keys(p) + [k]
  {
    if p != [] {
      KeysCons(p);
      if p[0].0 == k {
        KeysCons(Put(p, k, v));
        assert Put(p, k, v)[1..] == p[1..];
      } else {
        PutKeys(p[1..], k, v);
        var r := Put(p, k, v);
        KeysCons(r);
        assert r[1..] == Put(p[1..], k, v);
      }
    }
  }

  /** After assignment `k` reads `v` and every other key reads as before. */
  lemma {:induction false} PutGet(p: Params, k: string, v: Json, j: string)
    ensures Get(Put(p, k, v), j) == if j == k then v else Get(p, j)
  {
    if p != [] {
      var r := Put(p, k, v);
      if p[0].0 == k {
        GetCons((k, v), p[1..]);
        GetCons(p[0], p[1..]);
      } else {
        PutGet(p[1..], k, v, j);
        GetCons(p[0], Put(p[1..], k, v));
        GetCons(p[0], p[1..]);
      }
      assert p == [p[0]] + p[1..];
    }
  }

  lemma GetCons(e: (string, Json), rest: Params)
    ensures forall j :: Get([e] + rest, j) == if e.0 == j then e.1 else Get(rest, j)
  {
    assert ([e] + rest)[1..] == rest;
  }

  /** `extend(p, q)`: the entries of `q`, in order, assigned into a copy of `p`. */
  function Extend(p: Params, q: Params): Params
    decreases |q|
  {
    if q == [] then p else Extend(Put(p, q[0].0, q[0].1), q[1..])
  }

  /** The keys of `ks` that are not in `seen`, in order. */
  function Without(ks: seq<string>, seen: seq<string>): (r: seq<string>)
    ensures forall k :: k in r <==> k in ks && k !in seen
  {
    if ks == [] then []
    else if ks[0] in seen then Without(ks[1..], seen)
    else [ks[0]] + Without(ks[1..], seen)
  }

  lemma {:induction false} WithoutIgnores(ks: seq<string>, seen: seq<string>, k: string)
    requires k !in ks
    ensures Without(ks, seen + [k]) == Without(ks, seen)
  {
    if ks != [] {
      WithoutIgnores(ks[1..], seen, k);
    }
  }

  /** Assignment keeps the keys of an object distinct. */
  lemma DistinctPut(p: Params, k: string, v: Json)
    requires Distinct(Keys(p))
    ensures Distinct(Keys(Put(p, k, v)))
  {
    PutKeys(p, k, v);
  }

  /** Extending an object keeps its keys distinct. */
  lemma {:induction false} DistinctExtend(p: Params, q: Params)
    requires Distinct(Keys(p))
    ensures Distinct(Keys(Extend(p, q)))
    decreases |q|
  {
    if q != [] {
      DistinctPut(p, q[0].0, q[0].1);
      DistinctExtend(Put(p, q[0].0, q[0].1), q[1..]);
    }
  }

  lemma KeysCons(q: Params)
    requires q != []
    ensures Keys(q) == [q[0].0] + Keys(q[1..])
  {
  }

  lemma DistinctTail(ks: seq<string>)
    requires ks != [] && Distinct(ks)
    ensures Distinct(ks[1..]) && ks[0] !in ks[1..]
  {
    forall i, j | 0 <= i < j < |ks[1..]| ensures ks[1..][i] != ks[1..][j] {
      assert ks[1..][i] == ks[i + 1] && ks[1..][j] == ks[j + 1];
    }
  }

  /**
   * Key order after `extend`: the keys of `p` keep their places, and the keys of
   * `q` that `p` lacks follow in the order of `q`.
   */
  lemma {:induction false} ExtendKeys(p: Params, q: Params)
    requires Distinct(Keys(q))
    ensures Keys(Extend(p, q)) == Keys(p) + Without(Keys(q), Keys(p))
    decreases |q|
  {
    if q != [] {
      var k := q[0].0;
      var p' := Put(p, k, q[0].1);
      var rest := Keys(q[1..]);
      var ks := Keys(p);
      KeysCons(q);
      DistinctTail(Keys(q));
      ExtendKeys(p', q[1..]);
      PutKeys(p, k, q[0].1);
      WithoutCons(k, rest, ks);
      if !HasKey(p, k) {
        WithoutIgnores(rest, ks, k);
        AppendAssoc(ks, [k], Without(rest, ks));
      }
    }
  }

  lemma WithoutCons(k: string, rest: seq<string>, seen: seq<string>)
    ensures Without([k] + rest, seen) == if k in seen then Without(rest, seen) else [k] + Without(rest, seen)
  {
    assert ([k] + rest)[1..] == rest;
  }

  lemma AppendAssoc(a: seq<string>, b: seq<string>, c: seq<string>)
    ensures (a + b) + c == a + (b + c)
  {
  }

  /** Values after `extend`: a key of `q` takes its value from `q`, any other key keeps its value in `p`. */
  lemma {:induction false} ExtendGet(p: Params, q: Params, k: string)
    requires Distinct(Keys(q))
    ensures Get(Extend(p, q), k) == if HasKey(q, k) then Get(q, k) else Get(p, k)
    decreases |q|
  {
    if q != [] {
      var p' := Put(p, q[0].0, q[0].1);
      HasKeyCons(q, k);
      DistinctTail(Keys(q));
      ExtendGet(p', q[1..], k);
      PutGet(p, q[0].0, q[0].1, k);
      if q[0].0 == k {
        assert !HasKey(q[1..], k);
      }
    }
  }

  /** The first key of `q`, or one of the rest. */
  lemma HasKeyCons(q: Params, k: string)
    requires q != []
    ensures HasKey(q, k) <==> q[0].0 == k || HasKey(q[1..], k)
    ensures Keys(q)[1..] == Keys(q[1..])
  {
    KeysCons(q);
  }
}
