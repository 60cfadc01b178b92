/**
 Per-name containers of the logger: Python dicts of floats, read through
 `defaultdict` defaults, and the sums of the value lists kept per name.
 */
module Dicts {

  /** The items of a Python `Dict[str, float]`, in insertion order. */
  type Dict = seq<(string, real)>

  /** A `defaultdict` read: the stored entry, or the default for a missing name. */
  function Get<V>(m: map<string, V>, k: string, default: V): V
  {
    if k in m then m[k] else default
  }

  /** No name occurs twice, as in every Python dict. */
  predicate Distinct(d: Dict)
  {
    forall i, j :: 0 <= i < j < |d| ==> d[i].0 != d[j].0
  }

  /** The names a dict's items mention. */
  function Names(d: Dict): set<string>
  {
    set i | 0 <= i < |d| :: d[i].0
  }

  /** The dict as a map from name to value. */
  function ToMap(d: Dict): map<string, real>
    decreases |d|
  {
    if |d| == 0 then map[] else ToMap(d[1..])[d[0].0 := d[0].1]
  }

  /** Every item of a dict with distinct names is found again in its map. */
  lemma {:induction false} ToMapContents(d: Dict)
    requires Distinct(d)
    ensures ToMap(d).Keys == Names(d)
    ensures forall i :: 0 <= i < |d| ==> ToMap(d)[d[i].0] == d[i].1
    decreases |d|
  {
    if |d| > 0 {
      var rest := d[1..];
      ToMapContents(rest);
      assert Names(d) == Names(rest) + {d[0].0} by {
        forall k | k in Names(d) ensures k in Names(rest) + {d[0].0} {
          var i :| 0 <= i < |d| && d[i].0 == k;
          if i > 0 { assert rest[i - 1].0 == k; }
        }
        forall k | k in Names(rest) ensures k in Names(d) {
          var i :| 0 <= i < |rest| && rest[i].0 == k;
          assert d[i + 1].0 == k;
        }
      }
      forall i | 0 <= i < |d| ensures ToMap(d)[d[i].0] == d[i].1 {
        if i > 0 {
          assert d[i] == rest[i - 1];
          assert d[i].0 != d[0].0;
        }
      }
    }
  }

  /** The first name of a dict with distinct names does not recur in the rest. */
  lemma HeadNotInTail(d: Dict)
    requires Distinct(d) && |d| > 0
    ensures Distinct(d[1..])
    ensures d[0].0 !in ToMap(d[1..])
  {
    var rest := d[1..];
    assert Distinct(rest) by {
      forall i, j | 0 <= i < j < |rest| ensures rest[i].0 != rest[j].0 {
        assert rest[i] == d[i + 1] && rest[j] == d[j + 1];
      }
    }
    ToMapContents(rest);
  }

  /** Each name's stored sum raised by the update's value for it (the `+=` on a `defaultdict(int)`). */
  function Bump(m: map<string, real>, u: map<string, real>): map<string, real>
  {
    map k | k in m.Keys + u.Keys :: Get(m, k, 0.0) + Get(u, k, 0.0)
  }

  /** Each name's stored list extended by the update's value for it (the `+= [v]` on a `defaultdict(list)`). */
  function Extend(m: map<string, seq<real>>, u: map<string, real>): map<string, seq<real>>
  {
    map k | k in m.Keys + u.Keys :: Get(m, k, []) + (if k in u then [u[k]] else [])
  }

  /** An empty update leaves the sums as they are. */
  lemma BumpNothing(m: map<string, real>)
    ensures Bump(m, map[]) == m
  {
    var r := Bump(m, map[]);
    assert r.Keys == m.Keys;
    forall k | k in r ensures r[k] == m[k] {
    }
  }

  /** An empty update leaves the lists as they are. */
  lemma ExtendNothing(m: map<string, seq<real>>)
    ensures Extend(m, map[]) == m
  {
    var r := Extend(m, map[]);
    assert r.Keys == m.Keys;
    forall k | k in r ensures r[k] == m[k] {
      assert r[k] == m[k] + [];
    }
  }

  /** The sum of a list of values. */
  function Sum(s: seq<real>): real
  {
    if |s| == 0 then 0.0 else s[0] + Sum(s[1..])
  }

  /** Appending a value to a list adds it to the list's sum. */
  lemma {:induction false} SumAppend(s: seq<real>, x: real)
    ensures Sum(s + [x]) == Sum(s) + x
  {
    if |s| == 0 {
      assert s + [x] == [x];
    } else {
      assert (s + [x])[1..] == s[1..] + [x];
      SumAppend(s[1..], x);
    }
  }

  /** Adding one more name/value to an update first, or folding it into the map first, agree. */
  lemma BumpStep(m: map<string, real>, u: map<string, real>, k0: string, v0: real)
    requires k0 !in u
    ensures Bump(m[k0 := Get(m, k0, 0.0) + v0], u) == Bump(m, u[k0 := v0])
  {
    var lhs := Bump(m[k0 := Get(m, k0, 0.0) + v0], u);
    var rhs := Bump(m, u[k0 := v0]);
    assert lhs.Keys == rhs.Keys;
    forall k | k in lhs ensures lhs[k] == rhs[k] {
    }
  }

  /** The list counterpart of BumpStep. */
  lemma ExtendStep(m: map<string, seq<real>>, u: map<string, real>, k0: string, v0: real)
    requires k0 !in u
    ensures Extend(m[k0 := Get(m, k0, []) + [v0]], u) == Extend(m, u[k0 := v0])
  {
    var lhs := Extend(m[k0 := Get(m, k0, []) + [v0]], u);
    var rhs := Extend(m, u[k0 := v0]);
    assert lhs.Keys == rhs.Keys;
    forall k | k in lhs ensures lhs[k] == rhs[k] {
      if k == k0 {
        assert lhs[k] == Get(m, k0, []) + [v0] + [];
      }
    }
  }
}
