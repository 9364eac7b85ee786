/**
 * `MathService._generate_cache_key`: the key of a request is "math:" followed by the digest of
 * the operation name and the parameters serialised with their names sorted (`sort_keys=True`).
 * The JSON text and SHA-256 are foreign code; the serialised form is kept as a value (the
 * operation and the sorted parameter list) and the digest is a function the caller supplies.
 */
module CacheKey {
  import opened Values

  /** One keyword argument: its name and its value. */
  datatype Param = Param(name: string, value: Number)

  /** What is digested: the operation and the parameters in name order. */
  datatype KeyData = KeyData(operation: string, params: seq<Param>)

  const Prefix := "math:"

  /** Python's `<` on strings: code point by code point, a proper prefix first. */
  predicate Below(x: string, y: string)
  {
    if x == [] then y != []
    else if y == [] then false
    else if x[0] != y[0] then x[0] < y[0]
    else Below(x[1..], y[1..])
  }

  lemma {:induction false} BelowIrreflexive(x: string)
    ensures !Below(x, x)
  {
    if x != [] {
      BelowIrreflexive(x[1..]);
    }
  }

  lemma {:induction false} BelowTransitive(x: string, y: string, z: string)
    requires Below(x, y) && Below(y, z)
    ensures Below(x, z)
  {
    if x != [] && y != [] && z != [] && x[0] == y[0] == z[0] {
      BelowTransitive(x[1..], y[1..], z[1..]);
    }
  }

  lemma {:induction false} BelowTotal(x: string, y: string)
    requires x != y
    ensures Below(x, y) || Below(y, x)
  {
    if x != [] && y != [] && x[0] == y[0] {
      assert x[1..] != y[1..] by {
        assert x == [x[0]] + x[1..] && y == [y[0]] + y[1..];
      }
      BelowTotal(x[1..], y[1..]);
    }
  }

  lemma BelowAsymmetric(x: string, y: string)
    requires Below(x, y)
    ensures !Below(y, x)
  {
    if Below(y, x) {
      BelowTransitive(x, y, x);
      BelowIrreflexive(x);
    }
  }

  /** Keyword arguments never repeat a name. */
  predicate DistinctNames(ps: seq<Param>)
  {
    forall i, j :: 0 <= i < j < |ps| ==> ps[i].name != ps[j].name
  }

  /** Every earlier name is below every later one. */
  predicate SortedByName(ps: seq<Param>)
  {
    forall i, j :: 0 <= i < j < |ps| ==> Below(ps[i].name, ps[j].name)
  }

  /** Insert one parameter in front of the first one whose name is above its own. */
  function Insert(p: Param, ps: seq<Param>): (r: seq<Param>)
    ensures multiset(r) == multiset(ps) + multiset{p}
  {
    if ps == [] || Below(p.name, ps[0].name) then
      [p] + ps
    else
      assert ps == [ps[0]] + ps[1..];
      [ps[0]] + Insert(p, ps[1..])
  }

  /** Inserting a parameter with a new name into a name-sorted list keeps it sorted. */
  lemma {:induction false} InsertSorted(p: Param, ps: seq<Param>)
    requires SortedByName(ps)
    requires forall q :: q in ps ==> q.name != p.name
    ensures SortedByName(Insert(p, ps))
  {
    if ps == [] {
    } else if Below(p.name, ps[0].name) {
      forall j | 0 < j < |ps| ensures Below(p.name, ps[j].name) {
        BelowTransitive(p.name, ps[0].name, ps[j].name);
      }
    } else {
      BelowTotal(p.name, ps[0].name);
      InsertSorted(p, ps[1..]);
      var rest := Insert(p, ps[1..]);
      assert ps == [ps[0]] + ps[1..];
      forall j | 0 <= j < |rest| ensures Below(ps[0].name, rest[j].name) {
        assert rest[j] in multiset(rest);
        assert rest[j] == p || rest[j] in multiset(ps[1..]);
      }
    }
  }

  /** The `sort_keys=True` ordering of the keyword arguments. */
  function SortByName(ps: seq<Param>): (r: seq<Param>)
    requires DistinctNames(ps)
    ensures multiset(r) == multiset(ps)
    ensures SortedByName(r)
  {
    if ps == [] then
      []
    else
      var last := ps[|ps| - 1];
      var front := ps[..|ps| - 1];
      assert ps == front + [last];
      var sorted := SortByName(front);
      assert forall q :: q in sorted ==> q.name != last.name by {
        forall q | q in sorted ensures q.name != last.name {
          assert q in multiset(front);
          var i :| 0 <= i < |front| && front[i] == q;
        }
      }
      InsertSorted(last, sorted);
      Insert(last, sorted)
  }

  /** Two non-empty lists sorted by name with the same elements start with the same element. */
  lemma SortedSameHead(xs: seq<Param>, ys: seq<Param>)
    requires SortedByName(xs) && SortedByName(ys)
    requires multiset(xs) == multiset(ys)
    requires xs != [] && ys != []
    ensures xs[0] == ys[0]
  {
    assert xs[0] in multiset(ys) && ys[0] in multiset(xs);
    var j :| 0 <= j < |ys| && ys[j] == xs[0];
    var i :| 0 <= i < |xs| && xs[i] == ys[0];
    if i != 0 && j != 0 {
      BelowAsymmetric(xs[0].name, xs[i].name);
    }
  }

  /** Two lists sorted by name with the same elements are the same list. */
  lemma {:induction false} SortedUnique(xs: seq<Param>, ys: seq<Param>)
    requires SortedByName(xs) && SortedByName(ys)
    requires multiset(xs) == multiset(ys)
    ensures xs == ys
  {
    assert |xs| == |multiset(xs)| == |multiset(ys)| == |ys|;
    if xs != [] {
      SortedSameHead(xs, ys);
      assert xs == [xs[0]] + xs[1..] && ys == [ys[0]] + ys[1..];
      assert multiset(xs[1..]) == multiset(ys[1..]) by {
        assert multiset(xs) == multiset{xs[0]} + multiset(xs[1..]);
        assert multiset(ys) == multiset{ys[0]} + multiset(ys[1..]);
        assert multiset(xs[1..]) == multiset(xs) - multiset{xs[0]};
        assert multiset(ys[1..]) == multiset(ys) - multiset{ys[0]};
      }
      SortedUnique(xs[1..], ys[1..]);
    }
  }

  /** The serialised form of a request: the operation and its parameters in name order. */
  function Canonical(operation: string, ps: seq<Param>): (k: KeyData)
    requires DistinctNames(ps)
    ensures k.operation == operation
    ensures multiset(k.params) == multiset(ps) && SortedByName(k.params)
  {
    KeyData(operation, SortByName(ps))
  }

  /** `_generate_cache_key(operation, **params)`. */
  function GenerateCacheKey(digest: KeyData -> string, operation: string, ps: seq<Param>): (key: string)
    requires DistinctNames(ps)
    ensures |key| >= |Prefix| && key[..|Prefix|] == Prefix
    ensures key[|Prefix|..] == digest(Canonical(operation, ps))
  {
    Prefix + digest(Canonical(operation, ps))
  }

  /** The order in which the keyword arguments were passed does not change the key. */
  lemma KeyOrderIndependent(digest: KeyData -> string, operation: string, ps: seq<Param>, qs: seq<Param>)
    requires DistinctNames(ps) && DistinctNames(qs)
    requires multiset(ps) == multiset(qs)
    ensures GenerateCacheKey(digest, operation, ps) == GenerateCacheKey(digest, operation, qs)
  {
    SortedUnique(SortByName(ps), SortByName(qs));
  }

  /**
   * When the digest does not collide on the two serialised forms, equal keys mean equal operations
   * and equal sets of parameters.
   */
  lemma KeyDeterminesRequest(digest: KeyData -> string, op1: string, ps: seq<Param>, op2: string, qs: seq<Param>)
    requires DistinctNames(ps) && DistinctNames(qs)
    requires digest(Canonical(op1, ps)) == digest(Canonical(op2, qs)) ==> Canonical(op1, ps) == Canonical(op2, qs)
    requires GenerateCacheKey(digest, op1, ps) == GenerateCacheKey(digest, op2, qs)
    ensures op1 == op2 && multiset(ps) == multiset(qs)
  {
  }
}
