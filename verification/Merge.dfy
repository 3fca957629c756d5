/** The deep merge of value maps: right-hand values win, maps are merged key by key. */
module Merge {
  import opened Api
  import opened Json

  /** Two values under the same key. */
  function Both(a: Json, b: Json): Json
    decreases b
  {
    if a.Obj? && b.Obj? then
      Obj(map k | k in a.m.Keys + b.m.Keys ::
            if k !in b.m then a.m[k] else if k in a.m then Both(a.m[k], b.m[k]) else b.m[k])
    else b
  }

  function Two(a: Fields, b: Fields): Fields {
    Both(Obj(a), Obj(b)).m
  }

  /** The left fold of the two-map merge. */
  function Fold(ms: seq<Fields>): Fields {
    if ms == [] then map[] else Two(Fold(ms[..|ms| - 1]), ms[|ms| - 1])
  }

  method MergeMaps(ms: seq<Fields>) returns (result: Fields)
    ensures result == Fold(ms)
  {
    ghost var bound := Arr(seq(|ms|, i requires 0 <= i < |ms| => Obj(ms[i])));
    assert forall i :: 0 <= i < |ms| ==> Obj(ms[i]) == bound.items[i];
    result := MergeBelow(ms, bound);
  }

  /** The variadic merge. `bound` limits the nesting that is left to visit. */
  method MergeBelow(ms: seq<Fields>, ghost bound: Json) returns (result: Fields)
    requires forall i :: 1 <= i < |ms| ==> Obj(ms[i]) == bound || Obj(ms[i]) < bound
    ensures result == Fold(ms)
    decreases bound, 1
  {
    result := map[];
    for i := 0 to |ms|
      invariant result == Fold(ms[..i])
    {
      result := MergeInto(result, ms[i], bound);
      assert ms[..i + 1][..i] == ms[..i];
    }
    assert ms[..|ms|] == ms;
  }

  /** Takes over one more map, whose keys Go visits in no fixed order. */
  method MergeInto(before: Fields, m: Fields, ghost bound: Json) returns (result: Fields)
    requires before == map[] || Obj(m) == bound || Obj(m) < bound
    ensures result == Two(before, m)
    decreases bound, 0
  {
    result := before;
    var todo := m.Keys;
    while todo != {}
      invariant todo <= m.Keys
      invariant result.Keys == before.Keys + (m.Keys - todo)
      invariant forall k :: k in before && (k in todo || k !in m) ==> result[k] == before[k]
      invariant forall k :: k in m && k !in todo ==> result[k] == if k in before then Both(before[k], m[k]) else m[k]
    {
      var key :| key in todo;
      var value := m[key];
      if key in result && result[key].Obj? && value.Obj? {
        FoldTwo(result[key].m, value.m);
        var merged := MergeBelow([result[key].m, value.m], value);
        result := result[key := Obj(merged)];
      } else {
        result := result[key := value];
      }
      todo := todo - {key};
    }
    assert result == Two(before, m);
  }

  // ---------------------------------------------------------------- identity and idempotence

  lemma Identity(m: Fields)
    ensures Two(map[], m) == m && Two(m, map[]) == m
  {
  }

  lemma FoldTwo(a: Fields, b: Fields)
    ensures Fold([a, b]) == Two(a, b)
  {
    assert [a, b][..1] == [a] && [a][..0] == [];
    Identity(a);
    assert Fold([a]) == Two(Fold([]), a);
  }

  lemma {:induction false} BothSame(a: Json)
    ensures Both(a, a) == a
    decreases a
  {
    if a.Obj? {
      forall k | k in a.m
        ensures Both(a.m[k], a.m[k]) == a.m[k]
      {
        BothSame(a.m[k]);
      }
    }
  }

  lemma Idempotent(m: Fields)
    ensures Two(m, m) == m
  {
    BothSame(Obj(m));
  }

  // ---------------------------------------------------------------- lookup by path

  function At(v: Json, path: seq<string>): Option<Json>
    decreases |path|
  {
    if path == [] then Some(v)
    else if v.Obj? && path[0] in v.m then At(v.m[path[0]], path[1..])
    else None
  }

  /** A value that is not a map lies on the way. */
  predicate Blocks(v: Json, path: seq<string>)
    decreases |path|
  {
    path != [] && (!v.Obj? || (path[0] in v.m && Blocks(v.m[path[0]], path[1..])))
  }

  /** What a path finds in a merge, from what it finds in the two parts. */
  lemma {:induction false} AtBoth(a: Json, b: Json, path: seq<string>)
    ensures At(Both(a, b), path) ==
            if At(b, path).Some? then Some(if At(a, path).Some? then Both(At(a, path).value, At(b, path).value)
                else At(b, path).value)
            else if Blocks(b, path) then None
            else At(a, path)
    decreases |path|
  {
    if path != [] && a.Obj? && b.Obj? && path[0] in a.m && path[0] in b.m {
      AtBoth(a.m[path[0]], b.m[path[0]], path[1..]);
    }
  }

  /** The rightmost map that says something at a path decides, if it holds no map there. */
  lemma {:induction false} RightmostWins(ms: seq<Fields>, path: seq<string>, i: nat)
    requires i < |ms| && path != []
    requires At(Obj(ms[i]), path).Some? && !At(Obj(ms[i]), path).value.Obj?
    requires forall j :: i < j < |ms| ==> At(Obj(ms[j]), path).None? && !Blocks(Obj(ms[j]), path)
    ensures At(Obj(Fold(ms)), path) == At(Obj(ms[i]), path)
    decreases |ms|
  {
    var init, last := ms[..|ms| - 1], ms[|ms| - 1];
    AtBoth(Obj(Fold(init)), Obj(last), path);
    if i < |ms| - 1 {
      RightmostWins(init, path, i);
    }
  }

  // ---------------------------------------------------------------- associativity

  /** Every key of `a` occurs in `c`, at every level where both are maps. */
  predicate Absorbed(a: Json, c: Json)
    decreases c
  {
    a.Obj? && c.Obj? ==> forall k :: k in a.m ==> k in c.m && Absorbed(a.m[k], c.m[k])
  }

  /** Where the middle value is no map between two maps, the right one absorbs the left one. */
  predicate NoClash(a: Json, b: Json, c: Json)
    decreases c
  {
    a.Obj? && c.Obj? ==>
      if b.Obj? then forall k :: k in a.m && k in b.m && k in c.m ==> NoClash(a.m[k], b.m[k], c.m[k])
      else Absorbed(a, c)
  }

  lemma {:induction false} AbsorbedExactly(a: Json, c: Json)
    ensures Both(a, c) == c <==> Absorbed(a, c)
    decreases c
  {
    if a.Obj? && c.Obj? {
      var r := Both(a, c).m;
      forall k | k in a.m && k in c.m
        ensures r[k] == c.m[k] <==> Absorbed(a.m[k], c.m[k])
      {
        AbsorbedExactly(a.m[k], c.m[k]);
      }
      if Both(a, c) == c {
        assert r.Keys == c.m.Keys;
        forall k | k in a.m
          ensures k in c.m && Absorbed(a.m[k], c.m[k])
        {
          assert k in r.Keys;
        }
      }
      if Absorbed(a, c) {
        assert r == c.m;
      }
    }
  }

  lemma {:induction false} AssociativeExactly(a: Json, b: Json, c: Json)
    ensures Both(Both(a, b), c) == Both(a, Both(b, c)) <==> NoClash(a, b, c)
    decreases c
  {
    if a.Obj? && c.Obj? {
      if b.Obj? {
        AssociativeMaps(a, b, c);
      } else {
        AbsorbedExactly(a, c);
      }
    }
  }

  lemma {:induction false} AssociativeMaps(a: Json, b: Json, c: Json)
    requires a.Obj? && b.Obj? && c.Obj?
    ensures Both(Both(a, b), c) == Both(a, Both(b, c)) <==> NoClash(a, b, c)
    decreases c, 0
  {
    var l, r := Both(Both(a, b), c).m, Both(a, Both(b, c)).m;
    assert l.Keys == r.Keys == a.m.Keys + b.m.Keys + c.m.Keys;
    forall k | k in l
      ensures l[k] == r[k] <==> (k in a.m && k in b.m && k in c.m ==> NoClash(a.m[k], b.m[k], c.m[k]))
    {
      if k in a.m && k in b.m && k in c.m {
        AssociativeExactly(a.m[k], b.m[k], c.m[k]);
      }
    }
    if NoClash(a, b, c) {
      assert l == r;
    } else {
      var k :| k in a.m && k in b.m && k in c.m && !NoClash(a.m[k], b.m[k], c.m[k]);
      assert l[k] != r[k];
    }
  }

  /** The merge of three maps may be bracketed either way exactly when they do not clash. */
  lemma Associative(a: Fields, b: Fields, c: Fields)
    ensures Two(Two(a, b), c) == Two(a, Two(b, c)) <==> NoClash(Obj(a), Obj(b), Obj(c))
  {
    AssociativeExactly(Obj(a), Obj(b), Obj(c));
  }

  /** The middle map holds no other value where both neighbours hold maps. */
  predicate MapsBetween(a: Json, b: Json, c: Json)
    decreases c
  {
    a.Obj? && c.Obj? ==>
      b.Obj? && forall k :: k in a.m && k in b.m && k in c.m ==> MapsBetween(a.m[k], b.m[k], c.m[k])
  }

  lemma {:induction false} MapsBetweenSuffices(a: Json, b: Json, c: Json)
    requires MapsBetween(a, b, c)
    ensures NoClash(a, b, c)
    decreases c
  {
    if a.Obj? && c.Obj? {
      forall k | k in a.m && k in b.m && k in c.m
        ensures NoClash(a.m[k], b.m[k], c.m[k])
      {
        MapsBetweenSuffices(a.m[k], b.m[k], c.m[k]);
      }
    }
  }

  /** Bracketing matters: a scalar between two maps erases the left one only in the left fold. */
  lemma NotAssociative() returns (a: Fields, b: Fields, c: Fields)
    ensures Two(Two(a, b), c) != Two(a, Two(b, c))
  {
    var x: Fields := map["x" := Null];
    var y: Fields := map["y" := Null];
    a, b, c := map["k" := Obj(x)], map["k" := Null], map["k" := Obj(y)];
    assert "x" in x && "x" !in y;
    assert !Absorbed(Obj(x), Obj(y));
    assert "k" in a && "k" in b && "k" in c;
    assert !NoClash(a["k"], b["k"], c["k"]);
    Associative(a, b, c);
  }
}
