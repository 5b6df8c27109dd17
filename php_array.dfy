/**
 * PHP values and ordered PHP arrays with string keys, as far as the
 * matcher's settings array and the widget's client configuration need them.
 */
module PhpArray {
  import opened Wrappers

  /** A PHP value stored in a settings array or a JSON-encodable configuration. */
  datatype Value =
    | Null
    | Bool(b: bool)
    | Int(i: int)
    | Str(s: string)
    | List(items: seq<Value>)

  /** An ordered PHP array with string keys: its entries in insertion order. */
  type Entries = seq<(string, Value)>

  /** PHP's `empty()` on a value: null, false, 0, "", "0" and the empty array. */
  predicate IsEmpty(v: Value): (b: bool)
    ensures b <==> v in [Null, Bool(false), Int(0), Str(""), Str("0"), List([])]
  {
    match v
    case Null => true
    case Bool(b) => !b
    case Int(i) => i == 0
    case Str(s) => s == "" || s == "0"
    case List(items) => items == []
  }

  /** The keys of an array, in order. */
  function Keys(a: Entries): (ks: seq<string>)
    ensures |ks| == |a|
    ensures forall i :: 0 <= i < |a| ==> ks[i] == a[i].0
  {
    seq(|a|, i requires 0 <= i < |a| => a[i].0)
  }

  /** A PHP array never holds one key twice. */
  predicate DistinctKeys(a: Entries) {
    forall i, j :: 0 <= i < j < |a| ==> a[i].0 != a[j].0
  }

  /** `$a[k]` for a key that may be missing. */
  function Lookup(a: Entries, k: string): (r: Option<Value>)
    ensures r.None? <==> k !in Keys(a)
    ensures r.Some? ==> (k, r.value) in a
  {
    if a == [] then None
    else if a[0].0 == k then Some(a[0].1)
    else
      assert Keys(a) == [a[0].0] + Keys(a[1..]);
      Lookup(a[1..], k)
  }

  /** In an array with distinct keys, looking up the key of an entry finds that entry's value. */
  lemma {:induction false} LookupAt(a: Entries, i: int)
    requires DistinctKeys(a)
    requires 0 <= i < |a|
    ensures Lookup(a, a[i].0) == Some(a[i].1)
  {
    if i > 0 {
      assert DistinctKeys(a[1..]) by {
        forall p, q | 0 <= p < q < |a| - 1 ensures a[1..][p].0 != a[1..][q].0 {
          assert a[1..][p] == a[p + 1] && a[1..][q] == a[q + 1];
        }
      }
      LookupAt(a[1..], i - 1);
      assert a[1..][i - 1] == a[i];
    }
  }

  /** `!empty($a[k]) ? $a[k] : $default`. */
  function OrDefault(a: Entries, k: string, default: Value): (r: Value)
    ensures r == default || Lookup(a, k) == Some(r)
    ensures (exists v :: Lookup(a, k) == Some(v) && !IsEmpty(v)) <==> Lookup(a, k) == Some(r) && !IsEmpty(r)
    ensures !IsEmpty(default) ==> !IsEmpty(r)
    ensures Lookup(a, k).None? || IsEmpty(Lookup(a, k).value) ==> r == default
  {
    match Lookup(a, k)
    case Some(v) => if !IsEmpty(v) then v else default
    case None => default
  }

  /** The entries of `b` whose key does not occur in `a`, in the order of `b`. */
  function Missing(b: Entries, a: Entries): (r: Entries)
    ensures |r| <= |b|
    ensures forall e :: e in r <==> e in b && e.0 !in Keys(a)
  {
    if b == [] then []
    else
      var rest := Missing(b[..|b| - 1], a);
      assert b == b[..|b| - 1] + [b[|b| - 1]];
      if b[|b| - 1].0 in Keys(a) then rest else rest + [b[|b| - 1]]
  }

  /** PHP's array union `$a + $b`: `a`, then the entries of `b` whose key `a` lacks. */
  function Union(a: Entries, b: Entries): (r: Entries)
    ensures |a| <= |r| <= |a| + |b| && r[..|a|] == a
    ensures forall e :: e in r <==> e in a || (e in b && e.0 !in Keys(a))
  {
    a + Missing(b, a)
  }

  lemma {:induction false} LookupAppend(x: Entries, y: Entries, k: string)
    ensures Lookup(x + y, k) == if k in Keys(x) then Lookup(x, k) else Lookup(y, k)
  {
    if x != [] {
      assert (x + y)[0] == x[0] && (x + y)[1..] == x[1..] + y;
      assert Keys(x) == [x[0].0] + Keys(x[1..]);
      if x[0].0 != k {
        LookupAppend(x[1..], y, k);
      }
    } else {
      assert x + y == y;
    }
  }

  lemma {:induction false} LookupMissing(b: Entries, a: Entries, k: string)
    requires k !in Keys(a)
    ensures Lookup(Missing(b, a), k) == Lookup(b, k)
  {
    if b != [] {
      var init, last := b[..|b| - 1], b[|b| - 1];
      assert b == init + [last];
      LookupMissing(init, a, k);
      LookupAppend(init, [last], k);
      if last.0 !in Keys(a) {
        LookupAppend(Missing(init, a), [last], k);
      }
      if k in Keys(init) {
        assert Lookup(Missing(init, a), k).Some?;
        assert k in Keys(Missing(init, a));
      } else {
        assert Lookup(Missing(init, a), k).None?;
        assert k !in Keys(Missing(init, a));
      }
    }
  }

  /** On a key collision the left operand's value wins; other keys come from the right operand. */
  lemma UnionLookup(a: Entries, b: Entries, k: string)
    ensures Lookup(Union(a, b), k) == if k in Keys(a) then Lookup(a, k) else Lookup(b, k)
  {
    LookupAppend(a, Missing(b, a), k);
    if k !in Keys(a) {
      LookupMissing(b, a, k);
    }
  }

  /** The union of two PHP arrays is again a PHP array. */
  lemma {:induction false} UnionDistinct(a: Entries, b: Entries)
    requires DistinctKeys(a) && DistinctKeys(b)
    ensures DistinctKeys(Union(a, b))
  {
    MissingDistinct(b, a);
    var m := Missing(b, a);
    var r := Union(a, b);
    forall i, j | 0 <= i < j < |r| ensures r[i].0 != r[j].0 {
      if j >= |a| {
        assert r[j] == m[j - |a|];
        assert r[j] in m;
        if i < |a| {
          assert r[i] == a[i];
          assert Keys(a)[i] == a[i].0;
        } else {
          assert r[i] == m[i - |a|];
        }
      }
    }
  }

  lemma {:induction false} MissingDistinct(b: Entries, a: Entries)
    requires DistinctKeys(b)
    ensures DistinctKeys(Missing(b, a))
  {
    if b != [] {
      var init, last := b[..|b| - 1], b[|b| - 1];
      assert b == init + [last];
      assert DistinctKeys(init);
      MissingDistinct(init, a);
      var rest := Missing(init, a);
      if last.0 !in Keys(a) {
        forall e | e in rest ensures e.0 != last.0 {
          assert e in init;
          var i :| 0 <= i < |init| && init[i] == e;
          assert b[i] == e;
        }
        var r := rest + [last];
        forall i, j | 0 <= i < j < |r| ensures r[i].0 != r[j].0 {
          if j == |rest| {
            assert r[i] == rest[i] && rest[i] in rest;
          } else {
            assert r[i] == rest[i] && r[j] == rest[j];
          }
        }
      }
    }
  }
}
