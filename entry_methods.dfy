/**
 * `getEntryMethods`: the entry types of a campaign's entry methods, each
 * kept once, in the order of first appearance. `Array.from(new Set(xs))`
 * inserts the elements of `xs` one by one into an insertion-ordered set,
 * skipping those already present, and lists the set in insertion order.
 */
module EntryMethods {

  datatype EntryMethod = EntryMethod(entryType: string)

  predicate NoDuplicates<T(==)>(xs: seq<T>) {
    forall i, j :: 0 <= i < j < |xs| ==> xs[i] != xs[j]
  }

  /** Position of the first occurrence of `x` in `xs`. */
  function FirstIndex<T(==)>(xs: seq<T>, x: T): (i: nat)
    requires x in xs
    ensures i < |xs| && xs[i] == x && x !in xs[..i]
  {
    if xs[0] == x then 0
    else
      var i := 1 + FirstIndex(xs[1..], x);
      assert xs[..i] == [xs[0]] + xs[1..][..i - 1];
      i
  }

  /** `Array.from(new Set(xs))` */
  function Distinct<T(==)>(xs: seq<T>): (r: seq<T>)
    ensures NoDuplicates(r)
    ensures forall i :: 0 <= i < |r| ==> r[i] in xs
    ensures forall i :: 0 <= i < |xs| ==> xs[i] in r
    ensures |r| <= |xs|
    decreases |xs|
  {
    if xs == [] then []
    else
      var d := Distinct(xs[..|xs| - 1]);
      var x := xs[|xs| - 1];
      assert xs == xs[..|xs| - 1] + [x];
      if x in d then d else d + [x]
  }

  /** `methods.map(method => method.entry_type)` */
  function EntryTypes(methods: seq<EntryMethod>): (ts: seq<string>)
    ensures |ts| == |methods|
    ensures forall k :: 0 <= k < |methods| ==> ts[k] == methods[k].entryType
  {
    seq(|methods|, k requires 0 <= k < |methods| => methods[k].entryType)
  }

  /** `getEntryMethods` */
  function GetEntryMethods(methods: seq<EntryMethod>): (r: seq<string>)
    ensures NoDuplicates(r)
    ensures forall t :: t in r <==> exists m :: m in methods && m.entryType == t
    ensures |r| <= |methods|
  {
    var ts := EntryTypes(methods);
    assert forall t :: t in ts <==> exists m :: m in methods && m.entryType == t by {
      forall t | t in ts ensures exists m :: m in methods && m.entryType == t {
        var k :| 0 <= k < |ts| && ts[k] == t;
        assert methods[k] in methods;
      }
      forall t | exists m :: m in methods && m.entryType == t ensures t in ts {
        var m :| m in methods && m.entryType == t;
        var k :| 0 <= k < |methods| && methods[k] == m;
        assert ts[k] == t;
      }
    }
    Distinct(ts)
  }

  lemma {:induction false} FirstIndexOfPrefix<T>(xs: seq<T>, x: T, y: T)
    requires y in xs
    ensures FirstIndex(xs + [x], y) == FirstIndex(xs, y)
  {
    var i, j := FirstIndex(xs + [x], y), FirstIndex(xs, y);
    assert (xs + [x])[j] == y;
    assert (xs + [x])[..j] == xs[..j];
  }

  /** The output lists the distinct elements in the order in which the input first shows them. */
  lemma {:induction false} DistinctKeepsFirstSeenOrder<T>(xs: seq<T>)
    ensures forall i, j :: 0 <= i < j < |Distinct(xs)| ==>
              FirstIndex(xs, Distinct(xs)[i]) < FirstIndex(xs, Distinct(xs)[j])
    decreases |xs|
  {
    if xs != [] {
      var ys, x := xs[..|xs| - 1], xs[|xs| - 1];
      assert xs == ys + [x];
      var d := Distinct(ys);
      DistinctKeepsFirstSeenOrder(ys);
      var r := Distinct(xs);
      forall i, j | 0 <= i < j < |r|
        ensures FirstIndex(xs, r[i]) < FirstIndex(xs, r[j])
      {
        FirstIndexOfPrefix(ys, x, r[i]);
        if j < |d| {
          FirstIndexOfPrefix(ys, x, r[j]);
        } else {
          assert r[j] == x && x !in ys;
          assert FirstIndex(xs, x) == |ys| by {
            assert xs[|ys|] == x && x !in xs[..|ys|];
            var f := FirstIndex(xs, x);
            assert f < |ys| ==> x in ys;
          }
        }
      }
    }
  }

  /** A list without duplicates comes back unchanged, so deduplicating twice is deduplicating once. */
  lemma {:induction false} DistinctOfDistinct<T>(xs: seq<T>)
    requires NoDuplicates(xs)
    ensures Distinct(xs) == xs
    decreases |xs|
  {
    if xs != [] {
      var ys, x := xs[..|xs| - 1], xs[|xs| - 1];
      assert NoDuplicates(ys);
      DistinctOfDistinct(ys);
      assert forall k :: 0 <= k < |ys| ==> xs[k] == ys[k];
      assert xs == ys + [x];
    }
  }

  lemma DistinctIdempotent<T>(xs: seq<T>)
    ensures Distinct(Distinct(xs)) == Distinct(xs)
  {
    DistinctOfDistinct(Distinct(xs));
  }

  /** Tags `[A, B, A, C]` give `[A, B, C]`. */
  lemma DistinctExample()
    ensures Distinct(["A", "B", "A", "C"]) == ["A", "B", "C"]
  {
    assert ["A", "B", "A", "C"][..3] == ["A", "B", "A"];
    assert ["A", "B", "A"][..2] == ["A", "B"];
    assert ["A", "B"][..1] == ["A"];
    assert ["A"][..0] == [];
    assert Distinct(["A"]) == ["A"];
    assert Distinct(["A", "B"]) == ["A", "B"];
    assert Distinct(["A", "B", "A"]) == ["A", "B"];
  }
}
