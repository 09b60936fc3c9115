/**
 * The two list transforms every record-list widget uses: `list.filter(x => x.id !== id)`
 * and `list.map(x => x.id === id ? f(x) : x)`.
 */
module Lists {

  /** `xs.filter(x => id(x) !== target)` */
  function Without<T(!new)>(xs: seq<T>, id: T -> string, target: string): (r: seq<T>)
    ensures |r| <= |xs|
    ensures forall x :: x in r <==> x in xs && id(x) != target
  {
    if xs == [] then []
    else if id(xs[0]) == target then Without(xs[1..], id, target)
    else [xs[0]] + Without(xs[1..], id, target)
  }

  /** Filtering works piece by piece, so the survivors keep their relative order. */
  lemma {:induction false} WithoutAppend<T(!new)>(a: seq<T>, b: seq<T>, id: T -> string, target: string)
    ensures Without(a + b, id, target) == Without(a, id, target) + Without(b, id, target)
  {
    if a != [] {
      assert (a + b)[0] == a[0];
      assert (a + b)[1..] == a[1..] + b;
      WithoutAppend(a[1..], b, id, target);
      if id(a[0]) != target {
        assert [a[0]] + Without(a[1..], id, target) + Without(b, id, target)
            == [a[0]] + (Without(a[1..], id, target) + Without(b, id, target));
      }
    } else {
      assert a + b == b;
    }
  }

  /** A list holding no record with the id is left exactly as it was. */
  lemma {:induction false} WithoutAbsent<T(!new)>(xs: seq<T>, id: T -> string, target: string)
    requires forall i :: 0 <= i < |xs| ==> id(xs[i]) != target
    ensures Without(xs, id, target) == xs
  {
    if xs != [] {
      WithoutAbsent(xs[1..], id, target);
    }
  }

  /** Removing an id that was appended last removes that element. */
  lemma WithoutAppendedLast<T(!new)>(xs: seq<T>, x: T, id: T -> string)
    ensures Without(xs + [x], id, id(x)) == Without(xs, id, id(x))
  {
    WithoutAppend(xs, [x], id, id(x));
  }

  /** `xs.map(x => id(x) === target ? f(x) : x)` */
  function UpdateWhere<T(!new)>(xs: seq<T>, id: T -> string, target: string, f: T -> T): (r: seq<T>)
    ensures |r| == |xs|
    ensures forall i :: 0 <= i < |xs| && id(xs[i]) == target ==> r[i] == f(xs[i])
    ensures forall i :: 0 <= i < |xs| && id(xs[i]) != target ==> r[i] == xs[i]
  {
    if xs == [] then []
    else [if id(xs[0]) == target then f(xs[0]) else xs[0]] + UpdateWhere(xs[1..], id, target, f)
  }

  /** Applying an id-preserving involution twice to the same id restores the list. */
  lemma UpdateTwice<T(!new)>(xs: seq<T>, id: T -> string, target: string, f: T -> T)
    requires forall x :: id(f(x)) == id(x) && f(f(x)) == x
    ensures UpdateWhere(UpdateWhere(xs, id, target, f), id, target, f) == xs
  {
    var once := UpdateWhere(xs, id, target, f);
    var twice := UpdateWhere(once, id, target, f);
    forall i | 0 <= i < |xs| ensures twice[i] == xs[i] {
      if id(xs[i]) == target {
        assert id(once[i]) == target;
      }
    }
  }
}
