// Scene objects and the index arithmetic of the selection cursor.

module Scene {
  import opened Transforms

  /** The shape tags of `enum Geo`. */
  datatype Geo = Box | Cylinder | Sphere | Globe | Grid

  /**
   * A scene object: the transform drawn this frame (`world`), the persistent
   * edited transform (`worldStopped`) and whether it spins (`round`). Its mesh
   * and submesh are not part of this model.
   */
  datatype Object = Object(world: Matrix, worldStopped: Matrix, round: bool)

  /** Scale(0.4) * Translate(0, 0.2, 0): where createGeometry places a new object. */
  const Placement: Matrix := Mul(Scale(0.4), Translation(0.0, 0.2, 0.0))

  /**
   * The object createGeometry builds before appending it. The switch has no
   * branch for Globe, so a Globe keeps the defaults: placed like a Box, not
   * round.
   */
  function NewObject(g: Geo): (o: Object)
    ensures o.round <==> g == Cylinder || g == Sphere
    ensures o.world == o.worldStopped
    ensures g == Grid ==> o.worldStopped == Identity
    ensures g != Grid ==> o.worldStopped == Placement
  {
    var placed := Object(Placement, Placement, false);
    match g
    case Box => placed
    case Cylinder => placed.(round := true)
    case Sphere => placed.(round := true)
    case Grid => placed.(world := Identity, worldStopped := Identity)
    case Globe => placed
  }

  /** vector::erase at position i. */
  function Erase(s: seq<Object>, i: int): (r: seq<Object>)
    requires 0 <= i < |s|
    ensures |r| == |s| - 1
    ensures forall j :: 0 <= j < i ==> r[j] == s[j]
    ensures forall j :: i <= j < |r| ==> r[j] == s[j + 1]
  {
    s[..i] + s[i + 1..]
  }

  /** Erasing removes exactly the one element and nothing else. */
  lemma EraseMultiset(s: seq<Object>, i: int)
    requires 0 <= i < |s|
    ensures multiset(Erase(s, i)) + multiset{s[i]} == multiset(s)
  {
    assert s == s[..i] + [s[i]] + s[i + 1..];
  }

  /** Putting the erased element back where it was gives the original store. */
  lemma EraseInsert(s: seq<Object>, i: int)
    requires 0 <= i < |s|
    ensures Erase(s, i)[..i] + [s[i]] + Erase(s, i)[i..] == s
  {
  }

  /** The selection after deleting the selected object: one back, but not below zero. */
  function SelectionAfterDelete(selected: int): (r: int)
    requires selected >= 0
    ensures 0 <= r <= selected && r >= selected - 1
    ensures selected > 0 ==> r < selected
  {
    if selected == 0 then 0 else selected - 1
  }

  /**
   * `(selected + 1) % objCount`. C++'s % truncates toward zero while Dafny's
   * is Euclidean; the operands here are never negative, so the two agree.
   */
  function NextSelection(selected: int, count: int): (r: int)
    requires selected >= 0 && count > 0
    ensures 0 <= r < count
    ensures selected < count - 1 ==> r == selected + 1
    ensures selected == count - 1 ==> r == 0
  {
    (selected + 1) % count
  }

  /** The selection after k presses of Tab on a store of count objects. */
  function Cycled(selected: int, count: int, k: nat): (r: int)
    requires 0 <= selected < count
  {
    if k == 0 then selected else NextSelection(Cycled(selected, count, k - 1), count)
  }

  lemma MulAtLeast(a: int, c: int)
    requires a >= 1 && c > 0
    ensures a * c >= c
  {
  }

  /** The remainder is determined by any decomposition x == q * count + r with 0 <= r < count. */
  lemma ModUnique(x: int, count: int, q: int, r: int)
    requires count > 0 && 0 <= r < count && x == q * count + r
    ensures x % count == r
  {
    var q', r' := x / count, x % count;
    assert x == q' * count + r';
    assert (q - q') * count == r' - r;
    if q > q' {
      MulAtLeast(q - q', count);
    } else if q < q' {
      MulAtLeast(q' - q, count);
    }
  }

  lemma ModSucc(a: int, count: int)
    requires a >= 0 && count > 0
    ensures (a % count + 1) % count == (a + 1) % count
  {
    var q, m := a / count, a % count;
    if m + 1 < count {
      ModUnique(a + 1, count, q, m + 1);
      ModUnique(m + 1, count, 0, m + 1);
    } else {
      ModUnique(a + 1, count, q + 1, 0);
      ModUnique(m + 1, count, 1, 0);
    }
  }

  /** k presses of Tab move the selection k places round the store. */
  lemma {:induction false} CycledIsModular(selected: int, count: int, k: nat)
    requires 0 <= selected < count
    ensures Cycled(selected, count, k) == (selected + k) % count
  {
    if k == 0 {
      ModUnique(selected, count, 0, selected);
    } else {
      CycledIsModular(selected, count, k - 1);
      ModSucc(selected + k - 1, count);
    }
  }

  /** Tab reaches every object of a non-empty store, each within fewer than count presses. */
  lemma CycleReachesEvery(selected: int, count: int, target: int)
    requires 0 <= selected < count && 0 <= target < count
    ensures Cycled(selected, count, (target - selected) % count) == target
  {
    var d := target - selected;
    var k: nat := d % count;
    if d >= 0 {
      ModUnique(d, count, 0, d);
      CycledIsModular(selected, count, k);
      ModUnique(selected + k, count, 0, target);
    } else {
      ModUnique(d, count, -1, d + count);
      CycledIsModular(selected, count, k);
      ModUnique(selected + k, count, 1, target);
    }
  }

  /** count presses of Tab bring the selection back where it was. */
  lemma CycleReturns(selected: int, count: int)
    requires 0 <= selected < count
    ensures Cycled(selected, count, count) == selected
  {
    CycledIsModular(selected, count, count);
    ModUnique(selected + count, count, 1, selected);
  }
}
