/**
 * Value types shared by the border and its behaviours: edges, vectors,
 * colours and the configuration enumerations, plus the "all four entries
 * are equal" test behind the border's different-edge flags.
 */
module BorderTypes {

  datatype Option<T> = None | Some(value: T)

  /** The four edges, in the order that indexes the width and colour arrays. */
  datatype Edge = Left | Top | Right | Bottom {

    function Index(): (i: nat)
      ensures i < 4
    {
      match this
      case Left => 0
      case Top => 1
      case Right => 2
      case Bottom => 3
    }

    /** Left and Right run along the height; Top and Bottom along the width. */
    predicate IsVertical() {
      this == Left || this == Right
    }
  }

  /** The edge whose slot is `i` (the source's cast `(E_BorderEdge)i`). */
  function EdgeAt(i: nat): (e: Edge)
    requires i < 4
    ensures e.Index() == i
  {
    if i == 0 then Left else if i == 1 then Top else if i == 2 then Right else Bottom
  }

  datatype Vec2 = Vec2(x: real, y: real) {
    function Neg(): (r: Vec2) { Vec2(-x, -y) }
    function Minus(o: Vec2): (r: Vec2) { Vec2(x - o.x, y - o.y) }
    function Scale(k: real): (r: Vec2) { Vec2(k * x, k * y) }
  }

  const Zero: Vec2 := Vec2(0.0, 0.0)

  /** A 32-bit colour; the channels are kept on their 0..255 scale as reals. */
  datatype Color = Color(r: real, g: real, b: real, a: real)

  /** Opaque black, the border's default colour. */
  const Black: Color := Color(0.0, 0.0, 0.0, 255.0)

  /** The all-zero colour a fresh colour array holds. */
  const Transparent: Color := Color(0.0, 0.0, 0.0, 0.0)

  /** The behaviours' default override colour (255, 128, 0, 255). */
  const Orange: Color := Color(255.0, 128.0, 0.0, 255.0)

  datatype Alignment = Outside | Inside | Centre

  datatype LineStyle = Solid | Dashed | Custom

  datatype CornerStyle = Overlap | NoOverlap | Extended | Inset

  function Four<T>(x: T): (s: seq<T>)
    ensures |s| == 4 && forall i :: 0 <= i < 4 ==> s[i] == x
  {
    [x, x, x, x]
  }

  /** Every entry equals the first one. */
  predicate AllEqual<T(==)>(s: seq<T>) {
    forall i :: 0 <= i < |s| ==> s[i] == s[0]
  }

  /** The number of distinct entries, the source's `Distinct().Count()`. */
  function DistinctCount<T(==)>(s: seq<T>): (r: nat) {
    |set x | x in s|
  }

  /** A non-empty sequence has exactly one distinct entry iff all its entries are equal. */
  lemma {:induction false} DistinctCountOneIffAllEqual<T>(s: seq<T>)
    requires |s| > 0
    ensures DistinctCount(s) == 1 <==> AllEqual(s)
  {
    var xs := set x | x in s;
    assert s[0] in xs;
    if AllEqual(s) {
      assert forall x :: x in xs <==> x == s[0];
      assert xs == {s[0]};
    }
    if |xs| == 1 {
      forall i | 0 <= i < |s| ensures s[i] == s[0] {
        assert s[i] in xs;
        assert |xs - {s[0]}| == 0;
        assert s[i] !in xs - {s[0]};
      }
    }
  }
}
