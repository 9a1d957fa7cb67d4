// The byte helpers and the midpoint-circle disk fill of general.c.
//
// general.c packs and unpacks the 16-bit two's-complement words of the
// mobile base's serial protocol, and rasterises filled disks into a 2-D
// integer array (the pheromone stencils are drawn with it).

module General {

  /** An `unsigned char`. */
  type byte = x: int | 0 <= x < 256

  datatype Option<T> = None | Some(value: T)

  /** The elements an Option holds: one, or none. */
  function Sent<T>(o: Option<T>): (r: seq<T>)
    ensures |r| <= 1 && (r == [] <==> o.None?)
  {
    if o.Some? then [o.value] else []
  }

  /** A C conversion from floating point to integer: truncation toward zero. */
  function Trunc(r: real): (n: int)
    ensures r >= 0.0 ==> n as real <= r < n as real + 1.0
    ensures r < 0.0 ==> n as real - 1.0 < r <= n as real
  {
    if r >= 0.0 then r.Floor else -((-r).Floor)
  }

  /** The value a 32-bit `int` holds after an arithmetic result is stored in it (two's-complement wrap-around). */
  function ToInt32(n: int): (r: int)
    ensures -0x8000_0000 <= r < 0x8000_0000
    ensures (r - n) % 0x1_0000_0000 == 0
    ensures -0x8000_0000 <= n < 0x8000_0000 ==> r == n
  {
    (n + 0x8000_0000) % 0x1_0000_0000 - 0x8000_0000
  }

  // ---------------------------------------------------------------------
  // 16-bit words
  // ---------------------------------------------------------------------

  /** general_bytes2uint: the unsigned word whose high and low bytes are given. */
  function Bytes2Uint(high: byte, low: byte): (r: int)
    ensures 0 <= r < 0x1_0000
    ensures r / 256 == high && r % 256 == low
  {
    low + high * 256
  }

  /**
   * general_bytes2int: a word whose bit 15 is set is read as negative, but
   * the source subtracts 0xFFFF (not 0x10000), so 0xFF,0xFF reads as 0 and
   * the range is [-32767, 32767].
   */
  function Bytes2Int(high: byte, low: byte): (r: int)
    ensures high < 128 ==> r == Bytes2Uint(high, low)
    ensures high >= 128 ==> r == Bytes2Uint(high, low) - 0xFFFF
    ensures -32767 <= r <= 32767
    ensures r < 0 ==> high >= 128
  {
    if high >= 128 then low + high * 256 - 0xFFFF else low + high * 256
  }

  /**
   * general_int2bytes: a negative input is first raised by 0xFFFF, then
   * bits 8..15 become the high byte and bits 0..7 the low byte (an
   * arithmetic shift and a mask, which is Euclidean division here).
   */
  function Int2Bytes(n: int): (r: (byte, byte))
    ensures -0xFFFF <= n < 0x1_0000 ==>
              Bytes2Uint(r.0, r.1) == if n < 0 then n + 0xFFFF else n
  {
    var m := if n < 0 then n + 0xFFFF else n;
    ((m / 256) % 256, m % 256)
  }

  /** Packing then unpacking gives back every value in [-32767, 32767]. */
  lemma Int2BytesRoundTrip(n: int)
    requires -32767 <= n <= 32767
    ensures Bytes2Int(Int2Bytes(n).0, Int2Bytes(n).1) == n
  {
    var hl := Int2Bytes(n);
    if n < 0 {
      assert Bytes2Uint(hl.0, hl.1) == n + 0xFFFF;
      assert hl.0 >= 128;
    } else {
      assert Bytes2Uint(hl.0, hl.1) == n;
      assert hl.0 < 128;
    }
  }

  /** The all-ones word decodes to 0 because of the 0xFFFF offset. */
  lemma AllOnesIsZero()
    ensures Bytes2Int(0xFF, 0xFF) == 0
    ensures Int2Bytes(0) == (0, 0)
  {
  }

  /** -32768 is the one 16-bit value that does not survive the round trip. */
  lemma MinInt16DoesNotRoundTrip()
    ensures Int2Bytes(-32768) == (0x7F, 0xFF)
    ensures Bytes2Int(Int2Bytes(-32768).0, Int2Bytes(-32768).1) == 32767
  {
  }

  // ---------------------------------------------------------------------
  // Midpoint-circle disk fill
  // ---------------------------------------------------------------------

  function Abs(n: int): nat
  {
    if n < 0 then -n else n
  }

  /**
   * The cells written by one step (x, y) of the fill: the runs of
   * half-width x on rows cy +- y and the runs of half-width y on rows
   * cy +- x (the latter coincide with the former when x == y).
   */
  predicate OnStep(i: int, j: int, cx: int, cy: int, x: int, y: int)
  {
    (Abs(j - cy) == y && Abs(i - cx) <= x) || (Abs(j - cy) == x && Abs(i - cx) <= y)
  }

  /** Cell (i, j) is written by one of the recorded steps. */
  ghost predicate Drawn(i: int, j: int, cx: int, cy: int, steps: seq<(int, int)>)
    decreases |steps|
  {
    |steps| > 0 &&
    (OnStep(i, j, cx, cy, steps[|steps| - 1].0, steps[|steps| - 1].1) ||
     Drawn(i, j, cx, cy, steps[..|steps| - 1]))
  }

  lemma DrawnSnoc(cx: int, cy: int, steps: seq<(int, int)>, s: (int, int))
    ensures forall i, j :: Drawn(i, j, cx, cy, steps + [s]) <==>
              OnStep(i, j, cx, cy, s.0, s.1) || Drawn(i, j, cx, cy, steps)
  {
    assert (steps + [s])[..|steps|] == steps;
  }

  /** Steps (x, y) with 0 <= y <= x <= r only write inside the (2r+1)-square. */
  lemma {:induction false} DrawnInBox(i: int, j: int, cx: int, cy: int, r: int, steps: seq<(int, int)>)
    requires forall k :: 0 <= k < |steps| ==> 0 <= steps[k].1 <= steps[k].0 <= r
    requires Drawn(i, j, cx, cy, steps)
    ensures cx - r <= i <= cx + r && cy - r <= j <= cy + r
    decreases |steps|
  {
    var n := |steps| - 1;
    if !OnStep(i, j, cx, cy, steps[n].0, steps[n].1) {
      DrawnInBox(i, j, cx, cy, r, steps[..n]);
    }
  }

  /** Whatever the steps, the written cells are symmetric about both axes through the centre. */
  lemma {:induction false} DrawnSymmetric(i: int, j: int, cx: int, cy: int, steps: seq<(int, int)>)
    requires Drawn(i, j, cx, cy, steps)
    ensures Drawn(2 * cx - i, j, cx, cy, steps) && Drawn(i, 2 * cy - j, cx, cy, steps)
    decreases |steps|
  {
    var n := |steps| - 1;
    if !OnStep(i, j, cx, cy, steps[n].0, steps[n].1) {
      DrawnSymmetric(i, j, cx, cy, steps[..n]);
    }
  }

  /** A first step (r, 0) writes the whole centre row. */
  lemma {:induction false} DrawnCentreRow(i: int, cx: int, cy: int, r: int, steps: seq<(int, int)>)
    requires |steps| > 0 && steps[0] == (r, 0)
    requires cx - r <= i <= cx + r
    ensures Drawn(i, cy, cx, cy, steps)
    decreases |steps|
  {
    var n := |steps| - 1;
    if n > 0 {
      DrawnCentreRow(i, cx, cy, r, steps[..n]);
    }
  }

  /** general_circle_horizontal_line: sets arr[x + i][y] to 1 for 0 <= i < len. */
  method HorizontalLine(a: array2<int>, x: int, y: int, len: int)
    requires 0 <= len && 0 <= x && x + len <= a.Length0 && 0 <= y < a.Length1
    modifies a
    ensures forall i, j :: 0 <= i < a.Length0 && 0 <= j < a.Length1 ==>
              a[i, j] == if j == y && x <= i < x + len then 1 else old(a[i, j])
  {
    var k := 0;
    while k < len
      invariant 0 <= k <= len
      invariant forall i, j :: 0 <= i < a.Length0 && 0 <= j < a.Length1 ==>
                  a[i, j] == if j == y && x <= i < x + k then 1 else old(a[i, j])
    {
      a[x + k, y] := 1;
      k := k + 1;
    }
  }

  /** general_circle_four_points: the runs of half-width x on rows cy + y and cy - y. */
  method FourPoints(a: array2<int>, cx: int, cy: int, x: int, y: int)
    requires 0 <= x && 0 <= y
    requires 0 <= cx - x && cx + x < a.Length0 && 0 <= cy - y && cy + y < a.Length1
    modifies a
    ensures forall i, j :: 0 <= i < a.Length0 && 0 <= j < a.Length1 ==>
              a[i, j] == if Abs(j - cy) == y && Abs(i - cx) <= x then 1 else old(a[i, j])
  {
    HorizontalLine(a, cx - x, cy + y, 2 * x + 1);
    HorizontalLine(a, cx - x, cy - y, 2 * x + 1);
  }

  /** general_circle_eight_points: four runs, or two when x == y. */
  method EightPoints(a: array2<int>, cx: int, cy: int, x: int, y: int)
    requires 0 <= x && 0 <= y
    requires 0 <= cx - x && cx + x < a.Length0 && 0 <= cy - y && cy + y < a.Length1
    requires 0 <= cx - y && cx + y < a.Length0 && 0 <= cy - x && cy + x < a.Length1
    modifies a
    ensures forall i, j :: 0 <= i < a.Length0 && 0 <= j < a.Length1 ==>
              a[i, j] == if OnStep(i, j, cx, cy, x, y) then 1 else old(a[i, j])
  {
    FourPoints(a, cx, cy, x, y);
    if x != y {
      FourPoints(a, cx, cy, y, x);
    }
  }

  /**
   * general_circle: the midpoint-circle loop filling a disk of radius r
   * centred on (cx, cy). It terminates because y grows by one per step and
   * x never grows. `steps` records the (x, y) of each step: the cells it
   * wrote are set to 1, lie in the (2r+1)-square around the centre, are
   * symmetric about both axes through the centre, and include the whole
   * centre row; no other cell changes.
   */
  method Circle(a: array2<int>, cx: int, cy: int, r: int) returns (ghost steps: seq<(int, int)>)
    requires 0 <= r
    requires 0 <= cx - r && cx + r < a.Length0 && 0 <= cy - r && cy + r < a.Length1
    modifies a
    ensures forall i, j :: 0 <= i < a.Length0 && 0 <= j < a.Length1 ==>
              a[i, j] == if Drawn(i, j, cx, cy, steps) then 1 else old(a[i, j])
    ensures forall i, j :: Drawn(i, j, cx, cy, steps) ==> cx - r <= i <= cx + r && cy - r <= j <= cy + r
    ensures forall i, j :: Drawn(i, j, cx, cy, steps) ==>
              Drawn(2 * cx - i, j, cx, cy, steps) && Drawn(i, 2 * cy - j, cx, cy, steps)
    ensures forall i :: cx - r <= i <= cx + r ==> Drawn(i, cy, cx, cy, steps)
  {
    var error := -r;
    var x := r;
    var y := 0;
    steps := [];
    while x >= y
      invariant 0 <= y && x <= r
      invariant y == 0 ==> x == r && steps == []
      invariant y > 0 ==> |steps| > 0 && steps[0] == (r, 0)
      invariant forall k :: 0 <= k < |steps| ==> 0 <= steps[k].1 <= steps[k].0 <= r
      invariant forall i, j :: 0 <= i < a.Length0 && 0 <= j < a.Length1 ==>
                  a[i, j] == if Drawn(i, j, cx, cy, steps) then 1 else old(a[i, j])
      decreases x - y + 2
    {
      EightPoints(a, cx, cy, x, y);
      DrawnSnoc(cx, cy, steps, (x, y));
      steps := steps + [(x, y)];

      error := error + y;
      y := y + 1;
      error := error + y;
      if error >= 0 {
        error := error - x;
        x := x - 1;
        error := error - x;
      }
    }
    forall i, j | Drawn(i, j, cx, cy, steps)
      ensures cx - r <= i <= cx + r && cy - r <= j <= cy + r
      ensures Drawn(2 * cx - i, j, cx, cy, steps) && Drawn(i, 2 * cy - j, cx, cy, steps)
    {
      DrawnInBox(i, j, cx, cy, r, steps);
      DrawnSymmetric(i, j, cx, cy, steps);
    }
    forall i | cx - r <= i <= cx + r
      ensures Drawn(i, cy, cx, cy, steps)
    {
      DrawnCentreRow(i, cx, cy, r, steps);
    }
  }
}
