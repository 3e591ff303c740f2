/**
 * The falling-glyph background: one drop per column of the canvas, each a
 * row number that advances by one row per animation frame and, once below
 * the bottom edge, restarts at the top on a random chance.
 *
 * The canvas, the glyph and colour choices and the timer are not modelled;
 * every `Math.random()` the drop logic consumes is passed in as a real in
 * [0, 1).
 */
module Matrix {

  /** Glyph size in pixels: the width of a column and the height of a row. */
  const FontSize: nat := 14

  /** A drop below the bottom edge restarts when its roll exceeds this. */
  const ResetThreshold: real := 0.98

  /** `Math.floor(canvas.width / fontSize)`: how many whole columns fit across the canvas. */
  function ColumnCount(width: nat): (n: nat)
    ensures n * FontSize <= width < (n + 1) * FontSize
  {
    width / FontSize
  }

  /**
   * `Math.floor(Math.random() * canvas.height / fontSize)`: a starting row
   * that is non-negative and lies above the bottom edge.
   */
  function InitialDrop(height: nat, roll: real): (d: int)
    requires 0.0 <= roll < 1.0
    ensures 0 <= d
    ensures d * FontSize <= height
    ensures height > 0 ==> d * FontSize < height
  {
    InitialDropBounds(height, roll);
    (roll * height as real / FontSize as real).Floor
  }

  /** The sign of a product of two non-negative reals. */
  lemma ProductSigns(x: real, y: real)
    requires 0.0 <= x && 0.0 <= y
    ensures 0.0 <= x * y
    ensures 0.0 < x && 0.0 < y ==> 0.0 < x * y
  {
  }

  /** The bounds of `InitialDrop`, stated on its defining expression. */
  lemma InitialDropBounds(height: nat, roll: real)
    requires 0.0 <= roll < 1.0
    ensures var d := (roll * height as real / FontSize as real).Floor;
      0 <= d && d * FontSize <= height && (height > 0 ==> d * FontSize < height)
  {
    var h := height as real;
    var p := roll * h;
    ProductSigns(roll, h);
    ProductSigns(1.0 - roll, h);
    assert h - p == (1.0 - roll) * h;
    assert FontSize as real == 14.0;
    var row := p / 14.0;
    assert row * 14.0 == p;
    var d := row.Floor;
    assert d as real <= row;
    assert (d * FontSize) as real == d as real * 14.0 <= p;
  }

  /**
   * One frame of one column: restart at row 0 only when the glyph's pixel
   * row `drop * fontSize` is below the bottom edge and the roll beats the
   * threshold; otherwise move down one row.
   */
  function NextDrop(drop: int, height: nat, roll: real): (d: int)
    ensures d == 0 || d == drop + 1
    ensures drop * FontSize <= height ==> d == drop + 1
    ensures drop * FontSize > height ==> (d == 0 <==> roll > ResetThreshold)
  {
    if drop * FontSize > height && roll > ResetThreshold then 0 else drop + 1
  }

  /**
   * The row of a drop after one frame per entry of `rolls`, taken in order,
   * with the canvas height unchanged across the frames: never more than one
   * row further down per frame.
   */
  function AfterFrames(drop: int, height: nat, rolls: seq<real>): (r: int)
    ensures r <= drop + |rolls|
    decreases |rolls|
  {
    if |rolls| == 0 then drop else AfterFrames(NextDrop(drop, height, rolls[0]), height, rolls[1..])
  }

  /**
   * With the canvas height unchanged across the frames, while its glyph has
   * not passed the bottom edge a drop moves down exactly one row per frame,
   * whatever the rolls.
   */
  lemma {:induction false} FallsWhileOnScreen(drop: int, height: nat, rolls: seq<real>)
    requires |rolls| == 0 || (drop + |rolls| - 1) * FontSize <= height
    ensures AfterFrames(drop, height, rolls) == drop + |rolls|
    decreases |rolls|
  {
    if |rolls| > 0 {
      FallsWhileOnScreen(drop + 1, height, rolls[1..]);
    }
  }

  /** A drop that starts at a non-negative row never goes negative, over any number of frames. */
  lemma {:induction false} AfterFramesNonNegative(drop: int, height: nat, rolls: seq<real>)
    requires 0 <= drop
    ensures 0 <= AfterFrames(drop, height, rolls)
    decreases |rolls|
  {
    if |rolls| > 0 {
      AfterFramesNonNegative(NextDrop(drop, height, rolls[0]), height, rolls[1..]);
    }
  }

  /** The drop state of a mounted background. */
  class Rain {
    /** `canvas.width`, `canvas.height`: kept in step with the window. */
    var width: nat
    var height: nat
    /** One row number per column; the array is created once and never replaced. */
    const drops: array<int>

    /** Every drop is a non-negative row number. */
    ghost predicate Valid()
      reads drops
    {
      forall i :: 0 <= i < drops.Length ==> 0 <= drops[i]
    }

    /**
     * Mounting: size the canvas to the window, count the columns once and
     * give each column a random starting row (`rolls[i]` is the column's
     * `Math.random()`).
     */
    constructor (width: nat, height: nat, rolls: seq<real>)
      requires |rolls| == ColumnCount(width)
      requires forall k :: 0 <= k < |rolls| ==> 0.0 <= rolls[k] < 1.0
      ensures Valid() && fresh(drops)
      ensures this.width == width && this.height == height
      ensures drops.Length == ColumnCount(width)
      ensures forall i :: 0 <= i < drops.Length ==> drops[i] == InitialDrop(height, rolls[i])
    {
      this.width := width;
      this.height := height;
      var columns := ColumnCount(width);
      var a := new int[columns];
      for i := 0 to columns
        invariant forall k :: 0 <= k < i ==> a[k] == InitialDrop(height, rolls[k])
      {
        a[i] := InitialDrop(height, rolls[i]);
      }
      drops := a;
    }

    /** `resizeCanvas`: the canvas takes the new window size; the drops are left as they are. */
    method Resize(width: nat, height: nat)
      requires Valid()
      modifies this
      ensures Valid()
      ensures this.width == width && this.height == height
      ensures unchanged(drops)
    {
      this.width := width;
      this.height := height;
    }

    /**
     * The drop update for column `i`, the inner step of `Frame`: no other
     * column is touched and the drops stay non-negative.
     */
    method StepColumn(i: nat, roll: real)
      requires Valid() && i < drops.Length
      modifies drops
      ensures Valid()
      ensures drops[i] == NextDrop(old(drops[i]), height, roll)
      ensures forall j :: 0 <= j < drops.Length && j != i ==> drops[j] == old(drops[j])
    {
      var y := drops[i] * FontSize;
      if y > height && roll > ResetThreshold {
        drops[i] := 0;
      } else {
        drops[i] := drops[i] + 1;
      }
    }

    /**
     * `drawMatrix`: every column advances once, left to right; `rolls[i]` is
     * the reset roll of column `i`. The number of drops never changes and
     * they stay non-negative.
     */
    method Frame(rolls: seq<real>)
      requires Valid() && |rolls| == drops.Length
      modifies drops
      ensures Valid()
      ensures forall i :: 0 <= i < drops.Length ==> drops[i] == NextDrop(old(drops[i]), height, rolls[i])
    {
      for i := 0 to drops.Length
        invariant forall k :: 0 <= k < i ==> drops[k] == NextDrop(old(drops[k]), height, rolls[k])
        invariant forall k :: i <= k < drops.Length ==> drops[k] == old(drops[k])
        invariant Valid()
      {
        StepColumn(i, rolls[i]);
      }
    }
  }
}
