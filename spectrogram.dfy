/** One animation step of the scrolling spectrogram: the canvas is shifted
    two pixels to the left and a new two-pixel column is painted at the
    right edge, one row per canvas line, each row reading the frequency bin
    that its height maps to and colouring it with a heat map. The canvas is
    modelled as the sequence of drawing calls made on it. */
module Spectrogram {
  import opened Common

  datatype Rgb = Rgb(r: int, g: int, b: int)

  /** The drawing calls the step makes: copying the canvas into the
      scratch canvas, filling a rectangle, and drawing the scratch canvas
      back at an offset. */
  datatype DrawOp =
    | CopyToScratch
    | FillRect(colour: Rgb, x: int, y: int, w: int, h: int)
    | DrawScratch(dx: int, dy: int)

  /** `#050505`, the background colour. */
  const Background: Rgb := Rgb(5, 5, 5)
  /** Width in pixels of the new column, and of the scroll per step. */
  const SliceWidth: nat := 2
  /** Bins at or below this amplitude are not painted. */
  const NoiseFloor: Byte := 10

  /** `Math.floor(((height - i) / height) * (binCount / 1.5))`, the bin read
      by canvas row i (row 0 is the top, the highest frequency), computed
      exactly. It never exceeds floor(binCount / 1.5), so it always lies
      inside a non-empty spectrum. */
  function FreqIndex(i: nat, height: nat, binCount: nat): (k: nat)
    requires i < height
    ensures k <= (2 * binCount) / 3
    ensures binCount >= 1 ==> k < binCount
  {
    ScaledRowBound(i, height, 2 * binCount);
    (height - i) * (2 * binCount) / (3 * height)
  }

  /** floor((h - i) * m / 3h) <= floor(m / 3) for every row i of h. */
  lemma ScaledRowBound(i: nat, h: nat, m: nat)
    requires i < h
    ensures 0 <= (h - i) * m / (3 * h) <= m / 3
  {
    var a, b, d := (h - i) * m, h * m, 3 * h;
    MulMonotone(m, 0, h - i);
    assert 0 <= a;
    MulMonotone(m, h - i, h);
    assert a <= b;
    DivMonotone(0, a, d);
    DivMonotone(a, b, d);
    DivCancel(m, 3, h);
  }

  /** Multiplying by a natural number preserves order. */
  lemma {:induction false} MulMonotone(a: nat, x: int, y: int)
    requires x <= y
    ensures a * x <= a * y
  {
    if a > 0 {
      MulMonotone(a - 1, x, y);
      assert a * x == (a - 1) * x + x;
      assert a * y == (a - 1) * y + y;
    }
  }

  /** Multiplying by a positive number preserves strict order. */
  lemma MulStrictlyMonotone(a: nat, x: int, y: int)
    requires 0 < a && x < y
    ensures a * x < a * y
  {
    MulMonotone(a, x + 1, y);
    assert a * (x + 1) == a * x + a;
  }

  /** A positive factor cancels from a strict inequality. */
  lemma MulCancelStrict(a: nat, x: int, y: int)
    requires 0 < a && a * x < a * y
    ensures x < y
  {
    if y <= x {
      MulMonotone(a, y, x);
    }
  }

  /** Integer division by a positive divisor is monotone in the dividend. */
  lemma DivMonotone(a: nat, b: nat, d: nat)
    requires a <= b && 0 < d
    ensures a / d <= b / d
  {
    var qa, qb := a / d, b / d;
    assert d * qa <= a;
    assert b < d * qb + d;
    assert d * qa < d * (qb + 1);
    MulCancelStrict(d, qa, qb + 1);
  }

  /** The quotient is determined by the division identity. */
  lemma DivUnique(n: nat, d: nat, q: nat, r: nat)
    requires 0 < d && n == d * q + r && r < d
    ensures n / d == q
  {
    var q' := n / d;
    assert d * q' <= n < d * q' + d;
    assert d * q' < d * (q + 1);
    assert d * q < d * (q' + 1);
    MulCancelStrict(d, q', q + 1);
    MulCancelStrict(d, q, q' + 1);
  }

  /** A common positive factor cancels from dividend and divisor. */
  lemma DivCancel(m: nat, d: nat, h: nat)
    requires 0 < d && 0 < h
    ensures (h * m) / (d * h) == m / d
  {
    var q, r := m / d, m % d;
    assert m == d * q + r;
    MulStrictlyMonotone(h, r, d);
    assert h * m == (d * h) * q + h * r;
    DivUnique(h * m, d * h, q, h * r);
  }

  /** Lower rows read lower bins: the mapping is non-increasing in i. */
  lemma FreqIndexNonIncreasing(i: nat, j: nat, height: nat, binCount: nat)
    requires i <= j < height
    ensures FreqIndex(j, height, binCount) <= FreqIndex(i, height, binCount)
  {
    var m := 2 * binCount;
    assert (height - j) * m <= (height - i) * m;
    DivMonotone((height - j) * m, (height - i) * m, 3 * height);
  }

  /** The heat map of an amplitude above the noise floor: dark blue below
      60, cyan to green below 120, yellow below 180, red to white above. */
  function HeatColour(v: Byte): (c: Rgb)
    requires v > NoiseFloor
    ensures v < 60 ==> c.r == 0 && c.g == 0 && 22 <= c.b <= 118
    ensures 60 <= v < 120 ==> c.r == 0 && 0 <= c.g <= 236 && 137 <= c.b <= 255
    ensures 120 <= v < 180 ==> 0 <= c.r <= 236 && c.g == 255 && c.b == 0
    ensures 180 <= v ==> c.r == 255 && c.g + c.b == 255 && -45 <= c.g <= 255 && 0 <= c.b <= 300
  {
    if v < 60 then Rgb(0, 0, v * 2)
    else if v < 120 then Rgb(0, (v - 60) * 4, 255 - (v - 60) * 2)
    else if v < 180 then Rgb((v - 120) * 4, 255, 0)
    else Rgb(255, 255 - (v - 180) * 4, (v - 180) * 4)
  }

  predicate IsChannel(x: int) {
    0 <= x <= 255
  }

  /** Every channel is a valid 8-bit value exactly when the amplitude is at
      most 243; from 244 on, green falls below 0 and blue rises above 255. */
  lemma HeatColourInRange(v: Byte)
    requires v > NoiseFloor
    ensures var c := HeatColour(v);
            IsChannel(c.r) && IsChannel(c.g) && IsChannel(c.b) <==> v <= 243
  {
  }

  /** Within each band the colour changes monotonically with the amplitude:
      blue grows in the first band, green grows while blue fades in the
      second, red grows in the third, green fades while blue grows in the
      last. */
  lemma HeatColourMonotone(v: Byte, w: Byte)
    requires NoiseFloor < v < w
    ensures w < 60 ==> HeatColour(v).b < HeatColour(w).b
    ensures 60 <= v && w < 120 ==> HeatColour(v).g < HeatColour(w).g && HeatColour(w).b < HeatColour(v).b
    ensures 120 <= v && w < 180 ==> HeatColour(v).r < HeatColour(w).r
    ensures 180 <= v ==> HeatColour(w).g < HeatColour(v).g && HeatColour(v).b < HeatColour(w).b
  {
  }

  /** Whether canvas row y of the new column is painted for the spectrum. */
  predicate IsPainted(data: seq<Byte>, height: nat, y: nat)
    requires y < height
  {
    var k := FreqIndex(y, height, |data|);
    k < |data| && data[k] > NoiseFloor
  }

  /** The colour of a painted row. */
  function RowColour(data: seq<Byte>, height: nat, y: nat): Rgb
    requires y < height && IsPainted(data, height, y)
  {
    HeatColour(data[FreqIndex(y, height, |data|)])
  }

  /** The fill made for canvas row y of the new column, if any: a 2 x 1
      rectangle at x = width - 2 in the heat colour of the row's bin. */
  function RowOps(data: seq<Byte>, width: int, height: nat, y: nat): seq<DrawOp>
    requires y < height
  {
    if IsPainted(data, height, y) then
      [FillRect(RowColour(data, height, y), width - SliceWidth, y, SliceWidth, 1)]
    else []
  }

  /** The fills made for rows 0 .. rows - 1 of the new column, top first. */
  function ColumnOps(data: seq<Byte>, width: int, height: nat, rows: nat): (ops: seq<DrawOp>)
    requires rows <= height
    ensures |ops| <= rows
  {
    if rows == 0 then [] else ColumnOps(data, width, height, rows - 1) + RowOps(data, width, height, rows - 1)
  }

  /** `op` is a fill of the new column on a painted row below `rows`: a
      2 x 1 rectangle at x = width - 2 in that row's heat colour. */
  predicate IsColumnFill(op: DrawOp, data: seq<Byte>, width: int, height: nat, rows: nat)
    requires rows <= height
  {
    && op.FillRect?
    && op.x == width - SliceWidth && op.w == SliceWidth && op.h == 1
    && 0 <= op.y < rows
    && IsPainted(data, height, op.y)
    && op.colour == RowColour(data, height, op.y)
  }

  /** Every fill of the column is a 2 x 1 rectangle at x = width - 2 on a
      painted row, in that row's heat colour, and the rows strictly ascend,
      so no row is filled twice. */
  lemma {:induction false} ColumnFillsPaintedRows(data: seq<Byte>, width: int, height: nat, rows: nat)
    requires rows <= height
    ensures forall j :: 0 <= j < |ColumnOps(data, width, height, rows)| ==>
              IsColumnFill(ColumnOps(data, width, height, rows)[j], data, width, height, rows)
    ensures forall a, b :: 0 <= a < b < |ColumnOps(data, width, height, rows)| ==>
              && ColumnOps(data, width, height, rows)[a].FillRect?
              && ColumnOps(data, width, height, rows)[b].FillRect?
              && ColumnOps(data, width, height, rows)[a].y < ColumnOps(data, width, height, rows)[b].y
  {
    if rows > 0 {
      ColumnFillsPaintedRows(data, width, height, rows - 1);
      var before := ColumnOps(data, width, height, rows - 1);
      var row := RowOps(data, width, height, rows - 1);
      var ops := ColumnOps(data, width, height, rows);
      assert ops == before + row;
      assert forall j :: 0 <= j < |before| ==> ops[j] == before[j];
      assert forall j :: |before| <= j < |ops| ==> ops[j] == row[0] && row[0].y == rows - 1;
    }
  }

  /** Every painted row among rows 0 .. rows - 1 is filled. */
  lemma {:induction false} ColumnCoversPaintedRows(data: seq<Byte>, width: int, height: nat, rows: nat, y: nat)
    requires y < rows <= height && IsPainted(data, height, y)
    ensures exists j :: 0 <= j < |ColumnOps(data, width, height, rows)| &&
              ColumnOps(data, width, height, rows)[j] ==
                FillRect(RowColour(data, height, y), width - SliceWidth, y, SliceWidth, 1)
  {
    var before := ColumnOps(data, width, height, rows - 1);
    var ops := ColumnOps(data, width, height, rows);
    assert ops == before + RowOps(data, width, height, rows - 1);
    if y == rows - 1 {
      assert ops[|before|] == FillRect(RowColour(data, height, y), width - SliceWidth, y, SliceWidth, 1);
    } else {
      ColumnCoversPaintedRows(data, width, height, rows - 1, y);
      var j :| 0 <= j < |before| && before[j] == FillRect(RowColour(data, height, y), width - SliceWidth, y, SliceWidth, 1);
      assert ops[j] == before[j];
    }
  }

  /** The scroll: copy the canvas, clear it to the background, draw the
      copy two pixels to the left. */
  function ScrollOps(width: int, height: nat): seq<DrawOp> {
    [CopyToScratch, FillRect(Background, 0, 0, width, height), DrawScratch(-(SliceWidth as int), 0)]
  }

  /** One step of the effect in the component. `canvasesReady` says both
      canvases exist and `contextsReady` that both have a 2D context;
      `width` and `height` are the canvas size. Nothing is drawn when a
      canvas or context is missing, the component is inactive or the
      spectrum is empty; otherwise the canvas scrolls and the new column is
      painted. */
  method Draw(data: array<Byte>, isActive: bool, canvasesReady: bool, contextsReady: bool,
              width: nat, height: nat) returns (ops: seq<DrawOp>)
    ensures !canvasesReady || !isActive || data.Length == 0 || !contextsReady ==> ops == []
    ensures canvasesReady && isActive && data.Length > 0 && contextsReady ==>
              ops == ScrollOps(width, height) + ColumnOps(data[..], width, height, height)
  {
    ops := [];
    if !canvasesReady || !isActive || data.Length == 0 {
      return;
    }
    if !contextsReady {
      return;
    }
    ops := ScrollOps(width, height);
    var x := width - SliceWidth;
    var binCount := data.Length;
    for i := 0 to height
      invariant ops == ScrollOps(width, height) + ColumnOps(data[..], width, height, i)
    {
      var freqIndex := FreqIndex(i, height, binCount);
      if freqIndex < binCount {
        var value := data[freqIndex];
        if value > NoiseFloor {
          ops := ops + [FillRect(HeatColour(value), x, i, SliceWidth, 1)];
        }
      }
    }
  }
}
