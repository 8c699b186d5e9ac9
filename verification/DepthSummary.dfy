/**
 The strided summary of a raw depth image.  Depths are exact real numbers.
 */
module DepthSummary {
  import opened Basics

  type Byte = b: int | 0 <= b < 256

  const MAX_BYTES: nat := 67_108_864

  datatype Encoding = UInt16 | Float32 | OtherEncoding

  /** What the reviewed source allows. */
  datatype Bounds = Bounds(
    encodings: set<Encoding>,
    minWidth: int,
    maxWidth: int,
    minHeight: int,
    maxHeight: int,
    minDepth: real,
    maxDepth: real)

  datatype Layout = Layout(width: nat, height: nat, encoding: Encoding, step: nat, bigEndian: bool)

  /** What one pixel says, in metres. */
  datatype Reading = NotANumber | Infinite | Metric(v: real)

  datatype Summary = Summary(valid: nat, invalid: nat, minimum: real, maximum: real)

  /* ---------- Decoding one pixel ---------- */

  function PixelSize(e: Encoding): nat
  {
    match e
    case UInt16 => 2
    case Float32 => 4
    case OtherEncoding => 0
  }

  function Reverse(bytes: seq<Byte>): (r: seq<Byte>)
    ensures |r| == |bytes|
    ensures forall i :: 0 <= i < |r| ==> r[i] == bytes[|bytes| - 1 - i]
  {
    if bytes == [] then [] else Reverse(bytes[1..]) + [bytes[0]]
  }

  /** The number whose least significant byte comes first. */
  function LittleEndian(bytes: seq<Byte>): nat
  {
    if bytes == [] then 0 else bytes[0] + 256 * LittleEndian(bytes[1..])
  }

  function PowerOfTwo(n: int): (r: real)
    ensures r > 0.0
    decreases if n < 0 then -n else n
  {
    if n == 0 then 1.0 else if n > 0 then 2.0 * PowerOfTwo(n - 1) else PowerOfTwo(n + 1) / 2.0
  }

  /** The value of an IEEE 754 binary32 bit pattern. */
  function DecodeFloat(bits: nat): Reading
  {
    var negative, exponent, fraction := bits / 0x8000_0000 % 2 == 1, bits / 0x80_0000 % 256, bits % 0x80_0000;
    if exponent == 255 then
      if fraction != 0 then NotANumber else Infinite
    else
      var size :=
        if exponent == 0 then fraction as real * PowerOfTwo(-149)
        else (fraction + 0x80_0000) as real * PowerOfTwo(exponent - 150);
      Metric(if negative then -size else size)
  }

  function Decode(e: Encoding, bigEndian: bool, bytes: seq<Byte>): Reading
  {
    var bits := LittleEndian(if bigEndian then Reverse(bytes) else bytes);
    if e.Float32? then DecodeFloat(bits) else Metric(bits as real * 0.001)
  }

  lemma {:induction false} ReverseTwice(bytes: seq<Byte>)
    ensures Reverse(Reverse(bytes)) == bytes
  {
  }

  /** Reversing the bytes of a pixel and flipping the flag gives the same value. */
  lemma {:induction false} DecodeSwapped(e: Encoding, bigEndian: bool, bytes: seq<Byte>)
    ensures Decode(e, !bigEndian, Reverse(bytes)) == Decode(e, bigEndian, bytes)
  {
    ReverseTwice(bytes);
  }

  /* ---------- All pixels ---------- */

  /** The checks made before any pixel is read. */
  predicate Shaped(b: Bounds, l: Layout, data: seq<Byte>)
  {
    data != [] && |data| <= MAX_BYTES && !l.encoding.OtherEncoding? && l.encoding in b.encodings &&
    b.minWidth <= l.width <= b.maxWidth && b.minHeight <= l.height <= b.maxHeight &&
    l.step >= l.width * PixelSize(l.encoding) && |data| == l.step * l.height
  }

  lemma Monotone(a: nat, b: nat, s: nat)
    requires a <= b
    ensures a * s <= b * s
  {
  }

  lemma Successor(a: nat, s: nat)
    ensures (a + 1) * s == a * s + s
  {
  }

  lemma PixelInside(l: Layout, row: nat, col: nat)
    requires row < l.height && col < l.width && l.step >= l.width * PixelSize(l.encoding)
    ensures row * l.step + (col + 1) * PixelSize(l.encoding) <= l.step * l.height
    ensures col * PixelSize(l.encoding) + PixelSize(l.encoding) == (col + 1) * PixelSize(l.encoding)
    ensures (col + 1) * PixelSize(l.encoding) <= l.width * PixelSize(l.encoding)
  {
    Successor(row, l.step);
    Monotone(row + 1, l.height, l.step);
    Successor(col, PixelSize(l.encoding));
    Monotone(col + 1, l.width, PixelSize(l.encoding));
  }

  function PixelBytes(l: Layout, data: seq<Byte>, row: nat, col: nat): seq<Byte>
    requires row < l.height && col < l.width
    requires l.step >= l.width * PixelSize(l.encoding) && |data| == l.step * l.height
  {
    PixelInside(l, row, col);
    var start := row * l.step + col * PixelSize(l.encoding);
    data[start..start + PixelSize(l.encoding)]
  }

  function ReadingAt(l: Layout, data: seq<Byte>, row: nat, col: nat): Reading
    requires row < l.height && col < l.width
    requires l.step >= l.width * PixelSize(l.encoding) && |data| == l.step * l.height
  {
    Decode(l.encoding, l.bigEndian, PixelBytes(l, data, row, col))
  }

  function RowReadings(l: Layout, data: seq<Byte>, row: nat): (r: seq<Reading>)
    requires row < l.height
    requires l.step >= l.width * PixelSize(l.encoding) && |data| == l.step * l.height
    ensures |r| == l.width && forall col :: 0 <= col < l.width ==> r[col] == ReadingAt(l, data, row, col)
  {
    seq(l.width, col requires 0 <= col < l.width => ReadingAt(l, data, row, col))
  }

  /** The readings of the first rows, row by row. */
  function Readings(l: Layout, data: seq<Byte>, rows: nat): (r: seq<Reading>)
    requires rows <= l.height
    requires l.step >= l.width * PixelSize(l.encoding) && |data| == l.step * l.height
    ensures |r| == rows * l.width
  {
    if rows == 0 then [] else Readings(l, data, rows - 1) + RowReadings(l, data, rows - 1)
  }

  /* ---------- What a summary means ---------- */

  /** A reading that forbids any summary. */
  predicate Bad(b: Bounds, r: Reading)
  {
    r.Infinite? || (r.Metric? && (r.v < 0.0 || (r.v != 0.0 && !(b.minDepth <= r.v <= b.maxDepth))))
  }

  predicate Good(b: Bounds, r: Reading)
  {
    r.Metric? && r.v > 0.0 && b.minDepth <= r.v <= b.maxDepth
  }

  function GoodValues(b: Bounds, rs: seq<Reading>): seq<real>
  {
    if rs == [] then []
    else
      var n := |rs| - 1;
      GoodValues(b, rs[..n]) + if Good(b, rs[n]) then [rs[n].v] else []
  }

  /** No reading is bad, and some are good. */
  predicate Summarizable(b: Bounds, rs: seq<Reading>)
  {
    (forall i :: 0 <= i < |rs| ==> !Bad(b, rs[i])) && exists i :: 0 <= i < |rs| && Good(b, rs[i])
  }

  /** The good readings counted, the others counted, the extremes attained by good readings. */
  ghost predicate Summarizes(b: Bounds, rs: seq<Reading>, s: Summary)
  {
    s.valid == |GoodValues(b, rs)| && s.valid + s.invalid == |rs| &&
    (exists i :: 0 <= i < |rs| && Good(b, rs[i]) && rs[i].v == s.minimum) &&
    (exists i :: 0 <= i < |rs| && Good(b, rs[i]) && rs[i].v == s.maximum) &&
    forall i :: 0 <= i < |rs| && Good(b, rs[i]) ==> s.minimum <= rs[i].v <= s.maximum
  }

  lemma {:induction false} GoodValuesFacts(b: Bounds, rs: seq<Reading>)
    ensures |GoodValues(b, rs)| <= |rs|
    ensures forall x :: x in GoodValues(b, rs) <==> exists i :: 0 <= i < |rs| && Good(b, rs[i]) && rs[i].v == x
  {
    if rs != [] {
      var n := |rs| - 1;
      GoodValuesFacts(b, rs[..n]);
      forall x ensures x in GoodValues(b, rs) <==> exists i :: 0 <= i < |rs| && Good(b, rs[i]) && rs[i].v == x {
        if i :| 0 <= i < |rs| && Good(b, rs[i]) && rs[i].v == x {
          assert i < n ==> rs[..n][i] == rs[i];
        }
        if x in GoodValues(b, rs[..n]) {
          var i :| 0 <= i < n && Good(b, rs[..n][i]) && rs[..n][i].v == x;
          assert rs[i] == rs[..n][i];
        }
      }
    }
  }

  /** A summary satisfies the checks of the image metadata, and lies in the range of the source. */
  lemma {:induction false} SummaryInRange(b: Bounds, l: Layout, data: seq<Byte>, s: Summary)
    requires Shaped(b, l, data) && Summarizes(b, Readings(l, data, l.height), s)
    ensures s.valid >= 1 && s.valid + s.invalid == l.height * l.width
    ensures 0.0 < s.minimum <= s.maximum && b.minDepth <= s.minimum && s.maximum <= b.maxDepth
  {
    var rs := Readings(l, data, l.height);
    GoodValuesFacts(b, rs);
    var i :| 0 <= i < |rs| && Good(b, rs[i]) && rs[i].v == s.minimum;
    assert rs[i].v in GoodValues(b, rs);
  }

  /** A summary is determined by the readings. */
  lemma SummaryUnique(b: Bounds, rs: seq<Reading>, s: Summary, t: Summary)
    requires Summarizes(b, rs, s) && Summarizes(b, rs, t)
    ensures s == t
  {
    var i :| 0 <= i < |rs| && Good(b, rs[i]) && rs[i].v == s.minimum;
    var j :| 0 <= j < |rs| && Good(b, rs[j]) && rs[j].v == t.minimum;
    var k :| 0 <= k < |rs| && Good(b, rs[k]) && rs[k].v == s.maximum;
    var m :| 0 <= m < |rs| && Good(b, rs[m]) && rs[m].v == t.maximum;
    assert s.minimum <= t.minimum && t.minimum <= s.minimum;
    assert s.maximum >= t.maximum && t.maximum >= s.maximum;
  }

  /* ---------- What a summary does not depend on ---------- */

  lemma {:induction false} SameReadings(l: Layout, data: seq<Byte>, m: Layout, other: seq<Byte>, rows: nat)
    requires l.width == m.width && l.height == m.height && rows <= l.height
    requires l.step >= l.width * PixelSize(l.encoding) && |data| == l.step * l.height
    requires m.step >= m.width * PixelSize(m.encoding) && |other| == m.step * m.height
    requires forall row, col :: 0 <= row < l.height && 0 <= col < l.width ==>
      ReadingAt(l, data, row, col) == ReadingAt(m, other, row, col)
    ensures Readings(l, data, rows) == Readings(m, other, rows)
  {
    if rows > 0 {
      SameReadings(l, data, m, other, rows - 1);
      assert RowReadings(l, data, rows - 1) == RowReadings(m, other, rows - 1);
    }
  }

  lemma PaddingPixel(l: Layout, data: seq<Byte>, m: Layout, other: seq<Byte>, row: nat, col: nat)
    requires row < l.height && col < l.width && m == l.(step := m.step)
    requires l.step >= l.width * PixelSize(l.encoding) && |data| == l.step * l.height
    requires m.step >= m.width * PixelSize(m.encoding) && |other| == m.step * m.height
    requires PixelBytes(l, data, row, col) == PixelBytes(m, other, row, col)
    ensures ReadingAt(l, data, row, col) == ReadingAt(m, other, row, col)
  {
  }

  /** Row padding does not matter: neither its bytes nor how much of it there is. */
  lemma {:induction false} PaddingIgnored(l: Layout, data: seq<Byte>, step: nat, other: seq<Byte>)
    requires l.step >= l.width * PixelSize(l.encoding) && |data| == l.step * l.height
    requires step >= l.width * PixelSize(l.encoding) && |other| == step * l.height
    requires forall row, col :: 0 <= row < l.height && 0 <= col < l.width ==>
      PixelBytes(l, data, row, col) == PixelBytes(l.(step := step), other, row, col)
    ensures Readings(l, data, l.height) == Readings(l.(step := step), other, l.height)
  {
    forall row, col | 0 <= row < l.height && 0 <= col < l.width
      ensures ReadingAt(l, data, row, col) == ReadingAt(l.(step := step), other, row, col)
    {
      PaddingPixel(l, data, l.(step := step), other, row, col);
    }
    SameReadings(l, data, l.(step := step), other, l.height);
  }

  lemma SwapPixel(l: Layout, data: seq<Byte>, other: seq<Byte>, row: nat, col: nat)
    requires row < l.height && col < l.width
    requires l.step >= l.width * PixelSize(l.encoding) && |data| == l.step * l.height && |other| == |data|
    requires PixelBytes(l, other, row, col) == Reverse(PixelBytes(l, data, row, col))
    ensures ReadingAt(l.(bigEndian := !l.bigEndian), other, row, col) == ReadingAt(l, data, row, col)
  {
    DecodeSwapped(l.encoding, l.bigEndian, PixelBytes(l, data, row, col));
  }

  /** Swapping the bytes of every pixel and flipping the endian flag changes nothing. */
  lemma {:induction false} SwapInvariant(l: Layout, data: seq<Byte>, other: seq<Byte>)
    requires l.step >= l.width * PixelSize(l.encoding) && |data| == l.step * l.height && |other| == |data|
    requires forall row, col :: 0 <= row < l.height && 0 <= col < l.width ==>
      PixelBytes(l, other, row, col) == Reverse(PixelBytes(l, data, row, col))
    ensures Readings(l, data, l.height) == Readings(l.(bigEndian := !l.bigEndian), other, l.height)
  {
    var m := l.(bigEndian := !l.bigEndian);
    forall row, col | 0 <= row < l.height && 0 <= col < l.width
      ensures ReadingAt(l, data, row, col) == ReadingAt(m, other, row, col)
    {
      SwapPixel(l, data, other, row, col);
    }
    SameReadings(l, data, m, other, l.height);
  }

  /* ---------- The loop ---------- */

  lemma NextReading(l: Layout, data: seq<Byte>, row: nat, col: nat, reading: Reading)
    requires row < l.height && col < l.width
    requires l.step >= l.width * PixelSize(l.encoding) && |data| == l.step * l.height
    requires reading == Decode(l.encoding, l.bigEndian, PixelBytes(l, data, row, col))
    ensures RowReadings(l, data, row)[..col] + [reading] == RowReadings(l, data, row)[..col + 1]
  {
    var rs := RowReadings(l, data, row);
    assert rs[col] == reading;
  }

  /** `struct.unpack` on one row, pixel by pixel. */
  method UnpackRow(l: Layout, data: seq<Byte>, row: nat) returns (values: seq<Reading>)
    requires row < l.height
    requires l.step >= l.width * PixelSize(l.encoding) && |data| == l.step * l.height
    ensures values == RowReadings(l, data, row)
  {
    var size := PixelSize(l.encoding);
    var start := row * l.step;
    RowInside(l, row);
    var width := l.width * size;
    var rowData := data[start..start + width];
    values := [];
    var col := 0;
    while col < l.width
      invariant 0 <= col <= l.width && values == RowReadings(l, data, row)[..col]
    {
      var at := col * size;
      PixelInRow(l, data, row, col, start, width, at);
      var reading := Decode(l.encoding, l.bigEndian, rowData[at..at + size]);
      NextReading(l, data, row, col, reading);
      values := values + [reading];
      col := col + 1;
    }
  }

  lemma SliceOfSlice(data: seq<Byte>, start: nat, end: nat, a: nat, b: nat)
    requires start <= end <= |data| && a <= b <= end - start
    ensures data[start..end][a..b] == data[start + a..start + b]
  {
    var x, y := data[start..end][a..b], data[start + a..start + b];
    assert |x| == |y| && forall i :: 0 <= i < |x| ==> x[i] == y[i];
  }

  /** The bytes of a pixel, cut out of the bytes of its row. */
  lemma PixelInRow(l: Layout, data: seq<Byte>, row: nat, col: nat, start: nat, w: nat, c: nat)
    requires row < l.height && col < l.width
    requires l.step >= l.width * PixelSize(l.encoding) && |data| == l.step * l.height
    requires start == row * l.step && w == l.width * PixelSize(l.encoding) && c == col * PixelSize(l.encoding)
    ensures start + w <= |data| && c + PixelSize(l.encoding) <= w
    ensures data[start..start + w][c..c + PixelSize(l.encoding)] == PixelBytes(l, data, row, col)
  {
    RowInside(l, row);
    PixelInside(l, row, col);
    SliceOfSlice(data, start, start + w, c, c + PixelSize(l.encoding));
  }

  lemma RowInside(l: Layout, row: nat)
    requires row < l.height && l.step >= l.width * PixelSize(l.encoding)
    ensures row * l.step + l.width * PixelSize(l.encoding) <= l.step * l.height
  {
    Successor(row, l.step);
    Monotone(row + 1, l.height, l.step);
  }

  /** What the loops have collected from the readings so far. */
  ghost predicate Collected(b: Bounds, rs: seq<Reading>, valid: seq<real>, invalid: nat)
  {
    (forall i :: 0 <= i < |rs| ==> !Bad(b, rs[i])) && valid == GoodValues(b, rs) && |valid| + invalid == |rs|
  }

  lemma CollectNext(b: Bounds, rs: seq<Reading>, valid: seq<real>, invalid: nat, r: Reading)
    requires Collected(b, rs, valid, invalid) && !Bad(b, r)
    ensures Good(b, r) ==> Collected(b, rs + [r], valid + [r.v], invalid)
    ensures !Good(b, r) ==> Collected(b, rs + [r], valid, invalid + 1)
  {
    var next := rs + [r];
    assert next[..|rs|] == rs;
  }

  /** The inner loop: one row of readings. */
  method CollectRow(b: Bounds, ghost before: seq<Reading>, values: seq<Reading>, valid0: seq<real>, invalid0: nat)
      returns (ok: bool, valid: seq<real>, invalid: nat)
    requires Collected(b, before, valid0, invalid0)
    ensures ok ==> Collected(b, before + values, valid, invalid)
    ensures !ok ==> exists i :: 0 <= i < |values| && Bad(b, values[i])
  {
    ok, valid, invalid := true, valid0, invalid0;
    var i := 0;
    assert before + values[..0] == before;
    while i < |values|
      invariant 0 <= i <= |values| && Collected(b, before + values[..i], valid, invalid)
    {
      var value := values[i];
      assert before + values[..i + 1] == (before + values[..i]) + [value];
      if !Bad(b, value) {
        CollectNext(b, before + values[..i], valid, invalid, value);
      }
      if value.NotANumber? {
        invalid := invalid + 1;
      } else if value.Infinite? || value.v < 0.0 {
        return false, valid, invalid;
      } else if value.v == 0.0 {
        invalid := invalid + 1;
      } else if !(b.minDepth <= value.v <= b.maxDepth) {
        return false, valid, invalid;
      } else {
        valid := valid + [value.v];
      }
      i := i + 1;
    }
    assert values[..i] == values;
  }

  /** `min(valid), max(valid)` */
  method Extremes(valid: seq<real>) returns (minimum: real, maximum: real)
    requires valid != []
    ensures minimum in valid && maximum in valid
    ensures forall i :: 0 <= i < |valid| ==> minimum <= valid[i] <= maximum
  {
    minimum, maximum := valid[0], valid[0];
    var i := 1;
    while i < |valid|
      invariant 1 <= i <= |valid| && minimum in valid && maximum in valid
      invariant forall k :: 0 <= k < i ==> minimum <= valid[k] <= maximum
    {
      minimum := if valid[i] < minimum then valid[i] else minimum;
      maximum := if valid[i] > maximum then valid[i] else maximum;
      i := i + 1;
    }
  }

  lemma {:induction false} BadStays(b: Bounds, l: Layout, data: seq<Byte>, row: nat, rows: nat, i: nat)
    requires row < rows <= l.height
    requires l.step >= l.width * PixelSize(l.encoding) && |data| == l.step * l.height
    requires i < l.width && Bad(b, RowReadings(l, data, row)[i])
    ensures exists k :: 0 <= k < |Readings(l, data, rows)| && Bad(b, Readings(l, data, rows)[k])
    decreases rows
  {
    var rs := Readings(l, data, rows);
    var before := Readings(l, data, rows - 1);
    if row == rows - 1 {
      assert rs[|before| + i] == RowReadings(l, data, row)[i];
    } else {
      BadStays(b, l, data, row, rows - 1, i);
      var k :| 0 <= k < |before| && Bad(b, before[k]);
      assert rs[k] == before[k];
    }
  }

  /** `summarize_depth_image`; None when it raises. */
  method Summarize(b: Bounds, l: Layout, data: seq<Byte>) returns (r: Option<Summary>)
    ensures r.Some? <==> Shaped(b, l, data) && Summarizable(b, Readings(l, data, l.height))
    ensures r.Some? ==> Summarizes(b, Readings(l, data, l.height), r.value)
  {
    if !Shaped(b, l, data) {
      return None;
    }
    var valid: seq<real>, invalid := [], 0;
    var row := 0;
    while row < l.height
      invariant 0 <= row <= l.height && Collected(b, Readings(l, data, row), valid, invalid)
    {
      var values := UnpackRow(l, data, row);
      var ok, valid', invalid' := CollectRow(b, Readings(l, data, row), values, valid, invalid);
      if !ok {
        ghost var i :| 0 <= i < |values| && Bad(b, values[i]);
        BadStays(b, l, data, row, l.height, i);
        return None;
      }
      valid, invalid := valid', invalid';
      row := row + 1;
    }
    ghost var rs := Readings(l, data, l.height);
    GoodValuesFacts(b, rs);
    if valid == [] {
      NoneGood(b, rs);
      return None;
    }
    var minimum, maximum := Extremes(valid);
    assert valid[0] in GoodValues(b, rs);
    ExtremesSummarize(b, rs, valid, invalid, minimum, maximum);
    return Some(Summary(|valid|, invalid, minimum, maximum));
  }

  lemma {:induction false} NoneGood(b: Bounds, rs: seq<Reading>)
    requires GoodValues(b, rs) == []
    ensures !Summarizable(b, rs)
  {
    GoodValuesFacts(b, rs);
    assert forall i :: 0 <= i < |rs| && Good(b, rs[i]) ==> rs[i].v in GoodValues(b, rs);
  }

  lemma ExtremesSummarize(
      b: Bounds, rs: seq<Reading>, valid: seq<real>, invalid: nat, minimum: real, maximum: real)
    requires Collected(b, rs, valid, invalid) && minimum in valid && maximum in valid
    requires forall i :: 0 <= i < |valid| ==> minimum <= valid[i] <= maximum
    ensures Summarizable(b, rs) && Summarizes(b, rs, Summary(|valid|, invalid, minimum, maximum))
  {
    GoodValuesFacts(b, rs);
    var i :| 0 <= i < |rs| && Good(b, rs[i]) && rs[i].v == minimum;
    var j :| 0 <= j < |rs| && Good(b, rs[j]) && rs[j].v == maximum;
    forall k | 0 <= k < |rs| && Good(b, rs[k]) ensures minimum <= rs[k].v <= maximum {
      assert rs[k].v in valid;
    }
  }
}
