/**
 * The event encoder of data_loading.py: every hit object of a beatmap becomes
 * one or more 17-column rows. Columns 0 and 1 hold the position divided by the
 * 512 x 384 playfield, column 2 the time in seconds times ten, and columns
 * 3..16 a one-hot over the 14 slots of the event-role taxonomy:
 *
 *   0 circle (and every object the encoder does not otherwise handle)
 *   1 spinner start            2 spinner end
 *   3 slider start             4 multi-bezier anchor
 *   5 perfect-circle anchor    6 catmull anchor
 *   7 linear anchor, or a repeated (corner) multi-bezier point
 *   8 slider end               9..13 slider final point, by repeat bucket
 */
module Encoder {
  import opened Wrappers

  const PlayfieldWidth: real := 512.0
  const PlayfieldHeight: real := 384.0
  /** Two position columns, one time column and one column per slot. */
  const RowWidth: nat := 17
  const SlotCount: nat := 14
  /** A slider with this many control points or more is not encoded as a slider. */
  const MaxControlPoints: nat := 100

  type Row = r: seq<real> | |r| == 17 witness seq(17, _ => 0.0)

  /** A position on the playfield, in osu! pixels, as the chart parser reports it. */
  datatype Position = Position(x: real, y: real)

  /** The curve classes the encoder distinguishes; OtherCurve is any other curve class. */
  datatype CurveKind = Linear | Catmull | Perfect | MultiBezier | OtherCurve

  /** The control points of a slider curve always include the slider's head. */
  type Points = s: seq<Position> | |s| > 0 witness [Position(0.0, 0.0)]

  /**
   * A hit object as the parser hands it over. Times are in seconds.
   * `curveEnd` is the point the curve geometry gives at parameter 1.
   */
  datatype HitObject =
    | Slider(time: real, position: Position, endTime: real, curve: CurveKind,
             points: Points, repeat: nat, curveEnd: Position)
    | Spinner(time: real, position: Position, endTime: real)
    | Other(time: real, position: Position)

  function Zeros(n: nat): seq<real>
  {
    seq(n, _ => 0.0)
  }

  /** One row: normalised position, time times ten, and a one-hot slot. */
  function CreateDatapoint(time: real, pos: Position, slot: int): (r: Row)
    requires 0 <= slot < SlotCount
    ensures r[0] == pos.x / PlayfieldWidth && r[1] == pos.y / PlayfieldHeight
    ensures r[2] == time * 10.0
    ensures forall k :: 3 <= k < RowWidth ==> r[k] == if k == 3 + slot then 1.0 else 0.0
  {
    var typeEnc := Zeros(15)[0 := time * 10.0][slot + 1 := 1.0];
    [pos.x / PlayfieldWidth, pos.y / PlayfieldHeight] + typeEnc
  }

  // Reading a row back: the partner of CreateDatapoint.

  function DecodePosition(r: Row): Position
  {
    Position(r[0] * PlayfieldWidth, r[1] * PlayfieldHeight)
  }

  function DecodeTime(r: Row): real
  {
    r[2] / 10.0
  }

  /** The first slot at or after `d` whose column holds 1. */
  function FindSlot(r: Row, d: nat): Option<nat>
    decreases SlotCount - d
  {
    if d >= SlotCount then None
    else if r[3 + d] == 1.0 then Some(d)
    else FindSlot(r, d + 1)
  }

  function DecodeSlot(r: Row): Option<nat>
  {
    FindSlot(r, 0)
  }

  /** The row says: at this time, at this position, an event of this slot. */
  predicate RowIs(r: Row, time: real, pos: Position, slot: nat)
  {
    DecodeTime(r) == time && DecodePosition(r) == pos && DecodeSlot(r) == Some(slot)
  }

  /** Exactly one slot column is 1 and all the others are 0. */
  predicate OneHot(r: Row)
  {
    DecodeSlot(r).Some? && DecodeSlot(r).value < SlotCount &&
    forall k :: 3 <= k < RowWidth ==> r[k] == if k == 3 + DecodeSlot(r).value then 1.0 else 0.0
  }

  lemma {:induction false} FindSlotOneHot(r: Row, d: nat, slot: nat)
    requires d <= slot < SlotCount
    requires forall k :: 3 <= k < RowWidth ==> r[k] == if k == 3 + slot then 1.0 else 0.0
    ensures FindSlot(r, d) == Some(slot)
    decreases slot - d
  {
    if d < slot {
      assert r[3 + d] == 0.0;
      FindSlotOneHot(r, d + 1, slot);
    }
  }

  /** Position, time and slot can be read back from a row, and the row is one-hot. */
  lemma DecodeEncode(time: real, pos: Position, slot: nat)
    requires slot < SlotCount
    ensures RowIs(CreateDatapoint(time, pos, slot), time, pos, slot)
    ensures OneHot(CreateDatapoint(time, pos, slot))
  {
    FindSlotOneHot(CreateDatapoint(time, pos, slot), 0, slot);
  }

  /**
   * The repeat bucket: counts 1, 2 and 3 each get their own bucket, larger
   * counts are bucketed by parity.
   */
  function RepeatType(repeat: int): (t: int)
    ensures 0 <= repeat ==> -1 <= t <= 4
    ensures 1 <= repeat ==> 0 <= t
    ensures repeat < 4 ==> t == repeat - 1
    ensures 4 <= repeat ==> (t == 3 <==> repeat % 2 == 0) && (t == 4 <==> repeat % 2 == 1)
  {
    if repeat < 4 then repeat - 1
    else if repeat % 2 == 0 then 3
    else 4
  }

  /** The slot of a slider's final row lies in 9..13, and is 8 for a zero count. */
  lemma FinalSlotRange(repeat: nat)
    ensures 1 <= repeat ==> 9 <= 9 + RepeatType(repeat) <= 13
    ensures repeat == 0 ==> 9 + RepeatType(repeat) == 8
  {
  }

  lemma RepeatTypeExamples()
    ensures RepeatType(1) == 0 && RepeatType(2) == 1 && RepeatType(3) == 2
    ensures RepeatType(4) == 3 && RepeatType(5) == 4 && RepeatType(6) == 3
    ensures RepeatType(100) == 3 && RepeatType(101) == 4
  {
  }

  /** The guard of the slider branch. */
  predicate EncodedAsSlider(ho: HitObject)
  {
    ho.Slider? && |ho.points| < MaxControlPoints
  }

  /** The time of control point i, interpolated linearly over the slider's duration. */
  function InterpTime(ho: HitObject, i: nat): (t: real)
    requires ho.Slider? && |ho.points| >= 2
    ensures i == 0 ==> t == ho.time
    ensures i == |ho.points| - 1 ==> t == ho.endTime
  {
    ho.time + (i as real) / ((|ho.points| - 1) as real) * (ho.endTime - ho.time)
  }

  /** The interpolated times of the control points lie between the slider's start and end. */
  lemma InterpTimeWithin(ho: HitObject, i: nat)
    requires ho.Slider? && |ho.points| >= 2 && i <= |ho.points| - 1 && ho.time <= ho.endTime
    ensures ho.time <= InterpTime(ho, i) <= ho.endTime
  {
    var m: nat := |ho.points| - 1;
    var f := (i as real) / (m as real);
    var d := ho.endTime - ho.time;
    assert InterpTime(ho, i) == ho.time + f * d;
    FractionWithin(i, m);
    ScaleWithin(f, d);
  }

  lemma FractionWithin(i: nat, m: nat)
    requires 1 <= m && i <= m
    ensures 0.0 <= (i as real) / (m as real) <= 1.0
  {
    assert ((i as real) / (m as real)) * (m as real) == i as real;
  }

  lemma ScaleWithin(f: real, d: real)
    requires 0.0 <= f <= 1.0 && 0.0 <= d
    ensures 0.0 <= f * d <= d
  {
    assert d - f * d == (1.0 - f) * d;
  }

  /** The number of interior control points, those other than the first and the last. */
  function InteriorCount(n: nat): nat
  {
    if n >= 2 then n - 2 else 0
  }

  /** One row per interior control point, all with the same slot. */
  function UniformRows(ho: HitObject, slot: nat): seq<Row>
    requires ho.Slider? && slot < SlotCount
  {
    var n := |ho.points|;
    seq(InteriorCount(n), k requires 0 <= k < InteriorCount(n) =>
      CreateDatapoint(InterpTime(ho, k + 1), ho.points[k + 1], slot))
  }

  /**
   * The slot a multi-bezier interior point i gets, if any: a point equal to its
   * successor marks a corner, a point different from its predecessor is an
   * anchor, and a point equal to its predecessor only is skipped. The
   * successor test comes first.
   */
  function BezierSlot(points: seq<Position>, i: nat): (r: Option<nat>)
    requires 1 <= i < |points| - 1
    ensures r == Some(7) <==> points[i] == points[i + 1]
    ensures r == Some(4) <==> points[i] != points[i + 1] && points[i] != points[i - 1]
    ensures r.None? <==> points[i] != points[i + 1] && points[i] == points[i - 1]
  {
    if points[i] == points[i + 1] then Some(7)
    else if points[i] != points[i - 1] then Some(4)
    else None
  }

  /** The rows of the multi-bezier interior points i..n-2. */
  function BezierRows(ho: HitObject, i: nat): seq<Row>
    requires ho.Slider? && 1 <= i
    decreases |ho.points| - i
  {
    if i + 1 >= |ho.points| then []
    else
      (match BezierSlot(ho.points, i)
       case Some(slot) => [CreateDatapoint(InterpTime(ho, i), ho.points[i], slot)]
       case None => []) + BezierRows(ho, i + 1)
  }

  function InteriorRows(ho: HitObject): seq<Row>
    requires ho.Slider?
  {
    match ho.curve
    case Linear => UniformRows(ho, 7)
    case Catmull => UniformRows(ho, 6)
    case Perfect => UniformRows(ho, 5)
    case MultiBezier => BezierRows(ho, 1)
    case OtherCurve => []
  }

  function SliderEndRow(ho: HitObject): Row
    requires ho.Slider?
  {
    CreateDatapoint(ho.endTime, ho.points[|ho.points| - 1], 8)
  }

  function SliderFinalRow(ho: HitObject): Row
    requires ho.Slider?
  {
    CreateDatapoint(ho.endTime, ho.curveEnd, 9 + RepeatType(ho.repeat))
  }

  /** The rows a hit object is encoded into: the specification of GetData. */
  function Encoding(ho: HitObject): seq<Row>
  {
    if EncodedAsSlider(ho) then
      [CreateDatapoint(ho.time, ho.position, 3)] + InteriorRows(ho) + [SliderEndRow(ho), SliderFinalRow(ho)]
    else if ho.Spinner? then
      [CreateDatapoint(ho.time, ho.position, 1), CreateDatapoint(ho.endTime, ho.position, 2)]
    else
      [CreateDatapoint(ho.time, ho.position, 0)]
  }

  /** Appends one row per interior control point, all with the given slot. */
  method AppendControlPoints(datapoints: seq<Row>, ho: HitObject, slot: nat) returns (r: seq<Row>)
    requires ho.Slider? && slot < SlotCount
    ensures r == datapoints + UniformRows(ho, slot)
  {
    var controlPointCount := |ho.points|;
    r := datapoints;
    var i := 1;
    while i < controlPointCount - 1
      invariant 1 <= i <= InteriorCount(controlPointCount) + 1
      invariant r == datapoints + UniformRows(ho, slot)[..i - 1]
    {
      var time := InterpTime(ho, i);
      var pos := ho.points[i];
      r := r + [CreateDatapoint(time, pos, slot)];
      i := i + 1;
    }
    assert UniformRows(ho, slot)[..i - 1] == UniformRows(ho, slot);
  }

  /**
   * Appends the rows of the interior points of a multi-bezier curve: a point
   * equal to its successor is tagged 7, otherwise a point different from its
   * predecessor is tagged 4, otherwise it gives no row.
   */
  method AppendBezierPoints(datapoints: seq<Row>, ho: HitObject) returns (r: seq<Row>)
    requires ho.Slider?
    ensures r == datapoints + BezierRows(ho, 1)
  {
    var controlPointCount := |ho.points|;
    r := datapoints;
    var i := 1;
    while i < controlPointCount - 1
      invariant 1 <= i
      invariant r + BezierRows(ho, i) == datapoints + BezierRows(ho, 1)
    {
      var time := InterpTime(ho, i);
      var pos := ho.points[i];
      if pos == ho.points[i + 1] {
        r := r + [CreateDatapoint(time, pos, 7)];
      } else if pos != ho.points[i - 1] {
        r := r + [CreateDatapoint(time, pos, 4)];
      }
      i := i + 1;
    }
    assert BezierRows(ho, i) == [];
  }

  /** Encodes one hit object, appending rows as the source does. */
  method GetData(ho: HitObject) returns (rows: seq<Row>)
    ensures rows == Encoding(ho)
  {
    if ho.Slider? && |ho.points| < MaxControlPoints {
      rows := [CreateDatapoint(ho.time, ho.position, 3)];
      match ho.curve {
        case Linear =>
          rows := AppendControlPoints(rows, ho, 7);
        case Catmull =>
          rows := AppendControlPoints(rows, ho, 6);
        case Perfect =>
          rows := AppendControlPoints(rows, ho, 5);
        case MultiBezier =>
          rows := AppendBezierPoints(rows, ho);
        case OtherCurve =>
      }
      rows := rows + [SliderEndRow(ho), SliderFinalRow(ho)];
    } else if ho.Spinner? {
      rows := [CreateDatapoint(ho.time, ho.position, 1), CreateDatapoint(ho.endTime, ho.position, 2)];
    } else {
      rows := [CreateDatapoint(ho.time, ho.position, 0)];
    }
  }

  // Layout of the encoding, object kind by object kind.

  /** A circle, or a slider with too many control points: one slot-0 row at its time and position. */
  lemma SingleRowLayout(ho: HitObject)
    requires ho.Other? || (ho.Slider? && |ho.points| >= MaxControlPoints)
    ensures |Encoding(ho)| == 1
    ensures RowIs(Encoding(ho)[0], ho.time, ho.position, 0)
  {
    DecodeEncode(ho.time, ho.position, 0);
  }

  /** A spinner: a slot-1 row at its start and a slot-2 row at its end, both at its position. */
  lemma SpinnerLayout(ho: HitObject)
    requires ho.Spinner?
    ensures |Encoding(ho)| == 2
    ensures RowIs(Encoding(ho)[0], ho.time, ho.position, 1)
    ensures RowIs(Encoding(ho)[1], ho.endTime, ho.position, 2)
  {
    DecodeEncode(ho.time, ho.position, 1);
    DecodeEncode(ho.endTime, ho.position, 2);
  }

  /** The frame shared by every slider: start row first, end row and final row last. */
  lemma SliderFrame(ho: HitObject)
    requires EncodedAsSlider(ho)
    ensures var e := Encoding(ho);
      |e| == |InteriorRows(ho)| + 3 &&
      e[1..|e| - 2] == InteriorRows(ho) &&
      RowIs(e[0], ho.time, ho.position, 3) &&
      RowIs(e[|e| - 2], ho.endTime, ho.points[|ho.points| - 1], 8) &&
      RowIs(e[|e| - 1], ho.endTime, ho.curveEnd, 9 + RepeatType(ho.repeat))
  {
    var e := Encoding(ho);
    assert e[1..|e| - 2] == InteriorRows(ho);
    DecodeEncode(ho.time, ho.position, 3);
    DecodeEncode(ho.endTime, ho.points[|ho.points| - 1], 8);
    DecodeEncode(ho.endTime, ho.curveEnd, 9 + RepeatType(ho.repeat));
  }

  /** The interior slot of the linear, catmull and perfect curves. */
  function UniformSlot(c: CurveKind): nat
  {
    match c
    case Linear => 7
    case Catmull => 6
    case Perfect => 5
    case _ => 0
  }

  /**
   * A linear, catmull or perfect slider with n < 100 points: max(n-2, 0) + 3
   * rows, the interior point i at its interpolated time and tagged 7, 6 or 5.
   */
  lemma UniformSliderLayout(ho: HitObject)
    requires EncodedAsSlider(ho)
    requires ho.curve.Linear? || ho.curve.Catmull? || ho.curve.Perfect?
    ensures var e := Encoding(ho); var n := |ho.points|;
      |e| == InteriorCount(n) + 3 &&
      RowIs(e[0], ho.time, ho.position, 3) &&
      (forall i :: 1 <= i <= n - 2 ==> RowIs(e[i], InterpTime(ho, i), ho.points[i], UniformSlot(ho.curve))) &&
      RowIs(e[|e| - 2], ho.endTime, ho.points[n - 1], 8) &&
      RowIs(e[|e| - 1], ho.endTime, ho.curveEnd, 9 + RepeatType(ho.repeat))
  {
    SliderFrame(ho);
    var e := Encoding(ho);
    var slot := UniformSlot(ho.curve);
    assert InteriorRows(ho) == UniformRows(ho, slot);
    UniformRowsAre(ho, slot);
    forall i | 1 <= i <= |ho.points| - 2
      ensures RowIs(e[i], InterpTime(ho, i), ho.points[i], slot)
    {
      assert e[i] == e[1..|e| - 2][i - 1];
    }
  }

  /** Uniform row k is interior point k + 1 at its interpolated time, with the given slot. */
  lemma UniformRowsAre(ho: HitObject, slot: nat)
    requires ho.Slider? && slot < SlotCount
    ensures var u := UniformRows(ho, slot);
      |u| == InteriorCount(|ho.points|) &&
      forall k :: 0 <= k < |u| ==> RowIs(u[k], InterpTime(ho, k + 1), ho.points[k + 1], slot)
  {
    var u := UniformRows(ho, slot);
    forall k | 0 <= k < |u|
      ensures RowIs(u[k], InterpTime(ho, k + 1), ho.points[k + 1], slot)
    {
      DecodeEncode(InterpTime(ho, k + 1), ho.points[k + 1], slot);
    }
  }

  /** A slider of another curve class keeps its start, end and final rows but has no interior rows. */
  lemma OtherCurveLayout(ho: HitObject)
    requires EncodedAsSlider(ho) && ho.curve.OtherCurve?
    ensures |Encoding(ho)| == 3
  {
    SliderFrame(ho);
  }

  lemma {:induction false} BezierRowsBound(ho: HitObject, i: nat)
    requires ho.Slider? && 1 <= i
    ensures |BezierRows(ho, i)| <= if i + 1 < |ho.points| then |ho.points| - 1 - i else 0
    ensures forall k :: 0 <= k < |BezierRows(ho, i)| ==>
      DecodeSlot(BezierRows(ho, i)[k]) == Some(4) || DecodeSlot(BezierRows(ho, i)[k]) == Some(7)
    decreases |ho.points| - i
  {
    if i + 1 < |ho.points| {
      BezierRowsBound(ho, i + 1);
      match BezierSlot(ho.points, i)
      case Some(slot) =>
        DecodeEncode(InterpTime(ho, i), ho.points[i], slot);
      case None =>
    }
  }

  /**
   * A multi-bezier slider: at most n-2 interior rows, each tagged 4 (anchor)
   * or 7 (corner), between the start row and the end and final rows.
   */
  lemma BezierSliderLayout(ho: HitObject)
    requires EncodedAsSlider(ho) && ho.curve.MultiBezier?
    ensures var e := Encoding(ho);
      3 <= |e| <= InteriorCount(|ho.points|) + 3 &&
      RowIs(e[0], ho.time, ho.position, 3) &&
      (forall k :: 1 <= k < |e| - 2 ==> DecodeSlot(e[k]) == Some(4) || DecodeSlot(e[k]) == Some(7)) &&
      RowIs(e[|e| - 2], ho.endTime, ho.points[|ho.points| - 1], 8) &&
      RowIs(e[|e| - 1], ho.endTime, ho.curveEnd, 9 + RepeatType(ho.repeat))
  {
    SliderFrame(ho);
    BezierRowsBound(ho, 1);
    var e := Encoding(ho);
    forall k | 1 <= k < |e| - 2
      ensures DecodeSlot(e[k]) == Some(4) || DecodeSlot(e[k]) == Some(7)
    {
      assert e[k] == BezierRows(ho, 1)[k - 1];
    }
  }

  /** Where every interior point from i on gets the same slot, the bezier rows are uniform rows. */
  lemma {:induction false} BezierRowsUniform(ho: HitObject, i: nat, slot: nat)
    requires ho.Slider? && 1 <= i && slot < SlotCount
    requires forall j :: i <= j < |ho.points| - 1 ==> BezierSlot(ho.points, j) == Some(slot)
    ensures BezierRows(ho, i) == UniformRows(ho, slot)[if i - 1 < InteriorCount(|ho.points|) then i - 1 else InteriorCount(|ho.points|)..]
    decreases |ho.points| - i
  {
    var u := UniformRows(ho, slot);
    if i + 1 < |ho.points| {
      BezierRowsUniform(ho, i + 1, slot);
      assert BezierRows(ho, i) == [CreateDatapoint(InterpTime(ho, i), ho.points[i], slot)] + u[i..];
      assert u[i - 1..] == [u[i - 1]] + u[i..];
    }
  }

  /**
   * An interior point that equals its predecessor but not its successor adds
   * no row: the multi-bezier rows from it are those from the next point.
   */
  lemma BezierPointSkipped(ho: HitObject, i: nat)
    requires ho.Slider? && 1 <= i < |ho.points| - 1
    requires ho.points[i] != ho.points[i + 1] && ho.points[i] == ho.points[i - 1]
    ensures BezierRows(ho, i) == BezierRows(ho, i + 1)
  {
    assert BezierSlot(ho.points, i).None?;
  }

  /** Without repeated consecutive points, every multi-bezier interior point is an anchor (slot 4). */
  lemma BezierDistinctPoints(ho: HitObject)
    requires EncodedAsSlider(ho) && ho.curve.MultiBezier?
    requires forall j :: 0 <= j < |ho.points| - 1 ==> ho.points[j] != ho.points[j + 1]
    ensures InteriorRows(ho) == UniformRows(ho, 4)
  {
    BezierRowsUniform(ho, 1, 4);
  }

  /**
   * When every interior point equals its successor, every one is a corner
   * (slot 7), even though it also equals its predecessor: the successor test
   * wins the tie.
   */
  lemma BezierRepeatedPoints(ho: HitObject)
    requires EncodedAsSlider(ho) && ho.curve.MultiBezier?
    requires forall j :: 1 <= j < |ho.points| - 1 ==> ho.points[j] == ho.points[j + 1]
    ensures InteriorRows(ho) == UniformRows(ho, 7)
  {
    BezierRowsUniform(ho, 1, 7);
  }

  lemma {:induction false} BezierRowsOneHot(ho: HitObject, i: nat)
    requires ho.Slider? && 1 <= i
    ensures forall r :: r in BezierRows(ho, i) ==> OneHot(r)
    decreases |ho.points| - i
  {
    if i + 1 < |ho.points| {
      BezierRowsOneHot(ho, i + 1);
      match BezierSlot(ho.points, i)
      case Some(slot) =>
        DecodeEncode(InterpTime(ho, i), ho.points[i], slot);
      case None =>
    }
  }

  lemma InteriorRowsOneHot(ho: HitObject)
    requires ho.Slider?
    ensures forall r :: r in InteriorRows(ho) ==> OneHot(r)
  {
    if ho.curve.MultiBezier? {
      BezierRowsOneHot(ho, 1);
    } else if !ho.curve.OtherCurve? {
      var u := UniformRows(ho, UniformSlot(ho.curve));
      assert InteriorRows(ho) == u;
      forall k | 0 <= k < |u| ensures OneHot(u[k]) {
        DecodeEncode(InterpTime(ho, k + 1), ho.points[k + 1], UniformSlot(ho.curve));
      }
    }
  }

  /** Every row of every encoding is one-hot over the type slots. */
  lemma EncodingOneHot(ho: HitObject)
    ensures forall r :: r in Encoding(ho) ==> OneHot(r)
  {
    var e := Encoding(ho);
    if EncodedAsSlider(ho) {
      InteriorRowsOneHot(ho);
      DecodeEncode(ho.time, ho.position, 3);
      DecodeEncode(ho.endTime, ho.points[|ho.points| - 1], 8);
      DecodeEncode(ho.endTime, ho.curveEnd, 9 + RepeatType(ho.repeat));
      forall r | r in e ensures OneHot(r) {
        assert r in [e[0]] || r in InteriorRows(ho) || r in [SliderEndRow(ho), SliderFinalRow(ho)];
      }
    } else if ho.Spinner? {
      DecodeEncode(ho.time, ho.position, 1);
      DecodeEncode(ho.endTime, ho.position, 2);
    } else {
      DecodeEncode(ho.time, ho.position, 0);
    }
  }

  /** Position normalisation does not clamp: (512, 384) is (1, 1), (600, 384) has x = 1.171875. */
  lemma NormalisationExamples()
    ensures DecodeSlot(CreateDatapoint(0.0, Position(512.0, 384.0), 0)) == Some(0)
    ensures CreateDatapoint(0.0, Position(512.0, 384.0), 0)[..2] == [1.0, 1.0]
    ensures CreateDatapoint(0.0, Position(0.0, 0.0), 0)[..2] == [0.0, 0.0]
    ensures CreateDatapoint(0.0, Position(600.0, 384.0), 0)[0] == 1.171875
  {
    DecodeEncode(0.0, Position(512.0, 384.0), 0);
  }
}
