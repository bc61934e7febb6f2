/**
 * The windowing iterator of data_loading.py (BeatmapDatasetIterable): a
 * two-level cursor over a list of beatmap files and, within the loaded
 * beatmap, over the offsets of fixed-length windows.
 */
module Windowing {
  import opened Wrappers
  import opened Encoder
  import opened SequenceBuilder

  type Path = string

  /** What the chart parser gives for one file: the beatmap's id and its hit objects. */
  datatype Beatmap = Beatmap(beatmapId: int, hitObjects: seq<HitObject>)

  /** The exceptions that escape from the iterator while it loads a file. */
  datatype LoadError =
    | ParseError      // the parser could not load the file
    | UnknownBeatmap  // the beatmap id is not a key of the label map
    | EmptyBeatmap    // the beatmap has no hit objects, so there is nothing to concatenate

  /**
   * A loaded beatmap, split into the x view (columns 0..1 of each row) and the
   * y view (the time embedding of column 2 followed by columns 3..16).
   */
  datatype Loaded = Loaded(x: seq<seq<real>>, y: seq<seq<real>>)

  /** One window: seqLen rows of each view and the label of the beatmap. */
  datatype Window = Window(x: seq<seq<real>>, y: seq<seq<real>>, chartLabel: int)

  /** What one call of Next gives: a window, the end of the iteration, or an exception. */
  datatype Step = Item(window: Window) | Stop | Raise(error: LoadError)

  /** How the stream of windows ends. */
  datatype End = Exhausted | Failed(error: LoadError)

  /** The windows still to come, and how the stream ends after them. */
  datatype Stream = Stream(windows: seq<Window>, end: End)

  function Prepend(ws: seq<Window>, s: Stream): Stream
  {
    Stream(ws + s.windows, s.end)
  }

  lemma DropHead<T>(w: T, r: seq<T>, f: seq<T>)
    ensures ([w] + r + f)[1..] == r + f
  {
  }

  lemma ConcatParts<T>(a: seq<T>, b: seq<T>)
    ensures |a| <= |a + b| && (a + b)[|a|..] == b
    ensures forall k :: 0 <= k < |a| ==> (a + b)[k] == a[k]
  {
  }

  /** The step that reports the end of a stream. */
  function EndStep(e: End): Step
  {
    match e
    case Exhausted => Stop
    case Failed(err) => Raise(err)
  }

  /** The two views of a beatmap's rows; `embed` stands for the sinusoidal time embedding. */
  function View(rows: seq<Row>, embed: real -> seq<real>): (v: Loaded)
    ensures |v.x| == |v.y| == |rows|
    ensures forall k :: 0 <= k < |rows| ==> v.x[k] == rows[k][..2] && v.y[k] == embed(rows[k][2]) + rows[k][3..]
  {
    Loaded(seq(|rows|, k requires 0 <= k < |rows| => rows[k][..2]),
           seq(|rows|, k requires 0 <= k < |rows| => embed(rows[k][2]) + rows[k][3..]))
  }

  /** The width of the time embedding of the y view (timestep_embedding's dimension). */
  const EmbeddingWidth: nat := 128
  /** The width of a y row, context_size: the time embedding, then the 14 slot columns. */
  const ContextSize: nat := SlotCount + EmbeddingWidth

  /** v holds 1 at index s and 0 everywhere else. */
  predicate OnlyOneAt(v: seq<real>, s: nat)
  {
    s < |v| && forall c :: 0 <= c < |v| ==> v[c] == if c == s then 1.0 else 0.0
  }

  /** A y row: ContextSize wide, its last 14 columns a one-hot over the slots. */
  predicate WellFormedY(y: seq<real>)
  {
    |y| == ContextSize && exists s: nat :: s < SlotCount && OnlyOneAt(y[EmbeddingWidth..], s)
  }

  /** Every x row holds a position, every y row is well formed. */
  predicate WellFormedRows(x: seq<seq<real>>, y: seq<seq<real>>)
  {
    (forall k :: 0 <= k < |x| ==> |x[k]| == 2) && (forall k :: 0 <= k < |y| ==> WellFormedY(y[k]))
  }

  /**
   * The views of one-hot rows under an embedding of width 128 have two
   * columns in x, and in y the embedding followed by the row's one-hot slots.
   */
  lemma ViewRowsWellFormed(rows: seq<Row>, embed: real -> seq<real>)
    requires forall t :: |embed(t)| == EmbeddingWidth
    requires forall r :: r in rows ==> OneHot(r)
    ensures var v := View(rows, embed); WellFormedRows(v.x, v.y)
  {
    var v := View(rows, embed);
    forall k | 0 <= k < |rows| ensures WellFormedY(v.y[k]) {
      var r := rows[k];
      assert r in rows;
      var t := r[2];
      var e := embed(t);
      assert |embed(t)| == EmbeddingWidth;
      assert v.y[k] == e + r[3..];
      var tail := v.y[k][EmbeddingWidth..];
      assert tail == r[3..];
      var s := DecodeSlot(r).value;
      forall c | 0 <= c < |tail| ensures tail[c] == if c == s then 1.0 else 0.0 {
        assert tail[c] == r[3 + c];
      }
      assert OnlyOneAt(tail, s);
    }
  }

  /** The offsets off, off + stride, ... of the windows that fit in a sequence of length len. */
  function WindowOffsets(len: nat, seqLen: nat, stride: nat, off: nat): seq<nat>
    requires stride >= 1
    decreases len - off
  {
    if off + seqLen <= len then [off] + WindowOffsets(len, seqLen, stride, off + stride) else []
  }

  /** The number of windows of length seqLen at stride `stride` that a sequence of length len gives. */
  function WindowCount(len: nat, seqLen: nat, stride: nat): nat
    requires stride >= 1
  {
    if len >= seqLen then (len - seqLen) / stride + 1 else 0
  }

  lemma DivStep(a: int, b: int)
    requires a >= b >= 1
    ensures (a - b) / b == a / b - 1
  {
    var q, r := a / b, a % b;
    assert a == q * b + r && 0 <= r < b;
    assert a - b == (q - 1) * b + r;
    DivUnique(a - b, b, q - 1, r);
  }

  lemma DivUnique(a: int, b: int, q: int, r: int)
    requires b >= 1 && a == q * b + r && 0 <= r < b
    ensures a / b == q
  {
    var q', r' := a / b, a % b;
    var d := q - q';
    assert d * b == q * b - q' * b;
    assert d * b == r' - r;
    if d >= 1 {
      MulAtLeast(d, b);
    } else if d <= -1 {
      MulAtLeast(-d, b);
    }
  }

  lemma MulAtLeast(m: int, b: int)
    requires m >= 1 && b >= 1
    ensures m * b >= b
  {
    assert m * b == (m - 1) * b + b;
    assert (m - 1) * b >= 0;
  }

  /**
   * The offsets from `off` are off + k * stride for k below
   * (len - seqLen - off) / stride + 1, and each window fits.
   */
  lemma {:induction false} WindowOffsetsShape(len: nat, seqLen: nat, stride: nat, off: nat)
    requires stride >= 1
    ensures var w := WindowOffsets(len, seqLen, stride, off);
      |w| == (if off + seqLen <= len then (len - seqLen - off) / stride + 1 else 0) &&
      (forall k :: 0 <= k < |w| ==> w[k] == off + k * stride && w[k] + seqLen <= len)
    decreases len - off
  {
    if off + seqLen <= len {
      WindowOffsetsShape(len, seqLen, stride, off + stride);
      var w := WindowOffsets(len, seqLen, stride, off);
      var rest := WindowOffsets(len, seqLen, stride, off + stride);
      assert w == [off] + rest;
      var a := len - seqLen - off;
      if a >= stride {
        DivStep(a, stride);
      } else {
        assert a / stride == 0;
      }
      forall k | 0 <= k < |w| ensures w[k] == off + k * stride {
        if k > 0 {
          assert w[k] == rest[k - 1];
          assert (k - 1) * stride + stride == k * stride;
        }
      }
    }
  }

  /**
   * A sequence of length L gives (L - seqLen) / stride + 1 windows when
   * L >= seqLen and none otherwise, the k-th at offset k * stride.
   */
  lemma WindowOffsetsFromStart(len: nat, seqLen: nat, stride: nat)
    requires stride >= 1
    ensures var w := WindowOffsets(len, seqLen, stride, 0);
      |w| == WindowCount(len, seqLen, stride) &&
      (forall k :: 0 <= k < |w| ==> w[k] == k * stride && w[k] + seqLen <= len)
  {
    WindowOffsetsShape(len, seqLen, stride, 0);
  }

  /** Length 57, window 25, stride 16: offsets 0, 16, 32; length 20 gives none. */
  lemma WindowExamples()
    ensures WindowOffsets(57, 25, 16, 0) == [0, 16, 32]
    ensures WindowCount(57, 25, 16) == 3
    ensures WindowOffsets(20, 25, 16, 0) == []
  {
    WindowOffsetsFromStart(57, 25, 16);
    var w := WindowOffsets(57, 25, 16, 0);
    assert w[0] == 0 && w[1] == 16 && w[2] == 32;
  }

  class BeatmapDatasetIterable {
    const files: seq<Path>
    /** The label map (beatmap_idx): beatmap id to label. */
    const labels: map<int, int>
    const seqLen: nat
    const stride: nat
    /** The chart parser, applied to a path; None when the file cannot be loaded. */
    const load: Path -> Option<Beatmap>
    /** The time embedding of one row's time column. */
    const embed: real -> seq<real>
    /** The sequence builder the iterator applies to each beatmap's hit objects. */
    const toSequence: seq<HitObject> -> Option<seq<Row>>

    /** The next file to load. */
    var index: nat
    /** The label of the beatmap loaded last. */
    var currentIdx: int
    /** The views of the loaded beatmap, if any. */
    var cur: Option<Loaded>
    /** The offset of the next window in the loaded beatmap. */
    var seqIndex: nat

    ghost predicate Valid()
      reads this
    {
      stride >= 1 && index <= |files| && (cur.Some? ==> |cur.value.x| == |cur.value.y|)
    }

    /** The window at offset o of a loaded beatmap: seqLen rows of each view, and the label. */
    function WindowAt(lo: Loaded, chartLabel: int, o: nat): (w: Window)
      requires o + seqLen <= |lo.x| == |lo.y|
      ensures |w.x| == |w.y| == seqLen && w.chartLabel == chartLabel
      ensures forall k :: 0 <= k < seqLen ==> w.x[k] == lo.x[o + k] && w.y[k] == lo.y[o + k]
    {
      Window(lo.x[o..o + seqLen], lo.y[o..o + seqLen], chartLabel)
    }

    /** The windows of a loaded beatmap from offset `off` on. */
    function WindowsFrom(lo: Loaded, chartLabel: int, off: nat): seq<Window>
      requires stride >= 1 && |lo.x| == |lo.y|
      decreases |lo.x| - off
    {
      if off + seqLen <= |lo.x| then
        [WindowAt(lo, chartLabel, off)] + WindowsFrom(lo, chartLabel, off + stride)
      else []
    }

    /**
     * Everything the files from j on give: the windows of each file in list
     * order, up to the first file that fails to load.
     */
    function FileStream(j: nat): Stream
      requires stride >= 1
      decreases |files| - j
    {
      if j >= |files| then Stream([], Exhausted)
      else
        match load(files[j])
        case None => Stream([], Failed(ParseError))
        case Some(bm) =>
          if bm.beatmapId !in labels then Stream([], Failed(UnknownBeatmap))
          else
            match toSequence(bm.hitObjects)
            case None => Stream([], Failed(EmptyBeatmap))
            case Some(rows) =>
              Prepend(WindowsFrom(View(rows, embed), labels[bm.beatmapId], 0), FileStream(j + 1))
    }

    /** The loaded beatmap can supply another window. */
    predicate CanSupply()
      reads this
    {
      cur.Some? && seqIndex + seqLen <= |cur.value.x|
    }

    ghost function CurrentWindows(): seq<Window>
      reads this
      requires Valid()
    {
      match cur
      case None => []
      case Some(lo) => WindowsFrom(lo, currentIdx, seqIndex)
    }

    /** What the remaining calls of Next give, in order. */
    ghost function Pending(): Stream
      reads this
      requires Valid()
    {
      Prepend(CurrentWindows(), FileStream(index))
    }

    constructor (files: seq<Path>, labels: map<int, int>, seqLen: nat, stride: nat,
                 load: Path -> Option<Beatmap>, embed: real -> seq<real>)
      requires stride >= 1
      ensures Valid()
      ensures this.files == files && this.labels == labels && this.seqLen == seqLen && this.stride == stride
      ensures this.load == load && this.embed == embed && this.toSequence == BeatmapToSequence
      ensures index == 0 && currentIdx == 0 && cur == None && seqIndex == 0
      ensures Pending() == FileStream(0)
    {
      this.files := files;
      this.labels := labels;
      this.seqLen := seqLen;
      this.stride := stride;
      this.load := load;
      this.embed := embed;
      this.toSequence := BeatmapToSequence;
      index := 0;
      currentIdx := 0;
      cur := None;
      seqIndex := 0;
    }

    /**
     * The next window, or the end of the iteration, or the exception that
     * loading the next file raises. It gives the head of Pending and leaves the
     * rest; at the end it gives how the stream ends and changes nothing it
     * would show.
     */
    method Next() returns (r: Step)
      requires Valid()
      modifies this
      ensures Valid()
      ensures index >= old(index)
      ensures old(Pending()).windows != [] ==>
        r == Item(old(Pending()).windows[0]) &&
        Pending() == Stream(old(Pending()).windows[1..], old(Pending()).end)
      ensures old(Pending()).windows == [] ==> r == EndStep(old(Pending()).end) && Pending() == old(Pending())
      ensures r == Stop ==> index >= |files| && !CanSupply()
    {
      ghost var pending := Pending();
      while cur.None? || seqIndex + seqLen > |cur.value.x|
        invariant Valid() && index >= old(index)
        invariant Pending() == pending
        decreases |files| - index
      {
        var failure := LoadNextFile();
        if failure.Some? {
          return failure.value;
        }
      }
      r := TakeWindow();
    }

    /** The window at the current offset of a beatmap that can supply one; the offset moves on by stride. */
    method TakeWindow() returns (r: Step)
      requires Valid() && CanSupply()
      modifies this
      ensures Valid() && index == old(index) && seqIndex == old(seqIndex) + stride
      ensures old(Pending()).windows != [] && r == Item(old(Pending()).windows[0])
      ensures Pending() == Stream(old(Pending()).windows[1..], old(Pending()).end)
    {
      var lo := cur.value;
      var w := WindowAt(lo, currentIdx, seqIndex);
      PendingIs(lo, currentIdx, seqIndex);
      PopHead(lo, currentIdx, seqIndex, FileStream(index));
      r := Item(w);
      seqIndex := seqIndex + stride;
      PendingIs(lo, currentIdx, seqIndex);
    }

    /**
     * One turn of the loading loop of Next, entered when the loaded beatmap
     * cannot supply a window: loads the next file and moves to its first
     * offset, or gives the step that ends the iteration.
     */
    method LoadNextFile() returns (failure: Option<Step>)
      requires Valid() && !CanSupply()
      modifies this
      ensures Valid() && Pending() == old(Pending())
      ensures failure.None? ==> index == old(index) + 1 && cur.Some? && seqIndex == 0
      ensures failure.Some? ==> index == old(index)
      ensures failure.Some? ==> old(Pending()).windows == [] && failure.value == EndStep(old(Pending()).end)
      ensures failure == Some(Stop) ==> index >= |files| && !CanSupply()
    {
      NothingToSupply();
      if index >= |files| {
        return Some(Stop);
      }
      var beatmap := load(files[index]);
      if beatmap.None? {
        return Some(Raise(ParseError));
      }
      var id := beatmap.value.beatmapId;
      if id !in labels {
        return Some(Raise(UnknownBeatmap));
      }
      currentIdx := labels[id];
      var seqNoEmbed := toSequence(beatmap.value.hitObjects);
      if seqNoEmbed.None? {
        NothingToSupply();
        return Some(Raise(EmptyBeatmap));
      }
      cur := Some(View(seqNoEmbed.value, embed));
      seqIndex := 0;
      index := index + 1;
      JustLoaded(index - 1, beatmap.value, seqNoEmbed.value);
      return None;
    }

    /** Taking the head window of a beatmap that can supply one leaves the windows from the next offset. */
    lemma PopHead(lo: Loaded, c: int, off: nat, tail: Stream)
      requires stride >= 1 && |lo.x| == |lo.y| && off + seqLen <= |lo.x|
      ensures var s := Prepend(WindowsFrom(lo, c, off), tail);
        s.windows != [] &&
        s.windows[0] == WindowAt(lo, c, off) &&
        Prepend(WindowsFrom(lo, c, off + stride), tail) == Stream(s.windows[1..], s.end)
    {
      var w := WindowAt(lo, c, off);
      var rest := WindowsFrom(lo, c, off + stride);
      assert WindowsFrom(lo, c, off) == [w] + rest;
      DropHead(w, rest, tail.windows);
    }

    /** What is pending, given the loaded beatmap, its label and the offset. */
    lemma PendingIs(lo: Loaded, c: int, off: nat)
      requires Valid() && cur == Some(lo) && currentIdx == c && seqIndex == off
      ensures Pending() == Prepend(WindowsFrom(lo, c, off), FileStream(index))
    {
    }

    /** A beatmap that cannot supply a window has no windows left. */
    lemma NothingToSupply()
      requires Valid() && !CanSupply()
      ensures CurrentWindows() == [] && Pending() == FileStream(index)
    {
    }

    /** Right after file j is loaded, what is pending is what file j and the ones after it give. */
    lemma JustLoaded(j: nat, bm: Beatmap, rows: seq<Row>)
      requires Valid() && j < |files| && index == j + 1
      requires load(files[j]) == Some(bm) && bm.beatmapId in labels
      requires toSequence(bm.hitObjects) == Some(rows)
      requires cur == Some(View(rows, embed)) && seqIndex == 0 && currentIdx == labels[bm.beatmapId]
      ensures Pending() == FileStream(j)
    {
      assert CurrentWindows() == WindowsFrom(View(rows, embed), labels[bm.beatmapId], 0);
    }

    /** A file that loads puts its windows in front of those of the files after it. */
    lemma LoadStep(j: nat, bm: Beatmap, rows: seq<Row>)
      requires stride >= 1 && j < |files|
      requires load(files[j]) == Some(bm) && bm.beatmapId in labels
      requires toSequence(bm.hitObjects) == Some(rows)
      ensures FileStream(j) == Prepend(WindowsFrom(View(rows, embed), labels[bm.beatmapId], 0), FileStream(j + 1))
    {
    }

    /** The windows of a loaded beatmap are the slices at its window offsets. */
    lemma {:induction false} WindowsFromShape(lo: Loaded, chartLabel: int, off: nat)
      requires stride >= 1 && |lo.x| == |lo.y|
      ensures var ws := WindowsFrom(lo, chartLabel, off); var os := WindowOffsets(|lo.x|, seqLen, stride, off);
        |ws| == |os| &&
        forall k :: 0 <= k < |ws| ==>
          os[k] + seqLen <= |lo.x| &&
          ws[k] == WindowAt(lo, chartLabel, os[k])
      decreases |lo.x| - off
    {
      if off + seqLen <= |lo.x| {
        var ws := WindowsFrom(lo, chartLabel, off);
        var os := WindowOffsets(|lo.x|, seqLen, stride, off);
        var rest := WindowsFrom(lo, chartLabel, off + stride);
        var restOffsets := WindowOffsets(|lo.x|, seqLen, stride, off + stride);
        WindowsFromShape(lo, chartLabel, off + stride);
        assert ws == [WindowAt(lo, chartLabel, off)] + rest;
        assert os == [off] + restOffsets;
        forall k | 1 <= k < |ws|
          ensures os[k] + seqLen <= |lo.x|
          ensures ws[k] == WindowAt(lo, chartLabel, os[k])
        {
          assert ws[k] == rest[k - 1] && os[k] == restOffsets[k - 1];
        }
      }
    }

    /**
     * A file that loads contributes exactly WindowCount(L, seqLen, stride)
     * windows, at offsets 0, stride, 2 * stride, ..., each of seqLen rows and
     * carrying the beatmap's chartLabel; the windows of the next files follow.
     */
    lemma FileContribution(j: nat, bm: Beatmap, rows: seq<Row>)
      requires stride >= 1 && j < |files|
      requires load(files[j]) == Some(bm) && bm.beatmapId in labels
      requires toSequence(bm.hitObjects) == Some(rows)
      ensures var s := FileStream(j); var c := WindowCount(|rows|, seqLen, stride); var v := View(rows, embed);
        c <= |s.windows| &&
        s.end == FileStream(j + 1).end &&
        s.windows[c..] == FileStream(j + 1).windows &&
        forall k :: 0 <= k < c ==>
          k * stride + seqLen <= |rows| &&
          s.windows[k] == Window(v.x[k * stride..k * stride + seqLen], v.y[k * stride..k * stride + seqLen], labels[bm.beatmapId])
    {
      var v := View(rows, embed);
      var c := labels[bm.beatmapId];
      LoadedWindows(v, c);
      LoadStep(j, bm, rows);
      ConcatParts(WindowsFrom(v, c, 0), FileStream(j + 1).windows);
    }

    /** The windows of a loaded beatmap are the WindowCount slices at offsets 0, stride, 2 * stride, ... */
    lemma LoadedWindows(lo: Loaded, c: int)
      requires stride >= 1 && |lo.x| == |lo.y|
      ensures var ws := WindowsFrom(lo, c, 0);
        |ws| == WindowCount(|lo.x|, seqLen, stride) &&
        forall k :: 0 <= k < |ws| ==>
          k * stride + seqLen <= |lo.x| &&
          ws[k] == WindowAt(lo, c, k * stride)
    {
      var ws := WindowsFrom(lo, c, 0);
      var os := WindowOffsets(|lo.x|, seqLen, stride, 0);
      WindowsFromShape(lo, c, 0);
      WindowOffsetsFromStart(|lo.x|, seqLen, stride);
      forall k | 0 <= k < |ws|
        ensures k * stride + seqLen <= |lo.x|
        ensures ws[k] == WindowAt(lo, c, k * stride)
      {
        var o := os[k];
        assert o == k * stride;
        assert ws[k] == WindowAt(lo, c, o);
      }
    }

    /** Every window still to come from the files from j on has seqLen rows in each view. */
    lemma {:induction false} StreamWindowWidth(j: nat)
      requires stride >= 1
      ensures forall w :: w in FileStream(j).windows ==> |w.x| == seqLen && |w.y| == seqLen
      decreases |files| - j
    {
      if j < |files| && load(files[j]).Some? {
        var bm := load(files[j]).value;
        if bm.beatmapId in labels && toSequence(bm.hitObjects).Some? {
          var rows := toSequence(bm.hitObjects).value;
          var v := View(rows, embed);
          var ws := WindowsFrom(v, labels[bm.beatmapId], 0);
          WindowsFromShape(v, labels[bm.beatmapId], 0);
          StreamWindowWidth(j + 1);
          assert FileStream(j).windows == ws + FileStream(j + 1).windows;
        }
      }
    }

    /** A window cut from well-formed views is well formed. */
    lemma WindowWellFormed(lo: Loaded, c: int, o: nat)
      requires o + seqLen <= |lo.x| == |lo.y| && WellFormedRows(lo.x, lo.y)
      ensures var w := WindowAt(lo, c, o); WellFormedRows(w.x, w.y)
    {
      var w := WindowAt(lo, c, o);
      forall k | 0 <= k < seqLen ensures |w.x[k]| == 2 && WellFormedY(w.y[k]) {
        assert w.x[k] == lo.x[o + k] && w.y[k] == lo.y[o + k];
      }
    }

    /** Every window of well-formed views is well formed. */
    lemma WindowsWellFormed(lo: Loaded, c: int)
      requires stride >= 1 && |lo.x| == |lo.y| && WellFormedRows(lo.x, lo.y)
      ensures forall w :: w in WindowsFrom(lo, c, 0) ==> WellFormedRows(w.x, w.y)
    {
      var ws := WindowsFrom(lo, c, 0);
      var os := WindowOffsets(|lo.x|, seqLen, stride, 0);
      WindowsFromShape(lo, c, 0);
      forall w | w in ws ensures WellFormedRows(w.x, w.y) {
        var i :| 0 <= i < |ws| && ws[i] == w;
        WindowWellFormed(lo, c, os[i]);
      }
    }

    /**
     * With the sequence builder of the source and a 128-wide time embedding,
     * every window still to come has 2 columns per x row, and each y row is
     * 142 wide and ends in a one-hot over the 14 slots.
     */
    lemma {:induction false} StreamRowsWellFormed(j: nat)
      requires stride >= 1 && toSequence == BeatmapToSequence
      requires forall t :: |embed(t)| == EmbeddingWidth
      ensures forall w :: w in FileStream(j).windows ==> WellFormedRows(w.x, w.y)
      decreases |files| - j
    {
      if j < |files| && load(files[j]).Some? {
        var bm := load(files[j]).value;
        if bm.beatmapId in labels && toSequence(bm.hitObjects).Some? {
          var rows := toSequence(bm.hitObjects).value;
          LoadedRowsOneHot(bm.hitObjects, rows);
          var v := View(rows, embed);
          ViewRowsWellFormed(rows, embed);
          WindowsWellFormed(v, labels[bm.beatmapId]);
          StreamRowsWellFormed(j + 1);
          assert FileStream(j).windows == WindowsFrom(v, labels[bm.beatmapId], 0) + FileStream(j + 1).windows;
        }
      }
    }

    /** The rows the source's sequence builder gives are all one-hot. */
    lemma LoadedRowsOneHot(hos: seq<HitObject>, rows: seq<Row>)
      requires toSequence == BeatmapToSequence && toSequence(hos) == Some(rows)
      ensures forall r :: r in rows ==> OneHot(r)
    {
      assert rows == Flatten(hos);
      SequenceOneHot(hos);
    }

    /** Two iterators over the same files with the same configuration give the same windows. */
    lemma {:induction false} SameWindows(other: BeatmapDatasetIterable, lo: Loaded, c: int, off: nat)
      requires stride >= 1 && |lo.x| == |lo.y| && other.seqLen == seqLen && other.stride == stride
      ensures other.WindowsFrom(lo, c, off) == WindowsFrom(lo, c, off)
      decreases |lo.x| - off
    {
      if off + seqLen <= |lo.x| {
        SameWindows(other, lo, c, off + stride);
      }
    }

    /** What an iterator gives depends only on its files and its configuration. */
    lemma {:induction false} SameStream(other: BeatmapDatasetIterable, j: nat)
      requires stride >= 1 && other.files == files && other.labels == labels && other.seqLen == seqLen
      requires other.stride == stride && other.load == load && other.embed == embed && other.toSequence == toSequence
      ensures other.FileStream(j) == FileStream(j)
      decreases |files| - j
    {
      if j < |files| && load(files[j]).Some? {
        var bm := load(files[j]).value;
        if bm.beatmapId in labels && toSequence(bm.hitObjects).Some? {
          SameStream(other, j + 1);
          SameWindows(other, View(toSequence(bm.hitObjects).value, embed), labels[bm.beatmapId], 0);
        }
      }
    }
  }
}
