/**
 * The dataset side of data_loading.py: the names of the track directories,
 * the list of beatmap files of a track range (BeatmapDataset._get_beatmap_files),
 * and the range split that worker_init_fn gives each data-loading worker.
 */
module Dataset {
  import opened Wrappers
  import opened Windowing
  import SequenceBuilder

  // Decimal rendering, as Python's str on an int.

  predicate IsDigit(c: char)
  {
    '0' <= c <= '9'
  }

  function DigitChar(d: nat): char
    requires d < 10
  {
    (48 + d) as char
  }

  /** The decimal digits of n, most significant first, without leading zeros. */
  function NatToString(n: nat): string
    decreases n
  {
    if n < 10 then [DigitChar(n)] else NatToString(n / 10) + [DigitChar(n % 10)]
  }

  /** Python's str on an int: a minus sign before the digits of a negative number. */
  function IntToString(i: int): string
  {
    if i < 0 then "-" + NatToString(-i) else NatToString(i)
  }

  /** str on an int starts with a minus sign exactly for a negative int, and reads back as that int. */
  lemma IntToStringRoundTrip(i: int)
    ensures var r := IntToString(i); r != [] && (r[0] == '-' <==> i < 0) && ParseInt(r) == Some(i)
  {
    var m: nat := if i < 0 then -i else i;
    NatToStringDigits(m);
    if i < 0 {
      assert IntToString(i)[1..] == NatToString(m);
    }
  }

  predicate AllZeros(z: string)
  {
    forall k :: 0 <= k < |z| ==> z[k] == '0'
  }

  /**
   * Python's str.zfill: left-pads with zeros up to `width`, keeping a leading
   * sign in front of the padding; a string already that wide is unchanged.
   */
  function ZFill(s: string, width: nat): string
  {
    if |s| >= width then s
    else if s != [] && (s[0] == '-' || s[0] == '+') then [s[0]] + seq(width - |s|, _ => '0') + s[1..]
    else seq(width - |s|, _ => '0') + s
  }

  /**
   * What zfill gives: max(|s|, width) characters; a leading sign first, then
   * zeros, then the rest of s; without a sign, zeros and then s.
   */
  lemma ZFillShape(s: string, width: nat)
    ensures var r := ZFill(s, width);
      |r| == (if |s| >= width then |s| else width) &&
      (s != [] && (s[0] == '-' || s[0] == '+') ==>
        r[0] == s[0] && r[|r| - (|s| - 1)..] == s[1..] && AllZeros(r[1..|r| - |s| + 1])) &&
      (!(s != [] && (s[0] == '-' || s[0] == '+')) ==>
        r[|r| - |s|..] == s && AllZeros(r[..|r| - |s|]))
  {
    var r := ZFill(s, width);
    if |s| < width {
      var z := seq(width - |s|, _ => '0');
      if s != [] && (s[0] == '-' || s[0] == '+') {
        assert r == [s[0]] + z + s[1..];
        assert r[1..|r| - |s| + 1] == z;
      } else {
        assert r == z + s;
        assert r[..|r| - |s|] == z;
      }
    }
  }

  /** The name of the directory of track i ("Track" + str(i).zfill(5)). */
  function TrackName(i: int): (r: string)
    ensures |r| >= 10 && r[..5] == "Track"
  {
    ZFillShape(IntToString(i), 5);
    "Track" + ZFill(IntToString(i), 5)
  }

  // Reading a track name back: the partner of TrackName.

  predicate AllDigits(s: string)
  {
    forall k :: 0 <= k < |s| ==> IsDigit(s[k])
  }

  /** The value of a digit string read in base ten; the empty string reads as 0. */
  function Value(s: string): nat
    requires AllDigits(s)
  {
    if s == [] then 0 else Value(s[..|s| - 1]) * 10 + (s[|s| - 1] as int - 48)
  }

  /** A non-empty digit string, optionally after a minus sign, read as an int. */
  function ParseInt(s: string): Option<int>
  {
    if |s| >= 2 && s[0] == '-' && AllDigits(s[1..]) then Some(0 - Value(s[1..]))
    else if s != [] && AllDigits(s) then Some(Value(s))
    else None
  }

  /** The track index a directory name stands for, if it is a track name. */
  function TrackIndex(name: string): Option<int>
  {
    if |name| >= 5 && name[..5] == "Track" then ParseInt(name[5..]) else None
  }

  lemma {:induction false} NatToStringDigits(n: nat)
    ensures var s := NatToString(n); s != [] && AllDigits(s) && Value(s) == n
    decreases n
  {
    var s := NatToString(n);
    if n >= 10 {
      NatToStringDigits(n / 10);
      assert s[..|s| - 1] == NatToString(n / 10);
    }
  }

  /** Zeros in front of a digit string do not change its value. */
  lemma {:induction false} LeadingZeros(z: string, s: string)
    requires AllDigits(z) && AllDigits(s) && Value(z) == 0
    ensures AllDigits(z + s) && Value(z + s) == Value(s)
    decreases |s|
  {
    if s == [] {
      assert z + s == z;
    } else {
      var init := s[..|s| - 1];
      LeadingZeros(z, init);
      assert (z + s)[..|z + s| - 1] == z + init;
    }
  }

  lemma {:induction false} ZerosValue(k: nat)
    ensures var z := seq(k, _ => '0'); AllDigits(z) && Value(z) == 0
  {
    if k > 0 {
      var z := seq(k, _ => '0');
      ZerosValue(k - 1);
      assert z[..k - 1] == seq(k - 1, _ => '0');
    }
  }

  /** Padding a non-empty digit string with zeros keeps it a digit string of the same value. */
  lemma PaddedDigits(d: string, w: nat)
    requires d != [] && AllDigits(d)
    ensures var z := ZFill(d, w); z != [] && AllDigits(z) && Value(z) == Value(d)
  {
    if |d| < w {
      var zeros := seq(w - |d|, _ => '0');
      assert IsDigit(d[0]);
      assert ZFill(d, w) == zeros + d;
      ZerosValue(w - |d|);
      LeadingZeros(zeros, d);
    }
  }

  /** zfill keeps a minus sign in front and pads the digits after it. */
  lemma ZFillSign(d: string, w: nat)
    requires d != [] && AllDigits(d) && w >= 1
    ensures ZFill("-" + d, w) == "-" + ZFill(d, w - 1)
  {
    if 1 + |d| < w {
      ZFillSignPadded(d, w);
    } else {
      var s := "-" + d;
      assert s[0] == '-';
      assert ZFill(d, w - 1) == d;
    }
  }

  lemma ZFillSignPadded(d: string, w: nat)
    requires d != [] && AllDigits(d) && 1 + |d| < w
    ensures ZFill("-" + d, w) == "-" + ZFill(d, w - 1)
  {
    var s := "-" + d;
    assert s[0] == '-' && s[1..] == d;
    assert IsDigit(d[0]);
    var z := seq(w - |s|, _ => '0');
    assert ZFill(s, w) == [s[0]] + z + s[1..];
    assert ZFill(d, w - 1) == z + d;
    assert [s[0]] + z + d == "-" + (z + d);
  }

  /** The zero-padded decimal form of an int reads back as that int. */
  lemma PaddedRoundTrip(i: int)
    ensures ParseInt(ZFill(IntToString(i), 5)) == Some(i)
  {
    var m: nat := if i < 0 then -i else i;
    var digits := NatToString(m);
    NatToStringDigits(m);
    if i < 0 {
      ZFillSign(digits, 5);
      PaddedDigits(digits, 4);
      var padded := "-" + ZFill(digits, 4);
      assert padded[0] == '-' && padded[1..] == ZFill(digits, 4);
    } else {
      PaddedDigits(digits, 5);
    }
  }

  lemma TrackIndexOfName(tail: string)
    ensures TrackIndex("Track" + tail) == ParseInt(tail)
  {
    var name := "Track" + tail;
    assert name[..5] == "Track" && name[5..] == tail;
  }

  /** Every track index can be read back from its track name. */
  lemma TrackNameRoundTrip(i: int)
    ensures TrackIndex(TrackName(i)) == Some(i)
  {
    TrackIndexOfName(ZFill(IntToString(i), 5));
    PaddedRoundTrip(i);
  }

  /** Distinct tracks have distinct directory names. */
  lemma TrackNameInjective(i: int, j: int)
    ensures TrackName(i) == TrackName(j) ==> i == j
  {
    TrackNameRoundTrip(i);
    TrackNameRoundTrip(j);
  }

  lemma {:induction false} NatToStringLength(n: nat, k: nat)
    requires 1 <= k && n < Pow10(k)
    ensures |NatToString(n)| <= k
    decreases k
  {
    if n >= 10 {
      NatToStringLength(n / 10, k - 1);
    }
  }

  function Pow10(k: nat): nat
  {
    if k == 0 then 1 else 10 * Pow10(k - 1)
  }

  /** The indices 0..99999 give names of exactly ten characters: "Track" and five digits. */
  lemma TrackNameWidth(i: int)
    requires 0 <= i < 100000
    ensures |TrackName(i)| == 10 && AllDigits(TrackName(i)[5..])
  {
    assert Pow10(5) == 100000;
    NatToStringLength(i, 5);
    NatToStringDigits(i);
    var s := IntToString(i);
    var z := ZFill(s, 5);
    ZFillShape(s, 5);
    assert TrackName(i)[5..] == z;
    forall k | 0 <= k < 5 ensures IsDigit(z[k]) {
      if k >= 5 - |s| {
        assert z[k] == z[5 - |s|..][k - (5 - |s|)];
      }
    }
  }

  lemma TrackNameExamples()
    ensures TrackName(7) == "Track00007"
    ensures TrackName(-3) == "Track-0003"
  {
    PositiveExample();
    NegativeExample();
  }

  lemma PositiveExample()
    ensures TrackName(7) == "Track00007"
  {
    assert NatToString(7) == "7";
    assert IntToString(7) == "7";
    assert seq(4, _ => '0') == "0000";
    assert ZFill("7", 5) == "00007";
  }

  lemma NegativeExample()
    ensures TrackName(-3) == "Track-0003"
  {
    assert NatToString(3) == "3";
    assert IntToString(-3) == "-3";
    assert seq(3, _ => '0') == "000";
    assert ZFill("-3", 5) == "-0003";
  }

  lemma FiveDigitExample()
    ensures TrackName(10547) == "Track10547"
  {
    assert NatToString(10) == "10";
    assert NatToString(105) == "105";
    assert NatToString(1054) == "1054";
    assert NatToString(10547) == "10547";
    assert IntToString(10547) == "10547";
    assert ZFill("10547", 5) == "10547";
  }

  lemma {:induction false} NatToStringLonger(n: nat, k: nat)
    requires n >= Pow10(k)
    ensures |NatToString(n)| > k
    decreases k
  {
    if k > 0 {
      NatToStringLonger(n / 10, k - 1);
    }
  }

  /** From 100000 on the index no longer fits the five-digit padding, and the name is longer. */
  lemma WideTrackName(i: int)
    requires i >= 100000
    ensures |TrackName(i)| > 10
  {
    assert Pow10(5) == 100000;
    NatToStringLonger(i, 5);
  }

  // Paths, joined as POSIX os.path.join does.

  /**
   * os.path.join(a, b): an absolute b replaces a; otherwise b goes after a,
   * with a separator unless a is empty or already ends in one.
   */
  function Join(a: Path, b: Path): Path
  {
    if b != [] && b[0] == '/' then b
    else if a == [] || a[|a| - 1] == '/' then a + b
    else a + "/" + b
  }

  /** The last component of a path: what follows its last separator. */
  function BaseName(p: Path): Path
  {
    if p == [] || p[|p| - 1] == '/' then [] else BaseName(p[..|p| - 1]) + [p[|p| - 1]]
  }

  lemma {:induction false} BaseNameAfterSeparator(d: Path, f: Path)
    requires d == [] || d[|d| - 1] == '/'
    requires '/' !in f
    ensures BaseName(d + f) == f
    decreases |f|
  {
    if f == [] {
      assert d + f == d;
    } else {
      var init := f[..|f| - 1];
      assert (d + f)[..|d + f| - 1] == d + init;
      BaseNameAfterSeparator(d, init);
    }
  }

  /**
   * A relative path joined onto a goes after a, and an absolute one
   * replaces it.
   */
  lemma JoinPlacement(a: Path, b: Path)
    ensures b != [] && b[0] == '/' ==> Join(a, b) == b
    ensures var r := Join(a, b);
      (b == [] || b[0] != '/') ==> |a| + |b| <= |r| && r[..|a|] == a && r[|r| - |b|..] == b
  {
  }

  /** A file name without separators is the last component of the path joined onto it. */
  lemma JoinBaseName(dir: Path, f: Path)
    requires f != [] && '/' !in f
    ensures BaseName(Join(dir, f)) == f
  {
    if dir == [] || dir[|dir| - 1] == '/' {
      BaseNameAfterSeparator(dir, f);
    } else {
      assert Join(dir, f) == (dir + "/") + f;
      BaseNameAfterSeparator(dir + "/", f);
    }
  }

  /**
   * Every listed path of a relative name lies in dir, and a listed name that
   * is a plain file name is the last component of its path.
   */
  lemma TrackFilesInDir(dir: Path, names: seq<string>)
    ensures var r := TrackFiles(dir, names);
      forall k :: 0 <= k < |names| && (names[k] == [] || names[k][0] != '/') ==>
        |dir| <= |r[k]| && r[k][..|dir|] == dir
    ensures var r := TrackFiles(dir, names);
      forall k :: 0 <= k < |names| && names[k] != [] && '/' !in names[k] ==> BaseName(r[k]) == names[k]
  {
    var r := TrackFiles(dir, names);
    forall k | 0 <= k < |names| && (names[k] == [] || names[k][0] != '/')
      ensures |dir| <= |r[k]| && r[k][..|dir|] == dir
    {
      JoinPlacement(dir, names[k]);
    }
    forall k | 0 <= k < |names| && names[k] != [] && '/' !in names[k]
      ensures BaseName(r[k]) == names[k]
    {
      JoinBaseName(dir, names[k]);
    }
  }

  /** The beatmap directory of track i under the dataset root. */
  function TrackDir(root: Path, i: int): Path
  {
    Join(Join(root, TrackName(i)), "beatmaps")
  }

  /** The paths of the listed files of one directory, in listing order. */
  function TrackFiles(dir: Path, names: seq<string>): seq<Path>
  {
    seq(|names|, k requires 0 <= k < |names| => Join(dir, names[k]))
  }

  /** The paths of the files `listdir` lists in the beatmap directory of track t. */
  function FilesOfTrack(root: Path, listdir: Path -> seq<string>, t: int): seq<Path>
  {
    TrackFiles(TrackDir(root, t), listdir(TrackDir(root, t)))
  }

  function TrackListing(root: Path, listdir: Path -> seq<string>): int -> seq<Path>
  {
    t => FilesOfTrack(root, listdir, t)
  }

  /** f(start) + f(start + 1) + ... + f(end - 1); empty when end <= start. */
  function Collect<T>(f: int -> seq<T>, start: int, end: int): seq<T>
    decreases end - start
  {
    if end <= start then [] else Collect(f, start, end - 1) + f(end - 1)
  }

  /**
   * The beatmap files of the tracks start..end-1, track by track in index
   * order and, within a track, in the order `listdir` gives them.
   */
  function BeatmapFiles(root: Path, listdir: Path -> seq<string>, start: int, end: int): seq<Path>
  {
    Collect(TrackListing(root, listdir), start, end)
  }

  lemma {:induction false} CollectSplit<T>(f: int -> seq<T>, a: int, b: int, c: int)
    requires a <= b <= c
    ensures Collect(f, a, c) == Collect(f, a, b) + Collect(f, b, c)
    decreases c - b
  {
    if b < c {
      CollectSplit(f, a, b, c - 1);
      assert Collect(f, a, b) + (Collect(f, b, c - 1) + f(c - 1)) == (Collect(f, a, b) + Collect(f, b, c - 1)) + f(c - 1);
    }
  }

  lemma {:induction false} CollectMembers<T>(f: int -> seq<T>, a: int, b: int, p: T)
    ensures p in Collect(f, a, b) <==> exists t :: a <= t < b && p in f(t)
    decreases b - a
  {
    if a < b {
      CollectMembers(f, a, b - 1, p);
    }
  }

  /** One more track adds its files at the end. */
  lemma BeatmapFilesStep(root: Path, listdir: Path -> seq<string>, start: int, i: int)
    requires start <= i
    ensures BeatmapFiles(root, listdir, start, i + 1) == BeatmapFiles(root, listdir, start, i) + FilesOfTrack(root, listdir, i)
  {
    assert TrackListing(root, listdir)(i) == FilesOfTrack(root, listdir, i);
  }

  lemma TrackFilesSnoc(dir: Path, names: seq<string>, k: nat)
    requires k < |names|
    ensures TrackFiles(dir, names[..k + 1]) == TrackFiles(dir, names[..k]) + [Join(dir, names[k])]
  {
  }

  /** The files of a range are those of its first part followed by those of its second. */
  lemma BeatmapFilesSplit(root: Path, listdir: Path -> seq<string>, a: int, b: int, c: int)
    requires a <= b <= c
    ensures BeatmapFiles(root, listdir, a, c) == BeatmapFiles(root, listdir, a, b) + BeatmapFiles(root, listdir, b, c)
  {
    CollectSplit(TrackListing(root, listdir), a, b, c);
  }

  /**
   * A path is among the files of [start, end) exactly when it is one of the
   * listed files of a track in the range.
   */
  lemma BeatmapFilesMembers(root: Path, listdir: Path -> seq<string>, start: int, end: int, p: Path)
    ensures p in BeatmapFiles(root, listdir, start, end) <==>
      exists t :: start <= t < end && p in FilesOfTrack(root, listdir, t)
  {
    var f := TrackListing(root, listdir);
    CollectMembers(f, start, end, p);
    forall t ensures f(t) == FilesOfTrack(root, listdir, t) { }
  }

  // The worker split of worker_init_fn.

  /** A half-open range of track indices [start, end). */
  datatype Range = Range(start: int, end: int)

  /** ceil(a / n), exactly. */
  function CeilDiv(a: int, n: int): (q: int)
    requires n >= 1
    ensures (q - 1) * n < a <= q * n
  {
    -((-a) / n)
  }

  /**
   * The range worker `id` of n gets from [start, end): blocks of
   * per = ceil((end - start) / n) indices, the last one cut at end.
   */
  function WorkerRange(start: int, end: int, n: int, id: int): (r: Range)
    requires n >= 1
    ensures r.end <= end
    ensures r.start == start + id * CeilDiv(end - start, n)
    ensures r.end - r.start <= CeilDiv(end - start, n)
    ensures r.start >= end ==> r.end <= r.start
  {
    Block(start, end, CeilDiv(end - start, n), id)
  }

  /** Block id of size per from start, cut at end. */
  function Block(start: int, end: int, per: int, id: int): Range
  {
    var s := start + id * per;
    Range(s, if s + per < end then s + per else end)
  }

  /** The worker owning track t: the block t falls in. */
  function OwnerOf(start: int, end: int, n: int, t: int): int
    requires n >= 1 && start < end
  {
    (t - start) / CeilDiv(end - start, n)
  }

  lemma CeilDivPositive(a: int, n: int)
    requires n >= 1 && a >= 1
    ensures CeilDiv(a, n) >= 1
  {
  }

  lemma MulMonotone(a: int, b: int, c: int)
    requires a <= b && c >= 0
    ensures a * c <= b * c
  {
    assert b * c - a * c == (b - a) * c;
  }

  /** worker_init_fn's per-worker block size covers the range with n blocks. */
  lemma BlocksCover(a: int, n: int)
    requires n >= 1 && a >= 0
    ensures 0 <= CeilDiv(a, n) && a <= n * CeilDiv(a, n)
  {
  }

  lemma DivBounds(a: int, b: int)
    requires a >= 0 && b >= 1
    ensures 0 <= a / b && (a / b) * b <= a < (a / b) * b + b
  {
  }

  /** Block id of size per, cut at end, holds t exactly when t falls in block (t - start) / per. */
  lemma BlockMembership(start: int, end: int, per: int, t: int, id: int)
    requires per >= 1 && start <= t < end && id >= 0
    ensures var s := start + id * per;
      s <= t < (if s + per < end then s + per else end) <==> id == (t - start) / per
  {
    var o := (t - start) / per;
    DivBounds(t - start, per);
    if id < o {
      MulMonotone(id + 1, o, per);
    } else if id > o {
      MulMonotone(o + 1, id, per);
    }
  }

  /**
   * Each track of [start, end) belongs to the range of exactly one worker,
   * the one OwnerOf names, and that worker is one of the n.
   */
  lemma WorkerOwnership(start: int, end: int, n: int, t: int, id: int)
    requires n >= 1 && start <= t < end && 0 <= id < n
    ensures 0 <= OwnerOf(start, end, n, t) < n
    ensures var r := WorkerRange(start, end, n, id); r.start <= t < r.end <==> id == OwnerOf(start, end, n, t)
  {
    var per := CeilDiv(end - start, n);
    CeilDivPositive(end - start, n);
    var o := (t - start) / per;
    DivBounds(t - start, per);
    assert o < n by {
      BlocksCover(end - start, n);
      if o >= n {
        MulMonotone(n, o, per);
      }
    }
    BlockMembership(start, end, per, t, id);
  }

  /** The ranges of two different workers share no track. */
  lemma WorkersDisjoint(start: int, end: int, n: int, i: int, j: int)
    requires n >= 1 && start <= end && 0 <= i < j
    ensures WorkerRange(start, end, n, i).end <= WorkerRange(start, end, n, j).start
  {
    var per := CeilDiv(end - start, n);
    MulMonotone(i + 1, j, per);
  }

  lemma NextBlock(start: int, per: int, k: int)
    requires per >= 0 && k >= 1
    ensures start <= start + (k - 1) * per && start + k * per == start + (k - 1) * per + per
  {
    MulMonotone(0, k - 1, per);
  }

  /** What blocks 0..k-1 of size per collect from f, one block after another. */
  function WorkerShares<T>(f: int -> seq<T>, start: int, end: int, per: int, k: nat): seq<T>
  {
    if k == 0 then []
    else
      var r := Block(start, end, per, k - 1);
      WorkerShares(f, start, end, per, k - 1) + Collect(f, r.start, r.end)
  }

  lemma {:induction false} WorkerSharesPrefix<T>(f: int -> seq<T>, start: int, end: int, per: int, k: nat)
    requires per >= 0 && start <= end
    ensures var b := start + k * per;
      WorkerShares(f, start, end, per, k) == Collect(f, start, if b < end then b else end)
  {
    if k > 0 {
      WorkerSharesPrefix(f, start, end, per, k - 1);
      var s := start + (k - 1) * per;
      NextBlock(start, per, k);
      var r := Block(start, end, per, k - 1);
      if s < end {
        CollectSplit(f, start, s, r.end);
      } else {
        assert Collect(f, r.start, r.end) == [];
      }
    }
  }

  /** The n blocks of worker_init_fn's size cover [start, end) exactly. */
  lemma WorkerSharesCover<T>(f: int -> seq<T>, start: int, end: int, n: int)
    requires n >= 1 && start <= end
    ensures WorkerShares(f, start, end, CeilDiv(end - start, n), n) == Collect(f, start, end)
  {
    var per := CeilDiv(end - start, n);
    BlocksCover(end - start, n);
    WorkerSharesPrefix(f, start, end, per, n);
    assert start + n * per >= end;
  }

  /** The files of workers 0..k-1, one worker after another. */
  function WorkerFiles(root: Path, listdir: Path -> seq<string>, start: int, end: int, n: int, k: nat): seq<Path>
    requires n >= 1
  {
    WorkerShares(TrackListing(root, listdir), start, end, CeilDiv(end - start, n), k)
  }

  /**
   * The workers together see exactly the files of [start, end), in order:
   * worker 0's files, then worker 1's, and so on.
   */
  lemma WorkersPartitionFiles(root: Path, listdir: Path -> seq<string>, start: int, end: int, n: int)
    requires n >= 1 && start <= end
    ensures WorkerFiles(root, listdir, start, end, n, n) == BeatmapFiles(root, listdir, start, end)
  {
    WorkerSharesCover(TrackListing(root, listdir), start, end, n);
  }

  /** The 10548 tracks of the dataset over four workers, ten tracks over three, five over four. */
  lemma WorkerExamples()
    ensures WorkerRange(0, 10548, 4, 0) == Range(0, 2637)
    ensures WorkerRange(0, 10548, 4, 3) == Range(7911, 10548)
    ensures WorkerRange(0, 10, 3, 0) == Range(0, 4)
    ensures WorkerRange(0, 10, 3, 1) == Range(4, 8)
    ensures WorkerRange(0, 10, 3, 2) == Range(8, 10)
    ensures WorkerRange(0, 5, 4, 3) == Range(6, 5)
  {
    assert CeilDiv(10548, 4) == 2637;
    assert CeilDiv(10, 3) == 4;
    assert CeilDiv(5, 4) == 2;
  }

  class BeatmapDataset {
    const datasetPath: Path
    /** The label map (beatmap_idx): beatmap id to label. */
    const labels: map<int, int>
    const seqLen: nat
    const stride: nat
    /** Whether each iteration shuffles the file list first. */
    const shuffle: bool
    /** The directory listing (os.listdir), applied to a directory path. */
    const listdir: Path -> seq<string>
    /** The chart parser, applied to a path; None when the file cannot be loaded. */
    const load: Path -> Option<Beatmap>
    /** The time embedding of one row's time column. */
    const embed: real -> seq<real>

    /** The track range [start, end) of this copy of the dataset. */
    var start: int
    var end: int

    constructor (datasetPath: Path, labels: map<int, int>, start: int, end: int, seqLen: nat, stride: nat, shuffle: bool,
                 listdir: Path -> seq<string>, load: Path -> Option<Beatmap>, embed: real -> seq<real>)
      ensures this.datasetPath == datasetPath && this.labels == labels && this.seqLen == seqLen && this.stride == stride
      ensures this.shuffle == shuffle && this.listdir == listdir && this.load == load && this.embed == embed
      ensures this.start == start && this.end == end
    {
      this.datasetPath := datasetPath;
      this.labels := labels;
      this.start := start;
      this.end := end;
      this.seqLen := seqLen;
      this.stride := stride;
      this.shuffle := shuffle;
      this.listdir := listdir;
      this.load := load;
      this.embed := embed;
    }

    /** The beatmap files of the tracks in [start, end), appended track by track. */
    method GetBeatmapFiles() returns (beatmapFiles: seq<Path>)
      ensures beatmapFiles == BeatmapFiles(datasetPath, listdir, start, end)
    {
      beatmapFiles := [];
      var stop := if end < start then start else end;  // range(start, end) is empty when end < start
      var i := start;
      while i < stop
        invariant start <= i <= stop
        invariant beatmapFiles == BeatmapFiles(datasetPath, listdir, start, i)
        decreases stop - i
      {
        BeatmapFilesStep(datasetPath, listdir, start, i);
        beatmapFiles := AppendTrack(beatmapFiles, i);
        i := i + 1;
      }
    }

    /** Appends the files of track i: those listed in "<root>/Track<i>/beatmaps". */
    method AppendTrack(beatmapFiles: seq<Path>, i: int) returns (r: seq<Path>)
      ensures r == beatmapFiles + FilesOfTrack(datasetPath, listdir, i)
    {
      var dir := Join(Join(datasetPath, TrackName(i)), "beatmaps");
      r := AppendTrackFiles(beatmapFiles, dir);
    }

    /** Appends the path of every file `listdir` lists in dir, in listing order. */
    method AppendTrackFiles(beatmapFiles: seq<Path>, dir: Path) returns (r: seq<Path>)
      ensures r == beatmapFiles + TrackFiles(dir, listdir(dir))
    {
      var names := listdir(dir);
      r := beatmapFiles;
      var k := 0;
      while k < |names|
        invariant 0 <= k <= |names|
        invariant r == beatmapFiles + TrackFiles(dir, names[..k])
      {
        TrackFilesSnoc(dir, names, k);
        r := r + [Join(dir, names[k])];
        k := k + 1;
      }
      assert names[..k] == names;
    }

    /**
     * A fresh iterator over the beatmap files of the range. When the dataset
     * shuffles, `permute` stands for the order random.shuffle picks: some
     * rearrangement of the list.
     */
    method Iter(permute: seq<Path> -> seq<Path>) returns (it: BeatmapDatasetIterable)
      requires stride >= 1
      requires forall s :: multiset(permute(s)) == multiset(s)
      ensures fresh(it) && it.Valid()
      ensures it.files == if shuffle then permute(BeatmapFiles(datasetPath, listdir, start, end))
                          else BeatmapFiles(datasetPath, listdir, start, end)
      ensures multiset(it.files) == multiset(BeatmapFiles(datasetPath, listdir, start, end))
      ensures it.labels == labels && it.seqLen == seqLen && it.stride == stride
      ensures it.load == load && it.embed == embed && it.toSequence == SequenceBuilder.BeatmapToSequence
      ensures it.Pending() == it.FileStream(0)
    {
      var beatmapFiles := GetBeatmapFiles();
      if shuffle {
        beatmapFiles := permute(beatmapFiles);
      }
      it := new BeatmapDatasetIterable(beatmapFiles, labels, seqLen, stride, load, embed);
    }

    /** worker_init_fn on this copy: narrow the range to worker `workerId`'s block. */
    method WorkerInit(workerId: int, numWorkers: int)
      requires numWorkers >= 1
      modifies this
      ensures Range(start, end) == WorkerRange(old(start), old(end), numWorkers, workerId)
    {
      var overallStart := start;
      var overallEnd := end;
      var perWorker := CeilDiv(overallEnd - overallStart, numWorkers);
      start := overallStart + workerId * perWorker;
      end := if start + perWorker < overallEnd then start + perWorker else overallEnd;
    }

    /**
     * Iterating twice without shuffling gives two fresh iterators that
     * will give the same windows, and the same end, in the same order.
     */
    method TwoEpochs() returns (first: BeatmapDatasetIterable, second: BeatmapDatasetIterable)
      requires stride >= 1 && !shuffle
      ensures first != second && first.Valid() && second.Valid()
      ensures first.Pending() == second.Pending()
    {
      first := Iter(s => s);
      second := Iter(s => s);
      first.SameStream(second, 0);
    }
  }
}
