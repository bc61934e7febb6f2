/**
 * The sequence builder of data_loading.py: the rows of a beatmap are the rows
 * of its hit objects, concatenated in the order the parser lists them.
 */
module SequenceBuilder {
  import opened Wrappers
  import opened Encoder

  /** The in-order concatenation of the encodings of `hos`. */
  function Flatten(hos: seq<HitObject>): seq<Row>
  {
    if hos == [] then [] else Encoding(hos[0]) + Flatten(hos[1..])
  }

  /** The number of rows the objects give, summed from the last object backwards. */
  function TotalRows(hos: seq<HitObject>): nat
  {
    if hos == [] then 0 else TotalRows(hos[..|hos| - 1]) + |Encoding(hos[|hos| - 1])|
  }

  /**
   * The rows of a beatmap. An empty hit-object list has no sequence: the
   * concatenation of no tensors fails.
   */
  function BeatmapToSequence(hos: seq<HitObject>): (r: Option<seq<Row>>)
    ensures r.None? <==> hos == []
    ensures r.Some? ==> |r.value| == TotalRows(hos)
  {
    if hos == [] then None
    else
      SequenceLength(hos);
      Some(Flatten(hos))
  }

  lemma {:induction false} FlattenAppend(a: seq<HitObject>, b: seq<HitObject>)
    ensures Flatten(a + b) == Flatten(a) + Flatten(b)
  {
    if a != [] {
      assert (a + b)[1..] == a[1..] + b;
      FlattenAppend(a[1..], b);
    } else {
      assert a + b == b;
    }
  }

  /** The length of the sequence is the sum of the per-object row counts. */
  lemma {:induction false} SequenceLength(hos: seq<HitObject>)
    ensures |Flatten(hos)| == TotalRows(hos)
  {
    if hos != [] {
      var init, last := hos[..|hos| - 1], hos[|hos| - 1];
      assert hos == init + [last];
      FlattenAppend(init, [last]);
      assert Flatten([last]) == Encoding(last) + Flatten([]);
      SequenceLength(init);
    }
  }

  /**
   * The rows of object k sit, unchanged, right after the rows of the objects
   * before it.
   */
  lemma {:induction false} ObjectRowsInPlace(hos: seq<HitObject>, k: nat)
    requires k < |hos|
    ensures TotalRows(hos[..k]) + |Encoding(hos[k])| == TotalRows(hos[..k + 1]) <= TotalRows(hos) == |Flatten(hos)|
    ensures Flatten(hos)[TotalRows(hos[..k])..TotalRows(hos[..k + 1])] == Encoding(hos[k])
  {
    var before, upTo, after := hos[..k], hos[..k + 1], hos[k + 1..];
    PrefixParts(hos, k);
    FlattenAppend(upTo, after);
    FlattenAppend(before, [hos[k]]);
    FlattenSingle(hos[k]);
    SequenceLength(before);
    SequenceLength(upTo);
    SequenceLength(hos);
    SliceMiddle(Flatten(before), Encoding(hos[k]), Flatten(after));
  }

  lemma PrefixParts<T>(s: seq<T>, k: nat)
    requires k < |s|
    ensures s[..k + 1] == s[..k] + [s[k]] && s == s[..k + 1] + s[k + 1..]
  {
  }

  lemma FlattenSingle(h: HitObject)
    ensures Flatten([h]) == Encoding(h)
  {
    assert [h][1..] == [];
  }

  lemma SliceMiddle<T>(a: seq<T>, e: seq<T>, f: seq<T>)
    ensures (a + e + f)[|a|..|a| + |e|] == e
  {
    assert forall i :: 0 <= i < |e| ==> (a + e + f)[|a| + i] == e[i];
  }

  /** Every row of a beatmap's sequence is one-hot over the type slots. */
  lemma {:induction false} SequenceOneHot(hos: seq<HitObject>)
    ensures forall r :: r in Flatten(hos) ==> OneHot(r)
  {
    if hos != [] {
      EncodingOneHot(hos[0]);
      SequenceOneHot(hos[1..]);
    }
  }
}
