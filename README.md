# osu-diffusion data loading, modelled in Dafny

osu-diffusion trains a diffusion model on osu! beatmaps. Its data loader,
`data_loading.py`, turns every beatmap into a sequence of 17-column rows, one
or more per hit object. A row holds the normalised playfield position, the
time in seconds times ten, and a one-hot over 14 event slots: circle, spinner
start and end, slider start, one slot per kind of curve anchor, slider end,
and five repeat buckets. The loader then serves training windows of `seq_len`
rows at a fixed stride, file after file. Its parts are:

- a track-range dataset (`BeatmapDataset`) that lists the beatmap files of the
  track directories `Track00000`, `Track00001`, …;
- a worker hook (`worker_init_fn`) that gives each data-loading worker its own
  block of that range.

The project has one module per component:

- `Wrappers` holds `Option`.
- `Encoder` covers `create_datapoint`, `repeat_type`, `append_control_points` and `get_data`.
  - A specification function `Encoding` states what `get_data` gives.
  - The methods `GetData`, `AppendControlPoints` and `AppendBezierPoints` build the rows step by step, as the source does.
  - `GetData` is proved equal to `Encoding`. `AppendControlPoints` is proved to give the given rows followed by `UniformRows(ho, slot)`, and `AppendBezierPoints` the given rows followed by `BezierRows(ho, 1)`. Those two functions are the interior rows of `Encoding`.
  - Decoders (`DecodeTime`, `DecodePosition`, `DecodeSlot`) read a row back.
  - The layout lemmas are stated through the decoders, object kind by object kind.
- `SequenceBuilder` covers `beatmap_to_sequence`: the in-order concatenation of the encodings.
- `Windowing` covers the `BeatmapDatasetIterable` class.
  - It has the source's fields.
  - `Pending()` abstracts its state: the windows still to come and how the stream ends (exhausted, or an exception).
  - `Next` is proved to give the head of `Pending()` and leave the rest, or to report the end.
  - `FileStream` states what a list of files gives in all.
- `Dataset` covers the track names, POSIX `os.path.join`, `_get_beatmap_files`, `worker_init_fn` and the `BeatmapDataset` class.

Foreign code is passed in as function values:

- `load` is the chart parser `Beatmap.from_path`. It gives an id and the hit objects, or `None` when parsing fails.
- `listdir` is `os.listdir`.
- `embed` is the time embedding `timestep_embedding`.
- `permute` is the order `random.shuffle` picks.
- A slider's `curveEnd` is the point `ho.curve(1)`.

Two behaviours of `data_loading.py` are easy to misread; the model follows the code:

- An empty beatmap does not give an empty sequence. `torch.concatenate` of an empty list raises, so `BeatmapToSequence` gives `None`, and the iterator raises `EmptyBeatmap`.
- A slider with 100 or more control points is not dropped. It falls through to the last branch of `get_data` and gives a single slot-0 row (`SingleRowLayout`).

## Model

| member | source | states |
|---|---|---|
| Encoder.CreateDatapoint | data_loading.py:20-26 | the row has 17 columns: x / 512, y / 384, time × 10, then 1 in column 3 + slot and 0 in every other slot column; slots 0..13 only |
| Encoder.DecodeEncode | data_loading.py:20-26 | time, position and slot read back from a created row, and the row is one-hot |
| Encoder.NormalisationExamples | data_loading.py:21 | positions are divided by the playfield size without clamping: (512, 384) maps to (1, 1), and x = 600 maps to 1.171875 |
| Encoder.InterpTime | data_loading.py:42-43 | control point 0 is at the slider's start time and the last control point at its end time |
| Encoder.InterpTimeWithin | data_loading.py:42-43 | for a slider that does not end before it starts, every control point's interpolated time lies between start and end |
| Encoder.RepeatType | data_loading.py:29-35 | counts below 4 give count − 1; from 4 on, even counts give 3 and odd counts give 4; every natural count lands in −1..4 and every positive one in 0..4 |
| Encoder.RepeatTypeExamples | data_loading.py:29-35 | the buckets of the counts 1, 2, 3, 4, 5, 6, 100 and 101 are 0, 1, 2, 3, 4, 3, 3 and 4 |
| Encoder.FinalSlotRange | data_loading.py:72 | for a repeat count of at least 1 the final row's slot lies in 9..13, and a count of 0 gives slot 8 |
| Encoder.AppendControlPoints | data_loading.py:38-45 | appends exactly one row per interior control point, in order, after the given rows |
| Encoder.UniformRowsAre | data_loading.py:42-45 | appended row k is interior point k + 1, at time start + (k + 1)/(n − 1) · duration, with the given slot; there are max(n − 2, 0) rows |
| Encoder.AppendBezierPoints | data_loading.py:58-69 | appends the multi-bezier interior rows: slot 7 when a point equals its successor, otherwise slot 4 when it differs from its predecessor, otherwise no row |
| Encoder.BezierSlot | data_loading.py:66-69 | interior point i gets slot 7 exactly when it equals its successor, slot 4 exactly when it differs from both its successor and its predecessor, and no slot exactly when it differs from its successor but equals its predecessor; so 4, 7 and none are the only results |
| Encoder.BezierPointSkipped | data_loading.py:66-69 | a point equal to its predecessor but not its successor adds no row to the multi-bezier rows |
| Encoder.GetData | data_loading.py:48-79 | the rows built step by step are exactly the specified encoding of the hit object |
| Encoder.SingleRowLayout | data_loading.py:79 | a circle, or a slider with 100 or more control points, gives one slot-0 row at its time and position |
| Encoder.SpinnerLayout | data_loading.py:76-77 | a spinner gives two rows at its position: slot 1 at the start time, then slot 2 at the end time |
| Encoder.SliderFrame | data_loading.py:49-74 | every encoded slider starts with a slot-3 row at its start and ends with a slot-8 row at the last control point and a slot-(9 + bucket) row at the curve end, both at the end time |
| Encoder.UniformSliderLayout | data_loading.py:48-57 | a linear, catmull or perfect slider gives max(n − 2, 0) + 3 rows, interior row i at the interpolated time of point i with slot 7, 6 or 5 |
| Encoder.OtherCurveLayout | data_loading.py:49-74 | a slider of any other curve class gives only its three frame rows |
| Encoder.BezierRowsBound | data_loading.py:62-69 | the multi-bezier loop gives at most one row per interior point, each of slot 4 or 7 |
| Encoder.BezierSliderLayout | data_loading.py:58-72 | a multi-bezier slider gives between 3 and max(n − 2, 0) + 3 rows, its interior rows all of slot 4 or 7 |
| Encoder.BezierRowsUniform | data_loading.py:62-69 | where every interior point from i on gets the same slot, the multi-bezier rows are the uniform rows of that slot |
| Encoder.BezierDistinctPoints | data_loading.py:66-69 | without repeated consecutive points every interior point is an anchor of slot 4 |
| Encoder.BezierRepeatedPoints | data_loading.py:66-67 | when every interior point equals its successor, all are slot 7, because the successor test comes first |
| Encoder.EncodingOneHot | data_loading.py:48-79 | every row of every encoding is one-hot over the 14 slots |
| SequenceBuilder.BeatmapToSequence | data_loading.py:82-87 | there is no sequence exactly when the beatmap has no hit objects; otherwise the length is the sum of the per-object row counts |
| SequenceBuilder.SequenceLength | data_loading.py:85 | the concatenation's length is the sum of the per-object row counts |
| SequenceBuilder.FlattenAppend | data_loading.py:85 | concatenating the encodings of two object lists is concatenating the two sequences |
| SequenceBuilder.ObjectRowsInPlace | data_loading.py:85 | the rows of object k sit unchanged right after the rows of the objects before it |
| SequenceBuilder.SequenceOneHot | data_loading.py:85 | every row of a beatmap's sequence is one-hot |
| Windowing.ViewRowsWellFormed | data_loading.py:116-122 | with a 128-wide embedding and one-hot rows, each x row has 2 entries and each y row is context_size = 142 wide and ends in a one-hot over the 14 slots |
| Windowing.WindowOffsetsFromStart | data_loading.py:105-130 | a sequence of length L gives (L − seq_len) / stride + 1 window offsets when L ≥ seq_len and none otherwise; offset k is k · stride and each window fits |
| Windowing.WindowExamples | data_loading.py:105-130 | length 57 with windows of 25 at stride 16 gives the offsets 0, 16 and 32; length 20 gives none |
| Windowing.BeatmapDatasetIterable.constructor | data_loading.py:91-100 | a new iterator starts at file 0 with nothing loaded; what it will give is the stream of all its files |
| Windowing.BeatmapDatasetIterable.Next | data_loading.py:105-131 | gives the first pending window and leaves the rest pending; with none left it gives StopIteration or the load error that ends the stream and leaves that unchanged; index never decreases; StopIteration only when every file is used and no window is left |
| Windowing.BeatmapDatasetIterable.LoadNextFile | data_loading.py:106-125 | one turn of the loading loop: stops past the last file, raises on a parse error, an unknown beatmap id or an empty beatmap, leaving index as it was; otherwise loads the file, sets the offset to 0 and moves index on by one, and what is pending is then everything from that file on (`JustLoaded`); in every case what is pending stays the same |
| Windowing.BeatmapDatasetIterable.TakeWindow | data_loading.py:128-131 | the window at the current offset, with the beatmap's label, is the head of what is pending and what is pending loses that head; the offset grows by exactly stride and index stays |
| Windowing.BeatmapDatasetIterable.WindowAt | data_loading.py:128-129 | a window has seq_len rows in each view, row k being row offset + k of the loaded views, and carries the given label |
| Windowing.BeatmapDatasetIterable.PopHead | data_loading.py:128-130 | taking the window at an offset that fits leaves the windows from offset + stride |
| Windowing.BeatmapDatasetIterable.FileContribution | data_loading.py:105-131 | a file that loads contributes exactly WindowCount(L, seq_len, stride) windows, window k being rows k · stride .. k · stride + seq_len of both views with the beatmap's label; the next files' windows follow them, and the stream ends as theirs does (its step lemma is `LoadStep`) |
| Windowing.BeatmapDatasetIterable.LoadedWindows | data_loading.py:126-130 | the windows of a loaded beatmap are the WindowCount slices at offsets 0, stride, 2 · stride, … |
| Windowing.BeatmapDatasetIterable.WindowsFromShape | data_loading.py:126-130 | the windows from an offset are the slices at the window offsets from it, each of them inside the sequence |
| Windowing.BeatmapDatasetIterable.StreamWindowWidth | data_loading.py:128-129 | every window still to come has exactly seq_len rows in each view |
| Windowing.BeatmapDatasetIterable.WindowWellFormed | data_loading.py:128-129 | a window cut from well-formed views is well formed |
| Windowing.BeatmapDatasetIterable.WindowsWellFormed | data_loading.py:126-130 | every window of a beatmap's well-formed views is well formed |
| Windowing.BeatmapDatasetIterable.LoadedRowsOneHot | data_loading.py:116 | every row `beatmap_to_sequence` gives is one-hot |
| Windowing.BeatmapDatasetIterable.StreamRowsWellFormed | data_loading.py:116-129 | with a 128-wide time embedding, every window still to come has 2 entries per x row, and y rows 142 wide that end in a one-hot over the 14 slots |
| Windowing.BeatmapDatasetIterable.SameStream | data_loading.py:90-131 | two iterators with the same files and configuration give the same windows and the same end |
| Dataset.IntToStringRoundTrip | data_loading.py:148 | str(i) starts with a minus sign exactly for negative i, and reads back as i |
| Dataset.ZFillShape | data_loading.py:148 | zfill gives max(len(s), width) characters: a leading sign stays first, then zeros, then the rest of s; without a sign, zeros and then s |
| Dataset.TrackName | data_loading.py:148 | every track name starts with "Track" and has at least ten characters |
| Dataset.PaddedRoundTrip | data_loading.py:148 | str(i).zfill(5) reads back as i, for negative i too |
| Dataset.TrackNameRoundTrip | data_loading.py:148 | the track index reads back from the track directory name |
| Dataset.TrackNameInjective | data_loading.py:148 | distinct track indices give distinct directory names |
| Dataset.TrackNameWidth | data_loading.py:148 | indices 0..99999 give "Track" and exactly five digits |
| Dataset.WideTrackName | data_loading.py:148 | from 100000 on zfill pads nothing and the name is longer than ten characters |
| Dataset.TrackNameExamples | data_loading.py:148 | track 7 is "Track00007", and track −3 is "Track-0003" because the sign stays in front of the zeros |
| Dataset.FiveDigitExample | data_loading.py:148 | track 10547 is "Track10547" |
| Dataset.JoinPlacement | data_loading.py:150-151 | os.path.join puts a relative component after the directory and lets an absolute one replace it |
| Dataset.JoinBaseName | data_loading.py:151 | a joined file name without separators is the last component of the joined path |
| Dataset.TrackFilesInDir | data_loading.py:150-151 | the path of every listed name that does not start with '/' begins with the beatmap directory, and for a plain file name its last component is that listed name |
| Dataset.BeatmapFilesSplit | data_loading.py:147-153 | the files of [a, c) are those of [a, b) followed by those of [b, c) |
| Dataset.BeatmapFilesMembers | data_loading.py:147-153 | a path is listed exactly when it is one of the listed files of a track in [start, end) |
| Dataset.BeatmapDataset.constructor | data_loading.py:135-143 | the dataset keeps its root, label map, range, window length, stride and shuffle flag |
| Dataset.BeatmapDataset.GetBeatmapFiles | data_loading.py:145-153 | the list built track by track is the files of [start, end), in track order and listing order |
| Dataset.BeatmapDataset.AppendTrack | data_loading.py:148-151 | appends the files listed in "<root>/Track<i>/beatmaps", in listing order, to the list so far |
| Dataset.BeatmapDataset.AppendTrackFiles | data_loading.py:150-151 | appends the joined path of every listed name of one directory, in listing order |
| Dataset.BeatmapDataset.Iter | data_loading.py:155-161 | a fresh iterator over the range's files, unchanged without shuffle and rearranged with it, so always the same multiset; its stream is the stream of those files |
| Dataset.BeatmapDataset.TwoEpochs | data_loading.py:155-161 | without shuffle, two iterations give two distinct iterators with the same pending stream |
| Dataset.CeilDiv | data_loading.py:171 | the per-worker block size is the exact ceiling: (q − 1) · n < a ≤ q · n |
| Dataset.WorkerRange | data_loading.py:165-173 | worker i starts at start + i · per, ends no later than end, holds at most per tracks, and is empty when it starts at or past end |
| Dataset.BeatmapDataset.WorkerInit | data_loading.py:165-173 | the dataset copy's range becomes worker i's range of the old range |
| Dataset.WorkerOwnership | data_loading.py:171-173 | every track of [start, end) belongs to exactly one worker's range, one of the n |
| Dataset.WorkersDisjoint | data_loading.py:171-173 | a lower-numbered worker's range ends at or before a higher-numbered worker's range starts |
| Dataset.WorkerSharesCover | data_loading.py:171-173 | the n ranges laid end to end cover [start, end) exactly |
| Dataset.WorkersPartitionFiles | data_loading.py:165-173 | the workers' file lists, one after another, are exactly the file list of the whole range |
| Dataset.WorkerExamples | data_loading.py:171-173 | 10548 tracks over 4 workers give blocks of 2637; 10 over 3 give [0,4), [4,8), [8,10); 5 over 4 give worker 3 the empty range [6,5) |

## Left out

- Floating point and `timedelta` are not modelled. Times are exact real seconds, so the microsecond rounding and float error of the time and position arithmetic are absent.
- `timestep_embedding` and `position_sequence_embedding` come from a file that is not part of this model. The time embedding is the abstract parameter `embed`.
- The `slider` library is not modelled, because it is foreign parsing and geometry. That covers `Beatmap.from_path`, `hit_objects(stacking=False)` and curve evaluation. The parser is the parameter `load`. `ho.curve(1)` is the slider field `curveEnd`. The curve classes become `CurveKind`.
- Slider control points are a non-empty sequence, because the parser always includes the head. The `IndexError` that `points[-1]` would raise on an empty list is not modelled.
- `repeat` is a natural number, the count in the chart. A negative count is not modelled.
- `random.shuffle` is not modelled, because it is randomness. The order it picks is the parameter `permute`, assumed to be a rearrangement.
- `os.listdir` is the parameter `listdir`. The `FileNotFoundError` it raises on a missing track directory is not modelled.
- `listdir` and `load` are fixed functions of the path. The model therefore assumes the files on disk do not change between calls, and that `os.listdir`, whose order Python leaves arbitrary, lists a directory in the same order every time. `Dataset.BeatmapDataset.TwoEpochs` rests on this, and so does `Next` raising the same error again when a failing file is retried.
- `Join` models POSIX `os.path.join` only. The Windows drive and backslash rules are not modelled.
- `BeatmapDatasetIterable.__iter__` returns the object itself. It carries no logic, so it has no member of its own.
- Stride 0 is excluded by a precondition. With stride 0 the source never advances and yields the same window forever.
- `seq_len` and `stride` are natural numbers (`seqLen`, `stride: nat`), so a negative window length or stride is not modelled. In Python a negative `seq_len` slices from the end and a negative `stride` moves the offset backwards.
- `Dataset.BeatmapDataset.WorkerInit` requires at least one worker. The source divides by the worker count, so zero workers raise `ZeroDivisionError` before the range is touched.
- `Dataset.BeatmapDataset.WorkerInit` takes the worker id and count as parameters, and the dataset copy is the object itself. `torch.utils.data.get_worker_info()` is not modelled, because it belongs to the torch runtime.
- `Dataset.CeilDiv`: `math.ceil` of a float division is modelled as the exact integer ceiling. For range sizes beyond 2^53 a float can round differently.
- `DataLoader` batching, pinning and the worker processes are not modelled, because the concurrency belongs to torch.
- `get_processed_data_loader` and its `pickle` load of the label map are not modelled, because they are file I/O and configuration. The label map is a `map<int, int>` parameter.
- The `__main__` plotting block is not modelled, because it is display code.
- `embeddings/find_unique_beatmaps.py` is not part of this model. It is an offline script built on pandas, scipy and a torch checkpoint.
- `Windowing.BeatmapDatasetIterable.Next`, `LoadNextFile` and `TakeWindow` share one while loop. `Next` keeps the loop; the body of one loop turn is `LoadNextFile`, and the window slicing after the loop is `TakeWindow`.
- `Encoder.GetData`: the multi-bezier loop is the separate method `AppendBezierPoints`.
- `Dataset.BeatmapDataset.GetBeatmapFiles`: the body of the outer loop is the separate method `AppendTrack`, and the inner loop is the separate method `AppendTrackFiles`.
- The iterator calls `beatmap_to_sequence` through the field `toSequence`, which the constructor binds to `BeatmapToSequence`.
- Tensors are sequences of rows. The `[:, :2]`, `[:, 2]` and `[:, 3:]` column slices become per-row slices in `View`.
- `Windowing.BeatmapDatasetIterable.StreamRowsWellFormed` takes the 128-wide time embedding of `timestep_embedding(…, 128, 36000)` as a precondition on `embed`, because the embedding itself is not modelled.
