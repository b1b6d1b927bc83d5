# NEXRAD volumetric renderer: point derivation core

This project models the data path of a NEXRAD weather-radar volume renderer.
It covers how a run picks a radar file, turns the decoded volume scan into
coloured 3-D points, thins and colours them, and publishes them to the state
that the renderer reads. It also models how a density-based clusterer's
classifications are grouped into clusters.

The modules follow the program's structure:

- `Base` holds bytes, `Option`, `Result` and the `Error` values. Each error
  value stands for a point where the program panics or returns an error.
- `ScanSelect` models `nearest_file` (`src/data.rs`):
  - splitting a file identifier on `_`;
  - parsing its second field as an `%H%M%S` time of day;
  - the selection loop with its signed-difference comparison.
- `Points` models `get_points` and `ColoredPoint::new` (`src/data.rs`):
  - rotating and snapping the azimuth;
  - filling the raw gate buffer, with the word-size assertion and the index
    bound;
  - scaling gates, including the 999 below-threshold and 998 range-folded
    sentinels;
  - emitting one point per included gate at `(i + 1)` intervals of range.

  The nested loops over elevation scans and radials are a method proved
  equal to a recursive specification.
- `Coloring` models `color_points` (`src/processing.rs`). It is an in-place
  pass over an array, and the colour cascade is proved equal to a
  13-band palette table.
- `Sampling` models `into_iter().step_by(k)`. The result is characterised
  without division, as every `k`-th element starting from the first.
- `Clustering` models the grouping half of `do_dbscan_clustering`:
  - core points go to their cluster's bucket;
  - every other point goes to the unclustered list;
  - the buckets are then listed in an order that the map does not fix.
- `Pipeline` models `fetch_and_process` over the shared `State`
  (`src/state.rs`):
  - the busy check;
  - the stages of a run;
  - what is published on success, and what is left behind on failure.

Real numbers stand in for `f32`. Cosine and sine are supplied as function
values (`Trig`), and so is the metres-to-render-units ratio. The model
therefore states positions in terms of those functions, not numerically.

The model keeps these behaviours of the code as written:

- A run that fails after setting `processing` never clears the flag
  (`src/processing.rs:26`, `:37`, `:95`). Every later run is then refused
  (`Pipeline.RetryAfterFailure`).
- For a radial at azimuth 90 with raw gates `[0, 1, 5]`, the code emits two
  points: the range-folded gate (strength 998) and the 2.5 gate
  (`Points.ThreeGateScenario`).
- The azimuth is snapped to its floor plus one spacing, not to a multiple of
  the spacing (`src/data.rs:120-123`). The per-gate `azimuth += spacing` has
  no effect on positions, because the start angle is computed before the gate
  loop.
- Edge points are put with the unclustered points, not with their cluster
  (`src/processing.rs:124`).
- The nearest file is chosen by the signed difference
  `target - file_time`, so the latest file always wins, whatever the target
  (`ScanSelect.NearestIsLatest`, `ScanSelect.NearestIgnoresTarget`).

## Model

| member | source | states |
|---|---|---|
| ScanSelect.Split | src/data.rs:91 | splitting on `_` yields at least one part, and no part contains the separator |
| ScanSelect.SplitJoin | src/data.rs:91 | joining the parts with the separator gives back the identifier: the split loses nothing |
| ScanSelect.SplitAfter | src/data.rs:91-92 | a prefix without `_` followed by `_` is exactly the first part, and the rest splits on its own |
| ScanSelect.TakeField | src/data.rs:93 | one `%H`/`%M`/`%S` field: none without a leading digit; otherwise one digit, or two when a second digit follows, read as their decimal value (below 100), and the rest of the input after them |
| ScanSelect.TakeTwoDigits | src/data.rs:93 | a field written as two digits reads back as exactly their decimal value, and the scan resumes right after them |
| ScanSelect.TakeOneDigit | src/data.rs:93 | a single digit not followed by another digit reads back as its value |
| ScanSelect.ParseHms | src/data.rs:93 | a parsed `%H%M%S` field is a time of day below 86400 seconds |
| ScanSelect.FormatHms | src/data.rs:93 | a time of day prints as six digits, the form the parser reads |
| ScanSelect.ParseFormatHms | src/data.rs:93 | parsing the six-digit form of any time of day gives that time back |
| ScanSelect.FileTime | src/data.rs:90-94 | a file's time is below one day; failure is only a missing second field or an unparsable time |
| ScanSelect.IdentifierTime | src/data.rs:90-94 | an identifier `prefix_HHMMSS_rest` yields exactly the time written in it |
| ScanSelect.NoSeparatorNoTime | src/data.rs:91-92 | an identifier without `_` has no second field, so its time lookup fails with that error |
| ScanSelect.NearestIsLatest | src/data.rs:96-103 | the index the signed comparison selects is exactly the first file with the greatest time |
| ScanSelect.NearestIgnoresTarget | src/data.rs:96-103 | two selections over the same files pick the same index, whatever the targets |
| ScanSelect.NearestFile | src/data.rs:87-106 | an empty list fails; success iff every time parses; the result has the least signed difference, the first on ties; otherwise the first unparsable file's error |
| Points.NewPoint | src/data.rs:29-37 | a new point keeps its position and strength, and all three colour modes start black |
| Points.ScaleGate | src/data.rs:140-155 | raw 0 is 999 and raw 1 is 998; with scale 0 the raw value is kept; otherwise scaling inverts `v * scale + offset` |
| Points.RawGates | src/data.rs:130-136 | the buffer has gate-count entries: the moment bytes in order, zeros after them |
| Points.ScaledGates | src/data.rs:138-156 | one scaled value per gate; gates the data does not reach are below threshold |
| Points.FillRawGates | src/data.rs:130-136 | word size other than 8 fails; more bytes than gates fails at the first index past the end; otherwise the buffer of `RawGates` |
| Points.ScaleGates | src/data.rs:138-156 | the output has one entry per raw gate, each the scaling rule applied to it, in order |
| Points.RotateAzimuth | src/data.rs:113-116 | a compass azimuth in [0, 360) stays in [0, 360), turned by a quarter turn either way |
| Points.SnapAzimuth | src/data.rs:120-123 | the snapped azimuth is the floor or the floor plus one spacing; a spacing of at least 1 always advances it |
| Points.StartAngle | src/data.rs:113-125 | for a compass azimuth in [0, 360) the start angle lies in [0, 360 + spacing) degrees, in radians; it is the rotated azimuth's floor plus the spacing when the spacing is at least 1, and the floor alone when it is 0 |
| Points.GatePosition | src/data.rs:160-166 | x is the start angle's cosine times scaled range, z its sine, y the elevation's sine, with y and z swapped in the vector |
| Points.Included | src/data.rs:159 | a below-threshold gate, or one not above the threshold, is never included; a folded gate is included for every threshold below 998 |
| Points.EmittedSound | src/data.rs:158-169 | every emitted point is the point of some included gate |
| Points.EmittedComplete | src/data.rs:158-169 | every included gate's point is emitted |
| Points.EmittedCount | src/data.rs:158-169 | the number of points equals the number of included gates |
| Points.EmitGates | src/data.rs:158-173 | the emission loop, with range advancing one interval per gate, produces the specified points in gate order |
| Points.RadialPoints | src/data.rs:112-173 | one radial's points, or the error where the code panics (missing reflectivity, word size, gate index) |
| Points.RadialPointsExactly | src/data.rs:158-169 | a point belongs to a radial's output iff it is the point of an included gate (both directions) |
| Points.FoldedGateKept | src/data.rs:142-143 | a range-folded gate becomes a point of strength 998 for every threshold below 998 |
| Points.ThenUnit | src/data.rs:109 | starting from the empty point list adds nothing to what follows |
| Points.ThenAssoc | src/data.rs:111-112 | appending results sweep by sweep or radial by radial gives the same list and the same first error |
| Points.GetPoints | src/data.rs:108-178 | the nested loops produce the scan's points in scan, radial, gate order, or the first error |
| Points.RadialFresh | src/data.rs:165-168 | every point of a radial passed the inclusion test and has all colours black |
| Points.RadialsFresh | src/data.rs:112-173 | the same holds for a run of radials |
| Points.ScanFresh | src/data.rs:28-38 | every point of a scan was built by `ColoredPoint::new`, so all colours are black, and it passed the inclusion test |
| Points.ThreeGateScenario | src/data.rs:113-169 | raw gates `[0, 1, 5]` at azimuth 90 give two points, strengths 998 and 2.5, at 2000 m and 3000 m |
| Coloring.ColorFor | src/processing.rs:139-169 | the colour is black, white or a palette entry; black exactly below 5 and at 999; white exactly from 70 on, 999 excepted |
| Coloring.BinBounds | src/processing.rs:141-166 | a strength falls in band `k` exactly when it lies in `[5k, 5k + 5)` |
| Coloring.ColorMatchesTable | src/processing.rs:139-169 | the colour cascade equals a lookup of the strength's 5-unit band in the 13-entry palette |
| Coloring.ColorOfBin | src/processing.rs:141-166 | every strength in band `k` (1 to 13) gets palette entry `k` |
| Coloring.ColorOutsideBins | src/processing.rs:139-140 | below 5 or 999 gives black; 70 and above gives white; 998 (folded) gives white |
| Coloring.ColorPoints | src/processing.rs:137-171 | each point's raw colour becomes the colour of its strength; position, strength and other colours are unchanged |
| Sampling.StepBy | src/processing.rs:44-47 | the result holds element `i * k` at index `i`, and is exactly as long as needed to cover the input |
| Sampling.StrideExtend | src/processing.rs:44-47 | the first element followed by the stride of the rest after `k` is the stride of the whole |
| Sampling.StrideUnique | src/processing.rs:44-47 | at most one sequence is the stride-`k` selection of an input |
| Sampling.Sample | src/processing.rs:44-47 | a zero step fails; otherwise the result is the stride selection |
| Sampling.SampleTenByThree | src/processing.rs:44-47 | ten points with step 3 keep indices 0, 3, 6 and 9 |
| Clustering.GroupOf | src/processing.rs:116-124 | only a core point goes to a cluster, its own; edge and noise points go to the unclustered list |
| Clustering.MembersNonEmpty | src/processing.rs:117-123 | a cluster's bucket is non-empty iff some point is a core point of that cluster |
| Clustering.GatherStep | src/processing.rs:115-126 | one more point adds itself to the listed buckets only when it is a core point of a listed cluster |
| Clustering.UnclusteredStep | src/processing.rs:124 | one more point joins the unclustered list exactly when it is not a core point |
| Clustering.GroupsPartition | src/processing.rs:115-126 | the buckets and the unclustered list together hold every point exactly once |
| Clustering.FlattenBuckets | src/processing.rs:128-132 | the listed buckets, concatenated, are the gathered members of the listed clusters |
| Clustering.CollectBuckets | src/processing.rs:128-132 | every key of the map is listed exactly once, each with its own bucket |
| Clustering.FillBuckets | src/processing.rs:115-126 | after the loop, the unclustered list and each bucket hold exactly their points in order, and a bucket exists iff its cluster has a core point |
| Clustering.ListedBuckets | src/processing.rs:128-134 | listed buckets are non-empty, and with the unclustered list they partition the points |
| Clustering.GroupByCluster | src/processing.rs:104-135 | zipped points are grouped into non-empty buckets, one per cluster with a core point, plus the unclustered rest, as a partition |
| Pipeline.Recorded | src/processing.rs:29-41 | the recorded statistics carry the clock's four durations, with sampling and colouring left at zero |
| Pipeline.State.constructor | src/state.rs:3-7 | an idle state with no points and no statistics |
| Pipeline.Derive | src/processing.rs:39-47 | extraction errors are reported first, then a zero step; success iff extraction succeeds and the step is positive |
| Pipeline.Outcome | src/processing.rs:31-47 | a fetch error is the run's error; a run succeeds exactly when the fetch and the extraction succeed and the step is positive |
| Pipeline.ColouredStride | src/processing.rs:44-91 | thinning fresh points then colouring keeps every `k`-th point, coloured by its strength, over the threshold |
| Pipeline.PublishedPoints | src/processing.rs:39-94 | the published points are every `k`-th extracted point, each coloured by strength, over 0.5 and otherwise black |
| Pipeline.FetchAndProcess | src/processing.rs:18-101 | busy: refused, state unchanged; failure: error returned, flag left set, nothing published; success: points and statistics published, flag cleared |
| Pipeline.RetryAfterFailure | src/processing.rs:19-37 | after a failed fetch, a second run on the same state is refused as busy |
| Pipeline.RetryAfterSuccess | src/processing.rs:19-27 | after a successful run, a second run proceeds and publishes its own points when it succeeds |

## Left out

- Fetching is not modelled (`get_data`: listing, download, caching on disk,
  decompression, decoding). A run receives its outcome as an input: a decoded
  file or an upstream error. Choosing the file within it is modelled
  separately as `ScanSelect.NearestFile`.
- The clock is a parameter: `Instant` readings become the `Timings` input.
  Console output is left out.
- The `tokio` task and the mutex are left out. A run is one atomic method on
  the state. Lock poisoning and interleaving of concurrent runs are not
  modelled. A second run while one is in progress becomes `Err(Busy)` instead
  of a panic. In the program that panic fires while the lock taken at
  `src/processing.rs:20` is still held, which poisons the mutex: the run
  already in progress then panics at its own `lock().unwrap()`
  (`src/processing.rs:93`), never publishes, and leaves `processing` set. So
  "state unchanged" for a refused run holds for the three fields only, not
  for the lock or for the run it collided with.
- `f32` arithmetic is modelled as exact real arithmetic. Rounding,
  accumulated error in the range and azimuth sums, and NaN are not modelled.
- Cosine, sine and the render ratio are parameters. `RENDER_RATIO_TO_M` is
  not part of this model.
- The elevation key of an elevation scan is used as degrees, as the code
  does. How the decoder builds that key, and the order in which its
  `HashMap` yields the scans, are not part of this model: sweeps are a
  sequence in a fixed order.
- The clusterer itself (`dbscan::cluster` with radius 0.05 and five points)
  is not modelled. Its classifications are an input. The order in which
  clusters come out of the `HashMap` is chosen arbitrarily, not reproduced.
- The commented-out cluster recolouring in `fetch_and_process` is not
  modelled. `do_dbscan_clustering` is never called by the program.
- `ScanSelect.ParseHms`: does not accept the leap second `60` or the
  whitespace skipping of `%H%M%S` parsing. It reads each field as one or two
  digits, greedily, and rejects trailing characters.
- `Pipeline.State.constructor`: the program's construction site of `State` is
  not part of this model. An idle, empty state is assumed as the start.
- The widths of `u16`, `usize` and `u128` are not modelled. Gate values,
  counts and durations are unbounded naturals.
