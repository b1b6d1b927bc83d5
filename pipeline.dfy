/** `fetch_and_process`: one run that turns a decoded scan into the thinned,
    coloured point cloud the renderer draws, and the shared state the run
    publishes it to. */
module Pipeline {
  import opened Base
  import opened Points
  import opened Coloring
  import opened Sampling

  /** How long each stage of a run took, in milliseconds (`ProcessingStatistics`). */
  datatype Statistics = Statistics(
    loadMs: nat, decompressMs: nat, decodeMs: nat, pointingMs: nat, samplingMs: nat, coloringMs: nat)

  /** The durations the clock reports for the stages a run times. */
  datatype Timings = Timings(loadMs: nat, decompressMs: nat, decodeMs: nat, pointingMs: nat)

  /** The reflectivity threshold a run hands to point extraction. */
  const PointThreshold: real := 0.5

  /** The statistics a successful run records: sampling and colouring are
      never timed, so they keep their default of zero. */
  function Recorded(clock: Timings): (s: Statistics)
    ensures s.samplingMs == 0 && s.coloringMs == 0
    ensures s.loadMs == clock.loadMs && s.decompressMs == clock.decompressMs
    ensures s.decodeMs == clock.decodeMs && s.pointingMs == clock.pointingMs
  {
    Statistics(clock.loadMs, clock.decompressMs, clock.decodeMs, clock.pointingMs, 0, 0)
  }

  /** The state shared between a run and the renderer. */
  class State {
    var processing: bool
    var points: Option<seq<ColoredPoint>>
    var statistics: Option<Statistics>

    /** An idle state with nothing published yet. */
    constructor()
      ensures !processing && points == None && statistics == None
    {
      processing := false;
      points := None;
      statistics := None;
    }
  }

  /** Colouring every element of a sequence of points. */
  function RecolorAll(points: seq<ColoredPoint>): (r: seq<ColoredPoint>)
    ensures |r| == |points|
    ensures forall i :: 0 <= i < |r| ==> r[i] == Recolor(points[i])
  {
    seq(|points|, i requires 0 <= i < |points| => Recolor(points[i]))
  }

  /** What a run derives from a decoded file: the points over the threshold,
      every `stride`-th of them, each coloured by its strength. Extraction
      runs first, so its failure is the one reported; a zero stride fails
      only after extraction succeeded. */
  function Derive(data: DataFile, stride: nat, proj: Projection): (r: Result<seq<ColoredPoint>>)
    ensures var scan := ScanPoints(data.sweeps, PointThreshold, proj);
      && (scan.Err? ==> r == Err(scan.error))
      && (scan.Ok? && stride == 0 ==> r == Err(ZeroStride))
      && (r.Ok? <==> scan.Ok? && stride >= 1)
  {
    match ScanPoints(data.sweeps, PointThreshold, proj)
    case Err(e) => Err(e)
    case Ok(points) =>
      match Sample(points, stride)
      case Err(e) => Err(e)
      case Ok(sampled) => Ok(RecolorAll(sampled))
  }

  /** The outcome of a run that got past the busy check, given what fetching
      the file produced. */
  function Outcome(fetched: Result<DataFile>, stride: nat, proj: Projection): (r: Result<seq<ColoredPoint>>)
    ensures fetched.Err? ==> r == Err(fetched.error)
    ensures r.Ok? <==> fetched.Ok? && ScanPoints(fetched.value.sweeps, PointThreshold, proj).Ok? && stride >= 1
  {
    if fetched.Err? then Err(fetched.error) else Derive(fetched.value, stride, proj)
  }

  /** Thinning fresh points and colouring what is left: every kept point is
      the `stride`-th successor of the previous one, coloured by its strength,
      over the threshold and otherwise black. */
  lemma ColouredStride(points: seq<ColoredPoint>, stride: nat)
    requires stride >= 1
    requires forall p :: p in points ==> Fresh(p, PointThreshold)
    ensures var out := RecolorAll(StepBy(points, stride));
      && |out| * stride >= |points|
      && (|out| == 0 || (|out| - 1) * stride < |points|)
      && (forall i :: 0 <= i < |out| ==> KeptIndex(i, stride) < |points| && out[i] == Recolor(points[KeptIndex(i, stride)]))
      && (forall p :: p in out ==>
            p.raw == ColorFor(p.strength) && Included(p.strength, PointThreshold) &&
            p.density == Black && p.hybrid == Black)
  {
    var sampled := StepBy(points, stride);
    var out := RecolorAll(sampled);
    forall p | p in out
      ensures p.raw == ColorFor(p.strength) && Included(p.strength, PointThreshold)
      ensures p.density == Black && p.hybrid == Black
    {
      var i :| 0 <= i < |out| && out[i] == p;
      assert sampled[i] in points;
    }
  }

  /** When extraction succeeds and the stride is positive, the published
      points are every `stride`-th extracted point starting with the first,
      each recoloured by its strength, over the threshold and otherwise black. */
  lemma PublishedPoints(data: DataFile, stride: nat, proj: Projection)
    ensures var scan := ScanPoints(data.sweeps, PointThreshold, proj);
      scan.Ok? && stride >= 1 ==>
        var out := Derive(data, stride, proj).value;
        && |out| * stride >= |scan.value|
        && (|out| == 0 || (|out| - 1) * stride < |scan.value|)
        && (forall i :: 0 <= i < |out| ==>
              KeptIndex(i, stride) < |scan.value| && out[i] == Recolor(scan.value[KeptIndex(i, stride)]))
        && (forall p :: p in out ==>
              p.raw == ColorFor(p.strength) && Included(p.strength, PointThreshold) &&
              p.density == Black && p.hybrid == Black)
  {
    var scan := ScanPoints(data.sweeps, PointThreshold, proj);
    if scan.Ok? && stride >= 1 {
      ScanFresh(data.sweeps, PointThreshold, proj);
      ColouredStride(scan.value, stride);
      assert Derive(data, stride, proj).value == RecolorAll(StepBy(scan.value, stride));
    }
  }

  /** `fetch_and_process`. A run that finds another in progress stops at once
      and leaves the state alone. Otherwise it marks the state as processing,
      then fetches, extracts, samples and colours; only a run that gets through
      all of that publishes its points and statistics and clears the flag. A
      run that stops after the flag was set leaves it set, so every later run
      is refused. */
  method FetchAndProcess(state: State, stride: nat, fetched: Result<DataFile>, clock: Timings, proj: Projection)
    returns (r: Result<()>)
    modifies state
    ensures old(state.processing) ==> r == Err(Busy) && unchanged(state)
    ensures !old(state.processing) ==>
      var o := Outcome(fetched, stride, proj);
      && (o.Err? ==>
            && r == Err(o.error) && state.processing
            && state.points == old(state.points) && state.statistics == old(state.statistics))
      && (o.Ok? ==>
            && r == Ok(()) && !state.processing
            && state.points == Some(o.value) && state.statistics == Some(Recorded(clock)))
  {
    if state.processing {
      return Err(Busy);
    }
    state.processing := true;

    if fetched.Err? {
      return Err(fetched.error);
    }
    var points := GetPoints(fetched.value, PointThreshold, proj);
    if points.Err? {
      return Err(points.error);
    }
    var sampled := Sample(points.value, stride);
    if sampled.Err? {
      return Err(sampled.error);
    }

    var kept := sampled.value;
    var buffer := new ColoredPoint[|kept|](i requires 0 <= i < |kept| => kept[i]);
    ColorPoints(buffer);
    assert buffer[..] == RecolorAll(kept);

    state.points := Some(buffer[..]);
    state.processing := false;
    state.statistics := Some(Recorded(clock));
    return Ok(());
  }

  /** A failed fetch leaves the flag set: the next run on the same state is
      refused even with a good file. */
  method RetryAfterFailure(reason: string, data: DataFile, stride: nat, clock: Timings, proj: Projection)
    returns (first: Result<()>, second: Result<()>)
    ensures first == Err(Upstream(reason))
    ensures second == Err(Busy)
  {
    var state := new State();
    first := FetchAndProcess(state, stride, Err(Upstream(reason)), clock, proj);
    second := FetchAndProcess(state, stride, Ok(data), clock, proj);
  }

  /** After a successful run the state is idle again: a second run proceeds
      and publishes what it derived. */
  method RetryAfterSuccess(data1: DataFile, data2: DataFile, stride: nat, clock: Timings, proj: Projection)
    returns (first: Result<()>, second: Result<()>, published: Option<seq<ColoredPoint>>)
    requires Derive(data1, stride, proj).Ok?
    ensures first == Ok(())
    ensures second.Ok? <==> Derive(data2, stride, proj).Ok?
    ensures second.Ok? ==> published == Some(Derive(data2, stride, proj).value)
    ensures second.Err? ==> published == Some(Derive(data1, stride, proj).value)
  {
    var state := new State();
    first := FetchAndProcess(state, stride, Ok(data1), clock, proj);
    second := FetchAndProcess(state, stride, Ok(data2), clock, proj);
    published := state.points;
  }
}
