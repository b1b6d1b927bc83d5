/** Deriving 3-D points from a decoded volume scan: each radial's raw gates are
    rescaled, gates above the inclusion threshold become points, and points are
    placed along the radial's snapped azimuth at their accumulated range. */
module Points {
  import opened Base

  /** Sentinel for a gate without a valid return. */
  const BelowThreshold: real := 999.0
  /** Sentinel for a range-folded gate. */
  const MomentFolded: real := 998.0
  /** The circle constant; trigonometry is opaque here, so its digits do not matter. */
  const Pi: real := 3.14159265358979

  datatype Vec3 = Vec3(x: real, y: real, z: real)

  datatype Rgb = Rgb(r: Byte, g: Byte, b: Byte)

  const Black: Rgb := Rgb(0, 0, 0)

  /** A rendered point: position, strength, and one colour per colour mode. */
  datatype ColoredPoint = ColoredPoint(pos: Vec3, strength: real, raw: Rgb, density: Rgb, hybrid: Rgb)

  /** `ColoredPoint::new`: every colour mode starts black. */
  function NewPoint(pos: Vec3, strength: real): (p: ColoredPoint)
    ensures p.pos == pos && p.strength == strength
    ensures p.raw == Black && p.density == Black && p.hybrid == Black
  {
    ColoredPoint(pos, strength, Black, Black, Black)
  }

  /** A radial's reflectivity moment: gate count, gate spacing in metres, data
      word size, scale and offset, and the raw gate bytes. */
  datatype Moment = Moment(gateCount: nat, interval: nat, wordSize: nat, scale: real, offset: real, data: seq<Byte>)

  /** One beam: its azimuth in degrees, its azimuth resolution code (used
      directly as the spacing), and its reflectivity moment, if any. */
  datatype Radial = Radial(azimuth: real, azimuthRes: nat, reflectivity: Option<Moment>)

  /** One elevation scan: the elevation key (used as degrees) and its radials. */
  datatype Sweep = Sweep(elevation: nat, radials: seq<Radial>)

  datatype DataFile = DataFile(sweeps: seq<Sweep>)

  /** Cosine and sine, supplied by the caller: the model does not interpret them. */
  datatype Trig = Trig(cos: real -> real, sin: real -> real)

  /** How metres become render units: the trigonometry and the render ratio. */
  datatype Projection = Projection(trig: Trig, ratio: real)

  /** What a radial contributes to the position of each of its gates. */
  datatype Beam = Beam(elevation: nat, startAngle: real, interval: nat)

  // ----- gate scaling -----

  /** The scaling rule: 0 and 1 are the sentinels, any other raw value is
      unscaled by `scale` and `offset`, or passed through when `scale` is 0. */
  function ScaleGate(raw: nat, scale: real, offset: real): (v: real)
    ensures raw == 0 ==> v == BelowThreshold
    ensures raw == 1 ==> v == MomentFolded
    ensures raw >= 2 && scale == 0.0 ==> v == raw as real
    ensures raw >= 2 && scale != 0.0 ==> v * scale + offset == raw as real
  {
    if raw == 0 then BelowThreshold
    else if raw == 1 then MomentFolded
    else if scale == 0.0 then raw as real
    else (raw as real - offset) / scale
  }

  function Widen(data: seq<Byte>): (w: seq<nat>)
    ensures |w| == |data| && forall i :: 0 <= i < |data| ==> w[i] == data[i]
  {
    seq(|data|, i requires 0 <= i < |data| => data[i] as nat)
  }

  /** The raw gate buffer: `gateCount` entries, the moment bytes laid over zeros. */
  function RawGates(m: Moment): (g: seq<nat>)
    requires |m.data| <= m.gateCount
    ensures |g| == m.gateCount
    ensures forall i :: 0 <= i < |m.data| ==> g[i] == m.data[i]
    ensures forall i :: |m.data| <= i < m.gateCount ==> g[i] == 0
  {
    Widen(m.data) + seq(m.gateCount - |m.data|, _ => 0)
  }

  /** The scaled gates of a moment. Gates the data does not reach stay raw 0 and
      so read as below threshold. */
  function ScaledGates(m: Moment): (v: seq<real>)
    requires |m.data| <= m.gateCount
    ensures |v| == m.gateCount
    ensures forall i :: 0 <= i < |m.data| ==> v[i] == ScaleGate(m.data[i], m.scale, m.offset)
    ensures forall i :: |m.data| <= i < m.gateCount ==> v[i] == BelowThreshold
  {
    var raw := RawGates(m);
    seq(m.gateCount, i requires 0 <= i < m.gateCount => ScaleGate(raw[i], m.scale, m.offset))
  }

  /** Fills the raw gate buffer: a zeroed array of `gateCount` entries that the
      moment bytes overwrite index by index. A word size other than 8, or more
      bytes than gates, stops the run. */
  method FillRawGates(m: Moment) returns (r: Result<seq<nat>>)
    ensures m.wordSize != 8 ==> r == Err(UnsupportedWordSize(m.wordSize))
    ensures m.wordSize == 8 && |m.data| > m.gateCount ==> r == Err(GateIndexOutOfRange(m.gateCount))
    ensures m.wordSize == 8 && |m.data| <= m.gateCount ==> r == Ok(RawGates(m))
  {
    var gates := new nat[m.gateCount](_ => 0);
    if m.wordSize != 8 {
      return Err(UnsupportedWordSize(m.wordSize));
    }
    for i := 0 to |m.data|
      invariant i <= gates.Length
      invariant forall k :: 0 <= k < i ==> gates[k] == m.data[k]
      invariant forall k :: i <= k < gates.Length ==> gates[k] == 0
    {
      if i >= gates.Length {
        return Err(GateIndexOutOfRange(i));
      }
      gates[i] := m.data[i];
    }
    assert gates[..] == RawGates(m);
    return Ok(gates[..]);
  }

  /** Rescales every raw gate, one output per input, in order. */
  method ScaleGates(raw: seq<nat>, scale: real, offset: real) returns (scaled: seq<real>)
    ensures |scaled| == |raw|
    ensures forall i :: 0 <= i < |raw| ==> scaled[i] == ScaleGate(raw[i], scale, offset)
  {
    scaled := [];
    for i := 0 to |raw|
      invariant |scaled| == i
      invariant forall k :: 0 <= k < i ==> scaled[k] == ScaleGate(raw[k], scale, offset)
    {
      if raw[i] == 0 {
        scaled := scaled + [BelowThreshold];
      } else if raw[i] == 1 {
        scaled := scaled + [MomentFolded];
      } else {
        var v := if scale == 0.0 then raw[i] as real else (raw[i] as real - offset) / scale;
        scaled := scaled + [v];
      }
    }
  }

  // ----- geometry -----

  /** Turns a compass azimuth so that 0 points along the x axis: minus 90
      degrees, plus 360 once if that went negative. */
  function RotateAzimuth(azm: real): (a: real)
    ensures 0.0 <= azm < 360.0 ==> 0.0 <= a < 360.0
    ensures a == azm - 90.0 || a == azm + 270.0
  {
    var a := azm - 90.0;
    if a < 0.0 then 360.0 + a else a
  }

  /** Snaps an azimuth to whole degrees: its floor, advanced by one spacing when
      `floor(angle + spacing)` exceeds that floor. Any spacing of at least one
      degree always advances it; a zero spacing never does. */
  function SnapAzimuth(angle: real, spacing: real): (s: real)
    ensures s == angle.Floor as real || s == angle.Floor as real + spacing
    ensures spacing >= 1.0 ==> s == angle.Floor as real + spacing
    ensures spacing <= 0.0 ==> s == angle.Floor as real
  {
    if (angle + spacing).Floor > angle.Floor then angle.Floor as real + spacing else angle.Floor as real
  }

  /** The angle, in radians, at which all the radial's points are placed. */
  function StartAngle(radial: Radial): (a: real)
    ensures 0.0 <= radial.azimuth < 360.0 ==>
      0.0 <= a < (360.0 + radial.azimuthRes as real) * (Pi / 180.0)
    ensures radial.azimuthRes >= 1 ==>
      a == (RotateAzimuth(radial.azimuth).Floor as real + radial.azimuthRes as real) * (Pi / 180.0)
    ensures radial.azimuthRes == 0 ==> a == RotateAzimuth(radial.azimuth).Floor as real * (Pi / 180.0)
  {
    SnapAzimuth(RotateAzimuth(radial.azimuth), radial.azimuthRes as real) * (Pi / 180.0)
  }

  /** The range of gate `i` (0-based): one interval per gate, starting at one interval. */
  function GateDistance(beam: Beam, i: nat): real {
    (i + 1) as real * beam.interval as real
  }

  /** Where a point `distance` metres along the beam is drawn. The horizontal
      plane is laid out as the first and last axes, height as the middle one. */
  function GatePosition(beam: Beam, distance: real, proj: Projection): (p: Vec3)
    ensures p.y == proj.trig.sin(beam.elevation as real * (Pi / 180.0)) * (distance * proj.ratio)
    ensures p.x == proj.trig.cos(beam.startAngle) * (distance * proj.ratio)
    ensures p.z == proj.trig.sin(beam.startAngle) * (distance * proj.ratio)
  {
    var scaledDistance := distance * proj.ratio;
    var x := proj.trig.cos(beam.startAngle) * scaledDistance;
    var y := proj.trig.sin(beam.startAngle) * scaledDistance;
    var z := proj.trig.sin(beam.elevation as real * (Pi / 180.0)) * scaledDistance;
    Vec3(x, z, y)
  }

  /** A gate becomes a point when it is not below threshold and exceeds the
      inclusion threshold; folded gates are kept. */
  predicate Included(v: real, threshold: real): (b: bool)
    ensures v == BelowThreshold || v <= threshold ==> !b
    ensures v == MomentFolded && threshold < MomentFolded ==> b
    ensures threshold >= BelowThreshold ==> (b <==> v > threshold)
  {
    v != BelowThreshold && v > threshold
  }

  /** The point gate `i` produces. */
  function GatePoint(scaled: seq<real>, i: nat, beam: Beam, proj: Projection): ColoredPoint
    requires i < |scaled|
  {
    NewPoint(GatePosition(beam, GateDistance(beam, i), proj), scaled[i])
  }

  /** The points the first `n` gates produce, in gate order. */
  function Emitted(scaled: seq<real>, n: nat, threshold: real, beam: Beam, proj: Projection): seq<ColoredPoint>
    requires n <= |scaled|
  {
    if n == 0 then []
    else
      Emitted(scaled, n - 1, threshold, beam, proj) +
      (if Included(scaled[n - 1], threshold) then [GatePoint(scaled, n - 1, beam, proj)] else [])
  }

  /** Every emitted point comes from an included gate and sits where that gate is. */
  lemma {:induction false} EmittedSound(scaled: seq<real>, n: nat, threshold: real, beam: Beam, proj: Projection)
    requires n <= |scaled|
    ensures forall p :: p in Emitted(scaled, n, threshold, beam, proj) ==>
      exists i :: 0 <= i < n && Included(scaled[i], threshold) && p == GatePoint(scaled, i, beam, proj)
  {
    if n > 0 {
      EmittedSound(scaled, n - 1, threshold, beam, proj);
    }
  }

  /** Every included gate's point is emitted. */
  lemma {:induction false} EmittedComplete(scaled: seq<real>, n: nat, threshold: real, beam: Beam, proj: Projection)
    requires n <= |scaled|
    ensures forall i :: 0 <= i < n && Included(scaled[i], threshold) ==>
      GatePoint(scaled, i, beam, proj) in Emitted(scaled, n, threshold, beam, proj)
  {
    if n > 0 {
      EmittedComplete(scaled, n - 1, threshold, beam, proj);
    }
  }

  /** The number of emitted points is the number of included gates. */
  function IncludedCount(scaled: seq<real>, n: nat, threshold: real): nat
    requires n <= |scaled|
  {
    if n == 0 then 0
    else IncludedCount(scaled, n - 1, threshold) + (if Included(scaled[n - 1], threshold) then 1 else 0)
  }

  lemma {:induction false} EmittedCount(scaled: seq<real>, n: nat, threshold: real, beam: Beam, proj: Projection)
    requires n <= |scaled|
    ensures |Emitted(scaled, n, threshold, beam, proj)| == IncludedCount(scaled, n, threshold)
  {
    if n > 0 {
      EmittedCount(scaled, n - 1, threshold, beam, proj);
    }
  }

  // ----- one radial -----

  /** The beam a radial's points lie on. */
  function BeamOf(elevation: nat, radial: Radial, m: Moment): Beam {
    Beam(elevation, StartAngle(radial), m.interval)
  }

  /** What one radial contributes: its points, or the condition that stops the run. */
  function RadialSpec(elevation: nat, radial: Radial, threshold: real, proj: Projection): Result<seq<ColoredPoint>>
  {
    match radial.reflectivity
    case None => Err(MissingReflectivity)
    case Some(m) =>
      if m.wordSize != 8 then Err(UnsupportedWordSize(m.wordSize))
      else if |m.data| > m.gateCount then Err(GateIndexOutOfRange(m.gateCount))
      else
        var scaled := ScaledGates(m);
        Ok(Emitted(scaled, |scaled|, threshold, BeamOf(elevation, radial, m), proj))
  }

  /** The emission pass over one radial's scaled gates: range starts at one
      interval and grows by one interval per gate, emitted or not; included
      gates become points at the current range on the beam. */
  method EmitGates(scaled: seq<real>, threshold: real, beam: Beam, azimuth: real, spacing: real, proj: Projection)
    returns (points: seq<ColoredPoint>)
    ensures points == Emitted(scaled, |scaled|, threshold, beam, proj)
  {
    var distance := beam.interval as real;
    // the program also steps the azimuth once per gate; no position reads it
    var gateAzimuth := azimuth;
    points := [];
    for i := 0 to |scaled|
      invariant distance == GateDistance(beam, i)
      invariant points == Emitted(scaled, i, threshold, beam, proj)
    {
      if scaled[i] != BelowThreshold && scaled[i] > threshold {
        var scaledDistance := distance * proj.ratio;
        var x := proj.trig.cos(beam.startAngle) * scaledDistance;
        var y := proj.trig.sin(beam.startAngle) * scaledDistance;
        var z := proj.trig.sin(beam.elevation as real * (Pi / 180.0)) * scaledDistance;
        assert NewPoint(Vec3(x, z, y), scaled[i]) == GatePoint(scaled, i, beam, proj);
        points := points + [NewPoint(Vec3(x, z, y), scaled[i])];
      }
      assert GateDistance(beam, i + 1) == GateDistance(beam, i) + beam.interval as real;
      distance := distance + beam.interval as real;
      gateAzimuth := gateAzimuth + spacing;
    }
  }

  /** The per-radial body of `get_points`: azimuth rotation and snapping, the
      raw gate buffer, gate scaling, then one pass over the gates that
      accumulates range and emits the included ones. */
  method RadialPoints(elevation: nat, radial: Radial, threshold: real, proj: Projection) returns (r: Result<seq<ColoredPoint>>)
    ensures r == RadialSpec(elevation, radial, threshold, proj)
  {
    var azimuthAngle := radial.azimuth - 90.0;
    if azimuthAngle < 0.0 {
      azimuthAngle := 360.0 + azimuthAngle;
    }
    var spacing := radial.azimuthRes as real;
    var azimuth := azimuthAngle.Floor as real;
    if (azimuthAngle + spacing).Floor as real > azimuth {
      azimuth := azimuth + spacing;
    }
    var startAngle := azimuth * (Pi / 180.0);

    if radial.reflectivity.None? {
      return Err(MissingReflectivity);
    }
    var m := radial.reflectivity.value;
    var raw := FillRawGates(m);
    if raw.Err? {
      return Err(raw.error);
    }
    var scaled := ScaleGates(raw.value, m.scale, m.offset);
    assert scaled == ScaledGates(m);

    var beam := Beam(elevation, startAngle, m.interval);
    assert beam == BeamOf(elevation, radial, m);
    var points := EmitGates(scaled, threshold, beam, azimuth, spacing, proj);
    return Ok(points);
  }

  /** The points of one radial are exactly the points of its included gates
      (gate `i` lies `(i+1) * interval` out), all on the radial's own beam. */
  lemma RadialPointsExactly(elevation: nat, radial: Radial, threshold: real, proj: Projection)
    requires RadialSpec(elevation, radial, threshold, proj).Ok?
    ensures var m := radial.reflectivity.value;
      var scaled := ScaledGates(m);
      forall p :: p in RadialSpec(elevation, radial, threshold, proj).value <==>
        exists i :: 0 <= i < |scaled| && Included(scaled[i], threshold) &&
          p == GatePoint(scaled, i, BeamOf(elevation, radial, m), proj)
  {
    var m := radial.reflectivity.value;
    var scaled := ScaledGates(m);
    var beam := BeamOf(elevation, radial, m);
    assert RadialSpec(elevation, radial, threshold, proj).value == Emitted(scaled, |scaled|, threshold, beam, proj);
    EmittedSound(scaled, |scaled|, threshold, beam, proj);
    EmittedComplete(scaled, |scaled|, threshold, beam, proj);
  }

  /** A folded gate (raw 1) becomes a point, of strength 998, for every
      threshold below 998. */
  lemma FoldedGateKept(elevation: nat, radial: Radial, threshold: real, proj: Projection, i: nat)
    requires radial.reflectivity.Some?
    requires var m := radial.reflectivity.value;
      m.wordSize == 8 && |m.data| <= m.gateCount && i < |m.data| && m.data[i] == 1
    requires threshold < MomentFolded
    ensures var m := radial.reflectivity.value;
      RadialSpec(elevation, radial, threshold, proj).Ok? &&
      GatePoint(ScaledGates(m), i, BeamOf(elevation, radial, m), proj) in RadialSpec(elevation, radial, threshold, proj).value &&
      GatePoint(ScaledGates(m), i, BeamOf(elevation, radial, m), proj).strength == MomentFolded
  {
    var m := radial.reflectivity.value;
    var scaled := ScaledGates(m);
    var beam := BeamOf(elevation, radial, m);
    assert RadialSpec(elevation, radial, threshold, proj).value == Emitted(scaled, |scaled|, threshold, beam, proj);
    assert scaled[i] == MomentFolded;
    EmittedComplete(scaled, |scaled|, threshold, beam, proj);
  }

  // ----- the whole scan -----

  /** Sequencing of two partial results: the first failure wins, otherwise the
      points are concatenated. */
  function Then(a: Result<seq<ColoredPoint>>, b: Result<seq<ColoredPoint>>): Result<seq<ColoredPoint>>
  {
    match a
    case Err(e) => Err(e)
    case Ok(x) =>
      match b
      case Err(e) => Err(e)
      case Ok(y) => Ok(x + y)
  }

  lemma ThenUnit(b: Result<seq<ColoredPoint>>)
    ensures Then(Ok([]), b) == b
  {
    if b.Ok? {
      assert [] + b.value == b.value;
    }
  }

  lemma ThenAssoc(a: Result<seq<ColoredPoint>>, b: Result<seq<ColoredPoint>>, c: Result<seq<ColoredPoint>>)
    ensures Then(Then(a, b), c) == Then(a, Then(b, c))
  {
    if a.Ok? && b.Ok? && c.Ok? {
      assert (a.value + b.value) + c.value == a.value + (b.value + c.value);
    }
  }

  /** The points of a run of radials, in order. */
  function RadialsPoints(elevation: nat, radials: seq<Radial>, threshold: real, proj: Projection): Result<seq<ColoredPoint>>
  {
    if radials == [] then Ok([])
    else Then(RadialSpec(elevation, radials[0], threshold, proj), RadialsPoints(elevation, radials[1..], threshold, proj))
  }

  /** The points of a run of elevation scans, in order. */
  function ScanPoints(sweeps: seq<Sweep>, threshold: real, proj: Projection): Result<seq<ColoredPoint>>
  {
    if sweeps == [] then Ok([])
    else Then(RadialsPoints(sweeps[0].elevation, sweeps[0].radials, threshold, proj), ScanPoints(sweeps[1..], threshold, proj))
  }

  /** `get_points`: every elevation scan, every radial, every included gate,
      in that order; the first radial that cannot be read stops the run. */
  method GetPoints(data: DataFile, threshold: real, proj: Projection) returns (r: Result<seq<ColoredPoint>>)
    ensures r == ScanPoints(data.sweeps, threshold, proj)
  {
    var sweeps := data.sweeps;
    var points := [];
    assert sweeps[0..] == sweeps;
    ThenUnit(ScanPoints(sweeps, threshold, proj));
    for e := 0 to |sweeps|
      invariant ScanPoints(sweeps, threshold, proj) == Then(Ok(points), ScanPoints(sweeps[e..], threshold, proj))
    {
      var sweep := sweeps[e];
      assert sweeps[e..][1..] == sweeps[e + 1..];
      ThenAssoc(Ok(points), RadialsPoints(sweep.elevation, sweep.radials, threshold, proj), ScanPoints(sweeps[e + 1..], threshold, proj));
      assert sweep.radials[0..] == sweep.radials;
      for j := 0 to |sweep.radials|
        invariant ScanPoints(sweeps, threshold, proj) ==
          Then(Ok(points), Then(RadialsPoints(sweep.elevation, sweep.radials[j..], threshold, proj), ScanPoints(sweeps[e + 1..], threshold, proj)))
      {
        var rest := ScanPoints(sweeps[e + 1..], threshold, proj);
        var later := RadialsPoints(sweep.elevation, sweep.radials[j + 1..], threshold, proj);
        assert sweep.radials[j..][1..] == sweep.radials[j + 1..];
        var q := RadialPoints(sweep.elevation, sweep.radials[j], threshold, proj);
        if q.Err? {
          return Err(q.error);
        }
        ThenAssoc(q, later, rest);
        ThenAssoc(Ok(points), q, Then(later, rest));
        points := points + q.value;
      }
      assert sweep.radials[|sweep.radials|..] == [];
      ThenUnit(ScanPoints(sweeps[e + 1..], threshold, proj));
    }
    assert sweeps[|sweeps|..] == [];
    assert points + [] == points;
    return Ok(points);
  }

  /** A freshly derived point: included by the threshold, every colour black. */
  predicate Fresh(p: ColoredPoint, threshold: real) {
    Included(p.strength, threshold) && p.raw == Black && p.density == Black && p.hybrid == Black
  }

  lemma RadialFresh(elevation: nat, radial: Radial, threshold: real, proj: Projection)
    ensures RadialSpec(elevation, radial, threshold, proj).Ok? ==>
      forall p :: p in RadialSpec(elevation, radial, threshold, proj).value ==> Fresh(p, threshold)
  {
    if RadialSpec(elevation, radial, threshold, proj).Ok? {
      var m := radial.reflectivity.value;
      var scaled := ScaledGates(m);
      EmittedSound(scaled, |scaled|, threshold, BeamOf(elevation, radial, m), proj);
    }
  }

  lemma {:induction false} RadialsFresh(elevation: nat, radials: seq<Radial>, threshold: real, proj: Projection)
    ensures RadialsPoints(elevation, radials, threshold, proj).Ok? ==>
      forall p :: p in RadialsPoints(elevation, radials, threshold, proj).value ==> Fresh(p, threshold)
  {
    if radials != [] {
      RadialFresh(elevation, radials[0], threshold, proj);
      RadialsFresh(elevation, radials[1..], threshold, proj);
    }
  }

  /** Every point of a scan passed the inclusion test (so is neither below
      threshold nor at or under the threshold) and is still uncoloured. */
  lemma {:induction false} ScanFresh(sweeps: seq<Sweep>, threshold: real, proj: Projection)
    ensures ScanPoints(sweeps, threshold, proj).Ok? ==>
      forall p :: p in ScanPoints(sweeps, threshold, proj).value ==> Fresh(p, threshold)
  {
    if sweeps != [] {
      RadialsFresh(sweeps[0].elevation, sweeps[0].radials, threshold, proj);
      ScanFresh(sweeps[1..], threshold, proj);
    }
  }

  /** One radial at azimuth 90 with spacing 1 and three gates of 1000 m holding
      raw [0, 1, 5] (scale 2, offset 0), threshold 0: the below-threshold gate
      is dropped, the folded gate and the 2.5 gate become points at 2000 m and
      3000 m, and the snapped azimuth is one degree, not zero. */
  lemma ThreeGateScenario(proj: Projection)
    ensures var radial := Radial(90.0, 1, Some(Moment(3, 1000, 8, 2.0, 0.0, [0, 1, 5])));
      var beam := Beam(0, 1.0 * (Pi / 180.0), 1000);
      ScanPoints([Sweep(0, [radial])], 0.0, proj) ==
        Ok([NewPoint(GatePosition(beam, 2000.0, proj), MomentFolded), NewPoint(GatePosition(beam, 3000.0, proj), 2.5)])
  {
    var m := Moment(3, 1000, 8, 2.0, 0.0, [0, 1, 5]);
    var radial := Radial(90.0, 1, Some(m));
    var scaled := ScaledGates(m);
    assert scaled == [BelowThreshold, MomentFolded, 2.5];
    assert RotateAzimuth(90.0) == 0.0;
    assert SnapAzimuth(0.0, 1.0) == 1.0;
    var beam := Beam(0, 1.0 * (Pi / 180.0), 1000);
    assert BeamOf(0, radial, m) == beam;
    var p1 := NewPoint(GatePosition(beam, 2000.0, proj), MomentFolded);
    var p2 := NewPoint(GatePosition(beam, 3000.0, proj), 2.5);
    assert Emitted(scaled, 1, 0.0, beam, proj) == [];
    assert GatePoint(scaled, 1, beam, proj) == p1;
    assert GatePoint(scaled, 2, beam, proj) == p2;
    assert Emitted(scaled, 2, 0.0, beam, proj) == [p1];
    assert Emitted(scaled, 3, 0.0, beam, proj) == [p1, p2];
    assert RadialSpec(0, radial, 0.0, proj) == Ok([p1, p2]);
    assert [radial][1..] == [];
    assert RadialsPoints(0, [radial], 0.0, proj) == Ok([p1, p2] + []);
    assert [Sweep(0, [radial])][1..] == [];
    assert [p1, p2] + [] + [] == [p1, p2];
    assert ScanPoints([Sweep(0, [radial])], 0.0, proj) == Ok([p1, p2]);
  }
}
