/**
 * The single-ensemble QA/QC session for a TRDI ADCP.
 *
 * A session binds one decoded ensemble and a transducer depth.  On
 * construction it reads the velocity columns and scans the echo intensity
 * for the bottom, from which it derives the cut-offs `lastGoodBin` and
 * `lastGoodCounter`.  Its accessors cut the per-bin data at one of these
 * cut-offs, exactly as Python's `xs[:k]` does, and hand the rest to the
 * tests of module QartodTests.
 */
module Trdi {
  import opened QartodTests

  datatype Option<T> = None | Some(value: T)

  /** One decoded ensemble, as the binary reader supplies it. */
  datatype Ensemble = Ensemble(
    velocity: seq<seq<real>>,      // per bin: u, v, w and error velocity
    correlation: seq<seq<int>>,    // per bin: one correlation magnitude per beam
    echoIntensity: seq<seq<int>>,  // per bin: one echo intensity per beam
    percentGood: seq<seq<int>>,    // per bin: the four percent-good counters
    bin1Distance: int,             // fixed leader: distance to the first bin
    depthCellLength: int,          // fixed leader: depth-cell length
    bitResult: string,             // variable leader: built-in-test result
    pitch: int,                    // variable leader: hundredths of a degree
    roll: int,                     // variable leader: hundredths of a degree
    speedOfSound: int,             // variable leader
    depthOfTransducer: int)        // variable leader

  /** Every row of `rows` has at least `n` columns. */
  predicate RowsWide<T>(rows: seq<seq<T>>, n: nat)
  {
    forall i :: 0 <= i < |rows| ==> |rows[i]| >= n
  }

  /** Every velocity row has the columns u, v and w that the session reads on construction. */
  predicate WellFormed(e: Ensemble)
  {
    RowsWide(e.velocity, 3)
  }

  /** The tolerance of the bottom scan, in echo-intensity counts. */
  const DefaultBottomTolerance: int := 30

  // ---------------------------------------------------------------------
  // Python's slicing and column extraction

  /**
   * `xs[:k]`: the first `k` elements when `k >= 0` (all of them when there
   * are fewer); for a negative `k`, everything except the last `-k`
   * elements (nothing when there are not that many).
   */
  function PrefixSlice<T>(xs: seq<T>, k: int): (r: seq<T>)
    ensures |r| == if k >= 0 then Min(k, |xs|) else Max(0, |xs| + k)
    ensures r == xs[..|r|]
  {
    if k >= 0 then (if k <= |xs| then xs[..k] else xs)
    else (if -k <= |xs| then xs[..|xs| + k] else [])
  }

  /**
   * A window with a non-negative cut-off holds no element at or past the
   * cut-off; a negative cut-off does not empty the window but only drops
   * elements from its end.
   */
  lemma PrefixSliceCutoff<T>(xs: seq<T>, k: int)
    ensures k >= 0 ==> |PrefixSlice(xs, k)| <= k
    ensures k < 0 && -k < |xs| ==> 0 < |PrefixSlice(xs, k)| == |xs| + k
    ensures forall i :: 0 <= i < |PrefixSlice(xs, k)| ==> PrefixSlice(xs, k)[i] == xs[i]
  {
  }

  /** `imap(itemgetter(c), rows)`: column `c` of every row. */
  function Column<T>(rows: seq<seq<T>>, c: nat): (col: seq<T>)
    requires forall i :: 0 <= i < |rows| ==> c < |rows[i]|
    ensures |col| == |rows| && forall i :: 0 <= i < |rows| ==> col[i] == rows[i][c]
  {
    seq(|rows|, i requires 0 <= i < |rows| => rows[i][c])
  }

  // ---------------------------------------------------------------------
  // Bottom scan

  /** Per beam of two adjacent bins (up to the shorter bin): does the echo jump by more than `tolerance`? */
  function Jumps(prev: seq<int>, curr: seq<int>, tolerance: int): (bs: seq<bool>)
    ensures |bs| == Min(|prev|, |curr|)
    ensures forall j :: 0 <= j < |bs| ==> bs[j] == (IntAbs(curr[j] - prev[j]) > tolerance)
  {
    seq(Min(|prev|, |curr|), j requires 0 <= j < Min(|prev|, |curr|) => IntAbs(curr[j] - prev[j]) > tolerance)
  }

  /** A bottom (or strong reflector) lies between two bins when two or more beams jump. */
  predicate IsJump(prev: seq<int>, curr: seq<int>, tolerance: int)
  {
    CountTrue(Jumps(prev, curr, tolerance)) >= 2
  }

  /** Two or more beams jumping means two different beams jump. */
  lemma IsJumpIff(prev: seq<int>, curr: seq<int>, tolerance: int)
    ensures IsJump(prev, curr, tolerance)
        <==> exists j, k :: 0 <= j < k < Min(|prev|, |curr|) &&
               IntAbs(curr[j] - prev[j]) > tolerance && IntAbs(curr[k] - prev[k]) > tolerance
  {
    CountTrueAtLeastTwo(Jumps(prev, curr, tolerance));
  }

  /**
   * `b` is the bottom bin of `intensity`: it lies between 1 and the number
   * of bins (1 when there are none), no adjacent pair before bin `b` jumps,
   * and the pair of bins `b` and `b + 1` (1-based) jumps whenever bin `b` is
   * not the last.
   */
  predicate IsBottomBin(intensity: seq<seq<int>>, tolerance: int, b: int)
  {
    && 1 <= b <= Max(1, |intensity|)
    && (forall k :: 0 <= k < b - 1 ==> !IsJump(intensity[k], intensity[k + 1], tolerance))
    && (b < |intensity| ==> IsJump(intensity[b - 1], intensity[b], tolerance))
  }

  /** The bottom bin found by scanning the adjacent pairs from pair `i` on, with `i + 1` bins passed. */
  function BottomBinFrom(intensity: seq<seq<int>>, tolerance: int, i: nat): (b: int)
    requires i < |intensity| || i == 0
    requires forall k :: 0 <= k < i ==> !IsJump(intensity[k], intensity[k + 1], tolerance)
    ensures IsBottomBin(intensity, tolerance, b)
    decreases |intensity| - i
  {
    if i + 1 < |intensity| && !IsJump(intensity[i], intensity[i + 1], tolerance)
    then BottomBinFrom(intensity, tolerance, i + 1)
    else i + 1
  }

  /** The bottom bin of `intensity` as a reference definition of the scan. */
  function BottomBin(intensity: seq<seq<int>>, tolerance: int): (b: int)
    ensures IsBottomBin(intensity, tolerance, b)
  {
    BottomBinFrom(intensity, tolerance, 0)
  }

  /** The bottom bin is determined by the echo intensities and the tolerance. */
  lemma BottomBinUnique(intensity: seq<seq<int>>, tolerance: int, b1: int, b2: int)
    requires IsBottomBin(intensity, tolerance, b1)
    requires IsBottomBin(intensity, tolerance, b2)
    ensures b1 == b2
  {
    if b1 < b2 {
      assert false;
    } else if b2 < b1 {
      assert false;
    }
  }

  /**
   * The edge cases of the scan: fewer than two bins give bottom bin 1; with
   * no jump anywhere every bin is in range; a jump between the first two
   * bins gives bottom bin 1.
   */
  lemma BottomBinEdgeCases(intensity: seq<seq<int>>, tolerance: int)
    ensures |intensity| < 2 ==> BottomBin(intensity, tolerance) == 1
    ensures (forall k :: 0 <= k < |intensity| - 1 ==> !IsJump(intensity[k], intensity[k + 1], tolerance))
        ==> BottomBin(intensity, tolerance) == Max(1, |intensity|)
    ensures |intensity| >= 2 && IsJump(intensity[0], intensity[1], tolerance)
        ==> BottomBin(intensity, tolerance) == 1
  {
    var b := BottomBin(intensity, tolerance);
    if b < |intensity| && forall k :: 0 <= k < |intensity| - 1 ==> !IsJump(intensity[k], intensity[k + 1], tolerance) {
      assert false;
    }
  }

  /**
   * Twenty-five bins whose first twenty bins show no jump and whose bins 20
   * and 21 (1-based) jump on two beams: the bottom bin is 20.
   */
  lemma BottomBinTwenty(intensity: seq<seq<int>>, tolerance: int)
    requires |intensity| == 25
    requires forall k :: 0 <= k < 19 ==> !IsJump(intensity[k], intensity[k + 1], tolerance)
    requires IsJump(intensity[19], intensity[20], tolerance)
    ensures BottomBin(intensity, tolerance) == 20
  {
    BottomBinUnique(intensity, tolerance, BottomBin(intensity, tolerance), 20);
  }

  // ---------------------------------------------------------------------
  // Geometry

  /**
   * The distance to the first bin: `(bin_1_distance + transducer_depth) / 100`
   * on two integers, which Python 2 rounds down.
   */
  function Bin1Distance(bin1DistanceRaw: int, transducerDepth: int): (d: int)
    ensures 100 * d <= bin1DistanceRaw + transducerDepth < 100 * d + 100
  {
    (bin1DistanceRaw + transducerDepth) / 100
  }

  /** `int(x)` of a float: the integer part, rounding toward zero. */
  function Truncate(x: real): (r: int)
    ensures x >= 0.0 ==> r >= 0
    ensures x <= 0.0 ==> r <= 0
  {
    if x >= 0.0 then x.Floor else -((-x).Floor)
  }

  /** Truncation moves a value toward zero by less than one. */
  lemma TruncateBounds(x: real)
    ensures x >= 0.0 ==> Truncate(x) >= 0 && Truncate(x) as real <= x < Truncate(x) as real + 1.0
    ensures x < 0.0 ==> Truncate(x) <= 0 && Truncate(x) as real - 1.0 < x <= Truncate(x) as real
  {
  }

  /** Truncation never reverses the order of two values. */
  lemma TruncateMonotone(x: real, y: real)
    requires x <= y
    ensures Truncate(x) <= Truncate(y)
  {
    if x >= 0.0 {
      assert x.Floor <= y.Floor;
    } else if y < 0.0 {
      assert (-y).Floor <= (-x).Floor;
    }
  }

  /** The range to the bottom in metres: the bottom bin's cells plus the distance to the first bin. */
  function RangeToBottom(bottomBin: int, depthCellLength: int, bin1Distance: int): (r: real)
    ensures bottomBin >= 0 && depthCellLength >= 0 && bin1Distance >= 0 ==> r >= 0.0
  {
    (bottomBin * depthCellLength) as real / 100.0 + bin1Distance as real
  }

  /** A deeper bottom bin never gives a shorter range, for a non-negative cell length. */
  lemma RangeToBottomMonotone(b1: int, b2: int, depthCellLength: int, bin1Distance: int)
    requires b1 <= b2 && depthCellLength >= 0
    ensures RangeToBottom(b1, depthCellLength, bin1Distance) <= RangeToBottom(b2, depthCellLength, bin1Distance)
  {
    assert (b2 - b1) * depthCellLength >= 0;
  }

  /** The start of side-lobe contamination: the range scaled by the beam-angle cosine, truncated. */
  function SideLobeStart(cosBeamAngle: real, rangeToBottom: real): (s: int)
    ensures cosBeamAngle >= 0.0 && rangeToBottom >= 0.0 ==> s >= 0
  {
    Truncate(cosBeamAngle * rangeToBottom)
  }

  /** For a non-negative range, the side-lobe start is the whole number of metres in the scaled range. */
  lemma SideLobeStartBounds(cosBeamAngle: real, rangeToBottom: real)
    requires cosBeamAngle * rangeToBottom >= 0.0
    ensures var s := SideLobeStart(cosBeamAngle, rangeToBottom);
            s >= 0 && s as real <= cosBeamAngle * rangeToBottom < s as real + 1.0
  {
    TruncateBounds(cosBeamAngle * rangeToBottom);
  }

  /** The cut-offs derived from the bottom bin. */
  datatype BottomStats = BottomStats(
    bottomBin: int,
    rangeToBottom: real,
    sideLobeStart: int,
    lastGoodBin: int,
    lastGoodCounter: int)

  /**
   * The range to the bottom in metres, the start of side-lobe contamination
   * (the range scaled by the cosine of the beam angle, truncated), the last
   * good bin one before it and the window bound one before that; nothing is
   * clamped at zero.
   */
  function ComputeBottomStats(bottomBin: int, bin1DistanceRaw: int, depthCellLength: int,
                              transducerDepth: int, cosBeamAngle: real): (s: BottomStats)
    ensures s.bottomBin == bottomBin
    ensures s.rangeToBottom
         == RangeToBottom(bottomBin, depthCellLength, Bin1Distance(bin1DistanceRaw, transducerDepth))
    ensures s.sideLobeStart == SideLobeStart(cosBeamAngle, s.rangeToBottom)
    ensures s.lastGoodBin == s.sideLobeStart - 1
    ensures s.lastGoodCounter == s.lastGoodBin - 1 == s.sideLobeStart - 2
  {
    var bin1Distance := Bin1Distance(bin1DistanceRaw, transducerDepth);
    var rangeToBottom := RangeToBottom(bottomBin, depthCellLength, bin1Distance);
    var sideLobeStart := SideLobeStart(cosBeamAngle, rangeToBottom);
    var lastGoodBin := sideLobeStart - 1;
    BottomStats(bottomBin, rangeToBottom, sideLobeStart, lastGoodBin, lastGoodBin - 1)
  }

  /**
   * With a positive beam-angle cosine and a non-negative cell length, a
   * deeper bottom bin never moves the side-lobe start, and with it the two
   * cut-offs, toward the transducer.
   */
  lemma SideLobeStartMonotone(b1: int, b2: int, bin1DistanceRaw: int, depthCellLength: int,
                              transducerDepth: int, cosBeamAngle: real)
    requires b1 <= b2 && depthCellLength >= 0 && cosBeamAngle > 0.0
    ensures var s1 := ComputeBottomStats(b1, bin1DistanceRaw, depthCellLength, transducerDepth, cosBeamAngle);
            var s2 := ComputeBottomStats(b2, bin1DistanceRaw, depthCellLength, transducerDepth, cosBeamAngle);
            s1.sideLobeStart <= s2.sideLobeStart && s1.lastGoodCounter <= s2.lastGoodCounter
  {
    var s1 := ComputeBottomStats(b1, bin1DistanceRaw, depthCellLength, transducerDepth, cosBeamAngle);
    var s2 := ComputeBottomStats(b2, bin1DistanceRaw, depthCellLength, transducerDepth, cosBeamAngle);
    RangeOrder(b1, b2, bin1DistanceRaw, depthCellLength, transducerDepth, cosBeamAngle);
    SideLobeStartOrder(cosBeamAngle, s1.rangeToBottom, s2.rangeToBottom);
  }

  /** The ranges of two bottom bins are in the order of the bins. */
  lemma RangeOrder(b1: int, b2: int, bin1DistanceRaw: int, depthCellLength: int,
                   transducerDepth: int, cosBeamAngle: real)
    requires b1 <= b2 && depthCellLength >= 0
    ensures ComputeBottomStats(b1, bin1DistanceRaw, depthCellLength, transducerDepth, cosBeamAngle).rangeToBottom
         <= ComputeBottomStats(b2, bin1DistanceRaw, depthCellLength, transducerDepth, cosBeamAngle).rangeToBottom
  {
    RangeToBottomMonotone(b1, b2, depthCellLength, Bin1Distance(bin1DistanceRaw, transducerDepth));
  }

  /** A longer range never gives an earlier side-lobe start, for a positive cosine. */
  lemma SideLobeStartOrder(cosBeamAngle: real, r1: real, r2: real)
    requires cosBeamAngle > 0.0 && r1 <= r2
    ensures SideLobeStart(cosBeamAngle, r1) <= SideLobeStart(cosBeamAngle, r2)
  {
    assert cosBeamAngle * r1 <= cosBeamAngle * r2 by {
      assert cosBeamAngle * (r2 - r1) >= 0.0;
    }
    TruncateMonotone(cosBeamAngle * r1, cosBeamAngle * r2);
  }

  // ---------------------------------------------------------------------
  // The session

  class TRDIQAQC {
    const data: Ensemble
    const transducerDepth: int
    /** The cosine of the beam angle, `cos(beam_angle * pi / 180)`. */
    const cosBeamAngle: real
    /** The magnitude of the horizontal velocity `u + i v`. */
    const speedOf: (real, real) -> real
    /** The direction of the horizontal velocity, `atan2(u, v)` in degrees. */
    const directionOf: (real, real) -> real

    var u: seq<real>
    var v: seq<real>
    var w: seq<real>
    var z: seq<(real, real)>
    var currentSpeed: seq<real>
    var currentDirection: seq<real>

    var bottomStats: BottomStats
    var lastGoodBin: int
    var lastGoodCounter: int

    /** The velocity columns hold one entry per velocity row, taken from that row. */
    ghost predicate VelocitiesRead()
      reads this
      requires WellFormed(data)
    {
      && |u| == |v| == |w| == |z| == |currentSpeed| == |currentDirection| == |data.velocity|
      && forall i :: 0 <= i < |data.velocity| ==>
           && u[i] == data.velocity[i][0]
           && v[i] == data.velocity[i][1]
           && w[i] == data.velocity[i][2]
           && z[i] == (u[i], v[i])
           && currentSpeed[i] == speedOf(u[i], v[i])
           && currentDirection[i] == directionOf(u[i], v[i])
    }

    ghost predicate Valid()
      reads this
    {
      && WellFormed(data)
      && VelocitiesRead()
      && lastGoodBin == bottomStats.lastGoodBin
      && lastGoodCounter == bottomStats.lastGoodCounter
    }

    /**
     * Reads the velocity columns and the derived speed and direction, then
     * scans for the bottom with the default tolerance.
     */
    constructor (data: Ensemble, transducerDepth: Option<int>, cosBeamAngle: real,
                 speedOf: (real, real) -> real, directionOf: (real, real) -> real)
      requires WellFormed(data)
      ensures this.data == data && this.cosBeamAngle == cosBeamAngle
      ensures this.speedOf == speedOf && this.directionOf == directionOf
      ensures this.transducerDepth == if transducerDepth.Some? then transducerDepth.value else data.depthOfTransducer
      ensures Valid()
      ensures bottomStats.bottomBin == BottomBin(data.echoIntensity, DefaultBottomTolerance)
      ensures bottomStats == ComputeBottomStats(bottomStats.bottomBin, data.bin1Distance, data.depthCellLength,
                                                this.transducerDepth, cosBeamAngle)
    {
      this.data := data;
      this.transducerDepth := if transducerDepth.Some? then transducerDepth.value else data.depthOfTransducer;
      this.cosBeamAngle := cosBeamAngle;
      this.speedOf := speedOf;
      this.directionOf := directionOf;
      new;
      ReadVelocities();
      CalcBottomStats(DefaultBottomTolerance);
    }

    /** One entry per velocity row on each of the six lists. */
    method ReadVelocities()
      requires WellFormed(data)
      modifies this`u, this`v, this`w, this`z, this`currentSpeed, this`currentDirection
      ensures VelocitiesRead()
    {
      u, v, w, z, currentSpeed, currentDirection := [], [], [], [], [], [];
      for i := 0 to |data.velocity|
        invariant |u| == |v| == |w| == |z| == |currentSpeed| == |currentDirection| == i
        invariant forall k :: 0 <= k < i ==>
           && u[k] == data.velocity[k][0]
           && v[k] == data.velocity[k][1]
           && w[k] == data.velocity[k][2]
           && z[k] == (u[k], v[k])
           && currentSpeed[k] == speedOf(u[k], v[k])
           && currentDirection[k] == directionOf(u[k], v[k])
      {
        var bin := data.velocity[i];
        var uVel, vVel, wVel := bin[0], bin[1], bin[2];
        var zVel := (uVel, vVel);
        u := u + [uVel];
        v := v + [vVel];
        w := w + [wVel];
        z := z + [zVel];
        currentSpeed := currentSpeed + [speedOf(uVel, vVel)];
        currentDirection := currentDirection + [directionOf(uVel, vVel)];
      }
    }

    /**
     * Scans adjacent echo-intensity bins: the bottom bin starts at 1 and
     * grows by one per pair in which fewer than two beams jump by more than
     * `tolerance`, up to the first pair in which two or more do.  Then
     * stores the cut-offs derived from it.
     */
    method CalcBottomStats(tolerance: int)
      modifies this`bottomStats, this`lastGoodBin, this`lastGoodCounter
      ensures IsBottomBin(data.echoIntensity, tolerance, bottomStats.bottomBin)
      ensures bottomStats.bottomBin == BottomBin(data.echoIntensity, tolerance)
      ensures bottomStats == ComputeBottomStats(bottomStats.bottomBin, data.bin1Distance, data.depthCellLength,
                                                transducerDepth, cosBeamAngle)
      ensures lastGoodBin == bottomStats.lastGoodBin && lastGoodCounter == bottomStats.lastGoodCounter
    {
      var bottomBin := 1;
      var intensity := data.echoIntensity;
      var i := 0;
      while i + 1 < |intensity|
        invariant 0 <= i && (i < |intensity| || i == 0)
        invariant bottomBin == i + 1
        invariant forall k :: 0 <= k < i ==> !IsJump(intensity[k], intensity[k + 1], tolerance)
      {
        var binPrev, binCurr := intensity[i], intensity[i + 1];
        var binFlagCount := 0;
        for j := 0 to Min(|binPrev|, |binCurr|)
          invariant binFlagCount == CountTrue(Jumps(binPrev, binCurr, tolerance)[..j])
        {
          CountTrueStep(Jumps(binPrev, binCurr, tolerance), j);
          var binDiff := IntAbs(binCurr[j] - binPrev[j]);
          if binDiff > tolerance {
            binFlagCount := binFlagCount + 1;
          }
        }
        assert Jumps(binPrev, binCurr, tolerance)[..Min(|binPrev|, |binCurr|)] == Jumps(binPrev, binCurr, tolerance);
        if binFlagCount < 2 {
          bottomBin := bottomBin + 1;
        } else {
          break;
        }
        i := i + 1;
      }
      assert IsBottomBin(intensity, tolerance, bottomBin);
      BottomBinUnique(intensity, tolerance, bottomBin, BottomBin(intensity, tolerance));
      bottomStats := ComputeBottomStats(bottomBin, data.bin1Distance, data.depthCellLength,
                                        transducerDepth, cosBeamAngle);
      lastGoodBin := bottomStats.lastGoodBin;
      lastGoodCounter := bottomStats.lastGoodCounter;
    }

    // -------------------------------------------------------------------
    // Accessors for the tests that look at no per-bin data

    function BatteryFlag(): (f: Flag)
      ensures f == NoTest
    {
      BatteryFlagTest(data)
    }

    function ChecksumFlag(): (f: Flag)
      ensures f == Good
    {
      ChecksumTest(data)
    }

    /** The built-in-test result of the variable leader. */
    function BitFlag(): (f: Flag)
      ensures f == Good <==> data.bitResult == "0"
      ensures f == Good || f == Bad
    {
      BitTest(data.bitResult)
    }

    /** Pitch and roll arrive in hundredths of a degree and are scaled to degrees first. */
    function OrientationFlags(maxPitch: real, maxRoll: real): (f: Flag)
      ensures f == Good <==> Abs(data.pitch as real / 100.0) < maxPitch && Abs(data.roll as real / 100.0) < maxRoll
      ensures f == Good || f == Bad
    {
      var pitch := data.pitch as real / 100.0;
      var roll := data.roll as real / 100.0;
      OrientationTest(pitch, roll, maxPitch, maxRoll)
    }

    function SoundSpeedFlags(soundSpeedMin: int, soundSpeedMax: int): (f: Flag)
      ensures f == Good <==> soundSpeedMin <= data.speedOfSound <= soundSpeedMax
      ensures f == Good || f == Bad
    {
      SoundSpeedTest(data.speedOfSound, soundSpeedMin, soundSpeedMax)
    }

    function NoiseFloorFlag(): (f: Flag)
      ensures f == NoTest
    {
      NoiseFloorTest(data)
    }

    function SignalStrengthFlag(): (f: Flag)
      ensures f == NoTest
    {
      QartodTests.SignalStrengthFlag(data)
    }

    function SignalToNoiseFlag(): (f: Flag)
      ensures f == NoTest
    {
      SignalToNoiseTest(data)
    }

    function StuckSensorFlag(): (f: Flag)
      ensures f == NoTest
    {
      StuckSensorTest(data)
    }

    // -------------------------------------------------------------------
    // Windowed accessors

    /** Test 8 on the bins before `lastGoodBin`. */
    method CorrelationMagnitudeFlags(goodTolerance: int, questionableTolerance: int) returns (flags: seq<Flag>)
      requires Valid()
      ensures |flags| == |PrefixSlice(data.correlation, lastGoodBin)|
      ensures forall i :: 0 <= i < |flags| ==>
        flags[i] == CorrelationBinFlag(data.correlation[i], goodTolerance, questionableTolerance)
    {
      var correlation := PrefixSlice(data.correlation, lastGoodBin);
      flags := CorrelationMagnitudeTest(correlation, goodTolerance, questionableTolerance);
    }

    /**
     * Test 9 on counters 2 and 3 of the bins before `lastGoodBin`; Python
     * indexes counter 3 of every row in that window.
     */
    method PercentGoodFlags(percentGood: int, percentBad: int) returns (flags: seq<Flag>)
      requires Valid()
      requires RowsWide(PrefixSlice(data.percentGood, lastGoodBin), 4)
      ensures |flags| == |PrefixSlice(data.percentGood, lastGoodBin)|
      ensures forall i :: 0 <= i < |flags| ==>
        flags[i] == PercentGoodFlag(data.percentGood[i][2], data.percentGood[i][3], percentGood, percentBad)
    {
      var rows := PrefixSlice(data.percentGood, lastGoodBin);
      var oneBadPercent := Column(rows, 2);
      var allGoodPercent := Column(rows, 3);
      flags := PercentGoodTest(oneBadPercent, allGoodPercent, percentGood, percentBad);
    }

    /**
     * Test 10 on the speeds before `lastGoodCounter`.  The limit given to
     * the accessor is not passed on: the test's default of 150 applies.
     */
    method CurrentSpeedFlags(maxSpeed: real) returns (flags: seq<Flag>)
      requires Valid()
      ensures |flags| == |PrefixSlice(currentSpeed, lastGoodCounter)|
      ensures forall i :: 0 <= i < |flags| ==> flags[i] == SpeedFlag(currentSpeed[i], DefaultMaxSpeed)
    {
      flags := CurrentSpeedTest(PrefixSlice(currentSpeed, lastGoodCounter), DefaultMaxSpeed);
    }

    /** Test 11 on the directions before `lastGoodCounter`. */
    method CurrentDirectionFlags() returns (flags: seq<Flag>)
      requires Valid()
      ensures |flags| == |PrefixSlice(currentDirection, lastGoodCounter)|
      ensures forall i :: 0 <= i < |flags| ==> flags[i] == DirectionFlag(currentDirection[i])
    {
      flags := CurrentDirectionTest(PrefixSlice(currentDirection, lastGoodCounter));
    }

    /** Test 12 on u and v before `lastGoodCounter`. */
    method HorizontalVelocityFlags(maxUVel: real, maxVVel: real) returns (flags: seq<Flag>)
      requires Valid()
      ensures |flags| == |PrefixSlice(u, lastGoodCounter)|
      ensures forall i :: 0 <= i < |flags| ==> flags[i] == HorizontalVelocityFlag(u[i], v[i], maxUVel, maxVVel)
    {
      flags := HorizontalVelocityTest(PrefixSlice(u, lastGoodCounter), PrefixSlice(v, lastGoodCounter),
                                      maxUVel, maxVVel);
    }

    /** Test 13 on w before `lastGoodCounter`. */
    method VerticalVelocityFlags(maxWVelocity: real) returns (flags: seq<Flag>)
      requires Valid()
      ensures |flags| == |PrefixSlice(w, lastGoodCounter)|
      ensures forall i :: 0 <= i < |flags| ==> flags[i] == VerticalVelocityFlag(w[i], maxWVelocity)
    {
      flags := VerticalVelocityTest(PrefixSlice(w, lastGoodCounter), maxWVelocity);
    }

    /**
     * Test 14 on column 3 of the velocity rows before `lastGoodCounter`;
     * Python indexes column 3 of every row in that window.
     */
    method ErrorVelocityFlags(questionableErrorVelocity: real, badErrorVelocity: real) returns (flags: seq<Flag>)
      requires Valid()
      requires RowsWide(PrefixSlice(data.velocity, lastGoodCounter), 4)
      ensures |flags| == |PrefixSlice(data.velocity, lastGoodCounter)|
      ensures forall i :: 0 <= i < |flags| ==>
        flags[i] == ErrorVelocityFlag(data.velocity[i][3], questionableErrorVelocity, badErrorVelocity)
    {
      var errorVelocities := Column(PrefixSlice(data.velocity, lastGoodCounter), 3);
      flags := ErrorVelocityTest(errorVelocities, questionableErrorVelocity, badErrorVelocity);
    }

    /**
     * Test 16 on the echo intensities before `lastGoodCounter`.  The
     * tolerance given to the accessor is not passed on: the test's default
     * of 2 applies.
     */
    method EchoIntensityFlags(tolerance: int) returns (flags: seq<Flag>)
      requires Valid()
      ensures |flags| == Max(1, |PrefixSlice(data.echoIntensity, lastGoodCounter)|)
      ensures flags[0] == Good
      ensures forall i :: 0 <= i < |PrefixSlice(data.echoIntensity, lastGoodCounter)| - 1 ==>
        flags[i + 1] == EchoPairFlag(data.echoIntensity[i], data.echoIntensity[i + 1], DefaultEchoTolerance)
    {
      var echoIntensities := PrefixSlice(data.echoIntensity, lastGoodCounter);
      flags := EchoIntensityTest(echoIntensities, DefaultEchoTolerance);
    }

    /** Test 17 on the echo intensities before `lastGoodCounter`. */
    method RangeDropOffFlags(dropOffLimit: int) returns (flags: seq<Flag>)
      requires Valid()
      ensures |flags| == |PrefixSlice(data.echoIntensity, lastGoodCounter)|
      ensures forall i :: 0 <= i < |flags| ==> flags[i] == RangeDropOffFlag(data.echoIntensity[i], dropOffLimit)
    {
      var echoIntensities := PrefixSlice(data.echoIntensity, lastGoodCounter);
      flags := RangeDropOffTest(echoIntensities, dropOffLimit);
    }

    /** Test 18 on all speeds: this accessor does not cut at any cut-off. */
    method CurrentSpeedGradientFlags(tolerance: real) returns (flags: seq<Flag>)
      requires Valid()
      ensures |flags| == Max(1, |currentSpeed|)
      ensures flags[0] == Good
      ensures forall i :: 0 <= i < |currentSpeed| - 1 ==>
        flags[i + 1] == GradientFlag(currentSpeed[i], currentSpeed[i + 1], tolerance)
    {
      flags := CurrentSpeedGradientTest(currentSpeed, tolerance);
    }
  }
}
