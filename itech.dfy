/** The ITECH IT6726V DC supply driver: validated stores for the regulated
    quantity (mode), the per-mode setpoints and PID gains, the regime selector
    that decides which quantity to regulate, the clamped PID step, and the
    control loop that ties them to the five sample buffers. */
module Itech {
  import opened PyBase
  import opened Buffers

  /** Mode numbers: the quantity currently regulated. */
  const VoltageMode: int := 0
  const PowerMode: int := 1
  const CurrentMode: int := 2

  /** Largest setpoint the supply accepts for voltage, power and current. */
  const SetpointMax: seq<int> := [3000, 1200, 5000]

  /** The messages of the setters' ValueErrors. */
  const ModeNotInteger := "Mode value must be an integer"
  const ModeOutOfRange := "Mode value must be between 0 and 2 (0 = P mode, 1 = U mode, 2 = I mode"
  const SetpointNotInteger := "Setpoint value must be an integer"
  const SetpointOutOfRange := "Setpoint value must be between 0 and "
  const IndexNotInteger := "Axes number must be an integer"
  const IndexOutOfRange := "PID number index must be between 0 and 2 (0 = P, 1 = I, 2 = D"
  const GainNotNumber := "Max value for each axis must be a number"
  const PidModeInvalid := "Mode for PID must be 1 (Power) or 2 (Current)."

  /** One (P, I, D) gain triple. */
  datatype Gains = Gains(p: real, i: real, d: real)

  /** What one loop cycle reads: the three measurements (a failed USB read
      yields 0 for the unread ones) and the seconds since the loop started. */
  datatype Sample = Sample(voltage: real, power: real, current: real, elapsed: real)

  // ---------------------------------------------------------------------------
  // Regime selector

  /** The priority ladder the selector implements, stated on the excess of each
      rounded average over its rounded setpoint: a strict excess wins in the order
      voltage, power, current; failing that, an average that just reaches its
      setpoint wins in the same order; failing that, the previous mode stays. */
  function PriorityLadder(excessV: int, excessP: int, excessI: int, modePrev: int): int
  {
    if excessV > 0 then VoltageMode
    else if excessP > 0 then PowerMode
    else if excessI > 0 then CurrentMode
    else if excessV == 0 then VoltageMode
    else if excessP == 0 then PowerMode
    else if excessI == 0 then CurrentMode
    else modePrev
  }

  /** mode_determination: the first-match cascade followed by the three
      override steps, over rounded averages and rounded setpoints (the setpoints
      are integers already, so rounding leaves them as they are). */
  function ModeDetermination(avgV: real, avgP: real, avgI: real, setpoint: seq<int>, modePrev: int): (r: int)
    requires |setpoint| == 3
    ensures 0 <= modePrev <= 2 ==> 0 <= r <= 2
    ensures r == PriorityLadder(RoundHalfEven(avgV) - setpoint[0], RoundHalfEven(avgP) - setpoint[1],
                                RoundHalfEven(avgI) - setpoint[2], modePrev)
    ensures RoundHalfEven(avgV) > setpoint[0] ==> r == VoltageMode
    ensures RoundHalfEven(avgV) <= setpoint[0] && RoundHalfEven(avgP) > setpoint[1] ==> r == PowerMode
    ensures (RoundHalfEven(avgV) <= setpoint[0] && RoundHalfEven(avgP) <= setpoint[1] &&
             RoundHalfEven(avgI) > setpoint[2]) ==> r == CurrentMode
    ensures (RoundHalfEven(avgV) < setpoint[0] && RoundHalfEven(avgP) < setpoint[1] &&
             RoundHalfEven(avgI) < setpoint[2]) ==> r == modePrev
  {
    var vMax, pMax, iMax := setpoint[0], setpoint[1], setpoint[2];
    var v, p, i := RoundHalfEven(avgV), RoundHalfEven(avgP), RoundHalfEven(avgI);
    var m1 := if v >= vMax then VoltageMode else if p >= pMax then PowerMode
              else if i >= iMax then CurrentMode else modePrev;
    var m2 := if m1 == VoltageMode && p > pMax then PowerMode
              else if m1 == VoltageMode && i > iMax then CurrentMode else m1;
    var m3 := if m2 == PowerMode && v > vMax then VoltageMode
              else if m2 == PowerMode && i > iMax then CurrentMode else m2;
    var m4 := if m3 == CurrentMode && v > vMax then VoltageMode
              else if m3 == CurrentMode && p > pMax then PowerMode else m3;
    m4
  }

  // ---------------------------------------------------------------------------
  // PID step

  /** The values pid_control_one_cycle hands back: time_prev, e_prev, e_sum, u_prev. */
  datatype CycleResult = CycleResult(timePrev: real, ePrev: real, eSum: real, u: real)

  /** Raise to the under-voltage bound, then cap at the over-voltage bound. */
  function Clamp(u: real, uvp: real, ovp: real): (r: real)
    ensures r <= ovp
    ensures uvp <= ovp ==> uvp <= r
    ensures uvp <= u <= ovp ==> r == u
    ensures u < uvp <= ovp ==> r == uvp
    ensures u > ovp || uvp > ovp ==> r == ovp
  {
    var raised := if u < uvp then uvp else u;
    if raised > ovp then ovp else raised
  }

  /** The PID law before rounding and clamping. */
  function PidLaw(g: Gains, e: real, integral: real, derivative: real): real
  {
    g.p * e + g.i * integral + g.d * derivative
  }

  /** The arithmetic of pid_control_one_cycle for the cycle that ends at
      `timeAct` seconds; a cycle of zero length divides by zero. */
  function PidCycle(timePrev: real, ePrev: real, eSum: real, g: Gains, actual: real, desired: real,
                    timeAct: real, uvp: real, ovp: real): (r: Result<CycleResult>)
    ensures r.Err? <==> timeAct == timePrev
    ensures r.Err? ==> r.error == ZeroDivisionError
    ensures r.Ok? ==> r.value.timePrev == timeAct
    ensures r.Ok? ==> r.value.ePrev == desired - actual
    ensures r.Ok? ==> r.value.eSum == eSum + (desired - actual) * (timeAct - timePrev)
    ensures r.Ok? ==> r.value.u <= ovp && (uvp <= ovp ==> uvp <= r.value.u)
    ensures r.Ok? ==> r.value.u == Clamp(RoundToTenth(PidLaw(g, desired - actual, r.value.eSum,
                                                             (desired - actual - ePrev) / (timeAct - timePrev))), uvp, ovp)
  {
    var e := desired - actual;
    var dt := timeAct - timePrev;
    var integral := eSum + e * dt;
    if dt == 0.0 then Err(ZeroDivisionError)
    else
      var derivative := (e - ePrev) / dt;
      var u := RoundToTenth(PidLaw(g, e, integral, derivative));
      Ok(CycleResult(timeAct, e, integral, Clamp(u, uvp, ovp)))
  }

  // ---------------------------------------------------------------------------
  // Control loop

  /** The locals pid_control carries from one cycle to the next. */
  datatype LoopState = LoopState(eSum: real, ePrev: real, uPrev: real, modePrev: int, timePrev: real,
                                 avgV: real, avgP: real, avgI: real)

  /** The measurement the active mode regulates. */
  function Measured(mode: int, s: Sample): real
  {
    if mode == VoltageMode then s.voltage else if mode == PowerMode then s.power else s.current
  }

  /** The gain triple of the active mode. */
  function GainsOf(mode: int, gv: Gains, gp: Gains, gi: Gains): Gains
  {
    if mode == VoltageMode then gv else if mode == PowerMode then gp else gi
  }

  /** The integral the step starts from: on a mode change it is reseeded with the last output. */
  function SeededSum(st: LoopState, mode: int): real
  {
    if mode != st.modePrev then st.uPrev else st.eSum
  }

  /** The three averages calculate_average_values_for_mode_determination returns. */
  function Averages(v: seq<real>, p: seq<real>, c: seq<real>, n: int): Result<(real, real, real)>
  {
    match LastAverage(v, n)
    case Err(e) => Err(e)
    case Ok(av) =>
      match LastAverage(p, n)
      case Err(e) => Err(e)
      case Ok(ap) =>
        match LastAverage(c, n)
        case Err(e) => Err(e)
        case Ok(ac) => Ok((av, ap, ac))
  }

  /** The loop state after a completed cycle. */
  function NextState(c: CycleResult, mode: int, avgs: Result<(real, real, real)>): Result<LoopState>
  {
    match avgs
    case Err(e) => Err(e)
    case Ok((v, p, i)) => Ok(LoopState(c.eSum, c.ePrev, c.u, mode, c.timePrev, v, p, i))
  }

  /** What stays fixed during one pid_control run: the setpoints, the three
      gain triples, the protection bounds and the averaging window. */
  datatype Regulator = Regulator(setpoint: seq<int>, gv: Gains, gp: Gains, gi: Gains,
                                 uvp: real, ovp: real, window: int)

  /** The measured voltage, power and current histories the selector averages. */
  datatype History = History(v: seq<real>, p: seq<real>, c: seq<real>)

  ghost predicate WellFormed(reg: Regulator, st: LoopState, h: History)
  {
    |reg.setpoint| == 3 && 0 <= st.modePrev <= 2 && |h.p| == |h.v| && |h.c| == |h.v|
  }

  /** The mode a cycle regulates, chosen from the previous cycle's averages. */
  function CycleMode(reg: Regulator, st: LoopState): (m: int)
    requires |reg.setpoint| == 3 && 0 <= st.modePrev <= 2
    ensures 0 <= m <= 2
  {
    ModeDetermination(st.avgV, st.avgP, st.avgI, reg.setpoint, st.modePrev)
  }

  /** The PID step of one cycle on sample `s`, in the mode the selector chose. */
  function CycleStep(reg: Regulator, st: LoopState, s: Sample): Result<CycleResult>
    requires |reg.setpoint| == 3 && 0 <= st.modePrev <= 2
  {
    var m := CycleMode(reg, st);
    PidCycle(st.timePrev, st.ePrev, SeededSum(st, m), GainsOf(m, reg.gv, reg.gp, reg.gi), Measured(m, s),
             reg.setpoint[m] as real, s.elapsed, reg.uvp, reg.ovp)
  }

  /** One pass of the loop body on sample `s`: the voltages it sends (none
      when the PID step raises) and either the exception that ends the loop or
      the next loop state with the shifted histories. */
  function Cycle(reg: Regulator, st: LoopState, h: History, s: Sample): (r: (seq<real>, Result<(LoopState, History)>))
    requires WellFormed(reg, st, h)
    ensures |r.0| <= 1 && (r.1.Ok? ==> |r.0| == 1)
    ensures CycleStep(reg, st, s).Err? ==> r == ([], Err(CycleStep(reg, st, s).error))
    ensures CycleStep(reg, st, s).Ok? ==> r.0 == [CycleStep(reg, st, s).value.u]
    ensures forall k :: 0 <= k < |r.0| ==> r.0[k] <= reg.ovp && (reg.uvp <= reg.ovp ==> reg.uvp <= r.0[k])
    ensures |h.v| == 0 ==> r.1.Err?
    ensures r.1.Ok? ==> WellFormed(reg, r.1.value.0, r.1.value.1) && r.1.value.0.modePrev == CycleMode(reg, st)
    ensures r.1.Ok? ==> r.1.value.1 == History(Shift(h.v, s.voltage), Shift(h.p, s.power), Shift(h.c, s.current))
  {
    match CycleStep(reg, st, s)
    case Err(e) => ([], Err(e))
    case Ok(c) =>
      if |h.v| == 0 then ([c.u], Err(IndexError))
      else
        var h' := History(Shift(h.v, s.voltage), Shift(h.p, s.power), Shift(h.c, s.current));
        match NextState(c, CycleMode(reg, st), Averages(h'.v, h'.p, h'.c, reg.window))
        case Err(e) => ([c.u], Err(e))
        case Ok(st') => ([c.u], Ok((st', h')))
  }

  /** The voltages pid_control sends for the given samples and how the loop
      ends: every cycle that gets past its PID step sends its clamped output;
      the first exception (a zero-length cycle, a zero buffer size, an
      averaging window that does not fit) ends the loop with that error. */
  function Run(reg: Regulator, st: LoopState, h: History, samples: seq<Sample>): (seq<real>, Outcome)
    requires WellFormed(reg, st, h)
    decreases |samples|
  {
    if |samples| == 0 then ([], Pass)
    else
      var (sent, next) := Cycle(reg, st, h, samples[0]);
      match next
      case Err(e) => (sent, Fail(e))
      case Ok((st', h')) =>
        var rest := Run(reg, st', h', samples[1..]);
        (sent + rest.0, rest.1)
  }

  class PowerSupply {
    var mode: int
    var setpoint: seq<int>
    var pidVoltage: seq<real>
    var pidPower: seq<real>
    var pidCurrent: seq<real>
    const underVoltageProtection: real
    const overVoltageProtection: real
    const modeDeterminationCount: int
    const bufferSize: nat
    const bufferTime: DataBuffer
    const bufferVoltageCalc: DataBuffer
    const bufferVoltagePs: DataBuffer
    const bufferPowerPs: DataBuffer
    const bufferCurrentPs: DataBuffer
    /** Every value written as "VOLT <u>", oldest first. */
    ghost var sentVoltages: seq<real>

    ghost function Buffers(): set<object>
    {
      {bufferTime, bufferVoltageCalc, bufferVoltagePs, bufferPowerPs, bufferCurrentPs}
    }

    ghost predicate BufferOk(b: DataBuffer)
      reads b
    {
      b.Valid() && b.size == bufferSize
    }

    ghost predicate Valid()
      reads this, Buffers()
    {
      && 0 <= mode <= 2
      && |setpoint| == 3
      && (forall k :: 0 <= k < 3 ==> 0 <= setpoint[k] <= SetpointMax[k])
      && |pidVoltage| == 3 && |pidPower| == 3 && |pidCurrent| == 3
      && bufferTime != bufferVoltageCalc && bufferTime != bufferVoltagePs
      && bufferTime != bufferPowerPs && bufferTime != bufferCurrentPs
      && bufferVoltageCalc != bufferVoltagePs && bufferVoltageCalc != bufferPowerPs
      && bufferVoltageCalc != bufferCurrentPs && bufferVoltagePs != bufferPowerPs
      && bufferVoltagePs != bufferCurrentPs && bufferPowerPs != bufferCurrentPs
      && BufferOk(bufferTime) && BufferOk(bufferVoltageCalc) && BufferOk(bufferVoltagePs)
      && BufferOk(bufferPowerPs) && BufferOk(bufferCurrentPs)
    }

    /** The state after construction; the buffer size, the averaging window and
        the protection bounds are the values the ini file supplies. */
    constructor (bufferSize: nat, modeDeterminationCount: int, underVoltageProtection: real,
                 overVoltageProtection: real)
      ensures Valid() && fresh(Buffers())
      ensures mode == PowerMode && setpoint == [0, 0, 0]
      ensures pidVoltage == [0.0, 0.0, 0.0] && pidPower == [0.0, 0.0, 0.0] && pidCurrent == [0.0, 0.0, 0.0]
      ensures this.bufferSize == bufferSize && this.modeDeterminationCount == modeDeterminationCount
      ensures this.underVoltageProtection == underVoltageProtection
      ensures this.overVoltageProtection == overVoltageProtection
      ensures bufferVoltagePs.buffer == Zeros(bufferSize) && bufferPowerPs.buffer == Zeros(bufferSize)
      ensures bufferCurrentPs.buffer == Zeros(bufferSize)
      ensures bufferTime.buffer == Zeros(bufferSize) && bufferVoltageCalc.buffer == Zeros(bufferSize)
      ensures sentVoltages == []
    {
      mode := PowerMode;
      setpoint := [0, 0, 0];
      pidVoltage, pidPower, pidCurrent := [0.0, 0.0, 0.0], [0.0, 0.0, 0.0], [0.0, 0.0, 0.0];
      this.underVoltageProtection := underVoltageProtection;
      this.overVoltageProtection := overVoltageProtection;
      this.modeDeterminationCount := modeDeterminationCount;
      this.bufferSize := bufferSize;
      bufferTime := new DataBuffer(bufferSize);
      bufferVoltageCalc := new DataBuffer(bufferSize);
      bufferVoltagePs := new DataBuffer(bufferSize);
      bufferPowerPs := new DataBuffer(bufferSize);
      bufferCurrentPs := new DataBuffer(bufferSize);
      sentVoltages := [];
    }

    // -------------------------------------------------------------------------
    // Validated stores

    /** The mode setter: int(value) must succeed and lie in 0..2. */
    method SetMode(value: PyValue) returns (r: Outcome)
      requires Valid()
      modifies this`mode
      ensures Valid()
      ensures r.Pass? <==> IntOf(value).Some? && 0 <= IntOf(value).value <= 2
      ensures r.Pass? ==> mode == IntOf(value).value
      ensures r.Fail? ==> r.error.ValueError? && mode == old(mode)
    {
      var m := IntOf(value);
      if m.None? {
        return Fail(ValueError(ModeNotInteger));
      }
      if m.value < 0 || m.value > 2 {
        return Fail(ValueError(ModeOutOfRange));
      }
      mode := m.value;
      r := Pass;
    }

    /** set_setpoint_for_mode: an integer mode in 0..2 and an integer value in
        [0, SetpointMax[mode]]; only that mode's slot changes. */
    method SetSetpointForMode(modeArg: PyValue, value: PyValue) returns (r: Outcome)
      requires Valid()
      modifies this`setpoint
      ensures Valid()
      ensures r.Pass? <==> IntOf(modeArg).Some? && 0 <= IntOf(modeArg).value <= 2 && IntOf(value).Some? &&
                           0 <= IntOf(value).value <= SetpointMax[IntOf(modeArg).value]
      ensures r.Pass? ==> setpoint == old(setpoint)[IntOf(modeArg).value := IntOf(value).value]
      ensures r.Fail? ==> r.error.ValueError? && setpoint == old(setpoint)
    {
      var m := IntOf(modeArg);
      if m.None? {
        return Fail(ValueError(ModeNotInteger));
      }
      if m.value < 0 || m.value > 2 {
        return Fail(ValueError(ModeOutOfRange));
      }
      var v := IntOf(value);
      if v.None? {
        return Fail(ValueError(SetpointNotInteger));
      }
      if v.value < 0 || v.value > SetpointMax[m.value] {
        return Fail(ValueError(SetpointOutOfRange + IntToDecimal(SetpointMax[m.value])));
      }
      setpoint := setpoint[m.value := v.value];
      r := Pass;
    }

    /** get_pid_values: the gain list of mode 0, 1 or 2 (compared with ==). */
    function GetPidValues(modeArg: PyValue): (r: Result<seq<real>>)
      requires Valid()
      reads this, Buffers()
      ensures r.Ok? <==> EqualsInt(modeArg, 0) || EqualsInt(modeArg, 1) || EqualsInt(modeArg, 2)
      ensures EqualsInt(modeArg, 0) ==> r == Ok(pidVoltage)
      ensures EqualsInt(modeArg, 1) ==> r == Ok(pidPower)
      ensures EqualsInt(modeArg, 2) ==> r == Ok(pidCurrent)
      ensures r.Ok? ==> |r.value| == 3
      ensures r.Err? ==> r == Err(ValueError(PidModeInvalid))
    {
      if EqualsInt(modeArg, 0) then Ok(pidVoltage)
      else if EqualsInt(modeArg, 1) then Ok(pidPower)
      else if EqualsInt(modeArg, 2) then Ok(pidCurrent)
      else Err(ValueError(PidModeInvalid))
    }

    /** set_pid_values: the index must convert to an integer in 0..2 and the
        value to a float; the list is then indexed with the index object as
        given, which only an int can do. */
    method SetPidValues(modeArg: PyValue, index: PyValue, newValue: PyValue) returns (r: Outcome)
      requires Valid()
      modifies this`pidVoltage, this`pidPower, this`pidCurrent
      ensures Valid()
      ensures r.Pass? <==> index.PyInt? && 0 <= index.i <= 2 && FloatOf(newValue).Some? &&
                           (EqualsInt(modeArg, 0) || EqualsInt(modeArg, 1) || EqualsInt(modeArg, 2))
      ensures r.Pass? && EqualsInt(modeArg, 0) ==> pidVoltage == old(pidVoltage)[index.i := FloatOf(newValue).value]
      ensures r.Pass? && EqualsInt(modeArg, 1) ==> pidPower == old(pidPower)[index.i := FloatOf(newValue).value]
      ensures r.Pass? && EqualsInt(modeArg, 2) ==> pidCurrent == old(pidCurrent)[index.i := FloatOf(newValue).value]
      ensures r.Pass? && !EqualsInt(modeArg, 0) ==> pidVoltage == old(pidVoltage)
      ensures r.Pass? && !EqualsInt(modeArg, 1) ==> pidPower == old(pidPower)
      ensures r.Pass? && !EqualsInt(modeArg, 2) ==> pidCurrent == old(pidCurrent)
      ensures r.Fail? ==> pidVoltage == old(pidVoltage) && pidPower == old(pidPower) && pidCurrent == old(pidCurrent)
      ensures (r.Fail? && IntOf(index).Some? && 0 <= IntOf(index).value <= 2 && FloatOf(newValue).Some? &&
               (EqualsInt(modeArg, 0) || EqualsInt(modeArg, 1) || EqualsInt(modeArg, 2))) ==> r == Fail(TypeError)
      ensures r.Fail? && r != Fail(TypeError) ==> r.error.ValueError?
      ensures r.Pass? ==> GetPidValues(modeArg).Ok? && GetPidValues(modeArg).value[index.i] == FloatOf(newValue).value
    {
      var k := IntOf(index);
      if k.None? {
        return Fail(ValueError(IndexNotInteger));
      }
      if k.value < 0 || k.value > 2 {
        return Fail(ValueError(IndexOutOfRange));
      }
      var x := FloatOf(newValue);
      if x.None? {
        return Fail(ValueError(GainNotNumber));
      }
      if !(EqualsInt(modeArg, 0) || EqualsInt(modeArg, 1) || EqualsInt(modeArg, 2)) {
        return Fail(ValueError(PidModeInvalid));
      }
      if !index.PyInt? {
        return Fail(TypeError);   // list indices must be integers
      }
      if EqualsInt(modeArg, 0) {
        pidVoltage := pidVoltage[index.i := x.value];
      } else if EqualsInt(modeArg, 1) {
        pidPower := pidPower[index.i := x.value];
      } else {
        pidCurrent := pidCurrent[index.i := x.value];
      }
      r := Pass;
    }

    // -------------------------------------------------------------------------
    // Buffer helpers

    /** Pushes one value into each of the five buffers, in order. */
    method AddValuesToBuffers(processTime: real, voltageCalc: real, voltagePs: real, powerPs: real,
                              currentPs: real) returns (r: Outcome)
      requires Valid()
      modifies Buffers()
      ensures Valid()
      ensures bufferSize == 0 ==> r == Fail(IndexError) && unchanged(Buffers())
      ensures bufferSize > 0 ==> r == Pass
      ensures bufferSize > 0 ==> bufferTime.buffer == Shift(old(bufferTime.buffer), processTime)
      ensures bufferSize > 0 ==> bufferVoltageCalc.buffer == Shift(old(bufferVoltageCalc.buffer), voltageCalc)
      ensures bufferSize > 0 ==> bufferVoltagePs.buffer == Shift(old(bufferVoltagePs.buffer), voltagePs)
      ensures bufferSize > 0 ==> bufferPowerPs.buffer == Shift(old(bufferPowerPs.buffer), powerPs)
      ensures bufferSize > 0 ==> bufferCurrentPs.buffer == Shift(old(bufferCurrentPs.buffer), currentPs)
    {
      r := bufferTime.Update(processTime);
      if r.Fail? {
        return;
      }
      r := bufferVoltageCalc.Update(voltageCalc);
      r := bufferVoltagePs.Update(voltagePs);
      r := bufferPowerPs.Update(powerPs);
      r := bufferCurrentPs.Update(currentPs);
    }

    /** Zeroes all five buffers. */
    method ClearBuffers()
      requires Valid()
      modifies Buffers()
      ensures Valid()
      ensures bufferTime.buffer == Zeros(bufferSize) && bufferVoltageCalc.buffer == Zeros(bufferSize)
      ensures bufferVoltagePs.buffer == Zeros(bufferSize) && bufferPowerPs.buffer == Zeros(bufferSize)
      ensures bufferCurrentPs.buffer == Zeros(bufferSize)
    {
      bufferTime.Clear();
      bufferVoltageCalc.Clear();
      bufferVoltagePs.Clear();
      bufferPowerPs.Clear();
      bufferCurrentPs.Clear();
    }

    /** Trailing averages of the measured voltage, power and current. */
    method CalculateAverages(n: int) returns (r: Result<(real, real, real)>)
      requires Valid()
      ensures r == Averages(bufferVoltagePs.buffer, bufferPowerPs.buffer, bufferCurrentPs.buffer, n)
    {
      var v := bufferVoltagePs.AverageOfLast(n);
      if v.Err? {
        return Err(v.error);
      }
      var p := bufferPowerPs.AverageOfLast(n);
      if p.Err? {
        return Err(p.error);
      }
      var c := bufferCurrentPs.AverageOfLast(n);
      if c.Err? {
        return Err(c.error);
      }
      r := Ok((v.value, p.value, c.value));
    }

    // -------------------------------------------------------------------------
    // Regulator

    /** pid_control_one_cycle: the PID arithmetic, then the "VOLT" write of the clamped output. */
    method PidControlOneCycle(timePrev: real, ePrev: real, eSum: real, g: Gains, actual: real, desired: real,
                              timeAct: real) returns (r: Result<CycleResult>)
      modifies this`sentVoltages
      ensures r == PidCycle(timePrev, ePrev, eSum, g, actual, desired, timeAct,
                            underVoltageProtection, overVoltageProtection)
      ensures r.Err? ==> sentVoltages == old(sentVoltages)
      ensures r.Ok? ==> sentVoltages == old(sentVoltages) + [r.value.u]
    {
      r := PidCycle(timePrev, ePrev, eSum, g, actual, desired, timeAct, underVoltageProtection, overVoltageProtection);
      if r.Ok? {
        sentVoltages := sentVoltages + [r.value.u];
      }
    }

    /** One pass of the pid_control loop body: choose the mode from the previous
        averages, reseed the integral on a mode change, step the PID of the
        chosen mode, push the cycle into the buffers and average them again. */
    method ControlCycle(st: LoopState, sample: Sample, gv: Gains, gp: Gains, gi: Gains) returns (r: Result<LoopState>)
      requires Valid() && 0 <= st.modePrev <= 2
      modifies this`mode, this`sentVoltages, Buffers()
      ensures Valid()
      ensures mode == ModeDetermination(st.avgV, st.avgP, st.avgI, setpoint, st.modePrev)
      ensures r.Ok? ==> r.value.modePrev == mode
      ensures var step := PidCycle(st.timePrev, st.ePrev, SeededSum(st, mode), GainsOf(mode, gv, gp, gi),
                                   Measured(mode, sample), setpoint[mode] as real, sample.elapsed,
                                   underVoltageProtection, overVoltageProtection);
              && (step.Err? ==> r == Err(step.error) && sentVoltages == old(sentVoltages) && unchanged(Buffers()))
              && (step.Ok? ==> sentVoltages == old(sentVoltages) + [step.value.u])
              && (step.Ok? && bufferSize == 0 ==> r == Err(IndexError) && unchanged(Buffers()))
              && (step.Ok? && bufferSize > 0 ==>
                    && bufferTime.buffer == Shift(old(bufferTime.buffer), step.value.timePrev)
                    && bufferVoltageCalc.buffer == Shift(old(bufferVoltageCalc.buffer), step.value.u)
                    && bufferVoltagePs.buffer == Shift(old(bufferVoltagePs.buffer), sample.voltage)
                    && bufferPowerPs.buffer == Shift(old(bufferPowerPs.buffer), sample.power)
                    && bufferCurrentPs.buffer == Shift(old(bufferCurrentPs.buffer), sample.current)
                    && r == NextState(step.value, mode, Averages(bufferVoltagePs.buffer, bufferPowerPs.buffer,
                                                                 bufferCurrentPs.buffer, modeDeterminationCount)))
    {
      mode := ModeDetermination(st.avgV, st.avgP, st.avgI, setpoint, st.modePrev);
      var eSum := st.eSum;
      if mode != st.modePrev {
        eSum := st.uPrev;
      }
      var actual: real;
      var g: Gains;
      if mode == VoltageMode {
        actual, g := sample.voltage, gv;
      } else if mode == PowerMode {
        actual, g := sample.power, gp;
      } else {
        actual, g := sample.current, gi;
      }
      var step := PidControlOneCycle(st.timePrev, st.ePrev, eSum, g, actual, setpoint[mode] as real, sample.elapsed);
      if step.Err? {
        return Err(step.error);
      }
      var pushed := AddValuesToBuffers(step.value.timePrev, step.value.u, sample.voltage, sample.power, sample.current);
      if pushed.Fail? {
        return Err(pushed.error);
      }
      var avgs := CalculateAverages(modeDeterminationCount);
      r := NextState(step.value, mode, avgs);
    }

    /** ControlCycle as the loop sees it: the voltages sent, and the exception
        or the next loop state and histories, are those of the one-cycle function
        Cycle on the regulator and histories the cycle starts from. */
    method LoopCycle(st: LoopState, sample: Sample, gv: Gains, gp: Gains, gi: Gains,
                     ghost reg: Regulator, ghost h: History) returns (r: Result<LoopState>)
      requires Valid() && 0 <= st.modePrev <= 2
      requires reg == RegulatorOf(gv, gp, gi) && h == Measurements()
      modifies this`mode, this`sentVoltages, Buffers()
      ensures Valid() && setpoint == old(setpoint)
      ensures var c := Cycle(reg, st, h, sample);
              && sentVoltages == old(sentVoltages) + c.0
              && (r.Err? <==> c.1.Err?)
              && (r.Err? ==> r.error == c.1.error)
              && (r.Ok? ==> r.value == c.1.value.0 && Measurements() == c.1.value.1)
    {
      r := ControlCycle(st, sample, gv, gp, gi);
    }

    /** The fixed parameters a pid_control run with these gains works with. */
    ghost function RegulatorOf(gv: Gains, gp: Gains, gi: Gains): Regulator
      reads this`setpoint
    {
      Regulator(setpoint, gv, gp, gi, underVoltageProtection, overVoltageProtection, modeDeterminationCount)
    }

    /** The measured histories held in the voltage, power and current buffers. */
    ghost function Measurements(): History
      reads bufferVoltagePs, bufferPowerPs, bufferCurrentPs
    {
      History(bufferVoltagePs.buffer, bufferPowerPs.buffer, bufferCurrentPs.buffer)
    }

    /** pid_control while the output stays on for the given cycles: starts from
        zero averages, a zero integral and output, and the active mode's
        setpoint as the previous error; stops at the first exception. */
    method PidControl(samples: seq<Sample>, startElapsed: real, gv: Gains, gp: Gains, gi: Gains) returns (r: Outcome)
      requires Valid()
      modifies this`mode, this`sentVoltages, Buffers()
      ensures Valid()
      ensures var run := Run(RegulatorOf(gv, gp, gi),
                             LoopState(0.0, setpoint[old(mode)] as real, 0.0, old(mode), startElapsed, 0.0, 0.0, 0.0),
                             old(Measurements()), samples);
              sentVoltages == old(sentVoltages) + run.0 && r == run.1
      ensures old(sentVoltages) <= sentVoltages
      ensures |sentVoltages| <= |old(sentVoltages)| + |samples|
      ensures r.Pass? ==> |sentVoltages| == |old(sentVoltages)| + |samples|
      ensures forall k :: |old(sentVoltages)| <= k < |sentVoltages| ==> sentVoltages[k] <= overVoltageProtection
      ensures underVoltageProtection <= overVoltageProtection ==>
                forall k :: |old(sentVoltages)| <= k < |sentVoltages| ==> underVoltageProtection <= sentVoltages[k]
    {
      ghost var reg := RegulatorOf(gv, gp, gi);
      var st := LoopState(0.0, setpoint[mode] as real, 0.0, mode, startElapsed, 0.0, 0.0, 0.0);
      ghost var st0, h0 := st, Measurements();
      ghost var run := Run(reg, st0, h0, samples);
      RunLength(reg, st0, h0, samples);
      RunBounded(reg, st0, h0, samples);
      ghost var rest := run;
      var n := 0;
      while n < |samples|
        invariant 0 <= n <= |samples|
        invariant Valid() && 0 <= st.modePrev <= 2
        invariant reg == RegulatorOf(gv, gp, gi) && h0 == old(Measurements())
        invariant st0 == LoopState(0.0, setpoint[old(mode)] as real, 0.0, old(mode), startElapsed, 0.0, 0.0, 0.0)
        invariant rest == Run(reg, st, Measurements(), samples[n..])
        invariant old(sentVoltages) + run.0 == sentVoltages + rest.0 && run.1 == rest.1
      {
        ghost var sent := sentVoltages;
        ghost var h := Measurements();
        ghost var c := Cycle(reg, st, h, samples[n]);
        assert samples[n..][0] == samples[n] && samples[n..][1..] == samples[n + 1..];
        RunUnfold(reg, st, Measurements(), samples[n..]);
        var next := LoopCycle(st, samples[n], gv, gp, gi, reg, h);
        assert sentVoltages == sent + c.0;
        if next.Err? {
          assert rest == (c.0, Fail(next.error));
          return Fail(next.error);
        }
        ghost var tail := Run(reg, next.value, Measurements(), samples[n + 1..]);
        assert rest == (c.0 + tail.0, tail.1);
        AppendAssociates(sent, c.0, tail.0);
        st := next.value;
        rest := tail;
        n := n + 1;
      }
      r := Pass;
    }
  }

  // ---------------------------------------------------------------------------
  // Properties

  /** Anti-windup: on a mode change the step's integral starts from the previous output, so
      the new integral is that output plus the new error over the cycle. */
  lemma ReseedOnModeChange(st: LoopState, mode: int, g: Gains, actual: real, desired: real, timeAct: real,
                           uvp: real, ovp: real)
    requires mode != st.modePrev && timeAct != st.timePrev
    ensures PidCycle(st.timePrev, st.ePrev, SeededSum(st, mode), g, actual, desired, timeAct, uvp, ovp).value.eSum
            == st.uPrev + (desired - actual) * (timeAct - st.timePrev)
  {
  }

  /** With limits V = 100, P = 50, I = 200: an average that reaches the voltage
      limit selects voltage whatever ran before, and a power average over its
      limit wins over a voltage mode that reached none. */
  lemma SelectorExamples()
    ensures ModeDetermination(100.0, 40.0, 150.0, [100, 50, 200], CurrentMode) == VoltageMode
    ensures ModeDetermination(90.0, 55.0, 150.0, [100, 50, 200], VoltageMode) == PowerMode
  {
    assert RoundHalfEven(100.0) == 100 && RoundHalfEven(40.0) == 40 && RoundHalfEven(150.0) == 150;
    assert RoundHalfEven(90.0) == 90 && RoundHalfEven(55.0) == 55;
  }

  /** A purely proportional step with unit gain against a measured 0 commands
      the clamped setpoint: setpoint 50 gives Clamp(50). */
  lemma ProportionalStep(timePrev: real, ePrev: real, eSum: real, timeAct: real, uvp: real, ovp: real)
    requires timeAct != timePrev
    ensures PidCycle(timePrev, ePrev, eSum, Gains(1.0, 0.0, 0.0), 0.0, 50.0, timeAct, uvp, ovp)
            == Ok(CycleResult(timeAct, 50.0, eSum + 50.0 * (timeAct - timePrev), Clamp(50.0, uvp, ovp)))
  {
    assert RoundHalfEven(500.0) == 500;
  }

  lemma AppendAssociates<T>(a: seq<T>, b: seq<T>, c: seq<T>)
    ensures a + (b + c) == (a + b) + c
  {
  }

  /** A run on a non-empty sample list is its first cycle followed, when that
      cycle completes, by the run on the remaining samples. */
  lemma RunUnfold(reg: Regulator, st: LoopState, h: History, samples: seq<Sample>)
    requires WellFormed(reg, st, h) && |samples| > 0
    ensures var c := Cycle(reg, st, h, samples[0]);
            && (c.1.Err? ==> Run(reg, st, h, samples) == (c.0, Fail(c.1.error)))
            && (c.1.Ok? ==> Run(reg, st, h, samples) ==
                              (c.0 + Run(reg, c.1.value.0, c.1.value.1, samples[1..]).0,
                               Run(reg, c.1.value.0, c.1.value.1, samples[1..]).1))
  {
  }

  /** At most one voltage per sample, and one for every sample when the loop
      runs to the end. */
  lemma {:induction false} RunLength(reg: Regulator, st: LoopState, h: History, samples: seq<Sample>)
    requires WellFormed(reg, st, h)
    ensures |Run(reg, st, h, samples).0| <= |samples|
    ensures Run(reg, st, h, samples).1 == Pass ==> |Run(reg, st, h, samples).0| == |samples|
    decreases |samples|
  {
    if |samples| > 0 {
      var next := Cycle(reg, st, h, samples[0]).1;
      if next.Ok? {
        RunLength(reg, next.value.0, next.value.1, samples[1..]);
      }
    }
  }

  /** Every voltage the loop sends lies within the protection bounds. */
  lemma {:induction false} RunBounded(reg: Regulator, st: LoopState, h: History, samples: seq<Sample>)
    requires WellFormed(reg, st, h)
    ensures forall k :: 0 <= k < |Run(reg, st, h, samples).0| ==> Run(reg, st, h, samples).0[k] <= reg.ovp
    ensures reg.uvp <= reg.ovp ==>
              forall k :: 0 <= k < |Run(reg, st, h, samples).0| ==> reg.uvp <= Run(reg, st, h, samples).0[k]
    decreases |samples|
  {
    if |samples| > 0 {
      var next := Cycle(reg, st, h, samples[0]).1;
      if next.Ok? {
        RunBounded(reg, next.value.0, next.value.1, samples[1..]);
      }
    }
  }

  /** A zero buffer size, a zero window or a window wider than the buffers makes
      the first cycle fail right after sending its voltage. */
  lemma RunWindowFails(reg: Regulator, st: LoopState, h: History, samples: seq<Sample>)
    requires WellFormed(reg, st, h) && |samples| > 0
    requires |h.v| == 0 || reg.window == 0 || reg.window > |h.v|
    ensures Run(reg, st, h, samples).1.Fail?
    ensures |Run(reg, st, h, samples).0| <= 1
  {
  }
}
