/** The three-axes real-time plot of the DC supply's values: the only state the
    plot keeps besides its drawing is the upper limit of each y axis. */
module Plots {
  import opened PyBase

  /** The largest upper limit an axis accepts. */
  const YMaxLimit: real := 2000.0

  const AxisNotInteger := "Axes number must be an integer"
  const AxisOutOfRange := "Axes number must be between 0 and 2 (0 = Ax1, 1 = Ax2, 2 = Ax3"
  const ValueNotNumber := "Max value for each axis must be a number"
  const ValueOutOfRange := "Max value for each axes must be than 2000"

  /** Three limits, each within [0, 2000]. */
  predicate ValidLimits(values: seq<real>)
  {
    |values| == 3 && forall k :: 0 <= k < 3 ==> 0.0 <= values[k] <= YMaxLimit
  }

  /** The checks of set_y_max_values, in their order: the axis number must convert
      to an int in 0..2, then the value to a float in [0, 2000]; the result is the
      slot and the limit to store there. */
  function AxisLimit(axNumber: PyValue, value: PyValue): (r: Result<(int, real)>)
    ensures r.Ok? <==>
              && IntOf(axNumber).Some? && 0 <= IntOf(axNumber).value <= 2
              && FloatOf(value).Some? && 0.0 <= FloatOf(value).value <= YMaxLimit
    ensures r.Ok? ==> r.value == (IntOf(axNumber).value, FloatOf(value).value)
    ensures IntOf(axNumber).None? ==> r == Err(ValueError(AxisNotInteger))
    ensures IntOf(axNumber).Some? && !(0 <= IntOf(axNumber).value <= 2) ==> r == Err(ValueError(AxisOutOfRange))
    ensures IntOf(axNumber).Some? && 0 <= IntOf(axNumber).value <= 2 && FloatOf(value).None? ==>
              r == Err(ValueError(ValueNotNumber))
    ensures (IntOf(axNumber).Some? && 0 <= IntOf(axNumber).value <= 2 && FloatOf(value).Some?
             && !(0.0 <= FloatOf(value).value <= YMaxLimit)) ==> r == Err(ValueError(ValueOutOfRange))
  {
    match IntOf(axNumber)
    case None => Err(ValueError(AxisNotInteger))
    case Some(k) =>
      if k < 0 || k > 2 then Err(ValueError(AxisOutOfRange))
      else
        match FloatOf(value)
        case None => Err(ValueError(ValueNotNumber))
        case Some(x) =>
          if x < 0.0 || x > YMaxLimit then Err(ValueError(ValueOutOfRange))
          else Ok((k, x))
  }

  class Plot3Axes {
    var yMaxValues: seq<real>

    ghost predicate Valid()
      reads this
    {
      ValidLimits(yMaxValues)
    }

    /** The limits start at zero (the configuration file is not part of this model). */
    constructor ()
      ensures Valid() && yMaxValues == [0.0, 0.0, 0.0]
    {
      yMaxValues := [0.0, 0.0, 0.0];
    }

    /** The y_max_values getter. */
    function YMaxValues(): (v: seq<real>)
      reads this
      requires Valid()
      ensures ValidLimits(v)
    {
      yMaxValues
    }

    /** set_y_max_values: an accepted limit replaces its slot and nothing else;
        a refused one changes nothing. */
    method SetYMaxValues(axNumber: PyValue, value: PyValue) returns (r: Outcome)
      requires Valid()
      modifies this
      ensures Valid()
      ensures match AxisLimit(axNumber, value)
              case Ok(slot) => r == Pass && yMaxValues == old(yMaxValues)[slot.0 := slot.1]
              case Err(e) => r == Fail(e) && yMaxValues == old(yMaxValues)
    {
      var k := IntOf(axNumber);
      if k.None? {
        return Fail(ValueError(AxisNotInteger));
      }
      if k.value < 0 || k.value > 2 {
        return Fail(ValueError(AxisOutOfRange));
      }
      var x := FloatOf(value);
      if x.None? {
        return Fail(ValueError(ValueNotNumber));
      }
      if x.value < 0.0 || x.value > YMaxLimit {
        return Fail(ValueError(ValueOutOfRange));
      }
      yMaxValues := yMaxValues[k.value := x.value];
      r := Pass;
    }
  }
}
