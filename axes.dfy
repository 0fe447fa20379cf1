/** `_get_scale`, `_get_axis_class` and `_get_num_minor_ticks`. */
module Axes {
  import opened Values
  import opened Framework

  /** The axis types that go with a linear scale on a continuous range. */
  const LinearAxisTypes: set<Option<string>> :=
    {Some("linear"), Some("datetime"), Some("mercator"), Some("auto"), None}

  predicate Continuous(r: RangeKind) {
    r == DataRange1d || r == Range1d
  }

  /** `_get_scale(range_input, axis_type)` */
  function GetScale(r: RangeKind, axisType: Option<string>): (s: Result<ScaleClass>)
    ensures s.Success? <==> r == FactorRange || (Continuous(r) && (axisType in LinearAxisTypes || axisType == Some("log")))
    ensures s == Success(LogScale) <==> Continuous(r) && axisType == Some("log")
    ensures s == Success(CategoricalScale) <==> r == FactorRange
    ensures s.Failure? ==> s.error == UnknownScale
  {
    if Continuous(r) && axisType in LinearAxisTypes then Success(LinearScale)
    else if Continuous(r) && axisType == Some("log") then Success(LogScale)
    else if r == FactorRange then Success(CategoricalScale)
    else Failure(UnknownScale)
  }

  /** `_get_axis_class(axis_type, range_input, dim)`: `None` for no axis, or
      the axis class and its keyword arguments. `startIsDatetime` is whether
      the range's start validates as a datetime. */
  function GetAxisClass(axisType: Option<string>, r: RangeKind, dim: int, startIsDatetime: bool)
    : (a: Result<Option<(AxisClass, map<string, string>)>>)
    ensures a.Failure? <==> axisType.Some? && axisType.value !in {"linear", "log", "datetime", "mercator", "auto"}
    ensures a.Failure? ==> a.error == UnrecognizedAxisType(axisType.value)
    ensures a == Success(None) <==> axisType.None?
    ensures a.Success? && a.value.Some? && a.value.value.0 == MercatorAxis ==>
              a.value.value.1 == map["dimension" := if dim == 0 then "lon" else "lat"]
    ensures a.Success? && a.value.Some? && a.value.value.0 != MercatorAxis ==> a.value.value.1 == map[]
    ensures axisType.Some? && axisType.value in {"linear", "log", "datetime", "mercator"} ==>
              a.Success? && a.value.Some? &&
              a.value.value.0 == (if axisType.value == "linear" then LinearAxis
                                  else if axisType.value == "log" then LogAxis
                                  else if axisType.value == "datetime" then DatetimeAxis
                                  else MercatorAxis)
    ensures axisType == Some("auto") ==>
              a.Success? && a.value.Some? &&
              a.value.value.0 == (if r == FactorRange then CategoricalAxis
                                  else if r == Range1d && startIsDatetime then DatetimeAxis
                                  else LinearAxis)
  {
    match axisType
    case None => Success(None)
    case Some(t) =>
      if t == "linear" then Success(Some((LinearAxis, map[])))
      else if t == "log" then Success(Some((LogAxis, map[])))
      else if t == "datetime" then Success(Some((DatetimeAxis, map[])))
      else if t == "mercator" then
        Success(Some((MercatorAxis, map["dimension" := if dim == 0 then "lon" else "lat"])))
      else if t == "auto" then
        if r == FactorRange then Success(Some((CategoricalAxis, map[])))
        else if r == Range1d && startIsDatetime then Success(Some((DatetimeAxis, map[])))
        else Success(Some((LinearAxis, map[])))
      else Failure(UnrecognizedAxisType(t))
  }

  /** `_get_num_minor_ticks(axis_class, num_minor_ticks)`. A value that is
      none of an integer, `None` or "auto" falls off the end of the function,
      which returns `None`: that is `Success(None)`. A Python `bool` is an
      `int` (0 or 1), so it is rejected as too small. */
  function NumMinorTicks(axis: AxisClass, v: Value): (n: Result<Option<int>>)
    ensures v.Int? && v.i > 1 ==> n == Success(Some(v.i))
    ensures v.Int? && v.i <= 1 ==> n == Failure(MinorTicksTooSmall(v.i))
    ensures v.Bool? ==> n.Failure?
    ensures v == NoneV ==> n == Success(Some(0))
    ensures v == Str("auto") ==> n == Success(Some(if axis == LogAxis then 10 else 5))
    ensures n.Success? && n.value.Some? ==> n.value.value == 0 || n.value.value > 1
    ensures n.Success? && n.value.None? <==>
              !(v.Int? || v.Bool? || v == NoneV || v == Str("auto"))
  {
    match v
    case Int(i) => if i <= 1 then Failure(MinorTicksTooSmall(i)) else Success(Some(i))
    case Bool(b) => Failure(MinorTicksTooSmall(if b then 1 else 0))
    case NoneV => Success(Some(0))
    case _ => if v == Str("auto") then Success(Some(if axis == LogAxis then 10 else 5)) else Success(None)
  }

  /** On a continuous range, an explicit axis type gets a log scale exactly
      when it gets a log axis. */
  lemma ScaleMatchesAxis(r: RangeKind, t: string, dim: int, startIsDatetime: bool)
    requires Continuous(r) && t in {"linear", "log", "datetime", "mercator", "auto"}
    ensures GetScale(r, Some(t)).Success?
    ensures GetAxisClass(Some(t), r, dim, startIsDatetime).Success?
    ensures GetAxisClass(Some(t), r, dim, startIsDatetime).value.Some?
    ensures GetScale(r, Some(t)) == Success(LogScale) <==>
            GetAxisClass(Some(t), r, dim, startIsDatetime).value.value.0 == LogAxis
  {
  }

  /** On a factor range the "auto" axis type gives a categorical scale and a
      categorical axis. */
  lemma FactorRangeIsCategorical(dim: int, startIsDatetime: bool)
    ensures GetScale(FactorRange, Some("auto")) == Success(CategoricalScale)
    ensures GetAxisClass(Some("auto"), FactorRange, dim, startIsDatetime) ==
            Success(Some((CategoricalAxis, map[])))
  {
  }
}
