/** Python values as they reach the plotting helpers through keyword
    arguments, and the error and result wrappers the helpers use. */
module Values {

  datatype Option<+T> = None | Some(value: T)

  /** The helpers either return a value or raise; `Failure` is the raise. */
  datatype Result<+R> = Success(value: R) | Failure(error: Error)

  /** A procedure that only changes state either completes or raises. */
  datatype Outcome = Pass | Fail(error: Error)

  /** A keyword-argument value. Floating-point numbers are kept opaque
      (their literal text), framework objects are opaque handles. */
  datatype Value =
    | NoneV
    | Bool(b: bool)
    | Int(i: int)
    | Float(literal: string)
    | Str(s: string)
    | ListV(items: seq<Value>)
    | TupleV(items: seq<Value>)
    | DictV(entries: map<string, Value>)
    | StackV(fields: seq<string>)        // the result of `stack(*fields)`
    | Obj(id: nat)                       // an opaque framework object
    | NewColumnDataSource                // a freshly built empty data source

  /** `isinstance(v, (list, tuple))` */
  predicate IsSequence(v: Value) {
    v.ListV? || v.TupleV?
  }

  /** Each `raise` of the helpers, by cause (message text is not modelled). */
  datatype Error =
    | StackPropertyInKwargs(name: string)
    | BroadcastLengthsDiffer(lengths: set<nat>)
    | BroadcastLengthMismatch(stackers: nat)
    | MultipleLegendArgs(given: seq<string>)
    | BadLegendValue
    | LegendLabelNotString
    | LegendFieldNotString
    | LegendGroupNotString
    | GroupWithoutSource
    | GroupColumnMissing
    | MultipleLegends
    | EmptyLegendKwarg                   // IndexError of `list(...)[0]`
    | UnknownLegendKwarg(kwarg: string)  // KeyError of the handler table
    | UnknownScale
    | UnrecognizedAxisType(axisType: string)
    | MinorTicksTooSmall(n: int)
    | UnknownTool(name: string)
    | BadToolItem
    | PaletteExhausted(index: nat)       // IndexError of `colors[n]`
}
