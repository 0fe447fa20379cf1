/** The host framework's objects, reduced to the records and tags the
    helpers inspect. Their construction and behaviour are not modelled. */
module Framework {
  import opened Values

  /** A data source; `columnNames` is `None` when it has no `column_names`. */
  datatype DataSource = DataSource(id: nat, columnNames: Option<set<string>>)

  /** A glyph renderer, identified, with its configured data source. */
  datatype GlyphRenderer = GlyphRenderer(id: nat, dataSource: Option<DataSource>)

  /** A legend item label: `field(name)`, `value(text)` or unset. */
  datatype Label = FieldLabel(field: string) | ValueLabel(text: string) | NoLabel

  /** A legend item: one label shared by a list of renderers, and the row
      `index` that grouped items carry. */
  datatype LegendItem = LegendItem(labelSpec: Label, renderers: seq<GlyphRenderer>, index: Option<nat>)

  /** A legend, whose item list the legend helpers extend in place. */
  class Legend {
    var items: seq<LegendItem>

    constructor ()
      ensures items == []
    {
      items := [];
    }
  }

  /** A plot: the view-model names of its renderers, and the legends
      found by `plot.select(type=Legend)`. */
  class Plot {
    var renderers: seq<string>
    var legends: seq<Legend>

    constructor (renderers: seq<string>, legends: seq<Legend>)
      ensures this.renderers == renderers && this.legends == legends
    {
      this.renderers := renderers;
      this.legends := legends;
    }
  }

  /** Kinds of range object, as `_get_scale` and `_get_axis_class` test them. */
  datatype RangeKind = DataRange1d | Range1d | FactorRange | OtherRange

  datatype ScaleClass = LinearScale | LogScale | CategoricalScale

  datatype AxisClass = LinearAxis | LogAxis | DatetimeAxis | MercatorAxis | CategoricalAxis

  datatype ToolClass =
    | PanTool | WheelPanTool | WheelZoomTool | ZoomInTool | ZoomOutTool
    | TapTool | CrosshairTool | BoxSelectTool | PolySelectTool | LassoSelectTool
    | BoxZoomTool | HoverTool | SaveTool | UndoTool | RedoTool | ResetTool
    | HelpTool | BoxEditTool | PointDrawTool | PolyDrawTool | PolyEditTool

  /** The one constructor argument a tool is built with, if any. */
  datatype ToolSetting =
    | Defaults
    | Dimensions(dims: string)
    | Dimension(dim: string)
    | Behavior(behavior: string)
    | Tooltips(tips: TooltipsArg)

  /** A hover tool's tooltips: a template string or (label, field) rows. */
  datatype TooltipsArg = TipsText(text: string) | TipsTable(rows: seq<(string, string)>)

  datatype Tool = Tool(cls: ToolClass, setting: ToolSetting)
}
