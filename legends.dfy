/** The legend keyword arguments of the glyph methods: `_pop_legend_kwarg`,
    `_find_legend_item`, the four `_handle_legend_*` handlers,
    `_get_or_create_legend` and `_update_legend`. */
module Legends {
  import opened Values
  import opened Dicts
  import opened Framework

  /** `_LEGEND_ARGS` */
  const LegendArgs: seq<string> := ["legend", "legend_label", "legend_field", "legend_group"]

  function KeysOf(pairs: seq<(string, Value)>): seq<string>
  {
    seq(|pairs|, i requires 0 <= i < |pairs| => pairs[i].0)
  }

  /** `_pop_legend_kwarg(kwargs)`: all four legend keywords are popped; more
      than one of them present is an error. */
  method PopLegendKwarg(kwargs: Kwargs) returns (r: Result<seq<(string, Value)>>)
    modifies kwargs
    ensures kwargs.entries == old(kwargs.entries) - set a | a in LegendArgs
    ensures var given := PresentIn(LegendArgs, old(kwargs.entries));
            r == if |given| > 1 then Failure(MultipleLegendArgs(KeysOf(given))) else Success(given)
  {
    var given := kwargs.PopEach(LegendArgs);
    if |given| > 1 {
      return Failure(MultipleLegendArgs(KeysOf(given)));
    }
    return Success(given);
  }

  /** `_find_legend_item(label, legend)`: the position of the first item
      whose label equals `l`. */
  function FindLegendItem(l: Label, items: seq<LegendItem>): (r: Option<nat>)
    ensures r.Some? ==> r.value < |items| && items[r.value].labelSpec == l
    ensures r.Some? ==> forall k :: 0 <= k < r.value ==> items[k].labelSpec != l
    ensures r.None? <==> forall k :: 0 <= k < |items| ==> items[k].labelSpec != l
  {
    if items == [] then None
    else if items[0].labelSpec == l then Some(0)
    else match FindLegendItem(l, items[1..])
      case None => None
      case Some(j) => Some(j + 1)
  }

  /** The items after a renderer joins the item labelled `l`, or a new item
      for it when there is none. */
  function Merged(items: seq<LegendItem>, l: Label, g: GlyphRenderer): seq<LegendItem>
  {
    match FindLegendItem(l, items)
    case Some(j) => items[j := items[j].(renderers := items[j].renderers + [g])]
    case None => items + [LegendItem(l, [g], None)]
  }

  /** `_handle_legend_label`, on values */
  function LabelUpdate(v: Value, items: seq<LegendItem>, g: GlyphRenderer): Result<seq<LegendItem>>
  {
    if v.Str? then Success(Merged(items, ValueLabel(v.s), g)) else Failure(LegendLabelNotString)
  }

  /** `_handle_legend_field`, on values */
  function FieldUpdate(v: Value, items: seq<LegendItem>, g: GlyphRenderer): Result<seq<LegendItem>>
  {
    if v.Str? then Success(Merged(items, FieldLabel(v.s), g)) else Failure(LegendFieldNotString)
  }

  /** Whether the renderer's data source has a column `name`. */
  predicate HasColumn(g: GlyphRenderer, name: string)
  {
    g.dataSource.Some? && g.dataSource.value.columnNames.Some? &&
    name in g.dataSource.value.columnNames.value
  }

  /** The label the deprecated `legend` keyword stands for: a string names a
      column of the renderer's source when there is one, and is a plain
      value otherwise; a one-entry dict says which explicitly. */
  function DeprecatedLabel(v: Value, g: GlyphRenderer): Result<Label>
  {
    match v
    case Str(s) => Success(if HasColumn(g, s) then FieldLabel(s) else ValueLabel(s))
    case DictV(m) =>
      if "field" in m && |m| == 1 then
        (if m["field"].Str? then Success(FieldLabel(m["field"].s)) else Failure(LegendFieldNotString))
      else if "value" in m && |m| == 1 then
        (if m["value"].Str? then Success(ValueLabel(m["value"].s)) else Failure(LegendLabelNotString))
      else Failure(BadLegendValue)
    case _ => Failure(BadLegendValue)
  }

  /** `_handle_legend_deprecated`, on values */
  function DeprecatedUpdate(v: Value, items: seq<LegendItem>, g: GlyphRenderer): Result<seq<LegendItem>>
  {
    match DeprecatedLabel(v, g)
    case Success(l) => Success(Merged(items, l, g))
    case Failure(e) => Failure(e)
  }

  /** One item per group, labelled by the group's value, as
      `_handle_legend_group` appends them. */
  function GroupItems(groups: seq<(string, nat)>, g: GlyphRenderer): (r: seq<LegendItem>)
    ensures |r| == |groups|
    ensures forall k :: 0 <= k < |groups| ==>
              r[k] == LegendItem(ValueLabel(groups[k].0), [g], Some(groups[k].1))
  {
    seq(|groups|, k requires 0 <= k < |groups| => LegendItem(ValueLabel(groups[k].0), [g], Some(groups[k].1)))
  }

  /** `_handle_legend_group`, on values; `groups` are the distinct values of
      the grouped column with the row where each first occurs. */
  function GroupUpdate(v: Value, items: seq<LegendItem>, g: GlyphRenderer,
                       groups: seq<(string, nat)>): Result<seq<LegendItem>>
  {
    if !v.Str? then Failure(LegendGroupNotString)
    else if g.dataSource.None? then Failure(GroupWithoutSource)
    else if !HasColumn(g, v.s) then Failure(GroupColumnMissing)
    else Success(items + GroupItems(groups, g))
  }

  /** `_LEGEND_KWARG_HANDLERS[kwarg](value, ...)`, on values */
  function KwargUpdate(kwarg: string, v: Value, items: seq<LegendItem>, g: GlyphRenderer,
                       groups: seq<(string, nat)>): Result<seq<LegendItem>>
  {
    if kwarg == "legend" then DeprecatedUpdate(v, items, g)
    else if kwarg == "legend_label" then LabelUpdate(v, items, g)
    else if kwarg == "legend_field" then FieldUpdate(v, items, g)
    else if kwarg == "legend_group" then GroupUpdate(v, items, g, groups)
    else Failure(UnknownLegendKwarg(kwarg))
  }

  /** What `_update_legend` does to the legend's items: the first keyword's
      handler, and an error for an empty keyword dict. */
  function LegendUpdate(legendKwarg: seq<(string, Value)>, items: seq<LegendItem>, g: GlyphRenderer,
                        groups: seq<(string, nat)>): Result<seq<LegendItem>>
  {
    if legendKwarg == [] then Failure(EmptyLegendKwarg)
    else KwargUpdate(legendKwarg[0].0, legendKwarg[0].1, items, g, groups)
  }

  /** A handler completed with the items `e` describes, or raised its error
      and left the items as they were. */
  predicate Effect(e: Result<seq<LegendItem>>, o: Outcome, before: seq<LegendItem>, after: seq<LegendItem>)
  {
    (e.Success? ==> o == Pass && after == e.value) &&
    (e.Failure? ==> o == Fail(e.error) && after == before)
  }

  /** `item.renderers.append(glyph_renderer)` on the found item, or
      `legend.items.append(LegendItem(...))` */
  method AddToLegend(l: Label, legend: Legend, g: GlyphRenderer)
    modifies legend
    ensures legend.items == Merged(old(legend.items), l, g)
  {
    var found := FindLegendItem(l, legend.items);
    if found.Some? {
      var j := found.value;
      legend.items := legend.items[j := legend.items[j].(renderers := legend.items[j].renderers + [g])];
    } else {
      legend.items := legend.items + [LegendItem(l, [g], None)];
    }
  }

  /** `_handle_legend_label(label, legend, glyph_renderer)` */
  method HandleLegendLabel(v: Value, legend: Legend, g: GlyphRenderer) returns (o: Outcome)
    modifies legend
    ensures Effect(LabelUpdate(v, old(legend.items), g), o, old(legend.items), legend.items)
  {
    if !v.Str? {
      return Fail(LegendLabelNotString);
    }
    AddToLegend(ValueLabel(v.s), legend, g);
    return Pass;
  }

  /** `_handle_legend_field(label, legend, glyph_renderer)` */
  method HandleLegendField(v: Value, legend: Legend, g: GlyphRenderer) returns (o: Outcome)
    modifies legend
    ensures Effect(FieldUpdate(v, old(legend.items), g), o, old(legend.items), legend.items)
  {
    if !v.Str? {
      return Fail(LegendFieldNotString);
    }
    AddToLegend(FieldLabel(v.s), legend, g);
    return Pass;
  }

  /** `_handle_legend_deprecated(label, legend, glyph_renderer)` */
  method HandleLegendDeprecated(v: Value, legend: Legend, g: GlyphRenderer) returns (o: Outcome)
    modifies legend
    ensures Effect(DeprecatedUpdate(v, old(legend.items), g), o, old(legend.items), legend.items)
  {
    if v.DictV? {
      var m := v.entries;
      if "field" in m && |m| == 1 {
        o := HandleLegendField(m["field"], legend, g);
      } else if "value" in m && |m| == 1 {
        o := HandleLegendLabel(m["value"], legend, g);
      } else {
        o := Fail(BadLegendValue);
      }
    } else if v.Str? {
      if HasColumn(g, v.s) {
        o := HandleLegendField(v, legend, g);
      } else {
        o := HandleLegendLabel(v, legend, g);
      }
    } else {
      o := Fail(BadLegendValue);
    }
  }

  /** `_handle_legend_group(label, legend, glyph_renderer)`, given the
      distinct values of the column and their first rows */
  method HandleLegendGroup(v: Value, legend: Legend, g: GlyphRenderer, groups: seq<(string, nat)>)
    returns (o: Outcome)
    modifies legend
    ensures Effect(GroupUpdate(v, old(legend.items), g, groups), o, old(legend.items), legend.items)
  {
    if !v.Str? {
      return Fail(LegendGroupNotString);
    }
    if g.dataSource.None? {
      return Fail(GroupWithoutSource);
    }
    if !HasColumn(g, v.s) {
      return Fail(GroupColumnMissing);
    }
    ghost var items0 := legend.items;
    var k := 0;
    while k < |groups|
      invariant 0 <= k <= |groups|
      invariant legend.items == items0 + GroupItems(groups[..k], g)
    {
      assert GroupItems(groups[..k + 1], g) ==
             GroupItems(groups[..k], g) + [LegendItem(ValueLabel(groups[k].0), [g], Some(groups[k].1))];
      legend.items := legend.items + [LegendItem(ValueLabel(groups[k].0), [g], Some(groups[k].1))];
      k := k + 1;
    }
    assert groups[..k] == groups;
    return Pass;
  }

  /** `_get_or_create_legend(plot)` */
  method GetOrCreateLegend(plot: Plot) returns (r: Result<Legend>)
    modifies plot
    ensures plot.renderers == old(plot.renderers)
    ensures |old(plot.legends)| == 0 ==>
              r.Success? && fresh(r.value) && r.value.items == [] && plot.legends == [r.value]
    ensures |old(plot.legends)| == 1 ==>
              r == Success(old(plot.legends[0])) && plot.legends == old(plot.legends)
    ensures |old(plot.legends)| > 1 ==>
              r == Failure(MultipleLegends) && plot.legends == old(plot.legends)
  {
    if |plot.legends| == 0 {
      var legend := new Legend();
      plot.legends := plot.legends + [legend];
      return Success(legend);
    }
    if |plot.legends| == 1 {
      return Success(plot.legends[0]);
    }
    return Failure(MultipleLegends);
  }

  /** `_update_legend(plot, legend_kwarg, glyph_renderer)`: the plot's one
      legend, created when there is none, receives the renderer as the
      first legend keyword says. */
  method UpdateLegend(plot: Plot, legendKwarg: seq<(string, Value)>, g: GlyphRenderer,
                      groups: seq<(string, nat)>) returns (o: Outcome)
    modifies plot, plot.legends
    ensures plot.renderers == old(plot.renderers)
    ensures |old(plot.legends)| > 1 ==>
              o == Fail(MultipleLegends) && plot.legends == old(plot.legends) &&
              forall k :: 0 <= k < |plot.legends| ==> plot.legends[k].items == old(plot.legends[k].items)
    ensures |old(plot.legends)| == 1 ==> plot.legends == old(plot.legends)
    ensures |old(plot.legends)| == 0 ==> |plot.legends| == 1 && fresh(plot.legends[0])
    ensures |old(plot.legends)| <= 1 ==>
              Effect(LegendUpdate(legendKwarg, if |old(plot.legends)| == 1 then old(plot.legends[0].items) else [],
                                  g, groups),
                     o, if |old(plot.legends)| == 1 then old(plot.legends[0].items) else [],
                     plot.legends[0].items)
  {
    var r := GetOrCreateLegend(plot);
    if r.Failure? {
      return Fail(r.error);
    }
    var legend := r.value;
    if legendKwarg == [] {
      return Fail(EmptyLegendKwarg);
    }
    var kwarg := legendKwarg[0].0;
    var v := legendKwarg[0].1;
    if kwarg == "legend" {
      o := HandleLegendDeprecated(v, legend, g);
    } else if kwarg == "legend_label" {
      o := HandleLegendLabel(v, legend, g);
    } else if kwarg == "legend_field" {
      o := HandleLegendField(v, legend, g);
    } else if kwarg == "legend_group" {
      o := HandleLegendGroup(v, legend, g, groups);
    } else {
      o := Fail(UnknownLegendKwarg(kwarg));
    }
  }

  /** No two items share a label. */
  predicate DistinctLabels(items: seq<LegendItem>)
  {
    forall j, k :: 0 <= j < k < |items| ==> items[j].labelSpec != items[k].labelSpec
  }

  /** A renderer joins the first item with an equal label, which keeps its
      label and index, leaving the item count and every other item as they
      were; without such an item exactly one new item is appended at the end. */
  lemma MergedSpec(items: seq<LegendItem>, l: Label, g: GlyphRenderer)
    ensures var out := Merged(items, l, g);
            match FindLegendItem(l, items)
            case Some(j) =>
              |out| == |items| && out[j] == items[j].(renderers := items[j].renderers + [g]) &&
              (forall k :: 0 <= k < |items| && k != j ==> out[k] == items[k])
            case None =>
              |out| == |items| + 1 && out[..|items|] == items && out[|items|] == LegendItem(l, [g], None)
  {
  }

  /** Merging keeps every earlier renderer in its item, and the renderer
      ends up last in an item with the label. */
  lemma MergedKeepsRenderers(items: seq<LegendItem>, l: Label, g: GlyphRenderer)
    ensures |Merged(items, l, g)| >= |items|
    ensures forall k :: 0 <= k < |items| ==>
              Merged(items, l, g)[k].labelSpec == items[k].labelSpec &&
              Merged(items, l, g)[k].renderers[..|items[k].renderers|] == items[k].renderers
    ensures exists k :: 0 <= k < |Merged(items, l, g)| &&
              Merged(items, l, g)[k].labelSpec == l &&
              |Merged(items, l, g)[k].renderers| > 0 &&
              Merged(items, l, g)[k].renderers[|Merged(items, l, g)[k].renderers| - 1] == g
  {
    var out := Merged(items, l, g);
    match FindLegendItem(l, items)
    case Some(j) =>
      assert out[j].labelSpec == l;
      assert out[j].renderers[..|items[j].renderers|] == items[j].renderers;
    case None =>
      assert out[|items|].labelSpec == l;
  }

  /** A legend built only through the label and field handlers has one item
      per label. */
  lemma MergedKeepsLabelsDistinct(items: seq<LegendItem>, l: Label, g: GlyphRenderer)
    requires DistinctLabels(items)
    ensures DistinctLabels(Merged(items, l, g))
  {
    var out := Merged(items, l, g);
    if FindLegendItem(l, items).None? {
      forall j, k | 0 <= j < k < |out|
        ensures out[j].labelSpec != out[k].labelSpec
      {
        if k == |items| {
          assert out[j] == items[j];
        } else {
          assert out[j] == items[j] && out[k] == items[k];
        }
      }
    }
  }

  /** Merging the same label twice adds both renderers to one item and at
      most one item overall. */
  lemma MergedTwice(items: seq<LegendItem>, l: Label, g1: GlyphRenderer, g2: GlyphRenderer)
    ensures |Merged(Merged(items, l, g1), l, g2)| == |Merged(items, l, g1)|
    ensures FindLegendItem(l, Merged(items, l, g1)).Some?
  {
    var once := Merged(items, l, g1);
    match FindLegendItem(l, items)
    case Some(j) =>
      assert once[j].labelSpec == l;
    case None =>
      assert once[|items|].labelSpec == l;
  }

  /** The dict forms of the deprecated `legend` keyword do what the explicit
      `legend_field` and `legend_label` keywords do. */
  lemma DeprecatedDictIsExplicit(v: Value, items: seq<LegendItem>, g: GlyphRenderer)
    ensures DeprecatedUpdate(DictV(map["field" := v]), items, g) == FieldUpdate(v, items, g)
    ensures DeprecatedUpdate(DictV(map["value" := v]), items, g) == LabelUpdate(v, items, g)
  {
    assert "value" !in map["field" := v];
    assert |map["field" := v]| == 1;
    assert |map["value" := v]| == 1;
  }

  /** A deprecated string `legend` is a field label exactly when it names a
      column of the renderer's data source. */
  lemma DeprecatedStringFollowsColumns(s: string, items: seq<LegendItem>, g: GlyphRenderer)
    ensures DeprecatedUpdate(Str(s), items, g) ==
            if HasColumn(g, s) then FieldUpdate(Str(s), items, g) else LabelUpdate(Str(s), items, g)
  {
  }

  /** Whatever keyword is used, a successful update only extends the legend:
      every earlier item keeps its place, its label and its renderers. */
  lemma LegendUpdateExtends(legendKwarg: seq<(string, Value)>, items: seq<LegendItem>, g: GlyphRenderer,
                            groups: seq<(string, nat)>)
    ensures LegendUpdate(legendKwarg, items, g, groups).Success? ==>
              var out := LegendUpdate(legendKwarg, items, g, groups).value;
              |out| >= |items| &&
              forall k :: 0 <= k < |items| ==>
                out[k].labelSpec == items[k].labelSpec &&
                |out[k].renderers| >= |items[k].renderers| &&
                out[k].renderers[..|items[k].renderers|] == items[k].renderers
  {
  }

  /** Grouping appends one item per group after the existing items, and
      fails without touching them when the column is not in the source. */
  lemma GroupUpdateSpec(v: Value, items: seq<LegendItem>, g: GlyphRenderer, groups: seq<(string, nat)>)
    ensures GroupUpdate(v, items, g, groups).Success? <==> v.Str? && HasColumn(g, v.s)
    ensures GroupUpdate(v, items, g, groups).Success? ==>
              var out := GroupUpdate(v, items, g, groups).value;
              |out| == |items| + |groups| && out[..|items|] == items &&
              forall k :: |items| <= k < |out| ==> out[k].renderers == [g]
  {
    if v.Str? && HasColumn(g, v.s) {
      var out := items + GroupItems(groups, g);
      assert out[..|items|] == items;
    }
  }
}
