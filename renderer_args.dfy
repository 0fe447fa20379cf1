/** `_pop_renderer_args` and `_make_glyph`: the keyword arguments that go
    to the glyph renderer, and the glyph's own keyword arguments. */
module RendererArgs {
  import opened Values
  import opened Dicts

  /** `_RENDERER_ARGS` */
  const RendererArgNames: seq<string> :=
    ["name", "x_range_name", "y_range_name", "level", "view", "visible", "muted"]

  /** The renderer keyword arguments of `kwargs`, with `data_source` set to
      the `source` argument or to a new empty data source. */
  function RendererKwargs(kwargs: map<string, Value>): (r: map<string, Value>)
    ensures r.Keys == (kwargs.Keys * Elements(RendererArgNames)) + {"data_source"}
    ensures forall k :: k in kwargs && k in RendererArgNames ==> r[k] == kwargs[k]
    ensures r["data_source"] == if "source" in kwargs then kwargs["source"] else NewColumnDataSource
  {
    Picked(kwargs, Elements(RendererArgNames))["data_source" :=
      if "source" in kwargs then kwargs["source"] else NewColumnDataSource]
  }

  /** `_pop_renderer_args(kwargs)`: the renderer arguments and `source` are
      popped, every other keyword argument stays. */
  method PopRendererArgs(kwargs: Kwargs) returns (result: map<string, Value>)
    modifies kwargs
    ensures result == RendererKwargs(old(kwargs.entries))
    ensures kwargs.entries == old(kwargs.entries) - Elements(RendererArgNames) - {"source"}
  {
    ghost var kw0 := kwargs.entries;
    RendererArgNamesDistinct();
    var given := kwargs.PopEach(RendererArgNames);
    AsDictPresentIn(RendererArgNames, kw0);
    result := AsDict(given);
    assert ("source" in kwargs.entries <==> "source" in kw0) &&
                    ("source" in kw0 ==> kwargs.entries["source"] == kw0["source"]) by {
      RendererArgNamesDistinct();
      assert "source" !in Elements(RendererArgNames);
    }
    var source := kwargs.Pop("source");
    var dataSource := if source.Some? then source.value else NewColumnDataSource;
    assert dataSource == if "source" in kw0 then kw0["source"] else NewColumnDataSource;
    result := result["data_source" := dataSource];
  }

  lemma RendererArgNamesDistinct()
    ensures forall j, k :: 0 <= j < k < |RendererArgNames| ==> RendererArgNames[j] != RendererArgNames[k]
  {
  }

  /** `_make_glyph(glyphclass, kws, extra)`, as the keyword arguments the
      glyph is built with: none without `extra`, otherwise a copy of `kws`
      updated with `extra`. */
  function MakeGlyph(kws: map<string, Value>, extra: Option<map<string, Value>>)
    : (r: Option<map<string, Value>>)
    ensures r.None? <==> extra.None?
    ensures r.Some? ==> r.value.Keys == kws.Keys + extra.value.Keys
    ensures r.Some? ==> forall k :: k in extra.value ==> r.value[k] == extra.value[k]
    ensures r.Some? ==> forall k :: k in kws && k !in extra.value ==> r.value[k] == kws[k]
  {
    match extra
    case None => None
    case Some(e) => Some(kws + e)
  }
}
