/** `get_default_color`: the colour for the next glyph renderer of a plot. */
module Colors {
  import opened Values
  import opened Framework

  /** The palette, in order. */
  const Palette: seq<string> := [
    "#1f77b4",
    "#ff7f0e", "#ffbb78",
    "#2ca02c", "#98df8a",
    "#d62728", "#ff9896",
    "#9467bd", "#c5b0d5",
    "#8c564b", "#c49c94",
    "#e377c2", "#f7b6d2",
    "#7f7f7f",
    "#bcbd22", "#dbdb8d",
    "#17becf", "#9edae5"
  ]

  /** The renderers whose view model is "GlyphRenderer", in order. */
  function GlyphRenderers(renderers: seq<string>): (g: seq<string>)
    ensures |g| <= |renderers|
    ensures forall x :: x in g ==> x == "GlyphRenderer"
    ensures "GlyphRenderer" in renderers <==> g != []
  {
    if renderers == [] then []
    else if renderers[0] == "GlyphRenderer" then [renderers[0]] + GlyphRenderers(renderers[1..])
    else GlyphRenderers(renderers[1..])
  }

  /** `colors[len(glyph renderers)]`, which raises once the palette is used up. */
  function ColorFor(renderers: seq<string>): (r: Result<string>)
    ensures r.Success? <==> |GlyphRenderers(renderers)| < |Palette|
    ensures r.Success? ==> r.value == Palette[|GlyphRenderers(renderers)|]
    ensures r.Failure? ==> r.error == PaletteExhausted(|GlyphRenderers(renderers)|)
  {
    var n := |GlyphRenderers(renderers)|;
    if n < |Palette| then Success(Palette[n]) else Failure(PaletteExhausted(n))
  }

  /** `get_default_color(plot)`; without a plot the first palette entry. */
  function DefaultColor(plot: Plot?): (r: Result<string>)
    reads plot
    ensures plot == null ==> r == Success("#1f77b4")
    ensures plot != null && plot.renderers == [] ==> r == Success("#1f77b4")
    ensures plot != null ==> r == ColorFor(plot.renderers)
  {
    if plot == null then Success(Palette[0]) else ColorFor(plot.renderers)
  }

  lemma PaletteIsDistinct()
    ensures |Palette| == 18
    ensures forall i, j :: 0 <= i < j < |Palette| ==> Palette[i] != Palette[j]
  {
  }

  /** Appending a renderer adds one glyph renderer exactly when it is one. */
  lemma {:induction false} GlyphRenderersAppend(renderers: seq<string>, x: string)
    ensures |GlyphRenderers(renderers + [x])| ==
            |GlyphRenderers(renderers)| + (if x == "GlyphRenderer" then 1 else 0)
  {
    if renderers == [] {
      assert renderers + [x] == [x];
      assert [x][1..] == [];
    } else {
      assert (renderers + [x])[0] == renderers[0];
      assert (renderers + [x])[1..] == renderers[1..] + [x];
      GlyphRenderersAppend(renderers[1..], x);
    }
  }

  /** Adding a renderer that is not a glyph renderer keeps the default colour. */
  lemma OtherRendererKeepsColor(renderers: seq<string>, x: string)
    requires x != "GlyphRenderer"
    ensures ColorFor(renderers + [x]) == ColorFor(renderers)
  {
    GlyphRenderersAppend(renderers, x);
  }

  /** Each glyph renderer added to a plot moves the default colour on to a
      colour that no earlier glyph renderer received, until the palette ends. */
  lemma {:induction false} NewGlyphRendererGetsFreshColor(renderers: seq<string>, later: seq<string>)
    requires "GlyphRenderer" in later
    requires ColorFor(renderers + later).Success?
    ensures ColorFor(renderers).Success?
    ensures ColorFor(renderers + later).value != ColorFor(renderers).value
  {
    GlyphRenderersConcat(renderers, later);
    PaletteIsDistinct();
  }

  lemma {:induction false} GlyphRenderersConcat(a: seq<string>, b: seq<string>)
    ensures |GlyphRenderers(a + b)| == |GlyphRenderers(a)| + |GlyphRenderers(b)|
  {
    if a == [] {
      assert a + b == b;
    } else {
      assert (a + b)[0] == a[0];
      assert (a + b)[1..] == a[1..] + b;
      GlyphRenderersConcat(a[1..], b);
    }
  }
}
