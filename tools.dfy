/** `_tool_from_string` with its table of known tools, and
    `_process_tools_arg`: tool names given as one comma-separated string or
    as a list mixing names and tool objects. */
module Tools {
  import opened Values
  import opened Framework

  /** A table entry: how to build the tool, or the name of another entry. */
  datatype ToolEntry = Build(tool: Tool) | AliasOf(target: string)

  /** `_known_tools` */
  const KnownTools: map<string, ToolEntry> := map[
    "pan"          := Build(Tool(PanTool, Dimensions("both"))),
    "xpan"         := Build(Tool(PanTool, Dimensions("width"))),
    "ypan"         := Build(Tool(PanTool, Dimensions("height"))),
    "xwheel_pan"   := Build(Tool(WheelPanTool, Dimension("width"))),
    "ywheel_pan"   := Build(Tool(WheelPanTool, Dimension("height"))),
    "wheel_zoom"   := Build(Tool(WheelZoomTool, Dimensions("both"))),
    "xwheel_zoom"  := Build(Tool(WheelZoomTool, Dimensions("width"))),
    "ywheel_zoom"  := Build(Tool(WheelZoomTool, Dimensions("height"))),
    "zoom_in"      := Build(Tool(ZoomInTool, Dimensions("both"))),
    "xzoom_in"     := Build(Tool(ZoomInTool, Dimensions("width"))),
    "yzoom_in"     := Build(Tool(ZoomInTool, Dimensions("height"))),
    "zoom_out"     := Build(Tool(ZoomOutTool, Dimensions("both"))),
    "xzoom_out"    := Build(Tool(ZoomOutTool, Dimensions("width"))),
    "yzoom_out"    := Build(Tool(ZoomOutTool, Dimensions("height"))),
    "click"        := Build(Tool(TapTool, Behavior("inspect"))),
    "tap"          := Build(Tool(TapTool, Defaults)),
    "crosshair"    := Build(Tool(CrosshairTool, Defaults)),
    "box_select"   := Build(Tool(BoxSelectTool, Defaults)),
    "xbox_select"  := Build(Tool(BoxSelectTool, Dimensions("width"))),
    "ybox_select"  := Build(Tool(BoxSelectTool, Dimensions("height"))),
    "poly_select"  := Build(Tool(PolySelectTool, Defaults)),
    "lasso_select" := Build(Tool(LassoSelectTool, Defaults)),
    "box_zoom"     := Build(Tool(BoxZoomTool, Dimensions("both"))),
    "xbox_zoom"    := Build(Tool(BoxZoomTool, Dimensions("width"))),
    "ybox_zoom"    := Build(Tool(BoxZoomTool, Dimensions("height"))),
    "hover"        := Build(Tool(HoverTool, Tooltips(TipsTable([
                        ("index", "$index"),
                        ("data (x, y)", "($x, $y)"),
                        ("screen (x, y)", "($sx, $sy)")])))),
    "save"         := Build(Tool(SaveTool, Defaults)),
    "previewsave"  := AliasOf("save"),
    "undo"         := Build(Tool(UndoTool, Defaults)),
    "redo"         := Build(Tool(RedoTool, Defaults)),
    "reset"        := Build(Tool(ResetTool, Defaults)),
    "help"         := Build(Tool(HelpTool, Defaults)),
    "box_edit"     := Build(Tool(BoxEditTool, Defaults)),
    "point_draw"   := Build(Tool(PointDrawTool, Defaults)),
    "poly_draw"    := Build(Tool(PolyDrawTool, Defaults)),
    "poly_edit"    := Build(Tool(PolyEditTool, Defaults))
  ]

  /** `_tool_from_string(name)`: the table's tool, following one alias. */
  function ToolFromString(name: string): Result<Tool>
  {
    FromTable(KnownTools, name)
  }

  /** The lookup of `_tool_from_string` in a given table. */
  function FromTable(table: map<string, ToolEntry>, name: string): Result<Tool>
  {
    if name !in table then Failure(UnknownTool(name))
    else match table[name]
      case Build(t) => Success(t)
      case AliasOf(target) =>
        if target in table && table[target].Build? then Success(table[target].tool)
        else Failure(UnknownTool(name))
  }

  /** `previewsave` is the only alias in the table. */
  lemma OnlyAliasIsPreviewsave(name: string)
    requires name in KnownTools && KnownTools[name].AliasOf?
    ensures name == "previewsave"
  {
  }

  /** Every name in the table gives a tool and every other name raises. */
  lemma ToolFromStringSpec(name: string)
    ensures ToolFromString(name).Success? <==> name in KnownTools
    ensures ToolFromString(name).Failure? ==> ToolFromString(name).error == UnknownTool(name)
  {
    if name in KnownTools && KnownTools[name].AliasOf? {
      OnlyAliasIsPreviewsave(name);
    }
  }

  /** The alias gives the same tool as the entry it names. */
  lemma PreviewsaveIsSave()
    ensures ToolFromString("previewsave") == ToolFromString("save") == Success(Tool(SaveTool, Defaults))
  {
  }

  // ----- tokenising -----

  /** Python's whitespace: what `str.strip()` removes and `\s` matches. */
  predicate IsSpace(c: char)
  {
    c == ' ' || c == '\t' || c == '\n' || c == '\r' || c == '\U{000B}' || c == '\U{000C}' ||
    ('\U{001C}' <= c <= '\U{001F}') || c == '\U{0085}' || c == '\U{00A0}' || c == '\U{1680}' ||
    ('\U{2000}' <= c <= '\U{200A}') || c == '\U{2028}' || c == '\U{2029}' || c == '\U{202F}' ||
    c == '\U{205F}' || c == '\U{3000}'
  }

  function StripLeft(s: string): string
  {
    if s != [] && IsSpace(s[0]) then StripLeft(s[1..]) else s
  }

  function StripRight(s: string): string
  {
    if s != [] && IsSpace(s[|s| - 1]) then StripRight(s[..|s| - 1]) else s
  }

  /** `s.strip()` */
  function Strip(s: string): string
  {
    StripRight(StripLeft(s))
  }

  /** `s.split(",")` */
  function SplitCommas(s: string): (parts: seq<string>)
    ensures |parts| >= 1
  {
    if s == [] then [""]
    else if s[0] == ',' then [""] + SplitCommas(s[1..])
    else var rest := SplitCommas(s[1..]); [[s[0]] + rest[0]] + rest[1..]
  }

  /** `",".join(parts)` */
  function JoinCommas(parts: seq<string>): string
    requires |parts| >= 1
  {
    if |parts| == 1 then parts[0] else parts[0] + "," + JoinCommas(parts[1..])
  }

  /** `re.split(r"\s*,\s*", s.strip())`: the pieces between commas, without
      the whitespace around each comma. */
  function Tokens(s: string): (ts: seq<string>)
    ensures |ts| >= 1
  {
    StripAll(SplitCommas(Strip(s)))
  }

  /** Each piece with its surrounding whitespace removed. */
  function StripAll(parts: seq<string>): seq<string>
  {
    seq(|parts|, i requires 0 <= i < |parts| => Strip(parts[i]))
  }

  /** The tokens that are not empty, in order. */
  function NonEmpty(ts: seq<string>): seq<string>
  {
    if ts == [] then []
    else NonEmpty(ts[..|ts| - 1]) + (if ts[|ts| - 1] != "" then [ts[|ts| - 1]] else [])
  }

  function NonEmptyTokens(s: string): seq<string>
  {
    NonEmpty(Tokens(s))
  }

  /** Filtering keeps exactly the non-empty tokens. */
  lemma {:induction false} NonEmptySpec(ts: seq<string>)
    ensures forall t :: t in NonEmpty(ts) <==> t in ts && t != ""
  {
    if ts != [] {
      var front := ts[..|ts| - 1];
      NonEmptySpec(front);
      assert ts == front + [ts[|ts| - 1]];
    }
  }

  lemma {:induction false} StripLeftSpec(s: string)
    ensures |StripLeft(s)| <= |s| && StripLeft(s) == s[|s| - |StripLeft(s)|..]
    ensures StripLeft(s) == [] || !IsSpace(StripLeft(s)[0])
    ensures forall i :: 0 <= i < |s| - |StripLeft(s)| ==> IsSpace(s[i])
  {
    if s != [] && IsSpace(s[0]) {
      var r := StripLeft(s[1..]);
      StripLeftSpec(s[1..]);
      assert StripLeft(s) == r;
      assert s[1..][|s| - 1 - |r|..] == s[|s| - |r|..];
      forall i | 0 <= i < |s| - |r|
        ensures IsSpace(s[i])
      {
        if i > 0 {
          assert s[i] == s[1..][i - 1];
        }
      }
    }
  }

  lemma {:induction false} StripRightSpec(s: string)
    ensures |StripRight(s)| <= |s| && StripRight(s) == s[..|StripRight(s)|]
    ensures StripRight(s) == [] || !IsSpace(StripRight(s)[|StripRight(s)| - 1])
    ensures forall i :: |StripRight(s)| <= i < |s| ==> IsSpace(s[i])
  {
    if s != [] && IsSpace(s[|s| - 1]) {
      StripRightSpec(s[..|s| - 1]);
    }
  }

  /** `strip` keeps a stretch of the string that starts and ends with
      non-whitespace, and stripping twice is stripping once. */
  lemma StripSpec(s: string)
    ensures var t := Strip(s);
            (t == [] || (!IsSpace(t[0]) && !IsSpace(t[|t| - 1]))) &&
            (forall c :: c in t ==> c in s)
    ensures Strip(Strip(s)) == Strip(s)
  {
    var u := StripLeft(s);
    StripLeftSpec(s);
    StripRightSpec(u);
    var t := StripRight(u);
    assert forall k :: 0 <= k < |t| ==> t[k] == s[|s| - |u| + k];
    if t != [] {
      assert t[0] == u[0];
    }
    StripNothing(t);
  }

  /** A string that starts and ends with non-whitespace is its own strip. */
  lemma StripNothing(s: string)
    requires s == [] || (!IsSpace(s[0]) && !IsSpace(s[|s| - 1]))
    ensures Strip(s) == s
  {
  }

  /** Splitting at commas and joining with commas are inverse. */
  lemma {:induction false} JoinSplit(s: string)
    ensures JoinCommas(SplitCommas(s)) == s
    ensures forall p :: p in SplitCommas(s) ==> ',' !in p
  {
    if s == [] {
    } else if s[0] == ',' {
      JoinSplit(s[1..]);
      var rest := SplitCommas(s[1..]);
      assert SplitCommas(s) == [""] + rest;
      assert ([""] + rest)[1..] == rest;
      assert s == "," + s[1..];
    } else {
      JoinSplit(s[1..]);
      var rest := SplitCommas(s[1..]);
      var parts := [[s[0]] + rest[0]] + rest[1..];
      assert parts[1..] == rest[1..];
      if |rest| == 1 {
        assert s == [s[0]] + s[1..];
      } else {
        assert JoinCommas(rest) == rest[0] + "," + JoinCommas(rest[1..]);
        assert s == [s[0]] + s[1..];
      }
    }
  }

  /** Joining comma-free pieces with commas and splitting again gives the
      pieces back. */
  lemma {:induction false} SplitJoin(parts: seq<string>)
    requires |parts| >= 1
    requires forall p :: p in parts ==> ',' !in p
    ensures SplitCommas(JoinCommas(parts)) == parts
  {
    if |parts| == 1 {
      SplitNoComma(parts[0]);
    } else {
      SplitJoin(parts[1..]);
      SplitAtComma(parts[0], JoinCommas(parts[1..]));
      SplitNoComma(parts[0]);
      assert parts == [parts[0]] + parts[1..];
    }
  }

  lemma {:induction false} SplitNoComma(p: string)
    requires ',' !in p
    ensures SplitCommas(p) == [p]
  {
    if p != [] {
      SplitNoComma(p[1..]);
      assert p == [p[0]] + p[1..];
    }
  }

  /** Splitting at a comma splits each side. */
  lemma {:induction false} SplitAtComma(a: string, b: string)
    ensures SplitCommas(a + "," + b) == SplitCommas(a) + SplitCommas(b)
  {
    if a == [] {
      assert a + "," + b == "," + b;
      assert ("," + b)[1..] == b;
    } else {
      assert (a + "," + b)[0] == a[0];
      assert (a + "," + b)[1..] == a[1..] + "," + b;
      SplitAtComma(a[1..], b);
    }
  }

  /** The tokens hold no commas and no surrounding whitespace; the tokens
      that are kept are not empty. */
  lemma TokensSpec(s: string)
    ensures forall t :: t in Tokens(s) ==> ',' !in t && Strip(t) == t
    ensures "" !in NonEmptyTokens(s)
  {
    NonEmptySpec(Tokens(s));
    var parts := SplitCommas(Strip(s));
    JoinSplit(Strip(s));
    forall i | 0 <= i < |parts|
      ensures ',' !in Strip(parts[i]) && Strip(Strip(parts[i])) == Strip(parts[i])
    {
      StripSpec(parts[i]);
      assert parts[i] in parts;
    }
    assert forall t :: t in Tokens(s) ==> exists i :: 0 <= i < |parts| && t == Strip(parts[i]);
  }

  // ----- `_process_tools_arg` -----

  /** An element of a `tools` list. */
  datatype ToolItem = GivenTool(tool: Tool) | ToolName(name: string) | NotATool

  /** The `tools` argument: a string, or a list or tuple. */
  datatype ToolsArg = ToolText(text: string) | ToolList(items: seq<ToolItem>)

  /** The tool objects of a list, in order. */
  function GivenTools(items: seq<ToolItem>): seq<Tool>
  {
    if items == [] then []
    else GivenTools(items[..|items| - 1]) +
         (if items[|items| - 1].GivenTool? then [items[|items| - 1].tool] else [])
  }

  /** `temp_tool_str`: each tool name in a list followed by a comma. */
  function NamesText(items: seq<ToolItem>): string
  {
    if items == [] then ""
    else (if items[0].ToolName? then items[0].name + "," else "") + NamesText(items[1..])
  }

  predicate HasBadItem(items: seq<ToolItem>)
  {
    exists j :: 0 <= j < |items| && items[j].NotATool?
  }

  /** The string whose tokens name the tools to build. */
  function TextOf(tools: ToolsArg): string
  {
    match tools
    case ToolText(s) => s
    case ToolList(items) => NamesText(items)
  }

  /** The tool objects collected before the names are looked up. */
  function BaseOf(tools: ToolsArg): seq<Tool>
  {
    match tools
    case ToolText(_) => []
    case ToolList(items) => GivenTools(items)
  }

  /** The tools `table` gives for `names`, or the error for the first
      unknown name. */
  function Resolved(table: map<string, ToolEntry>, names: seq<string>): (r: Result<seq<Tool>>)
    ensures r.Success? ==> |r.value| == |names|
  {
    if names == [] then Success([])
    else match FromTable(table, names[0])
      case Failure(e) => Failure(e)
      case Success(t) =>
        match Resolved(table, names[1..])
        case Failure(e) => Failure(e)
        case Success(ts) => Success([t] + ts)
  }

  /** `tool_map`: each name to the position, after `offset` earlier tools, of
      the tool built for its last occurrence. */
  function ToolIndex(names: seq<string>, offset: nat): map<string, nat>
  {
    if names == [] then map[]
    else ToolIndex(names[..|names| - 1], offset)[names[|names| - 1] := offset + |names| - 1]
  }

  /** The position of the first hover tool. */
  function FirstHover(objs: seq<Tool>): (r: Option<nat>)
    ensures r.Some? ==> r.value < |objs| && objs[r.value].cls == HoverTool
    ensures r.Some? ==> forall k :: 0 <= k < r.value ==> objs[k].cls != HoverTool
    ensures r.None? <==> forall k :: 0 <= k < |objs| ==> objs[k].cls != HoverTool
  {
    if objs == [] then None
    else if objs[0].cls == HoverTool then Some(0)
    else match FirstHover(objs[1..])
      case None => None
      case Some(j) => Some(j + 1)
  }

  /** The tools after `tooltips` are given: to the first hover tool, or to
      a new hover tool appended when there is none. */
  function WithTooltips(objs: seq<Tool>, tips: TooltipsArg): seq<Tool>
  {
    match FirstHover(objs)
    case Some(j) => objs[j := objs[j].(setting := Tooltips(tips))]
    case None => objs + [Tool(HoverTool, Tooltips(tips))]
  }

  function Finished(objs: seq<Tool>, tooltips: Option<TooltipsArg>): seq<Tool>
  {
    match tooltips
    case None => objs
    case Some(tips) => WithTooltips(objs, tips)
  }

  /** The loop that gives `tooltips` to the first hover tool, or else appends one. */
  method ApplyTooltips(objs: seq<Tool>, tips: TooltipsArg) returns (out: seq<Tool>)
    ensures out == WithTooltips(objs, tips)
  {
    var j := 0;
    while j < |objs|
      invariant 0 <= j <= |objs|
      invariant forall k :: 0 <= k < j ==> objs[k].cls != HoverTool
    {
      if objs[j].cls == HoverTool {
        return objs[j := objs[j].(setting := Tooltips(tips))];
      }
      j := j + 1;
    }
    return objs + [Tool(HoverTool, Tooltips(tips))];
  }

  /** The first loop of `_process_tools_arg` over a `tools` list. */
  method SortItems(items: seq<ToolItem>) returns (r: Result<(seq<Tool>, string)>)
    ensures HasBadItem(items) ==> r == Failure(BadToolItem)
    ensures !HasBadItem(items) ==> r == Success((GivenTools(items), NamesText(items)))
  {
    var objs: seq<Tool> := [];
    var text := "";
    var k := 0;
    while k < |items|
      invariant 0 <= k <= |items|
      invariant forall j :: 0 <= j < k ==> !items[j].NotATool?
      invariant objs == GivenTools(items[..k])
      invariant text == NamesText(items[..k])
    {
      if items[k].NotATool? {
        return Failure(BadToolItem);
      }
      SortStep(items, k);
      if items[k].GivenTool? {
        objs := objs + [items[k].tool];
      } else {
        text := text + items[k].name + ",";
      }
      k := k + 1;
    }
    assert items[..k] == items;
    return Success((objs, text));
  }

  lemma SortStep(items: seq<ToolItem>, k: nat)
    requires k < |items|
    ensures GivenTools(items[..k + 1]) ==
            GivenTools(items[..k]) + (if items[k].GivenTool? then [items[k].tool] else [])
    ensures NamesText(items[..k + 1]) ==
            NamesText(items[..k]) + (if items[k].ToolName? then items[k].name + "," else "")
  {
    assert items[..k + 1][..k] == items[..k];
    NamesTextSnoc(items[..k], items[k]);
    assert items[..k + 1] == items[..k] + [items[k]];
  }

  lemma {:induction false} NamesTextSnoc(items: seq<ToolItem>, x: ToolItem)
    ensures NamesText(items + [x]) == NamesText(items) + (if x.ToolName? then x.name + "," else "")
  {
    if items == [] {
      assert [] + [x] == [x];
      assert [x][1..] == [];
    } else {
      assert (items + [x])[0] == items[0];
      assert (items + [x])[1..] == items[1..] + [x];
      NamesTextSnoc(items[1..], x);
    }
  }

  /** `_process_tools_arg(plot, tools, tooltips)`: the tools in order (the
      given objects, then one per non-empty token) and the map from each
      token to its tool's position. */
  method ProcessToolsArg(tools: ToolsArg, tooltips: Option<TooltipsArg>)
    returns (r: Result<(seq<Tool>, map<string, nat>)>)
    ensures tools.ToolList? && HasBadItem(tools.items) ==> r == Failure(BadToolItem)
    ensures !(tools.ToolList? && HasBadItem(tools.items)) ==>
              (var names := NonEmptyTokens(TextOf(tools));
               var base := BaseOf(tools);
               match Resolved(KnownTools, names)
               case Failure(e) => r == Failure(e)
               case Success(built) =>
                 r == Success((Finished(base + built, tooltips), ToolIndex(names, |base|))))
  {
    var objs: seq<Tool>;
    var text: string;
    match tools {
      case ToolText(s) =>
        objs, text := [], s;
      case ToolList(items) =>
        var sorted := SortItems(items);
        if sorted.Failure? {
          return Failure(sorted.error);
        }
        objs, text := sorted.value.0, sorted.value.1;
    }
    var found := ResolveTokens(KnownTools, objs, Tokens(text));
    if found.Failure? {
      return Failure(found.error);
    }
    objs := found.value.0;
    if tooltips.Some? {
      objs := ApplyTooltips(objs, tooltips.value);
    }
    return Success((objs, found.value.1));
  }

  /** The loop of `_process_tools_arg` over the tokens: each non-empty
      token's tool is appended to `base` and recorded under the token. */
  method ResolveTokens(table: map<string, ToolEntry>, base: seq<Tool>, tokens: seq<string>)
    returns (r: Result<(seq<Tool>, map<string, nat>)>)
    ensures r == Gathered(table, base, NonEmpty(tokens))
  {
    var objs := base;
    var toolMap: map<string, nat> := map[];
    ghost var names: seq<string> := [];
    ghost var built: seq<Tool> := [];
    var i := 0;
    while i < |tokens|
      invariant 0 <= i <= |tokens|
      invariant names == NonEmpty(tokens[..i])
      invariant Resolved(table, names) == Success(built)
      invariant objs == base + built && |built| == |names|
      invariant toolMap == ToolIndex(names, |base|)
    {
      var tok := tokens[i];
      NonEmptyStep(tokens, i);
      if tok != "" {
        var t := FromTable(table, tok);
        ResolvedSnoc(table, names, tok);
        if t.Failure? {
          ResolvedFailsLater(table, tokens, i, names);
          return Failure(t.error);
        }
        objs := objs + [t.value];
        toolMap := toolMap[tok := |objs| - 1];
        ToolIndexSnoc(names, tok, |base|);
        names := names + [tok];
        assert base + (built + [t.value]) == base + built + [t.value];
        built := built + [t.value];
      }
      i := i + 1;
    }
    assert tokens[..i] == tokens;
    return Success((objs, toolMap));
  }

  /** The tools of `names` after `base` with `tool_map`, or the error for the
      first unknown name. */
  function Gathered(table: map<string, ToolEntry>, base: seq<Tool>, names: seq<string>)
    : Result<(seq<Tool>, map<string, nat>)>
  {
    match Resolved(table, names)
    case Failure(e) => Failure(e)
    case Success(built) => Success((base + built, ToolIndex(names, |base|)))
  }

  /** One more name: its tool is appended, or its error is the result. */
  lemma ResolvedSnoc(table: map<string, ToolEntry>, names: seq<string>, tok: string)
    requires Resolved(table, names).Success?
    ensures Resolved(table, names + [tok]) ==
            match FromTable(table, tok)
            case Failure(e) => Failure(e)
            case Success(t) => Success(Resolved(table, names).value + [t])
  {
    ResolvedConcat(table, names, [tok]);
    assert [tok][1..] == [];
    match FromTable(table, tok) {
      case Failure(e) =>
      case Success(t) => assert [t] + [] == [t];
    }
  }

  /** The names resolve exactly when each one does, and then each tool is
      the one its name gives. */
  lemma {:induction false} ResolvedAt(table: map<string, ToolEntry>, names: seq<string>)
    ensures Resolved(table, names).Success? <==>
              forall i :: 0 <= i < |names| ==> FromTable(table, names[i]).Success?
    ensures Resolved(table, names).Success? ==>
              forall i :: 0 <= i < |names| ==> Resolved(table, names).value[i] == FromTable(table, names[i]).value
  {
    if names != [] {
      ResolvedAt(table, names[1..]);
      assert forall i :: 1 <= i < |names| ==> names[i] == names[1..][i - 1];
    }
  }

  /** When the token at `i` is unknown, all tokens together fail with its error. */
  lemma ResolvedFailsLater(table: map<string, ToolEntry>, tokens: seq<string>, i: nat, names: seq<string>)
    requires i < |tokens| && tokens[i] != "" && FromTable(table, tokens[i]).Failure?
    requires names == NonEmpty(tokens[..i]) && Resolved(table, names).Success?
    ensures Resolved(table, NonEmpty(tokens)) == Failure(FromTable(table, tokens[i]).error)
  {
    var pre, post := tokens[..i + 1], tokens[i + 1..];
    var e := FromTable(table, tokens[i]).error;
    NonEmptyStep(tokens, i);
    ResolvedSnoc(table, names, tokens[i]);
    assert Resolved(table, NonEmpty(pre)) == Failure(e);
    assert pre + post == tokens;
    NonEmptyConcat(pre, post);
    ResolvedConcat(table, NonEmpty(pre), NonEmpty(post));
  }

  lemma NonEmptyStep(tokens: seq<string>, i: nat)
    requires i < |tokens|
    ensures NonEmpty(tokens[..i + 1]) ==
            NonEmpty(tokens[..i]) + (if tokens[i] != "" then [tokens[i]] else [])
  {
    assert tokens[..i + 1][..i] == tokens[..i];
  }

  lemma ToolIndexSnoc(names: seq<string>, tok: string, offset: nat)
    ensures ToolIndex(names + [tok], offset) == ToolIndex(names, offset)[tok := offset + |names|]
  {
    assert (names + [tok])[..|names|] == names;
  }

  lemma {:induction false} ResolvedConcat(table: map<string, ToolEntry>, a: seq<string>, b: seq<string>)
    ensures Resolved(table, a + b) ==
            if Resolved(table, a).Failure? then Resolved(table, a)
            else if Resolved(table, b).Failure? then Resolved(table, b)
            else Success(Resolved(table, a).value + Resolved(table, b).value)
  {
    if a == [] {
      assert a + b == b;
      if Resolved(table, b).Success? {
        assert [] + Resolved(table, b).value == Resolved(table, b).value;
      }
    } else {
      assert (a + b)[0] == a[0];
      assert (a + b)[1..] == a[1..] + b;
      ResolvedConcat(table, a[1..], b);
      if FromTable(table, a[0]).Success? && Resolved(table, a[1..]).Success? && Resolved(table, b).Success? {
        assert [FromTable(table, a[0]).value] + (Resolved(table, a[1..]).value + Resolved(table, b).value) ==
               ([FromTable(table, a[0]).value] + Resolved(table, a[1..]).value) + Resolved(table, b).value;
      }
    }
  }

  lemma {:induction false} NonEmptyConcat(a: seq<string>, b: seq<string>)
    ensures NonEmpty(a + b) == NonEmpty(a) + NonEmpty(b)
    decreases |b|
  {
    if b == [] {
      assert a + b == a;
    } else {
      var bFront := b[..|b| - 1];
      assert (a + b)[..|a + b| - 1] == a + bFront;
      assert (a + b)[|a + b| - 1] == b[|b| - 1];
      NonEmptyConcat(a, bFront);
    }
  }

  /** `tool_map` has exactly the non-empty tokens as keys, and each maps to
      the tool built for its last occurrence. */
  lemma {:induction false} ToolIndexSpec(names: seq<string>, offset: nat)
    ensures ToolIndex(names, offset).Keys == set n | n in names
    ensures forall n :: n in ToolIndex(names, offset) ==>
              var p := ToolIndex(names, offset)[n] - offset;
              0 <= p < |names| && names[p] == n &&
              forall q :: p < q < |names| ==> names[q] != n
  {
    ToolIndexKeys(names, offset);
    ToolIndexLast(names, offset);
  }

  lemma {:induction false} ToolIndexKeys(names: seq<string>, offset: nat)
    ensures ToolIndex(names, offset).Keys == set n | n in names
  {
    if names != [] {
      var front, last := names[..|names| - 1], names[|names| - 1];
      ToolIndexKeys(front, offset);
      assert names == front + [last];
      assert (set n | n in names) == (set n | n in front) + {last};
    }
  }

  lemma {:induction false} ToolIndexLast(names: seq<string>, offset: nat)
    ensures forall n :: n in ToolIndex(names, offset) ==>
              var p := ToolIndex(names, offset)[n] - offset;
              0 <= p < |names| && names[p] == n &&
              forall q :: p < q < |names| ==> names[q] != n
  {
    if names != [] {
      var front, last := names[..|names| - 1], names[|names| - 1];
      ToolIndexLast(front, offset);
      var m := ToolIndex(front, offset);
      assert ToolIndex(names, offset) == m[last := offset + |front|];
      forall n | n in ToolIndex(names, offset)
        ensures var p := ToolIndex(names, offset)[n] - offset;
                0 <= p < |names| && names[p] == n &&
                forall q :: p < q < |names| ==> names[q] != n
      {
        if n != last {
          ToolIndexInFront(names, front, m, n, offset);
        }
      }
    }
  }

  lemma ToolIndexInFront(names: seq<string>, front: seq<string>, m: map<string, nat>, n: string, offset: nat)
    requires names != [] && front == names[..|names| - 1] && n != names[|names| - 1]
    requires n in m && offset <= m[n] && m[n] - offset < |front| && front[m[n] - offset] == n
    requires forall q :: m[n] - offset < q < |front| ==> front[q] != n
    ensures var p := m[n] - offset; names[p] == n && forall q :: p < q < |names| ==> names[q] != n
  {
    var p := m[n] - offset;
    assert names[p] == front[p];
    forall q | p < q < |names|
      ensures names[q] != n
    {
      if q < |front| {
        assert names[q] == front[q];
      }
    }
  }

  /** The tooltips go to the first hover tool and nowhere else, or a new
      hover tool is appended when there is none. */
  lemma WithTooltipsSpec(objs: seq<Tool>, tips: TooltipsArg)
    ensures var out := WithTooltips(objs, tips);
            match FirstHover(objs)
            case Some(j) =>
              |out| == |objs| && out[j] == Tool(HoverTool, Tooltips(tips)) &&
              forall k :: 0 <= k < |objs| && k != j ==> out[k] == objs[k]
            case None =>
              |out| == |objs| + 1 && out[..|objs|] == objs && out[|objs|] == Tool(HoverTool, Tooltips(tips))
  {
  }

  /** The list items for plain tool names. */
  function NameItems(names: seq<string>): (items: seq<ToolItem>)
    ensures |items| == |names|
    ensures forall i :: 0 <= i < |names| ==> items[i] == ToolName(names[i])
  {
    seq(|names|, i requires 0 <= i < |names| => ToolName(names[i]))
  }

  /** Tool names given as a list, or joined into one string with commas,
      name the same tools. */
  lemma NameListTokens(names: seq<string>)
    requires forall n :: n in names ==> n != "" && ',' !in n && Strip(n) == n
    ensures NonEmptyTokens(NamesText(NameItems(names))) == names
    ensures names != [] ==> NonEmptyTokens(JoinCommas(names)) == names
  {
    var text := NamesText(NameItems(names));
    TerminatedSplit(names);
    EndsClean(names);
    StripNothing(text);
    TokensOfClean(SplitCommas(text));
    NonEmptyOfClean(names);
    assert NonEmpty(names + [""]) == NonEmpty(names) + [] by {
      assert (names + [""])[..|names|] == names;
    }
    if names != [] {
      var joined := JoinCommas(names);
      SplitJoin(names);
      JoinedEndsClean(names);
      StripNothing(joined);
      TokensOfClean(SplitCommas(joined));
    }
  }

  lemma {:induction false} TerminatedSplit(names: seq<string>)
    requires forall n :: n in names ==> ',' !in n
    ensures SplitCommas(NamesText(NameItems(names))) == names + [""]
  {
    if names != [] {
      var items := NameItems(names);
      assert items[1..] == NameItems(names[1..]);
      TerminatedSplit(names[1..]);
      SplitAtComma(names[0], NamesText(NameItems(names[1..])));
      SplitNoComma(names[0]);
      assert names == [names[0]] + names[1..];
    }
  }

  lemma EndsClean(names: seq<string>)
    requires forall n :: n in names ==> n != "" && Strip(n) == n
    ensures var t := NamesText(NameItems(names));
            t == [] || (!IsSpace(t[0]) && !IsSpace(t[|t| - 1]))
  {
    if names != [] {
      var items := NameItems(names);
      var t := NamesText(items);
      assert t == names[0] + "," + NamesText(items[1..]);
      StripSpec(names[0]);
      assert t[0] == names[0][0];
      NamesTextSnoc(items[..|items| - 1], items[|items| - 1]);
      assert items == items[..|items| - 1] + [items[|items| - 1]];
    }
  }

  lemma {:induction false} JoinedEndsClean(names: seq<string>)
    requires names != []
    requires forall n :: n in names ==> n != "" && Strip(n) == n
    ensures var t := JoinCommas(names); |t| > 0 && !IsSpace(t[0]) && !IsSpace(t[|t| - 1])
  {
    assert names[0] in names;
    StripSpec(names[0]);
    if |names| > 1 {
      assert forall n :: n in names[1..] ==> n in names;
      JoinedEndsClean(names[1..]);
    }
  }

  /** Stripping each piece changes nothing when every piece is already stripped. */
  lemma TokensOfClean(parts: seq<string>)
    requires forall p :: p in parts ==> Strip(p) == p
    ensures StripAll(parts) == parts
  {
  }

  lemma {:induction false} NonEmptyOfClean(names: seq<string>)
    requires forall n :: n in names ==> n != ""
    ensures NonEmpty(names) == names
  {
    if names != [] {
      var front := names[..|names| - 1];
      forall n | n in front
        ensures n != ""
      {
        assert n in names;
      }
      assert names[|names| - 1] in names;
      NonEmptyOfClean(front);
      assert names == names[..|names| - 1] + [names[|names| - 1]];
    }
  }
}
