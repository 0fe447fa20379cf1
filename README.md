# Bokeh plotting helpers: keyword-argument processing

This project models, in Dafny, the keyword-argument logic behind the glyph
methods of Bokeh's `bokeh/plotting/helpers.py`, and proves properties of
that model. It covers:

- the visual-property cascade `_pop_visuals`;
- stack broadcasting in `_single_stack` and `_double_stack`;
- the legend keywords (`_pop_legend_kwarg`, `_find_legend_item`, the four
  `_handle_legend_*` handlers, `_get_or_create_legend`, `_update_legend`);
- `_pop_renderer_args` and `_make_glyph`;
- the axis helpers `_get_scale`, `_get_axis_class` and `_get_num_minor_ticks`;
- `_tool_from_string` with its table, and `_process_tools_arg`;
- `get_default_color`.

## Data model

- A keyword value is the datatype `Value`: `None`, booleans, integers,
  strings, lists, tuples, dicts, stacks and opaque objects. Floats are
  kept as their literal text.
- The caller's keyword dictionary, which the helpers pop from in place, is
  the class `Dicts.Kwargs`. It has one field `entries: map<string, Value>`.
- A glyph class is the set of its property names.
- A legend is the class `Framework.Legend` with a field
  `items: seq<LegendItem>`. A plot is `Framework.Plot`, holding its
  renderers' view-model names and its legends.
- Tools, axes, scales and range kinds are enumerations or plain records.
- A Python exception is the `Failure` (or `Fail`) case of a result type,
  carrying an `Error` that says which `raise` was taken.

The code that loops is written as methods with loops, and with `modifies`
clauses where it updates the caller's keyword dict, a legend or the plot:

- `PopVisuals` and its loops, which pop from the keyword dict;
- the `pop` loops of the keyword dict;
- the legend handlers, which update a legend and the plot;
- the stack loops and the tool loops, which build new lists and so
  change nothing they are given.

Most methods are tied by their `ensures` to a function on values, and the
lemmas state the properties of those functions. A few small methods, such as
`Dicts.Kwargs.Pop` and `Legends.GetOrCreateLegend`, state their new state
directly.

Behaviour of the code worth noting, which the model follows:

- **The visual-property check accepts an empty trait.** `is_visual` tests
  `trait is not None`, and `"line_".split('_', 1)` gives the empty trait
  `''`. So `line_` counts as a visual property.
- **A keyword argument can overwrite the stack dict's entries.** The
  broadcast arguments are written into each dict after `name` and the
  spec. So a keyword argument named `name` replaces the stacker's name,
  and so does a spec named `name`.
- **`text_color` gets black at the defaults tier.** The code puts
  `text_color: 'black'` into its copy of `defaults`. So `text_color` takes
  black after `override_defaults` and before the per-trait defaults.
- **`_get_num_minor_ticks` rejects booleans.** A `bool` is an `int`, so
  `True` and `False` raise as too small.

## Model

| member | source | states |
|---|---|---|
| Colors.GlyphRenderers | bokeh/plotting/helpers.py:117 | the filtered renderers are all glyph renderers, no more than the input, and empty exactly when there is no glyph renderer |
| Colors.ColorFor | bokeh/plotting/helpers.py:116-119 | the colour is the palette entry at the number of glyph renderers; past the 18th it is an index error |
| Colors.DefaultColor | bokeh/plotting/helpers.py:102-121 | without a plot, or with a plot without renderers, the first palette colour; otherwise the colour for the plot's renderers |
| Colors.PaletteIsDistinct | bokeh/plotting/helpers.py:103-114 | the palette has 18 colours, all different |
| Colors.GlyphRenderersAppend | bokeh/plotting/helpers.py:117-118 | one more renderer adds one to the count exactly when it is a glyph renderer |
| Colors.OtherRendererKeepsColor | bokeh/plotting/helpers.py:116-119 | adding a renderer that is not a glyph renderer leaves the default colour unchanged |
| Colors.NewGlyphRendererGetsFreshColor | bokeh/plotting/helpers.py:116-119 | after more glyph renderers the default colour differs from every earlier one, while the palette lasts |
| Dicts.Kwargs.Pop | bokeh/plotting/helpers.py:312 | `pop` removes exactly the key and returns its old value, or nothing when it was absent |
| Dicts.Kwargs.PopEach | bokeh/plotting/helpers.py:309-311 | the comprehension returns the named entries present, in order, and removes exactly the named keys |
| Dicts.PresentInSpec | bokeh/plotting/helpers.py:309-311 | the collected pairs are exactly the entries whose keys are named, with their values |
| Dicts.AsDictPresentIn | bokeh/plotting/helpers.py:309-311 | the pairs collected from distinct names, read as a dict, are the entries restricted to those names |
| Dicts.Picked | bokeh/plotting/helpers.py:309-311 | the restriction of a dict to given keys keeps their values and no other key |
| Stacking.CheckLengths | bokeh/plotting/helpers.py:131-138 | the length check of both stack functions; `CheckLengthsSpec` proves it passes exactly when every list or tuple argument has one entry per stacker, and tells which of its two errors is raised otherwise |
| Stacking.SingleEntry | bokeh/plotting/helpers.py:144-156 | dict `i` of `_single_stack`; `SingleEntrySpec` gives its contents, and `SingleRows` proves the loop builds it for every stacker |
| Stacking.DoubleEntry | bokeh/plotting/helpers.py:179-193 | dict `i` of `_double_stack`; `DoubleEntrySpec` gives its contents, and `DoubleRows` proves the loop builds it for every stacker |
| Stacking.CheckLengthsSpec | bokeh/plotting/helpers.py:131-138 | the check passes exactly when every list or tuple argument has one entry per stacker; it reports different lengths exactly when two such arguments differ in length, and a length mismatch otherwise |
| Stacking.SingleStack | bokeh/plotting/helpers.py:127-158 | a spec among the keyword arguments and a failed length check raise; success exactly when neither happens, with one dict per stacker as the dict specification says |
| Stacking.SingleRows | bokeh/plotting/helpers.py:140-158 | the loop builds exactly one dict per stacker, each equal to the dict specification for that stacker |
| Stacking.SingleEntrySpec | bokeh/plotting/helpers.py:144-156 | dict `i` holds the name `stackers[i]`, the stack of the first `i + 1` stackers under the spec, element `i` of each list argument and every scalar argument |
| Stacking.DoubleStack | bokeh/plotting/helpers.py:160-195 | either spec among the keyword arguments raises, then the length check; success exactly when none of these happens, with one dict per stacker as the dict specification says |
| Stacking.DoubleRows | bokeh/plotting/helpers.py:174-195 | the loop builds exactly one dict per stacker, each equal to the dict specification for that stacker |
| Stacking.DoubleEntrySpec | bokeh/plotting/helpers.py:179-193 | dict `i` holds the name, the stack of the first `i` stackers under `spec0`, that of the first `i + 1` under `spec1`, and the broadcast arguments |
| Stacking.Broadcast | bokeh/plotting/helpers.py:150-154 | the inner loop adds every keyword argument's share for stacker `i` to the dict |
| Stacking.SingleStackGrows | bokeh/plotting/helpers.py:146-148 | each single-stack dict's stack is the previous one's plus its own stacker |
| Stacking.DoubleStackChains | bokeh/plotting/helpers.py:181-185 | the first lower stack is empty, each lower stack is the previous upper stack, and each upper stack adds this stacker |
| RendererArgs.RendererKwargs | bokeh/plotting/helpers.py:308-313 | the renderer arguments present, with `data_source` set to `source` or to a new data source |
| RendererArgs.PopRendererArgs | bokeh/plotting/helpers.py:308-313 | returns those renderer arguments and removes exactly the renderer argument names and `source` from the keyword dict |
| RendererArgs.RendererArgNamesDistinct | bokeh/plotting/helpers.py:304-305 | the renderer argument names are distinct |
| RendererArgs.MakeGlyph | bokeh/plotting/helpers.py:475-480 | no glyph without `extra`; otherwise the keywords are those of both dicts, `extra` winning on shared keys |
| Visuals.SplitFeatureTrait | bokeh/plotting/helpers.py:358-361 | `ft.split('_', 1)` padded with `None`; `SplitFeatureTraitSpec` and `SplitFeatureTraitJoin` prove the feature has no `'_'`, a trait is there exactly when the name has a `'_'`, and the parts rejoin to the name |
| Visuals.IsVisual | bokeh/plotting/helpers.py:363-366 | a known feature with a trait, which may be empty; `FeatureTraitIsVisual` proves that every known feature joined by `'_'` to any trait is visual |
| Visuals.Trait | bokeh/plotting/helpers.py:378 | the trait of a property name; `FeatureTraitIsVisual` proves that a known feature joined by `'_'` to a trait has that trait |
| Visuals.FirstUnderscoreSpec | bokeh/plotting/helpers.py:360 | the position found is the first `'_'`, and none is found exactly when there is no `'_'` |
| Visuals.SplitFeatureTraitSpec | bokeh/plotting/helpers.py:358-361 | the feature has no `'_'`; there is a trait exactly when the name has a `'_'`, and feature, `'_'` and trait rejoin to the name |
| Visuals.SplitFeatureTraitJoin | bokeh/plotting/helpers.py:358-361 | splitting a feature without `'_'` joined to a trait by `'_'` gives back the feature and the trait |
| Visuals.FeatureTraitIsVisual | bokeh/plotting/helpers.py:363-366 | every known feature, `'_'` and any trait is a visual property with that trait |
| Visuals.WithTextColor | bokeh/plotting/helpers.py:368-369 | the copied defaults keep every caller default and have `text_color`, black unless the caller gave one |
| Visuals.Resolve | bokeh/plotting/helpers.py:375-405 | the result's keys are visual properties of the glyph |
| Visuals.Consumed | bokeh/plotting/helpers.py:381-403 | every key removed from the keyword arguments begins with the prefix |
| Visuals.PopVisuals | bokeh/plotting/helpers.py:316-405 | the result is the cascade's value for every visual property, and the keyword arguments lose exactly the prefixed visual names and the prefixed alias traits |
| Visuals.ResolveVisualProps | bokeh/plotting/helpers.py:375-401 | the loop gives each visual property its cascade value on the original arguments, pops exactly the prefixed visual names, and collects exactly the traits that are not glyph properties |
| Visuals.PickVisual | bokeh/plotting/helpers.py:380-398 | one step picks the cascade's value and pops only the property's prefixed name |
| Visuals.PopPrefixed | bokeh/plotting/helpers.py:402-403 | the closing loop removes exactly the prefixed collected traits |
| Visuals.Cascade | bokeh/plotting/helpers.py:380-398 | the value the if/elif chain gives one property; `CascadeIsFirstTier` states its precedence, and `ExplicitKeyWins`, `AliasReachesEveryFeature`, `GlyphPropertyIsNoAlias` and `UltimateDefaults` its consequences |
| Visuals.CascadeOn | bokeh/plotting/helpers.py:380-398 | the chain for a property whose trait is given; `CascadeOnIsFirstTier` proves it picks the first present of the six tiers |
| Visuals.CascadeUnaffected | bokeh/plotting/helpers.py:381-386 | popping other properties' prefixed names never changes what the next property sees |
| Visuals.CascadeIsFirstTier | bokeh/plotting/helpers.py:380-398 | precedence: the value is the first present of the prefixed name, the prefixed trait alias (only for a trait that is not a glyph property), the override, the default, black for `text_color`, the trait default; unset when none is present |
| Visuals.CascadeOnIsFirstTier | bokeh/plotting/helpers.py:380-398 | for a given trait, the chain's value is the first present of the prefixed name, the alias, the override, the default, black for `text_color` and the trait default |
| Visuals.FirstPresentIsFirst | bokeh/plotting/helpers.py:380-398 | the first present candidate is the one chosen |
| Visuals.ExplicitKeyWins | bokeh/plotting/helpers.py:381-382 | a prefixed property name always gives that property its value |
| Visuals.AliasReachesEveryFeature | bokeh/plotting/helpers.py:385-386 | a prefixed trait alias sets that trait on every feature without a prefixed name of its own, unless the trait is a glyph property |
| Visuals.GlyphPropertyIsNoAlias | bokeh/plotting/helpers.py:385 | a trait that is a glyph property is never read as an alias, whatever value it has |
| Visuals.UltimateDefaults | bokeh/plotting/helpers.py:371-398 | every colour, every alpha and `text_color` always receive a value |
| Visuals.TextColorFallsBackToBlack | bokeh/plotting/helpers.py:368-394 | with nothing given for it, `text_color` is black |
| Visuals.SecondPassSeesOnlyDefaults | bokeh/plotting/helpers.py:400-403 | after the pops a second pass with the same prefix gets what it would get from empty arguments |
| Visuals.GlyphDataKeysSurvive | bokeh/plotting/helpers.py:324-328 | no non-visual glyph property, prefixed or not, is ever popped |
| Visuals.NonselectionInheritsMainGlyph | bokeh/plotting/helpers.py:982 | on the nonselection pass, a property with no key of its own keeps the main glyph's value, and every alpha becomes the override |
| Legends.PopLegendKwarg | bokeh/plotting/helpers.py:408-414 | all four legend keywords are popped and nothing else; more than one present raises with their names, otherwise the present one (or none) is returned |
| Legends.FindLegendItem | bokeh/plotting/helpers.py:494-498 | the position of the first item with an equal label, or none exactly when no item has it |
| Legends.GroupItems | bokeh/plotting/helpers.py:549-552 | one item per group, labelled by the group's value and holding that group's row index |
| Legends.Merged | bokeh/plotting/helpers.py:529-534 | the item update of the label and field handlers; `MergedSpec` proves the first item with the label gets the renderer and nothing else changes, or exactly one item is appended |
| Legends.LabelUpdate | bokeh/plotting/helpers.py:555-564 | `legend_label` on the items; `HandleLegendLabel` is proved to do exactly this, raising for a non-string and merging under a value label otherwise |
| Legends.FieldUpdate | bokeh/plotting/helpers.py:525-534 | `legend_field` on the items; `HandleLegendField` is proved to do exactly this, raising for a non-string and merging under a field label otherwise |
| Legends.DeprecatedLabel | bokeh/plotting/helpers.py:504-522 | the label the deprecated `legend` keyword stands for; `DeprecatedDictIsExplicit` and `DeprecatedStringFollowsColumns` characterise its dict and string cases |
| Legends.DeprecatedUpdate | bokeh/plotting/helpers.py:501-522 | `legend` on the items; `HandleLegendDeprecated` is proved to do exactly this, and the two lemmas above relate it to the explicit keywords |
| Legends.GroupUpdate | bokeh/plotting/helpers.py:537-552 | `legend_group` on the items; `GroupUpdateSpec` proves when it succeeds and that it appends one item per group after the kept items |
| Legends.KwargUpdate | bokeh/plotting/helpers.py:567-578 | the handler table applied to one keyword; `LegendUpdateExtends` proves every handler that succeeds only extends the items |
| Legends.LegendUpdate | bokeh/plotting/helpers.py:574-578 | the first keyword's handler; `UpdateLegend` is proved to apply it to the plot's one legend |
| Legends.AddToLegend | bokeh/plotting/helpers.py:529-534 | the legend's items become the merge of the renderer under the label |
| Legends.HandleLegendLabel | bokeh/plotting/helpers.py:555-564 | a non-string raises and leaves the items; a string merges the renderer under the value label |
| Legends.HandleLegendField | bokeh/plotting/helpers.py:525-534 | a non-string raises and leaves the items; a string merges the renderer under the field label |
| Legends.HandleLegendDeprecated | bokeh/plotting/helpers.py:501-522 | one-entry `field`/`value` dicts and strings act as their explicit handlers, a string naming a source column as a field; any other value raises and leaves the items |
| Legends.HandleLegendGroup | bokeh/plotting/helpers.py:537-552 | a non-string, a renderer without source, or a missing column raises and leaves the items; otherwise one item per group is appended |
| Legends.GetOrCreateLegend | bokeh/plotting/helpers.py:483-491 | a new empty legend is added when there is none, the one legend is returned, and more than one raises |
| Legends.UpdateLegend | bokeh/plotting/helpers.py:574-578 | the plot's one legend, created when absent, gets what the first keyword's handler does; several legends raise with every legend unchanged |
| Legends.MergedSpec | bokeh/plotting/helpers.py:529-534 | an existing label gets the renderer appended to its first item with the count unchanged; otherwise exactly one new item is appended at the end |
| Legends.MergedKeepsRenderers | bokeh/plotting/helpers.py:529-534 | merging keeps every item's earlier renderers and labels, and the renderer ends up last in an item with the label |
| Legends.MergedKeepsLabelsDistinct | bokeh/plotting/helpers.py:529-534 | merging keeps labels distinct |
| Legends.MergedTwice | bokeh/plotting/helpers.py:559-564 | merging the same label again adds no item |
| Legends.DeprecatedDictIsExplicit | bokeh/plotting/helpers.py:507-513 | the dict forms of `legend` do what `legend_field` and `legend_label` do |
| Legends.DeprecatedStringFollowsColumns | bokeh/plotting/helpers.py:517-522 | a string `legend` is a field exactly when it names a column of the renderer's source |
| Legends.GroupUpdateSpec | bokeh/plotting/helpers.py:537-552 | grouping succeeds exactly for a string naming a source column, and then appends one item per group after the kept items |
| Legends.LegendUpdateExtends | bokeh/plotting/helpers.py:501-578 | after any successful legend keyword, every earlier item keeps its place, its label and its renderers, and items are only added |
| Axes.GetScale | bokeh/plotting/helpers.py:601-609 | a linear scale for continuous ranges with a linear-like type, a log scale exactly for continuous ranges with `log`, a categorical scale exactly for factor ranges, an error otherwise |
| Axes.GetAxisClass | bokeh/plotting/helpers.py:612-635 | no axis exactly for no type; an error exactly for unknown types; the class for each explicit type (`linear`, `log`, `datetime`, `mercator`); `dimension` lon/lat only for mercator; and the `auto` choice by range kind |
| Axes.NumMinorTicks | bokeh/plotting/helpers.py:638-648 | an int above 1 is kept, an int or bool up to 1 raises, `None` gives 0, `auto` gives 10 on a log axis and 5 otherwise, anything else gives `None` |
| Axes.ScaleMatchesAxis | bokeh/plotting/helpers.py:601-624 | on a continuous range a known axis type gets a log scale exactly when it gets a log axis |
| Axes.FactorRangeIsCategorical | bokeh/plotting/helpers.py:606-626 | a factor range with `auto` gets a categorical scale and a categorical axis |
| Tools.ToolFromString | bokeh/plotting/helpers.py:694-711 | `_tool_from_string`; `ToolFromStringSpec` and `PreviewsaveIsSave` prove it gives a tool exactly for the table's names and follows the one alias |
| Tools.FromTable | bokeh/plotting/helpers.py:698-711 | the lookup with one alias step in a given table, or an unknown-tool error naming the input |
| Tools.OnlyAliasIsPreviewsave | bokeh/plotting/helpers.py:650-691 | `previewsave` is the table's only string entry |
| Tools.ToolFromStringSpec | bokeh/plotting/helpers.py:694-711 | a tool exactly for the table's names, and an unknown-tool error naming the input otherwise |
| Tools.PreviewsaveIsSave | bokeh/plotting/helpers.py:701-702 | `previewsave` gives the same save tool as `save` |
| Tools.NonEmptySpec | bokeh/plotting/helpers.py:764-765 | the kept tokens are exactly the non-empty ones |
| Tools.StripLeftSpec | bokeh/plotting/helpers.py:762 | left stripping removes a prefix of whitespace and leaves no leading whitespace |
| Tools.StripRightSpec | bokeh/plotting/helpers.py:762 | right stripping removes a suffix of whitespace and leaves no trailing whitespace |
| Tools.StripSpec | bokeh/plotting/helpers.py:762 | a stripped string starts and ends with non-whitespace, keeps only its input's characters, and stripping again changes nothing |
| Tools.JoinSplit | bokeh/plotting/helpers.py:762 | joining the comma pieces with commas gives back the string, and no piece holds a comma |
| Tools.SplitJoin | bokeh/plotting/helpers.py:762 | splitting names without commas joined by commas gives the names back |
| Tools.Strip | bokeh/plotting/helpers.py:762 | `s.strip()`; `StripSpec` proves the result has no surrounding whitespace and stripping again changes nothing |
| Tools.SplitCommas | bokeh/plotting/helpers.py:762 | `s.split(",")`; `JoinSplit` and `SplitJoin` prove it is the inverse of joining with commas |
| Tools.Tokens | bokeh/plotting/helpers.py:762 | the pieces `re.split` returns; `TokensSpec` and `NameListTokens` state what they hold |
| Tools.TokensSpec | bokeh/plotting/helpers.py:762-765 | no token holds a comma or surrounding whitespace, and the kept tokens are not empty |
| Tools.SortItems | bokeh/plotting/helpers.py:752-760 | a list item that is neither a tool nor a string raises; otherwise the tool objects in order, and the names each followed by a comma |
| Tools.FirstHover | bokeh/plotting/helpers.py:780-783 | the position of the first hover tool, with no hover tool before it, or none exactly when there is no hover tool |
| Tools.WithTooltips | bokeh/plotting/helpers.py:779-785 | the tools after `tooltips`; `WithTooltipsSpec` proves only the first hover tool changes or one is appended, and `ApplyTooltips` computes it |
| Tools.ApplyTooltips | bokeh/plotting/helpers.py:779-785 | the tooltips go to the first hover tool, or a new hover tool is appended |
| Tools.WithTooltipsSpec | bokeh/plotting/helpers.py:779-785 | only the first hover tool changes, or exactly one hover tool is added at the end |
| Tools.ResolveTokens | bokeh/plotting/helpers.py:762-769 | each non-empty token's tool is appended in order and recorded in the map, or the first unknown token's error is raised |
| Tools.ProcessToolsArg | bokeh/plotting/helpers.py:733-787 | a bad list item raises; otherwise the given tools, then one tool per non-empty token, with the tooltips applied, and the map from tokens to positions; an unknown token raises |
| Tools.Resolved | bokeh/plotting/helpers.py:767-768 | the tools for the tokens in order, or the first error; `ResolvedConcat` and `ResolvedFailsLater` characterise it |
| Tools.ToolIndex | bokeh/plotting/helpers.py:769 | `tool_map`; `ToolIndexSpec` proves its keys are the tokens and each maps to its last occurrence |
| Tools.Gathered | bokeh/plotting/helpers.py:762-769 | the outcome of the token loop; `ResolveTokens` is proved to compute it |
| Tools.ResolvedAt | bokeh/plotting/helpers.py:767-768 | the tokens resolve exactly when each one does, and then each tool is the one the table gives its token |
| Tools.ResolvedConcat | bokeh/plotting/helpers.py:762-769 | resolving two name lists one after the other gives the first failure or both tool lists in order |
| Tools.ResolvedFailsLater | bokeh/plotting/helpers.py:767 | an unknown token fails the whole call with its own error once the names before it resolve |
| Tools.ToolIndexSpec | bokeh/plotting/helpers.py:769 | the map's keys are exactly the tokens kept, and each maps to the position of its last occurrence |
| Tools.NameListTokens | bokeh/plotting/helpers.py:752-769 | tool names given as a list, or joined into one comma-separated string, give the same tokens |

## Left out

- `_graph`, `_process_sequence_literals`, `_get_range`, `_process_axis_and_grid`, `_process_active_tools`: not part of this model. They depend on numpy, pandas and framework introspection, or are outside the modelled helpers.
- Argument specs, signatures and docstrings (`_get_argspecs`, `_get_sigfunc`, `_add_sigfunc_info`) and the `_glyph_function` closure. Only the shape of its nonselection call is stated, as a lemma.
- `Legends.HandleLegendGroup`: `np.unique(column, return_index=1)` is a foreign call. Its result, the distinct values as strings with their first rows, is the `groups` parameter.
- `Axes.GetAxisClass`: `Datetime.validate` on the range's start is a foreign validator. Its outcome is the `startIsDatetime` parameter.
- Error messages, `difflib` suggestions, the repeated-tools warning and the `deprecated` call: message text and logging. The errors are kept as their kind and data.
- Floats are not computed with. `1.0` and `0.1` are opaque literals.
- Object identity.
  - A legend item is a value. Appending a renderer replaces the item in the legend's list, which is assumed to be the only reference to it.
  - A tool is a value, and `tool_map` maps each token to its tool's position in the returned tool list.
- Plot layout. `plot.add_layout` is modelled as appending to the plot's legend list, and `plot.select(type=Legend)` as reading that list.
- `Dicts.Kwargs.PopEach` requires distinct names. Both name lists it is used on, `_LEGEND_ARGS` and `_RENDERER_ARGS`, are distinct.
- The `re.split(r"\s*,\s*", s.strip())` call is modelled as splitting the stripped string at every comma and then stripping each piece. `IsSpace` is Python's whitespace set.
