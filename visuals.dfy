/** `_pop_visuals`: the cascade that picks a glyph's visual properties
    (line_*, fill_*, text_*, global_*) from prefixed keyword arguments,
    trait aliases, override defaults, glyph defaults and trait defaults,
    popping the keyword arguments it consumes. A glyph class is the set
    of its property names. */
module Visuals {
  import opened Values
  import opened Dicts
  import Colors

  const Features: set<string> := {"line", "fill", "text", "global"}

  /** The position of the first '_' in `s`, if any. */
  function FirstUnderscore(s: string): Option<nat> {
    if s == [] then None
    else if s[0] == '_' then Some(0)
    else match FirstUnderscore(s[1..])
      case None => None
      case Some(k) => Some(k + 1)
  }

  lemma {:induction false} FirstUnderscoreSpec(s: string)
    ensures FirstUnderscore(s).Some? ==>
              FirstUnderscore(s).value < |s| && s[FirstUnderscore(s).value] == '_' &&
              '_' !in s[..FirstUnderscore(s).value]
    ensures FirstUnderscore(s).None? <==> '_' !in s
  {
    if s != [] && s[0] != '_' {
      FirstUnderscoreSpec(s[1..]);
      match FirstUnderscore(s[1..])
      case None =>
      case Some(k) => assert s[..k + 1] == [s[0]] + s[1..][..k];
    }
  }

  /** `ft.split('_', 1)` padded to a pair: the feature up to the first '_'
      and the trait after it, or no trait when `ft` has no '_'. */
  function SplitFeatureTrait(ft: string): (string, Option<string>) {
    match FirstUnderscore(ft)
    case None => (ft, None)
    case Some(k) => if k < |ft| then (ft[..k], Some(ft[k + 1..])) else (ft, None)
  }

  /** The split yields a feature without '_', and rejoining the two parts
      with '_' gives back the name. */
  lemma SplitFeatureTraitSpec(ft: string)
    ensures '_' !in SplitFeatureTrait(ft).0
    ensures SplitFeatureTrait(ft).1.None? <==> '_' !in ft
    ensures SplitFeatureTrait(ft).1.None? ==> SplitFeatureTrait(ft).0 == ft
    ensures SplitFeatureTrait(ft).1.Some? ==>
              ft == SplitFeatureTrait(ft).0 + "_" + SplitFeatureTrait(ft).1.value
  {
    FirstUnderscoreSpec(ft);
    match FirstUnderscore(ft)
    case None =>
    case Some(k) => assert ft == ft[..k] + "_" + ft[k + 1..];
  }

  /** A visual property name: a known feature followed by '_' and a trait.
      The trait may be empty ("line_" splits into "line" and ""). */
  predicate IsVisual(ft: string) {
    SplitFeatureTrait(ft).0 in Features && SplitFeatureTrait(ft).1.Some?
  }

  /** The trait of a visual property name (empty for a name without '_'). */
  function Trait(pname: string): string {
    match SplitFeatureTrait(pname).1
    case Some(t) => t
    case None => ""
  }

  /** The ultimate per-trait defaults: the first palette colour and alpha 1.0. */
  const TraitDefaults: map<string, Value> :=
    map["color" := Str(Colors.Palette[0]), "alpha" := Float("1.0")]

  /** `defaults.copy()` followed by `setdefault('text_color', 'black')`. */
  function WithTextColor(defaults: map<string, Value>): (d: map<string, Value>)
    ensures "text_color" in d
    ensures "text_color" !in defaults ==> d["text_color"] == Str("black")
    ensures forall k :: k in defaults ==> k in d && d[k] == defaults[k]
    ensures d.Keys == defaults.Keys + {"text_color"}
  {
    if "text_color" in defaults then defaults else defaults["text_color" := Str("black")]
  }

  /** The visual properties of a glyph class. */
  function VisualProps(glyph: set<string>): set<string> {
    set p | p in glyph && IsVisual(p)
  }

  /** The traits of visual properties that are not themselves glyph
      properties: exactly those that `prefix + trait` may alias. */
  function AliasTraits(glyph: set<string>): set<string> {
    TraitsOver(glyph, VisualProps(glyph))
  }

  function Prefixed(prefix: string, names: set<string>): set<string> {
    set x | x in names :: prefix + x
  }

  /** The value chosen for visual property `pname`, tier by tier;
      `None` when no tier supplies one and the property is left unset. */
  function Cascade(glyph: set<string>, props: map<string, Value>, prefix: string,
                   defaults: map<string, Value>, overrides: map<string, Value>,
                   pname: string): Option<Value>
  {
    CascadeOn(glyph, props, prefix, defaults, overrides, pname, Trait(pname))
  }

  /** `Cascade` for the property `pname` whose trait is `t`. */
  function CascadeOn(glyph: set<string>, props: map<string, Value>, prefix: string,
                     defaults: map<string, Value>, overrides: map<string, Value>,
                     pname: string, t: string): Option<Value>
  {
    var d := WithTextColor(defaults);
    if prefix + pname in props then Some(props[prefix + pname])
    else if t !in glyph && prefix + t in props then Some(props[prefix + t])
    else if t in overrides then Some(overrides[t])
    else if pname in d then Some(d[pname])
    else if t in TraitDefaults then Some(TraitDefaults[t])
    else None
  }

  /** The dictionary `_pop_visuals` returns, on the props it is given. */
  function Resolve(glyph: set<string>, props: map<string, Value>, prefix: string,
                   defaults: map<string, Value>, overrides: map<string, Value>): (r: map<string, Value>)
    ensures forall k :: k in r ==> k in glyph && IsVisual(k)
  {
    ResolveOver(glyph, props, prefix, defaults, overrides, VisualProps(glyph))
  }

  /** The keys `_pop_visuals` removes from props: every prefixed visual
      property name and every prefixed alias trait. */
  function Consumed(glyph: set<string>, prefix: string): (c: set<string>)
    ensures forall k :: k in c ==> prefix <= k
  {
    Prefixed(prefix, VisualProps(glyph)) + Prefixed(prefix, AliasTraits(glyph))
  }

  lemma PrefixInjective(prefix: string, a: string, b: string)
    requires prefix + a == prefix + b
    ensures a == b
  {
    assert a == (prefix + a)[|prefix|..];
    assert b == (prefix + b)[|prefix|..];
  }

  /** The part of `Resolve` contributed by the properties in `names`. */
  function ResolveOver(glyph: set<string>, props: map<string, Value>, prefix: string,
                       defaults: map<string, Value>, overrides: map<string, Value>,
                       names: set<string>): map<string, Value>
  {
    map p | p in names && Cascade(glyph, props, prefix, defaults, overrides, p).Some?
      :: Cascade(glyph, props, prefix, defaults, overrides, p).value
  }

  lemma ResolveOverIsCollect(glyph: set<string>, props: map<string, Value>, prefix: string,
                             defaults: map<string, Value>, overrides: map<string, Value>,
                             names: set<string>)
    ensures ResolveOver(glyph, props, prefix, defaults, overrides, names) ==
            Collect(q => Cascade(glyph, props, prefix, defaults, overrides, q), names)
  {
  }

  /** The names for which `choose` picks a value, mapped to that value. */
  function Collect(choose: string -> Option<Value>, names: set<string>): map<string, Value>
  {
    map p | p in names && choose(p).Some? :: choose(p).value
  }

  lemma CollectAdd(choose: string -> Option<Value>, names: set<string>, p: string)
    ensures Collect(choose, names + {p}) ==
            match choose(p)
            case Some(v) => Collect(choose, names)[p := v]
            case None => Collect(choose, names)
  {
  }

  lemma CollectPointwise(choose1: string -> Option<Value>, choose2: string -> Option<Value>, names: set<string>)
    requires forall p :: p in names ==> choose1(p) == choose2(p)
    ensures Collect(choose1, names) == Collect(choose2, names)
  {
  }

  lemma ResolveOverAdd(glyph: set<string>, props: map<string, Value>, prefix: string,
                       defaults: map<string, Value>, overrides: map<string, Value>,
                       names: set<string>, p: string)
    ensures ResolveOver(glyph, props, prefix, defaults, overrides, names + {p}) ==
            match Cascade(glyph, props, prefix, defaults, overrides, p)
            case Some(v) => ResolveOver(glyph, props, prefix, defaults, overrides, names)[p := v]
            case None => ResolveOver(glyph, props, prefix, defaults, overrides, names)
  {
    ResolveOverIsCollect(glyph, props, prefix, defaults, overrides, names);
    ResolveOverIsCollect(glyph, props, prefix, defaults, overrides, names + {p});
    CollectAdd(q => Cascade(glyph, props, prefix, defaults, overrides, q), names, p);
  }

  /** The result depends only on what the cascade sees for each property. */
  lemma ResolveOverPointwise(glyph: set<string>, props1: map<string, Value>, props2: map<string, Value>,
                             prefix: string, defaults: map<string, Value>, overrides: map<string, Value>,
                             names: set<string>)
    requires forall p :: p in names ==>
               Cascade(glyph, props1, prefix, defaults, overrides, p) ==
               Cascade(glyph, props2, prefix, defaults, overrides, p)
    ensures ResolveOver(glyph, props1, prefix, defaults, overrides, names) ==
            ResolveOver(glyph, props2, prefix, defaults, overrides, names)
  {
    ResolveOverIsCollect(glyph, props1, prefix, defaults, overrides, names);
    ResolveOverIsCollect(glyph, props2, prefix, defaults, overrides, names);
    CollectPointwise(q => Cascade(glyph, props1, prefix, defaults, overrides, q),
                     q => Cascade(glyph, props2, prefix, defaults, overrides, q), names);
  }

  /** The alias traits contributed by the properties in `names`. */
  function TraitsOver(glyph: set<string>, names: set<string>): set<string>
  {
    set p | p in names && Trait(p) !in glyph :: Trait(p)
  }

  /** Popping the prefixed names of other glyph properties does not change
      what the cascade sees for `pname`. */
  lemma CascadeUnaffected(glyph: set<string>, props: map<string, Value>, prefix: string,
                          defaults: map<string, Value>, overrides: map<string, Value>,
                          done: set<string>, pname: string)
    requires done <= glyph && pname in glyph && pname !in done
    ensures Cascade(glyph, props - Prefixed(prefix, done), prefix, defaults, overrides, pname) ==
            Cascade(glyph, props, prefix, defaults, overrides, pname)
  {
    var t := Trait(pname);
    forall q | q in done
      ensures prefix + q != prefix + pname && (t !in glyph ==> prefix + q != prefix + t)
    {
      if prefix + q == prefix + pname { PrefixInjective(prefix, q, pname); }
      if t !in glyph && prefix + q == prefix + t { PrefixInjective(prefix, q, t); }
    }
  }

  lemma TraitsOverAdd(glyph: set<string>, names: set<string>, p: string)
    ensures TraitsOver(glyph, names + {p}) ==
            if Trait(p) !in glyph then TraitsOver(glyph, names) + {Trait(p)} else TraitsOver(glyph, names)
  {
  }

  /** The `text_color` fallback is applied once: copying it in again changes nothing. */
  lemma CascadeWithTextColor(glyph: set<string>, props: map<string, Value>, prefix: string,
                             defaults: map<string, Value>, overrides: map<string, Value>, pname: string)
    ensures Cascade(glyph, props, prefix, WithTextColor(defaults), overrides, pname) ==
            Cascade(glyph, props, prefix, defaults, overrides, pname)
  {
    assert WithTextColor(WithTextColor(defaults)) == WithTextColor(defaults);
  }

  lemma PrefixedAdd(prefix: string, names: set<string>, x: string)
    ensures Prefixed(prefix, names + {x}) == Prefixed(prefix, names) + {prefix + x}
  {
  }

  /** `_pop_visuals(glyphclass, props, prefix, defaults, override_defaults)`.
      `defaults` and `override_defaults` are passed by value: the caller's
      dictionaries are never changed, only `props` is. */
  method PopVisuals(glyph: set<string>, props: Kwargs, prefix: string,
                    defaults: map<string, Value>, overrides: map<string, Value>)
    returns (result: map<string, Value>)
    modifies props
    ensures result == Resolve(glyph, old(props.entries), prefix, defaults, overrides)
    ensures props.entries == old(props.entries) - Consumed(glyph, prefix)
  {
    var traits;
    result, traits := ResolveVisualProps(glyph, VisualProps(glyph), props, prefix, defaults, overrides);
    PopPrefixed(props, prefix, traits);
  }

  /** The main loop of `_pop_visuals` over the glyph's visual properties
      `visuals`: picks each one's value, pops the prefixed property names it
      reads, and collects the alias traits. */
  method ResolveVisualProps(glyph: set<string>, visuals: set<string>, props: Kwargs, prefix: string,
                            defaults: map<string, Value>, overrides: map<string, Value>)
    returns (result: map<string, Value>, traits: set<string>)
    requires visuals <= glyph
    modifies props
    ensures result == ResolveOver(glyph, old(props.entries), prefix, defaults, overrides, visuals)
    ensures traits == TraitsOver(glyph, visuals)
    ensures props.entries == old(props.entries) - Prefixed(prefix, visuals)
  {
    ghost var props0 := props.entries;
    var d := WithTextColor(defaults);
    result := map[];
    traits := {};
    var todo := visuals;
    ghost var done: set<string> := {};
    while todo != {}
      invariant todo + done == visuals && todo !! done
      invariant props.entries == props0 - Prefixed(prefix, done)
      invariant result == ResolveOver(glyph, props0, prefix, defaults, overrides, done)
      invariant traits == TraitsOver(glyph, done)
      decreases todo
    {
      var pname :| pname in todo;
      var tr := Trait(pname);
      CascadeUnaffected(glyph, props0, prefix, defaults, overrides, done, pname);
      ResolveOverAdd(glyph, props0, prefix, defaults, overrides, done, pname);
      PrefixedAdd(prefix, done, pname);
      TraitsOverAdd(glyph, done, pname);
      CascadeWithTextColor(glyph, props.entries, prefix, defaults, overrides, pname);
      ghost var before := props.entries;
      var chosen := PickVisual(glyph, props, prefix, d, overrides, pname);
      assert chosen == Cascade(glyph, props0, prefix, defaults, overrides, pname) by {
        assert before == props0 - Prefixed(prefix, done);
      }
      if chosen.Some? {
        result := result[pname := chosen.value];
      }
      assert result == ResolveOver(glyph, props0, prefix, defaults, overrides, done + {pname});
      if tr !in glyph {
        traits := traits + {tr};
      }
      todo := todo - {pname};
      done := done + {pname};
    }
  }

  /** One step of the main loop: the first tier that supplies a value for
      `pname`; the prefixed name is popped when it is the one used, and it
      is absent otherwise. */
  method PickVisual(glyph: set<string>, props: Kwargs, prefix: string,
                    d: map<string, Value>, overrides: map<string, Value>, pname: string)
    returns (chosen: Option<Value>)
    requires "text_color" in d
    modifies props
    ensures chosen == Cascade(glyph, old(props.entries), prefix, d, overrides, pname)
    ensures props.entries == old(props.entries) - {prefix + pname}
  {
    var tr := Trait(pname);
    chosen := None;
    if prefix + pname in props.entries {
      chosen := props.Pop(prefix + pname);
    } else if tr !in glyph && prefix + tr in props.entries {
      chosen := Some(props.entries[prefix + tr]);
    } else if tr in overrides {
      chosen := Some(overrides[tr]);
    } else if pname in d {
      chosen := Some(d[pname]);
    } else if tr in TraitDefaults {
      chosen := Some(TraitDefaults[tr]);
    }
  }

  /** The closing loop of `_pop_visuals`: `props.pop(prefix + trait, None)`
      for every collected trait. */
  method PopPrefixed(props: Kwargs, prefix: string, names: set<string>)
    modifies props
    ensures props.entries == old(props.entries) - Prefixed(prefix, names)
  {
    var pending := names;
    while pending != {}
      invariant pending <= names
      invariant props.entries == old(props.entries) - Prefixed(prefix, names - pending)
      decreases pending
    {
      var t :| t in pending;
      var _ := props.Pop(prefix + t);
      PrefixedAdd(prefix, names - pending, t);
      assert names - (pending - {t}) == (names - pending) + {t};
      pending := pending - {t};
    }
  }

  // ---------------------------------------------------------------------
  // Properties of the cascade

  lemma {:induction false} FirstUnderscoreAfter(f: string, t: string)
    requires '_' !in f
    ensures FirstUnderscore(f + "_" + t) == Some(|f|)
  {
    if f != [] {
      assert (f + "_" + t)[1..] == f[1..] + "_" + t;
      FirstUnderscoreAfter(f[1..], t);
    }
  }

  /** Splitting is the inverse of joining a feature (without '_') to a trait. */
  lemma SplitFeatureTraitJoin(f: string, t: string)
    requires '_' !in f
    ensures SplitFeatureTrait(f + "_" + t) == (f, Some(t))
  {
    FirstUnderscoreAfter(f, t);
    assert (f + "_" + t)[..|f|] == f;
    assert (f + "_" + t)[|f| + 1..] == t;
  }

  /** Every known feature followed by '_' and any trait names a visual property. */
  lemma FeatureTraitIsVisual(f: string, t: string)
    requires f in Features
    ensures IsVisual(f + "_" + t) && Trait(f + "_" + t) == t
  {
    SplitFeatureTraitJoin(f, t);
  }

  function Lookup(m: map<string, Value>, k: string): Option<Value> {
    if k in m then Some(m[k]) else None
  }

  /** The first present entry of a list of candidates. */
  function FirstPresent(candidates: seq<Option<Value>>): (r: Option<Value>)
    ensures r.None? <==> forall i :: 0 <= i < |candidates| ==> candidates[i].None?
    ensures r.Some? ==> r in candidates
  {
    if candidates == [] then None
    else if candidates[0].Some? then candidates[0]
    else
      var r := FirstPresent(candidates[1..]);
      assert forall i :: 1 <= i < |candidates| ==> candidates[i] == candidates[1..][i - 1];
      r
  }

  /** `FirstPresent` picks the present candidate that no other present one precedes. */
  lemma {:induction false} FirstPresentIsFirst(candidates: seq<Option<Value>>, i: nat)
    requires i < |candidates| && candidates[i].Some?
    requires forall j :: 0 <= j < i ==> candidates[j].None?
    ensures FirstPresent(candidates) == candidates[i]
  {
    if i > 0 {
      FirstPresentIsFirst(candidates[1..], i - 1);
    }
  }

  /** The candidate sources for visual property `pname`, highest precedence
      first: the prefixed name, the prefixed trait alias (only when the trait
      is not a glyph property), the override for the trait, the caller's
      default for the name, the black fallback of `text_color`, the trait default. */
  function Tiers(glyph: set<string>, props: map<string, Value>, prefix: string,
                 defaults: map<string, Value>, overrides: map<string, Value>,
                 pname: string): (tiers: seq<Option<Value>>)
    ensures |tiers| == 6
  {
    TiersOn(glyph, props, prefix, defaults, overrides, pname, Trait(pname))
  }

  function TiersOn(glyph: set<string>, props: map<string, Value>, prefix: string,
                   defaults: map<string, Value>, overrides: map<string, Value>,
                   pname: string, t: string): (tiers: seq<Option<Value>>)
    ensures |tiers| == 6
  {
    [ Lookup(props, prefix + pname),
      if t !in glyph then Lookup(props, prefix + t) else None,
      Lookup(overrides, t),
      Lookup(defaults, pname),
      if pname == "text_color" then Some(Str("black")) else None,
      Lookup(TraitDefaults, t) ]
  }

  /** Precedence: the value picked for a visual property is the first
      candidate source that holds one, and it is unset when none does. */
  lemma CascadeIsFirstTier(glyph: set<string>, props: map<string, Value>, prefix: string,
                           defaults: map<string, Value>, overrides: map<string, Value>,
                           pname: string)
    ensures Cascade(glyph, props, prefix, defaults, overrides, pname) ==
            FirstPresent(Tiers(glyph, props, prefix, defaults, overrides, pname))
  {
    CascadeOnIsFirstTier(glyph, props, prefix, defaults, overrides, pname, Trait(pname));
  }

  lemma CascadeOnIsFirstTier(glyph: set<string>, props: map<string, Value>, prefix: string,
                             defaults: map<string, Value>, overrides: map<string, Value>,
                             pname: string, t: string)
    ensures CascadeOn(glyph, props, prefix, defaults, overrides, pname, t) ==
            FirstPresent(TiersOn(glyph, props, prefix, defaults, overrides, pname, t))
  {
    FirstOfSix(Lookup(props, prefix + pname),
               if t !in glyph then Lookup(props, prefix + t) else None,
               Lookup(overrides, t),
               Lookup(defaults, pname),
               if pname == "text_color" then Some(Str("black")) else None,
               Lookup(TraitDefaults, t));
  }

  /** `FirstPresent` on six candidates, written out. */
  lemma FirstOfSix(a: Option<Value>, b: Option<Value>, c: Option<Value>,
                   d: Option<Value>, e: Option<Value>, f: Option<Value>)
    ensures FirstPresent([a, b, c, d, e, f]) ==
            if a.Some? then a else if b.Some? then b else if c.Some? then c
            else if d.Some? then d else if e.Some? then e else f
  {
    assert [f][1..] == [];
    assert FirstPresent([f]) == f;
    assert [e, f][1..] == [f];
    assert FirstPresent([e, f]) == if e.Some? then e else f;
    assert [d, e, f][1..] == [e, f];
    assert FirstPresent([d, e, f]) == if d.Some? then d else FirstPresent([e, f]);
    assert [c, d, e, f][1..] == [d, e, f];
    assert FirstPresent([c, d, e, f]) == if c.Some? then c else FirstPresent([d, e, f]);
    assert [b, c, d, e, f][1..] == [c, d, e, f];
    assert FirstPresent([b, c, d, e, f]) == if b.Some? then b else FirstPresent([c, d, e, f]);
    assert [a, b, c, d, e, f][1..] == [b, c, d, e, f];
  }

  /** A prefixed property name always wins, whatever the defaults are. */
  lemma ExplicitKeyWins(glyph: set<string>, props: map<string, Value>, prefix: string,
                        defaults: map<string, Value>, overrides: map<string, Value>, pname: string)
    requires pname in glyph && IsVisual(pname) && prefix + pname in props
    ensures pname in Resolve(glyph, props, prefix, defaults, overrides)
    ensures Resolve(glyph, props, prefix, defaults, overrides)[pname] == props[prefix + pname]
  {
  }

  /** A prefixed trait alias such as `color` or `selection_alpha` reaches
      every feature with that trait that has no prefixed name of its own,
      unless the trait is itself a glyph property. */
  lemma AliasReachesEveryFeature(glyph: set<string>, props: map<string, Value>, prefix: string,
                                 defaults: map<string, Value>, overrides: map<string, Value>,
                                 t: string, f: string)
    requires f in Features && f + "_" + t in glyph
    requires t !in glyph && prefix + t in props && prefix + f + "_" + t !in props
    ensures f + "_" + t in Resolve(glyph, props, prefix, defaults, overrides)
    ensures Resolve(glyph, props, prefix, defaults, overrides)[f + "_" + t] == props[prefix + t]
  {
    FeatureTraitIsVisual(f, t);
    assert prefix + (f + "_" + t) == prefix + f + "_" + t;
  }

  /** A trait that is a glyph property is never read as an alias. */
  lemma GlyphPropertyIsNoAlias(glyph: set<string>, props: map<string, Value>, prefix: string,
                               defaults: map<string, Value>, overrides: map<string, Value>,
                               pname: string, v: Value)
    requires IsVisual(pname) && Trait(pname) in glyph
    ensures Cascade(glyph, props[prefix + Trait(pname) := v], prefix, defaults, overrides, pname) ==
            Cascade(glyph, props - {prefix + Trait(pname)}, prefix, defaults, overrides, pname)
  {
    if prefix + pname == prefix + Trait(pname) {
      PrefixInjective(prefix, pname, Trait(pname));
      assert false;
    }
  }

  /** Colours, alphas and `text_color` always receive a value. */
  lemma UltimateDefaults(glyph: set<string>, props: map<string, Value>, prefix: string,
                         defaults: map<string, Value>, overrides: map<string, Value>, pname: string)
    requires pname in glyph && IsVisual(pname)
    requires Trait(pname) in {"color", "alpha"} || pname == "text_color"
    ensures pname in Resolve(glyph, props, prefix, defaults, overrides)
  {
  }

  /** With nothing given for it, `text_color` is black, not the palette colour. */
  lemma TextColorFallsBackToBlack(glyph: set<string>, props: map<string, Value>, prefix: string,
                                  defaults: map<string, Value>, overrides: map<string, Value>)
    requires "text_color" in glyph
    requires prefix + "text_color" !in props && ("color" in glyph || prefix + "color" !in props)
    requires "color" !in overrides && "text_color" !in defaults
    ensures var r := Resolve(glyph, props, prefix, defaults, overrides);
            "text_color" in r && r["text_color"] == Str("black")
  {
    assert "text" + "_" + "color" == "text_color";
    FeatureTraitIsVisual("text", "color");
  }

  /** After the pops, the props hold nothing more for this prefix: a second
      call with the same prefix sees only the defaults. */
  lemma SecondPassSeesOnlyDefaults(glyph: set<string>, props: map<string, Value>, prefix: string,
                                   defaults: map<string, Value>, overrides: map<string, Value>)
    ensures Resolve(glyph, props - Consumed(glyph, prefix), prefix, defaults, overrides) ==
            Resolve(glyph, map[], prefix, defaults, overrides)
  {
    var rest := props - Consumed(glyph, prefix);
    var visuals := VisualProps(glyph);
    forall p | p in visuals
      ensures Cascade(glyph, rest, prefix, defaults, overrides, p) ==
              Cascade(glyph, map[], prefix, defaults, overrides, p)
    {
      assert prefix + p in Prefixed(prefix, visuals);
      if Trait(p) !in glyph {
        assert Trait(p) in AliasTraits(glyph);
        assert prefix + Trait(p) in Prefixed(prefix, AliasTraits(glyph));
      }
    }
    ResolveOverPointwise(glyph, rest, map[], prefix, defaults, overrides, visuals);
  }

  /** The non-visual glyph properties (data such as `x`, `size`, `width`)
      are never consumed, with or without the prefix. */
  lemma GlyphDataKeysSurvive(glyph: set<string>, prefix: string, q: string)
    requires q in glyph && !IsVisual(q)
    ensures prefix + q !in Consumed(glyph, prefix)
  {
    if prefix + q in Prefixed(prefix, VisualProps(glyph)) {
      var p :| p in VisualProps(glyph) && prefix + q == prefix + p;
      PrefixInjective(prefix, q, p);
    }
    if prefix + q in Prefixed(prefix, AliasTraits(glyph)) {
      var t :| t in AliasTraits(glyph) && prefix + q == prefix + t;
      PrefixInjective(prefix, q, t);
    }
  }

  /** The shape of `_glyph_function`'s nonselection pass: with the main
      glyph's result as defaults and an alpha override, a visual property
      given no nonselection key of its own keeps the main glyph's value,
      except that every alpha becomes the override. */
  lemma NonselectionInheritsMainGlyph(glyph: set<string>, props: map<string, Value>,
                                      main: map<string, Value>, alpha: Value, pname: string)
    requires pname in glyph && IsVisual(pname) && pname in main
    requires "nonselection_" + pname !in props
    requires Trait(pname) in glyph || "nonselection_" + Trait(pname) !in props
    ensures var ns := Resolve(glyph, props, "nonselection_", main, map["alpha" := alpha]);
            pname in ns && ns[pname] == if Trait(pname) == "alpha" then alpha else main[pname]
  {
  }
}
