/** The caller's keyword-argument dictionary, which several helpers
    change in place with `dict.pop`. */
module Dicts {
  import opened Values

  class Kwargs {
    var entries: map<string, Value>

    constructor (initial: map<string, Value>)
      ensures entries == initial
    {
      entries := initial;
    }

    /** `kwargs.pop(key, None)`: removes `key` and returns its value, if any. */
    method Pop(key: string) returns (v: Option<Value>)
      modifies this
      ensures entries == old(entries) - {key}
      ensures v == if key in old(entries) then Some(old(entries)[key]) else None
    {
      if key in entries {
        v := Some(entries[key]);
        entries := entries - {key};
      } else {
        v := None;
      }
    }

    /** `{attr: kwargs.pop(attr) for attr in names if attr in kwargs}`, as
        the entries it collects in the order of `names`. */
    method PopEach(names: seq<string>) returns (given: seq<(string, Value)>)
      requires forall j, k :: 0 <= j < k < |names| ==> names[j] != names[k]
      modifies this
      ensures given == PresentIn(names, old(entries))
      ensures entries == old(entries) - set a | a in names
    {
      ghost var kw0 := entries;
      given := [];
      var i := 0;
      while i < |names|
        invariant 0 <= i <= |names|
        invariant given == PresentIn(names[..i], kw0)
        invariant entries == kw0 - Elements(names[..i])
      {
        var a := names[i];
        assert a !in Elements(names[..i]);
        var v := Pop(a);
        PresentInSnoc(names[..i], a, kw0);
        ElementsSnoc(names, i);
        RemoveOneMore(kw0, Elements(names[..i]), a);
        assert names[..i + 1] == names[..i] + [a];
        if v.Some? {
          given := given + [(a, v.value)];
        }
        i := i + 1;
      }
      assert names[..i] == names;
    }
  }

  function Elements(names: seq<string>): set<string>
  {
    set a | a in names
  }

  lemma RemoveOneMore(m: map<string, Value>, gone: set<string>, a: string)
    ensures (m - gone) - {a} == m - (gone + {a})
  {
  }

  lemma ElementsSnoc(names: seq<string>, i: nat)
    requires i < |names|
    ensures Elements(names[..i + 1]) == Elements(names[..i]) + {names[i]}
  {
    assert names[..i + 1] == names[..i] + [names[i]];
  }

  /** The entries of `m` named in `names`, in the order of `names`. */
  function PresentIn(names: seq<string>, m: map<string, Value>): seq<(string, Value)>
  {
    if names == [] then []
    else (if names[0] in m then [(names[0], m[names[0]])] else []) + PresentIn(names[1..], m)
  }

  /** Exactly the entries of `m` whose keys are named, each at most once per name. */
  lemma {:induction false} PresentInSpec(names: seq<string>, m: map<string, Value>)
    ensures |PresentIn(names, m)| <= |names|
    ensures forall p :: p in PresentIn(names, m) ==> p.0 in names && p.0 in m && p.1 == m[p.0]
    ensures forall a :: a in names && a in m ==> (a, m[a]) in PresentIn(names, m)
  {
    if names != [] {
      PresentInSpec(names[1..], m);
      assert names == [names[0]] + names[1..];
    }
  }

  lemma {:induction false} PresentInSnoc(names: seq<string>, x: string, m: map<string, Value>)
    ensures PresentIn(names + [x], m) ==
            PresentIn(names, m) + (if x in m then [(x, m[x])] else [])
  {
    if names == [] {
      assert names + [x] == [x];
      assert [x][1..] == [];
    } else {
      var h := if names[0] in m then [(names[0], m[names[0]])] else [];
      var t := if x in m then [(x, m[x])] else [];
      var mid := PresentIn(names[1..], m);
      assert (names + [x])[0] == names[0];
      assert (names + [x])[1..] == names[1..] + [x];
      PresentInSnoc(names[1..], x, m);
      assert PresentIn(names + [x], m) == h + (mid + t);
      assert PresentIn(names, m) == h + mid;
      assert h + (mid + t) == (h + mid) + t;
    }
  }


  /** The entries of `m` whose keys are in `keys`. */
  function Picked(m: map<string, Value>, keys: set<string>): (r: map<string, Value>)
    ensures r.Keys == m.Keys * keys
    ensures forall k :: k in r ==> r[k] == m[k]
  {
    map k | k in m && k in keys :: m[k]
  }

  /** The dict built from `(key, value)` pairs with distinct keys. */
  function AsDict(pairs: seq<(string, Value)>): map<string, Value>
  {
    if pairs == [] then map[] else AsDict(pairs[1..])[pairs[0].0 := pairs[0].1]
  }

  /** Collecting the named entries as pairs and then as a dict gives exactly
      the entries of `m` with those names. */
  lemma {:induction false} AsDictPresentIn(names: seq<string>, m: map<string, Value>)
    ensures AsDict(PresentIn(names, m)) == Picked(m, Elements(names))
  {
    if names != [] {
      var rest := PresentIn(names[1..], m);
      AsDictPresentIn(names[1..], m);
      assert Elements(names) == Elements(names[1..]) + {names[0]} by {
        assert names == [names[0]] + names[1..];
      }
      PickedAdd(m, Elements(names[1..]), names[0]);
      if names[0] in m {
        var p := [(names[0], m[names[0]])] + rest;
        assert PresentIn(names, m) == p;
        assert p[1..] == rest;
      } else {
        assert PresentIn(names, m) == rest;
      }
    }
  }

  lemma PickedAdd(m: map<string, Value>, keys: set<string>, a: string)
    ensures Picked(m, keys + {a}) == if a in m then Picked(m, keys)[a := m[a]] else Picked(m, keys)
  {
  }
}
