/** `_single_stack` and `_double_stack`: one keyword dict per stacker, each
    holding the stack of the stackers so far and that stacker's share of the
    broadcast keyword arguments. `stack(*names)` is the opaque `StackV`. */
module Stacking {
  import opened Values

  /** `{ len(x) for x in kw.values() if isinstance(x, (list, tuple)) }` */
  function BroadcastLengths(kw: map<string, Value>): set<nat>
  {
    set k | k in kw && IsSequence(kw[k]) :: |kw[k].items|
  }

  /** Every list or tuple value among the keyword arguments has length `n`. */
  predicate Broadcastable(kw: map<string, Value>, n: nat)
  {
    forall k :: k in kw && IsSequence(kw[k]) ==> |kw[k].items| == n
  }

  /** Every list or tuple value among the keyword arguments has an `i`th element. */
  predicate Indexable(kw: map<string, Value>, i: nat)
  {
    forall k :: k in kw && IsSequence(kw[k]) ==> i < |kw[k].items|
  }

  /** The length validation both stack functions perform before building. */
  function CheckLengths(kw: map<string, Value>, n: nat): Outcome
  {
    var lengths := BroadcastLengths(kw);
    if lengths == {} then Pass
    else if |lengths| != 1 then Fail(BroadcastLengthsDiffer(lengths))
    else if lengths != {n} then Fail(BroadcastLengthMismatch(n))
    else Pass
  }

  /** A value's share for stacker `i`: `v[i]` for a list or tuple, else `v`. */
  function Element(v: Value, i: nat): Value
    requires IsSequence(v) ==> i < |v.items|
  {
    if IsSequence(v) then v.items[i] else v
  }

  /** The broadcast values of the dict for stacker `i`. */
  function BroadcastRow(kw: map<string, Value>, i: nat): (row: map<string, Value>)
    requires Indexable(kw, i)
    ensures row.Keys == kw.Keys
  {
    RowOver(kw, kw.Keys, i)
  }

  /** The broadcast values for the keyword arguments named in `keys`. */
  function RowOver(kw: map<string, Value>, keys: set<string>, i: nat): map<string, Value>
    requires Indexable(kw, i)
  {
    map k | k in keys && k in kw :: Element(kw[k], i)
  }

  lemma RowOverAdd(kw: map<string, Value>, keys: set<string>, k: string, i: nat)
    requires Indexable(kw, i) && k in kw
    ensures RowOver(kw, keys + {k}, i) == RowOver(kw, keys, i)[k := Element(kw[k], i)]
  {
  }

  lemma UpdateAfterUnion(d: map<string, Value>, m: map<string, Value>, k: string, v: Value)
    ensures (d + m)[k := v] == d + m[k := v]
  {
  }

  /** The dict `_single_stack` builds for stacker `i`. */
  function SingleEntry(stackers: seq<string>, spec: string, kw: map<string, Value>, i: nat)
    : map<string, Value>
    requires i < |stackers| && Indexable(kw, i)
  {
    map["name" := Str(stackers[i])][spec := StackV(stackers[..i + 1])] + BroadcastRow(kw, i)
  }

  /** The single-stack dict for stacker `i` holds the name, the stack of the
      first `i + 1` stackers and each keyword argument's share. */
  lemma SingleEntrySpec(stackers: seq<string>, spec: string, kw: map<string, Value>, i: nat)
    requires i < |stackers| && Indexable(kw, i)
    ensures SingleEntry(stackers, spec, kw, i).Keys == {"name", spec} + kw.Keys
    ensures spec !in kw ==> SingleEntry(stackers, spec, kw, i)[spec] == StackV(stackers[..i + 1])
    ensures forall k :: k in kw && IsSequence(kw[k]) ==> SingleEntry(stackers, spec, kw, i)[k] == kw[k].items[i]
    ensures forall k :: k in kw && !IsSequence(kw[k]) ==> SingleEntry(stackers, spec, kw, i)[k] == kw[k]
    ensures "name" != spec && "name" !in kw ==> SingleEntry(stackers, spec, kw, i)["name"] == Str(stackers[i])
  {
  }

  /** The dict `_double_stack` builds for stacker `i`. */
  function DoubleEntry(stackers: seq<string>, spec0: string, spec1: string,
                       kw: map<string, Value>, i: nat): map<string, Value>
    requires i < |stackers| && Indexable(kw, i)
  {
    map["name" := Str(stackers[i])][spec0 := StackV(stackers[..i])][spec1 := StackV(stackers[..i + 1])]
      + BroadcastRow(kw, i)
  }

  /** The double-stack dict for stacker `i` holds the name, the stacks of the
      first `i` and the first `i + 1` stackers and each keyword argument's share. */
  lemma DoubleEntrySpec(stackers: seq<string>, spec0: string, spec1: string,
                        kw: map<string, Value>, i: nat)
    requires i < |stackers| && Indexable(kw, i)
    ensures DoubleEntry(stackers, spec0, spec1, kw, i).Keys == {"name", spec0, spec1} + kw.Keys
    ensures spec1 !in kw ==> DoubleEntry(stackers, spec0, spec1, kw, i)[spec1] == StackV(stackers[..i + 1])
    ensures spec0 != spec1 && spec0 !in kw ==>
              DoubleEntry(stackers, spec0, spec1, kw, i)[spec0] == StackV(stackers[..i])
    ensures forall k :: k in kw && IsSequence(kw[k]) ==>
              DoubleEntry(stackers, spec0, spec1, kw, i)[k] == kw[k].items[i]
    ensures forall k :: k in kw && !IsSequence(kw[k]) ==> DoubleEntry(stackers, spec0, spec1, kw, i)[k] == kw[k]
    ensures "name" !in {spec0, spec1} && "name" !in kw ==>
              DoubleEntry(stackers, spec0, spec1, kw, i)["name"] == Str(stackers[i])
  {
  }

  /** The length validation passes exactly when every list or tuple value has
      one length per stacker; it reports differing lengths exactly when two
      of them differ. With no list or tuple values it always passes. */
  lemma CheckLengthsSpec(kw: map<string, Value>, n: nat)
    ensures CheckLengths(kw, n).Pass? <==> Broadcastable(kw, n)
    ensures CheckLengths(kw, n).Fail? ==>
              CheckLengths(kw, n).error.BroadcastLengthsDiffer? ||
              CheckLengths(kw, n).error == BroadcastLengthMismatch(n)
    ensures (CheckLengths(kw, n).Fail? && CheckLengths(kw, n).error.BroadcastLengthsDiffer?) <==>
            exists j, k :: j in kw && k in kw && IsSequence(kw[j]) && IsSequence(kw[k]) &&
                           |kw[j].items| != |kw[k].items|
  {
    var lengths := BroadcastLengths(kw);
    assert forall k :: k in kw && IsSequence(kw[k]) ==> |kw[k].items| in lengths;
    if lengths == {} {
    } else if |lengths| != 1 {
      var a :| a in lengths;
      assert |lengths - {a}| == |lengths| - 1;
      var b :| b in lengths - {a};
      var j :| j in kw && IsSequence(kw[j]) && |kw[j].items| == a;
      var k :| k in kw && IsSequence(kw[k]) && |kw[k].items| == b;
      assert |kw[j].items| != |kw[k].items|;
    } else {
      var a :| a in lengths;
      assert lengths == {a} by {
        assert |lengths - {a}| == 0;
      }
      if a != n {
        var j :| j in kw && IsSequence(kw[j]) && |kw[j].items| == a;
        assert !Broadcastable(kw, n);
      }
    }
  }

  /** The inner loop of both stack functions: each keyword argument's share. */
  method Broadcast(d: map<string, Value>, kw: map<string, Value>, i: nat)
    returns (e: map<string, Value>)
    requires Indexable(kw, i)
    ensures e == d + BroadcastRow(kw, i)
  {
    e := d;
    var done: set<string> := {};
    while done != kw.Keys
      invariant done <= kw.Keys
      invariant e == d + RowOver(kw, done, i)
      decreases |kw.Keys - done|
    {
      var k :| k in kw.Keys - done;
      RowOverAdd(kw, done, k, i);
      UpdateAfterUnion(d, RowOver(kw, done, i), k, Element(kw[k], i));
      e := e[k := Element(kw[k], i)];
      done := done + {k};
    }
  }

  /** `_single_stack(stackers, spec, **kw)` */
  method SingleStack(stackers: seq<string>, spec: string, kw: map<string, Value>)
    returns (r: Result<seq<map<string, Value>>>)
    ensures spec in kw ==> r == Failure(StackPropertyInKwargs(spec))
    ensures spec !in kw && CheckLengths(kw, |stackers|).Fail? ==>
              r == Failure(CheckLengths(kw, |stackers|).error)
    ensures r.Success? <==> spec !in kw && Broadcastable(kw, |stackers|)
    ensures r.Success? ==>
              |r.value| == |stackers| &&
              forall i :: 0 <= i < |stackers| ==> r.value[i] == SingleEntry(stackers, spec, kw, i)
  {
    if spec in kw {
      return Failure(StackPropertyInKwargs(spec));
    }
    var check := CheckLengths(kw, |stackers|);
    CheckLengthsSpec(kw, |stackers|);
    if check.Fail? {
      return Failure(check.error);
    }
    var rows := SingleRows(stackers, spec, kw);
    r := Success(rows);
  }

  /** The building loop of `_single_stack`, once the arguments are validated. */
  method SingleRows(stackers: seq<string>, spec: string, kw: map<string, Value>)
    returns (rows: seq<map<string, Value>>)
    requires Broadcastable(kw, |stackers|)
    ensures |rows| == |stackers|
    ensures forall i :: 0 <= i < |stackers| ==> rows[i] == SingleEntry(stackers, spec, kw, i)
  {
    var s: seq<string> := [];
    rows := [];
    var i := 0;
    while i < |stackers|
      invariant 0 <= i <= |stackers|
      invariant s == stackers[..i]
      invariant |rows| == i
      invariant forall j :: 0 <= j < i ==> rows[j] == SingleEntry(stackers, spec, kw, j)
    {
      var d := map["name" := Str(stackers[i])];
      s := s + [stackers[i]];
      assert s == stackers[..i + 1];
      d := d[spec := StackV(s)];
      assert d == map["name" := Str(stackers[i])][spec := StackV(stackers[..i + 1])];
      d := Broadcast(d, kw, i);
      assert d == SingleEntry(stackers, spec, kw, i);
      rows := rows + [d];
      i := i + 1;
    }
  }

  /** `_double_stack(stackers, spec0, spec1, **kw)` */
  method DoubleStack(stackers: seq<string>, spec0: string, spec1: string, kw: map<string, Value>)
    returns (r: Result<seq<map<string, Value>>>)
    ensures spec0 in kw ==> r == Failure(StackPropertyInKwargs(spec0))
    ensures spec0 !in kw && spec1 in kw ==> r == Failure(StackPropertyInKwargs(spec1))
    ensures spec0 !in kw && spec1 !in kw && CheckLengths(kw, |stackers|).Fail? ==>
              r == Failure(CheckLengths(kw, |stackers|).error)
    ensures r.Success? <==> spec0 !in kw && spec1 !in kw && Broadcastable(kw, |stackers|)
    ensures r.Success? ==>
              |r.value| == |stackers| &&
              forall i :: 0 <= i < |stackers| ==>
                r.value[i] == DoubleEntry(stackers, spec0, spec1, kw, i)
  {
    if spec0 in kw {
      return Failure(StackPropertyInKwargs(spec0));
    }
    if spec1 in kw {
      return Failure(StackPropertyInKwargs(spec1));
    }
    var check := CheckLengths(kw, |stackers|);
    CheckLengthsSpec(kw, |stackers|);
    if check.Fail? {
      return Failure(check.error);
    }
    var rows := DoubleRows(stackers, spec0, spec1, kw);
    r := Success(rows);
  }

  /** The building loop of `_double_stack`, once the arguments are validated. */
  method DoubleRows(stackers: seq<string>, spec0: string, spec1: string, kw: map<string, Value>)
    returns (rows: seq<map<string, Value>>)
    requires Broadcastable(kw, |stackers|)
    ensures |rows| == |stackers|
    ensures forall i :: 0 <= i < |stackers| ==> rows[i] == DoubleEntry(stackers, spec0, spec1, kw, i)
  {
    var s0: seq<string> := [];
    var s1: seq<string> := [];
    rows := [];
    var i := 0;
    while i < |stackers|
      invariant 0 <= i <= |stackers|
      invariant s1 == stackers[..i]
      invariant |rows| == i
      invariant forall j :: 0 <= j < i ==> rows[j] == DoubleEntry(stackers, spec0, spec1, kw, j)
    {
      var d := map["name" := Str(stackers[i])];
      s0 := s1;
      s1 := s1 + [stackers[i]];
      assert s1 == stackers[..i + 1];
      d := d[spec0 := StackV(s0)];
      d := d[spec1 := StackV(s1)];
      d := Broadcast(d, kw, i);
      assert d == DoubleEntry(stackers, spec0, spec1, kw, i);
      rows := rows + [d];
      i := i + 1;
    }
  }

  /** Each single-stack dict's stack extends the previous one by its own stacker. */
  lemma SingleStackGrows(stackers: seq<string>, spec: string, kw: map<string, Value>, i: nat)
    requires i + 1 < |stackers| && Indexable(kw, i) && Indexable(kw, i + 1) && spec !in kw
    ensures SingleEntry(stackers, spec, kw, i + 1)[spec].fields ==
            SingleEntry(stackers, spec, kw, i)[spec].fields + [stackers[i + 1]]
  {
    assert stackers[..i + 2] == stackers[..i + 1] + [stackers[i + 1]];
  }

  /** In a double stack, each dict's lower stack is the previous dict's upper
      stack, and the first dict's lower stack is empty. */
  lemma DoubleStackChains(stackers: seq<string>, spec0: string, spec1: string,
                          kw: map<string, Value>, i: nat)
    requires i + 1 < |stackers| && Indexable(kw, i) && Indexable(kw, i + 1)
    requires spec0 != spec1 && spec0 !in kw && spec1 !in kw
    ensures DoubleEntry(stackers, spec0, spec1, kw, 0)[spec0] == StackV([])
    ensures DoubleEntry(stackers, spec0, spec1, kw, i + 1)[spec0] ==
            DoubleEntry(stackers, spec0, spec1, kw, i)[spec1]
    ensures DoubleEntry(stackers, spec0, spec1, kw, i + 1)[spec1].fields ==
            DoubleEntry(stackers, spec0, spec1, kw, i + 1)[spec0].fields + [stackers[i + 1]]
  {
    assert Indexable(kw, 0);
    assert stackers[..i + 2] == stackers[..i + 1] + [stackers[i + 1]];
  }
}
