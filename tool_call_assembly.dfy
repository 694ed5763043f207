/**
 * Reassembly of streamed tool-call fragments (`DialClient._collect_tool_calls`).
 *
 * The model streams each tool call as fragments tagged with the call's
 * position `index`. The source keeps a `defaultdict` from index to an
 * accumulator `{"id": None, "function": {"arguments": "", "name": None},
 * "type": None}`: a non-empty `id`, `name` or `type` overwrites the stored
 * one, a non-empty `arguments` fragment is appended, and the result is the
 * dictionary's values in key-insertion order. The defaultdict creates an
 * entry the first time one of those four fields is non-empty, so a fragment
 * that carries nothing does not create one.
 */
module ToolCallAssembly {
  import opened Wrappers
  import opened Messages

  datatype FunctionDelta = FunctionDelta(name: Option<string>, arguments: Option<string>)

  /** One element of `delta.tool_calls` in a streamed chunk (`fn` is its `function` member). */
  datatype ToolCallDelta = ToolCallDelta(index: nat, id: Option<string>, fn: Option<FunctionDelta>, callType: Option<string>)

  /** Python truthiness of an optional string: present and non-empty. */
  predicate Present(o: Option<string>) {
    o.Some? && o.value != ""
  }

  function NameOf(d: ToolCallDelta): Option<string> {
    if d.fn.Some? then d.fn.value.name else None
  }

  function ArgumentsOf(d: ToolCallDelta): Option<string> {
    if d.fn.Some? then d.fn.value.arguments else None
  }

  /** Whether a fragment makes the defaultdict create or update its entry. */
  predicate Touches(d: ToolCallDelta) {
    Present(d.id) || Present(NameOf(d)) || Present(ArgumentsOf(d)) || Present(d.callType)
  }

  /** The defaultdict's initial accumulator. */
  const Pending: ToolCall := ToolCall(None, None, "", None)

  /** The four conditional updates of the loop body, applied to one accumulator. */
  function Absorb(acc: ToolCall, d: ToolCallDelta): ToolCall {
    ToolCall(
      if Present(d.id) then d.id else acc.id,
      if Present(NameOf(d)) then NameOf(d) else acc.name,
      if Present(ArgumentsOf(d)) then acc.arguments + ArgumentsOf(d).value else acc.arguments,
      if Present(d.callType) then d.callType else acc.callType)
  }

  /** The key order of the defaultdict after the fragments `ds`. */
  function IndexOrder(ds: seq<ToolCallDelta>): seq<nat>
    decreases |ds|
  {
    if ds == [] then []
    else
      var order := IndexOrder(ds[..|ds| - 1]);
      var d := ds[|ds| - 1];
      if d.index in order || !Touches(d) then order else order + [d.index]
  }

  /** The accumulator of index `idx` after the fragments `ds`. */
  function Assembled(ds: seq<ToolCallDelta>, idx: nat): ToolCall
    decreases |ds|
  {
    if ds == [] then Pending
    else
      var d := ds[|ds| - 1];
      var prev := Assembled(ds[..|ds| - 1], idx);
      if d.index == idx then Absorb(prev, d) else prev
  }

  /** The list `_collect_tool_calls` returns: the accumulators in key order. */
  function Collected(ds: seq<ToolCallDelta>): seq<ToolCall> {
    seq(|IndexOrder(ds)|, k requires 0 <= k < |IndexOrder(ds)| => Assembled(ds, IndexOrder(ds)[k]))
  }

  /** `tool_dict[idx]` on the defaultdict: the table and key order once the entry exists. */
  function Access(table: map<nat, ToolCall>, order: seq<nat>, idx: nat): (r: (map<nat, ToolCall>, seq<nat>))
    ensures idx in r.0
  {
    if idx in table then (table, order) else (table[idx := Pending], order + [idx])
  }

  /** How the loop's table and key order stand for the fragments `ds` seen so far. */
  ghost predicate Tracks(table: map<nat, ToolCall>, order: seq<nat>, ds: seq<ToolCallDelta>) {
    && order == IndexOrder(ds)
    && (forall idx :: idx in table <==> idx in order)
    && (forall idx :: idx in table ==> table[idx] == Assembled(ds, idx))
    && (forall idx :: idx !in table ==> Assembled(ds, idx) == Pending)
  }

  /** The first `if` of the loop body: a non-empty `id` overwrites the entry's id. */
  function SetId(t: (map<nat, ToolCall>, seq<nat>), d: ToolCallDelta): (map<nat, ToolCall>, seq<nat>) {
    if Present(d.id) then
      var slot := Access(t.0, t.1, d.index);
      (slot.0[d.index := slot.0[d.index].(id := d.id)], slot.1)
    else t
  }

  /** The second `if`: a non-empty function name overwrites the entry's name. */
  function SetName(t: (map<nat, ToolCall>, seq<nat>), d: ToolCallDelta): (map<nat, ToolCall>, seq<nat>) {
    if Present(NameOf(d)) then
      var slot := Access(t.0, t.1, d.index);
      (slot.0[d.index := slot.0[d.index].(name := NameOf(d))], slot.1)
    else t
  }

  /** The third `if`: a non-empty arguments fragment is appended to the entry's arguments. */
  function AddArguments(t: (map<nat, ToolCall>, seq<nat>), d: ToolCallDelta): (map<nat, ToolCall>, seq<nat>) {
    if Present(ArgumentsOf(d)) then
      var slot := Access(t.0, t.1, d.index);
      (slot.0[d.index := slot.0[d.index].(arguments := slot.0[d.index].arguments + ArgumentsOf(d).value)], slot.1)
    else t
  }

  /** The fourth `if`: a non-empty type overwrites the entry's type. */
  function SetType(t: (map<nat, ToolCall>, seq<nat>), d: ToolCallDelta): (map<nat, ToolCall>, seq<nat>) {
    if Present(d.callType) then
      var slot := Access(t.0, t.1, d.index);
      (slot.0[d.index := slot.0[d.index].(callType := d.callType)], slot.1)
    else t
  }

  /** One pass of the loop body over fragment `d`: its four `if`s in order. */
  function Step(table: map<nat, ToolCall>, order: seq<nat>, d: ToolCallDelta): (map<nat, ToolCall>, seq<nat>) {
    SetType(AddArguments(SetName(SetId((table, order), d), d), d), d)
  }

  /**
   * One pass updates only the fragment's entry, by `Absorb`; the entry is
   * created (and its index listed) exactly when it was absent and the
   * fragment touches it.
   */
  lemma StepEffect(table: map<nat, ToolCall>, order: seq<nat>, d: ToolCallDelta)
    ensures Step(table, order, d).1 == if d.index in table || !Touches(d) then order else order + [d.index]
    ensures d.index in Step(table, order, d).0 <==> d.index in table || Touches(d)
    ensures d.index in Step(table, order, d).0 ==>
      Step(table, order, d).0[d.index] == Absorb(if d.index in table then table[d.index] else Pending, d)
    ensures forall j :: j != d.index ==> (j in Step(table, order, d).0 <==> j in table)
    ensures forall j :: j != d.index && j in table ==> Step(table, order, d).0[j] == table[j]
  {
    if !Touches(d) && d.index in table {
      assert Absorb(table[d.index], d) == table[d.index];
    }
  }

  /** One pass of the loop body keeps the table and key order in step with the fragments. */
  lemma TracksStep(table: map<nat, ToolCall>, order: seq<nat>, ds: seq<ToolCallDelta>, d: ToolCallDelta)
    requires Tracks(table, order, ds)
    ensures Tracks(Step(table, order, d).0, Step(table, order, d).1, ds + [d])
  {
    var ds' := ds + [d];
    assert ds'[..|ds'| - 1] == ds;
    forall idx
      ensures Assembled(ds', idx) == (if d.index == idx then Absorb(Assembled(ds, idx), d) else Assembled(ds, idx))
    {
    }
    StepEffect(table, order, d);
    if !Touches(d) {
      assert Absorb(Pending, d) == Pending;
    }
  }

  /**
   * `_collect_tool_calls`: one call per index that some fragment touched,
   * in the order the indices first appeared, each the accumulation of that
   * index's fragments.
   */
  method CollectToolCalls(deltas: seq<ToolCallDelta>) returns (calls: seq<ToolCall>)
    ensures |calls| == |IndexOrder(deltas)|
    ensures forall k :: 0 <= k < |calls| ==> calls[k] == Assembled(deltas, IndexOrder(deltas)[k])
    ensures calls == Collected(deltas)
  {
    var table: map<nat, ToolCall> := map[];
    var order: seq<nat> := [];
    for i := 0 to |deltas|
      invariant Tracks(table, order, deltas[..i])
    {
      var d := deltas[i];
      var idx := d.index;
      ghost var table0, order0 := table, order;
      TracksStep(table, order, deltas[..i], d);
      assert deltas[..i + 1] == deltas[..i] + [d];
      if Present(d.id) {
        var slot := Access(table, order, idx);
        table, order := slot.0, slot.1;
        table := table[idx := table[idx].(id := d.id)];
      }
      assert (table, order) == SetId((table0, order0), d);
      if d.fn.Some? && Present(d.fn.value.name) {
        var slot := Access(table, order, idx);
        table, order := slot.0, slot.1;
        table := table[idx := table[idx].(name := d.fn.value.name)];
      }
      assert (table, order) == SetName(SetId((table0, order0), d), d);
      if d.fn.Some? && Present(d.fn.value.arguments) {
        var slot := Access(table, order, idx);
        table, order := slot.0, slot.1;
        table := table[idx := table[idx].(arguments := table[idx].arguments + d.fn.value.arguments.value)];
      }
      assert (table, order) == AddArguments(SetName(SetId((table0, order0), d), d), d);
      if Present(d.callType) {
        var slot := Access(table, order, idx);
        table, order := slot.0, slot.1;
        table := table[idx := table[idx].(callType := d.callType)];
      }
      assert (table, order) == Step(table0, order0, d);
    }
    assert deltas[..|deltas|] == deltas;
    calls := [];
    for k := 0 to |order|
      invariant |calls| == k
      invariant forall j :: 0 <= j < k ==> calls[j] == table[order[j]]
    {
      calls := calls + [table[order[k]]];
    }
  }

  // ---------------------------------------------------------------------
  // One entry per touched index, in first-appearance order
  // ---------------------------------------------------------------------

  /** No index is listed twice. */
  lemma {:induction false} IndexOrderDistinct(ds: seq<ToolCallDelta>)
    ensures forall a, b :: 0 <= a < b < |IndexOrder(ds)| ==> IndexOrder(ds)[a] != IndexOrder(ds)[b]
    decreases |ds|
  {
    if ds != [] {
      IndexOrderDistinct(ds[..|ds| - 1]);
    }
  }

  /** An index is listed exactly when some fragment with that index touched its entry. */
  lemma {:induction false} IndexOrderMembers(ds: seq<ToolCallDelta>, idx: nat)
    ensures idx in IndexOrder(ds) <==> exists k :: 0 <= k < |ds| && ds[k].index == idx && Touches(ds[k])
    decreases |ds|
  {
    if ds != [] {
      var init := ds[..|ds| - 1];
      IndexOrderMembers(init, idx);
      if idx in IndexOrder(init) {
        var k :| 0 <= k < |init| && init[k].index == idx && Touches(init[k]);
        assert ds[k] == init[k];
      }
      if exists k :: 0 <= k < |ds| && ds[k].index == idx && Touches(ds[k]) {
        var k :| 0 <= k < |ds| && ds[k].index == idx && Touches(ds[k]);
        if k < |init| {
          assert init[k] == ds[k];
        }
      }
    }
  }

  /**
   * Indices are listed in the order of their first touching fragment: every
   * touching fragment of a later-listed index comes after some touching
   * fragment of each earlier-listed one.
   */
  lemma {:induction false} IndexOrderFirstAppearance(ds: seq<ToolCallDelta>, a: nat, b: nat, m: nat)
    requires a < b < |IndexOrder(ds)| && m < |ds|
    requires ds[m].index == IndexOrder(ds)[b] && Touches(ds[m])
    ensures exists m' :: 0 <= m' < m && ds[m'].index == IndexOrder(ds)[a] && Touches(ds[m'])
    decreases |ds|
  {
    var init := ds[..|ds| - 1];
    var order := IndexOrder(init);
    IndexOrderDistinct(init);
    if b < |order| {
      // both indices were already listed before the last fragment
      if m < |init| {
        assert init[m] == ds[m];
        IndexOrderFirstAppearance(init, a, b, m);
        var m' :| 0 <= m' < m && init[m'].index == order[a] && Touches(init[m']);
        assert ds[m'] == init[m'];
      } else {
        IndexOrderMembers(init, order[b]);
        var m2 :| 0 <= m2 < |init| && init[m2].index == order[b] && Touches(init[m2]);
        IndexOrderFirstAppearance(init, a, b, m2);
        var m' :| 0 <= m' < m2 && init[m'].index == order[a] && Touches(init[m']);
        assert ds[m'] == init[m'];
      }
    } else {
      // b is the index the last fragment added; no earlier fragment touched it
      assert IndexOrder(ds) == order + [ds[|ds| - 1].index];
      IndexOrderMembers(init, ds[|ds| - 1].index);
      if m < |init| {
        assert false;
      }
      IndexOrderMembers(init, order[a]);
      var m' :| 0 <= m' < |init| && init[m'].index == order[a] && Touches(init[m']);
      assert ds[m'] == init[m'];
    }
  }

  // ---------------------------------------------------------------------
  // Arguments are the in-order concatenation of the fragments
  // ---------------------------------------------------------------------

  /** The non-empty argument fragment a delta contributes to index `idx`, if any. */
  function Piece(d: ToolCallDelta, idx: nat): string {
    if d.index == idx && Present(ArgumentsOf(d)) then ArgumentsOf(d).value else ""
  }

  /** The argument fragments of index `idx`, concatenated from first to last. */
  function Fragments(ds: seq<ToolCallDelta>, idx: nat): string
    decreases |ds|
  {
    if ds == [] then "" else Piece(ds[0], idx) + Fragments(ds[1..], idx)
  }

  lemma {:induction false} FragmentsSnoc(ds: seq<ToolCallDelta>, d: ToolCallDelta, idx: nat)
    ensures Fragments(ds + [d], idx) == Fragments(ds, idx) + Piece(d, idx)
    decreases |ds|
  {
    if ds == [] {
      assert ds + [d] == [d];
      assert [d][1..] == [];
    } else {
      assert (ds + [d])[1..] == ds[1..] + [d];
      FragmentsSnoc(ds[1..], d, idx);
    }
  }

  /** `arguments` of an assembled call is the in-order concatenation of its index's fragments. */
  lemma {:induction false} ArgumentsConcatenated(ds: seq<ToolCallDelta>, idx: nat)
    ensures Assembled(ds, idx).arguments == Fragments(ds, idx)
    decreases |ds|
  {
    if ds != [] {
      var init := ds[..|ds| - 1];
      ArgumentsConcatenated(init, idx);
      assert ds == init + [ds[|ds| - 1]];
      FragmentsSnoc(init, ds[|ds| - 1], idx);
    }
  }

  // ---------------------------------------------------------------------
  // id, name and type are last-non-empty-wins
  // ---------------------------------------------------------------------

  datatype Field = IdField | NameField | TypeField

  /** The value a fragment carries for a field. */
  function Carried(d: ToolCallDelta, f: Field): Option<string> {
    match f
    case IdField => d.id
    case NameField => NameOf(d)
    case TypeField => d.callType
  }

  /** The value an accumulator holds for a field. */
  function Stored(c: ToolCall, f: Field): Option<string> {
    match f
    case IdField => c.id
    case NameField => c.name
    case TypeField => c.callType
  }

  /**
   * A field of an assembled call is `None` exactly when no fragment of its
   * index carried a non-empty value, and otherwise is the value of the last
   * fragment that did.
   */
  lemma {:induction false} LastNonEmptyWins(ds: seq<ToolCallDelta>, idx: nat, f: Field)
    ensures Stored(Assembled(ds, idx), f).None? <==>
      forall k :: 0 <= k < |ds| && ds[k].index == idx ==> !Present(Carried(ds[k], f))
    ensures Stored(Assembled(ds, idx), f).Some? ==>
      exists k :: 0 <= k < |ds| && ds[k].index == idx && Present(Carried(ds[k], f))
        && Carried(ds[k], f) == Stored(Assembled(ds, idx), f)
        && forall k' :: k < k' < |ds| && ds[k'].index == idx ==> !Present(Carried(ds[k'], f))
    decreases |ds|
  {
    if ds != [] {
      var init := ds[..|ds| - 1];
      var last := ds[|ds| - 1];
      LastNonEmptyWins(init, idx, f);
      var v := Stored(Assembled(ds, idx), f);
      if last.index == idx && Present(Carried(last, f)) {
        assert v == Carried(last, f);
      } else {
        assert v == Stored(Assembled(init, idx), f);
        assert forall k :: 0 <= k < |init| ==> init[k] == ds[k];
        if v.Some? {
          var k :| 0 <= k < |init| && init[k].index == idx && Present(Carried(init[k], f))
            && Carried(init[k], f) == v
            && forall k' :: k < k' < |init| && init[k'].index == idx ==> !Present(Carried(init[k'], f));
          assert forall k' :: k < k' < |ds| && ds[k'].index == idx ==> !Present(Carried(ds[k'], f));
        }
      }
    }
  }

  /** An index no fragment touched keeps the initial accumulator. */
  lemma {:induction false} UnlistedIsPending(ds: seq<ToolCallDelta>, idx: nat)
    requires idx !in IndexOrder(ds)
    ensures Assembled(ds, idx) == Pending
    decreases |ds|
  {
    if ds != [] {
      var init := ds[..|ds| - 1];
      var last := ds[|ds| - 1];
      if idx in IndexOrder(init) {
        assert false;
      }
      UnlistedIsPending(init, idx);
    }
  }
}
