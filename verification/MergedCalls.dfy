/** What MergeToolCallDeltas of internal/translate/content.go makes of fragments that carry indices: each call by itself. */
module MergedCalls {
  import opened Chat
  import opened ResponsesStream
  import opened Sequences

  /** The fragments of one call. */
  function Of(ts: seq<ToolDelta>, i: nat): seq<ToolDelta> {
    if ts == [] then [] else Of(ts[..|ts| - 1], i) + if ts[|ts| - 1].index == Some(i) then [ts[|ts| - 1]] else []
  }

  /** The last id and name that fragments give, and all their arguments together. */
  function LastId(ts: seq<ToolDelta>): string {
    if ts == [] then "" else if ts[|ts| - 1].id != "" then ts[|ts| - 1].id else LastId(ts[..|ts| - 1])
  }

  function LastName(ts: seq<ToolDelta>): string {
    if ts == [] then "" else if ts[|ts| - 1].name != "" then ts[|ts| - 1].name else LastName(ts[..|ts| - 1])
  }

  function Arguments(ts: seq<ToolDelta>): string {
    if ts == [] then "" else Arguments(ts[..|ts| - 1]) + ArgsOf(ts[|ts| - 1])
  }

  predicate Indexed(ts: seq<ToolDelta>) {
    forall i :: 0 <= i < |ts| ==> ts[i].index.Some? && ts[i].index.value >= 0
  }

  /** One more than the highest index. */
  function Reach(ts: seq<ToolDelta>): nat
    requires Indexed(ts)
  {
    if ts == [] then 0
    else
      var before, n := Reach(ts[..|ts| - 1]), ts[|ts| - 1].index.value + 1;
      if before < n then n else before
  }

  predicate IsCall(m: Merged, ts: seq<ToolDelta>) {
    m == Merged(LastId(ts), LastName(ts), Some(Arguments(ts)))
  }

  lemma {:induction false} UpdatedIsCall(m: Merged, ts: seq<ToolDelta>, t: ToolDelta)
    requires IsCall(m, ts)
    ensures IsCall(Update(m, t), ts + [t])
  {
    assert (ts + [t])[..|ts|] == ts;
    assert m.args.value + "" == m.args.value;
  }

  /**
   Fragments with indices are merged call by call, up to the highest index: each has the last id and the last name
   that its own fragments give and all of their arguments, and one without fragments is blank.
   */
  lemma {:induction false} MergedByIndex(ts: seq<ToolDelta>)
    requires Indexed(ts)
    ensures var ms := MergeAll([], ts);
            |ms| == Reach(ts) && forall i :: 0 <= i < |ms| ==> IsCall(ms[i], Of(ts, i))
    ensures forall i: nat :: i >= Reach(ts) ==> Of(ts, i) == []
    decreases |ts|
  {
    hide IsCall, Update;
    if ts != [] {
      var front, t := ts[..|ts| - 1], ts[|ts| - 1];
      MergedByIndex(front);
      var before := MergeAll([], front);
      var n := t.index.value;
      var padded := Pad(before, n + 1);
      BlankIsNoCall();
      forall i | 0 <= i < |padded|
        ensures IsCall(padded[i], Of(front, i))
      {
        if i < |before| {
          assert padded[..|before|][i] == before[i];
        }
      }
      UpdatedIsCall(padded[n], Of(front, n), t);
      assert Of(ts, n) == Of(front, n) + [t];
      assert forall i: nat :: i != n ==> Of(ts, i) == Of(front, i) + [] == Of(front, i);
    }
  }

  lemma {:induction false} BlankIsNoCall()
    ensures IsCall(BLANK, [])
  {
  }
}
