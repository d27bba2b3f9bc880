/**
 The events a Responses client is sent for chat chunks, against a reference that reads the chunks alone: no
 stream state, only what the chunks so far said and called (internal/translate/openai_responses.go:253-287).
 */
module ResponsesEvents {
  import opened Chat
  import opened Decimal
  import opened ResponsesStream
  import opened Sequences

  // ---------------------------------------------------------------------------------------------
  // The reference
  // ---------------------------------------------------------------------------------------------

  /** The calls that fragments make in order of arrival; one that comes without an id is numbered. */
  function Arrived(ts: seq<ToolDelta>): seq<Call> {
    if ts == [] then []
    else
      var before, t := Arrived(ts[..|ts| - 1]), ts[|ts| - 1];
      if t.id != "" then before + [Call(t.id, t.name, ArgsOf(t))]
      else if t.name != "" then before + [Call("call_" + Itoa(|before|), t.name, ArgsOf(t))]
      else if before == [] then []
      else
        var last := before[|before| - 1];
        before[..|before| - 1] + [Call(last.id, last.name, last.args + ArgsOf(t))]
  }

  /** A fragment after so many calls: it adds an item if it opens one, and then says its arguments. */
  function Calling(calls: nat, t: ToolDelta): seq<Event> {
    (if t.id != "" then [ItemAdded(t.id, t.name)]
     else if t.name != "" then [ItemAdded("call_" + Itoa(calls), t.name)]
     else []) +
    (if ArgsOf(t) != "" then [ArgumentsDelta(ArgsOf(t))] else [])
  }

  function CallingAll(seen: seq<ToolDelta>, ts: seq<ToolDelta>): seq<Event>
    decreases |ts|
  {
    if ts == [] then []
    else
      var front := ts[..|ts| - 1];
      CallingAll(seen, front) + Calling(|Arrived(seen + front)|, ts[|ts| - 1])
  }

  function Saying(c: Chunk): seq<Event> {
    (if ReasoningIn(c) == "" then [] else [SummaryDelta(ReasoningIn(c)), ReasoningDelta(ReasoningIn(c))]) +
    (if ContentIn(c) == "" then [] else [TextDelta(ContentIn(c))])
  }

  /** The items of everything so far: the reasoning, the text, and each call. */
  function Items(chunks: seq<Chunk>): seq<Item> {
    (if Reasonings(chunks) == "" then [] else [ReasoningItem(Reasonings(chunks))]) +
    (if Texts(chunks) == "" then [] else [MessageItem(Texts(chunks))]) +
    CallItems(Arrived(Fragments(chunks)))
  }

  /** A chunk with a finish reason completes the response with everything so far. */
  function Ending(id: string, before: seq<Chunk>, c: Chunk): seq<Event> {
    if c.choice.None? || c.choice.value.finish.None? then []
    else [Completed(id, if c.choice.value.finish == Some("error") then "failed" else "completed", Items(before + [c]))]
  }

  function Narration(id: string, before: seq<Chunk>, chunks: seq<Chunk>): seq<Event>
    decreases |chunks|
  {
    if chunks == [] then []
    else
      var c := chunks[0];
      Saying(c) + CallingAll(Fragments(before), ToolsIn(c)) + Ending(id, before, c) + Narration(id, before + [c], chunks[1..])
  }

  // ---------------------------------------------------------------------------------------------
  // The stream tells what the reference does
  // ---------------------------------------------------------------------------------------------

  lemma {:induction false} OneMoreChunk(before: seq<Chunk>, c: Chunk)
    ensures Texts(before + [c]) == Texts(before) + ContentIn(c)
    ensures Reasonings(before + [c]) == Reasonings(before) + ReasoningIn(c)
    ensures Fragments(before + [c]) == Fragments(before) + ToolsIn(c)
    decreases |before|
  {
    hide ContentIn, ReasoningIn, ToolsIn;
    if before == [] {
      assert before + [c] == [c] && [c][1..] == [];
      NothingMore(ContentIn(c), ReasoningIn(c), ToolsIn(c));
      assert [] + ContentIn(c) == ContentIn(c) && [] + ReasoningIn(c) == ReasoningIn(c) && [] + ToolsIn(c) == ToolsIn(c);
    } else {
      assert (before + [c])[0] == before[0] && (before + [c])[1..] == before[1..] + [c];
      OneMoreChunk(before[1..], c);
      ConcatAssoc(ContentIn(before[0]), Texts(before[1..]), ContentIn(c));
      ConcatAssoc(ReasoningIn(before[0]), Reasonings(before[1..]), ReasoningIn(c));
      ConcatAssoc(ToolsIn(before[0]), Fragments(before[1..]), ToolsIn(c));
    }
  }

  lemma {:induction false} OneMoreFragment(seen: seq<ToolDelta>, t: ToolDelta)
    ensures Arrived(seen + [t]) ==
            if t.id != "" then Arrived(seen) + [Call(t.id, t.name, ArgsOf(t))]
            else if t.name != "" then Arrived(seen) + [Call("call_" + Itoa(|Arrived(seen)|), t.name, ArgsOf(t))]
            else if Arrived(seen) == [] then []
            else
              var last := Arrived(seen)[|Arrived(seen)| - 1];
              Arrived(seen)[..|Arrived(seen)| - 1] + [Call(last.id, last.name, last.args + ArgsOf(t))]
  {
    assert (seen + [t])[..|seen|] == seen;
  }

  /** The state's calls are those that arrived, and it numbers by them. */
  predicate Numbers(s: State, seen: seq<ToolDelta>) {
    s.tools == Arrived(seen) && s.toolIndex == |s.tools|
  }

  lemma {:induction false} ToolTells(s: State, seen: seq<ToolDelta>, t: ToolDelta)
    requires Numbers(s, seen)
    ensures Numbers(ToolStep(s, t).0, seen + [t]) && ToolStep(s, t).1 == Calling(|Arrived(seen)|, t)
    ensures SameButCalls(s, ToolStep(s, t).0)
  {
    hide Itoa, Arrived;
    OneMoreFragment(seen, t);
    var n := |s.tools| - 1;
    if n >= 0 {
      var last := s.tools[n];
      var more := Call(last.id, last.name, last.args + ArgsOf(t));
      assert s.tools[n := more] == s.tools[..n] + [more];
      assert last.args + [] == last.args;
      assert ArgsOf(t) == "" ==> s.tools[..n] + [more] == s.tools;
    }
  }

  predicate SameButCalls(s: State, s': State) {
    s'.id == s.id && s'.started == s.started && s'.text == s.text && s'.reasoning == s.reasoning
  }

  lemma {:induction false} ToolsTell(s: State, seen: seq<ToolDelta>, ts: seq<ToolDelta>)
    requires Numbers(s, seen)
    ensures Numbers(ToolSteps(s, ts).0, seen + ts) && ToolSteps(s, ts).1 == CallingAll(seen, ts)
    ensures SameButCalls(s, ToolSteps(s, ts).0)
    decreases |ts|
  {
    hide ToolStep, Numbers, Calling, Arrived;
    if ts == [] {
      assert seen + ts == seen;
    } else {
      var front, t := ts[..|ts| - 1], ts[|ts| - 1];
      ToolsTell(s, seen, front);
      ToolTells(ToolSteps(s, front).0, seen + front, t);
      assert seen + front + [t] == seen + ts;
    }
  }

  /** Once started, the state holds what the chunks so far said and called. */
  predicate Holds(s: State, id: string, before: seq<Chunk>) {
    && s.started && s.id == id && s.text == Texts(before) && s.reasoning == Reasonings(before)
    && Numbers(s, Fragments(before))
  }

  lemma {:induction false} SayTells(s: State, c: Chunk)
    requires c.choice.Some?
    ensures SayStep(s, c.choice.value) ==
            (s.(reasoning := s.reasoning + ReasoningIn(c), text := s.text + ContentIn(c)), Saying(c))
  {
  }

  lemma {:induction false} EndTells(s: State, id: string, before: seq<Chunk>, c: Chunk)
    requires Holds(s, id, before + [c])
    ensures c.choice.Some? ==> EndStep(s, c.choice.value).1 == Ending(id, before, c)
    ensures c.choice.Some? ==> Holds(EndStep(s, c.choice.value).0, id, before + [c])
  {
    hide Texts, Reasonings, Fragments, Arrived, CallItems;
  }

  lemma {:induction false} ChunkTells(s: State, id: string, before: seq<Chunk>, c: Chunk)
    requires Holds(s, id, before)
    ensures Holds(ChunkStep(s, c).0, id, before + [c])
    ensures ChunkStep(s, c).1 == Saying(c) + CallingAll(Fragments(before), ToolsIn(c)) + Ending(id, before, c)
  {
    OneMoreChunk(before, c);
    hide Texts, Reasonings, Fragments, CallingAll, ToolSteps, EndStep, Ending, SayStep;
    var seen := Fragments(before);
    if c.choice.None? {
      NothingTold(seen, id, before, c);
    } else {
      var ch := c.choice.value;
      SayTells(s, c);
      var said := SayStep(s, ch);
      ToolsTell(said.0, seen, ch.tools);
      var tools := ToolSteps(said.0, ch.tools);
      EndTells(tools.0, id, before, c);
      assert [] + said.1 == said.1;
    }
  }

  lemma {:induction false} NothingTold(seen: seq<ToolDelta>, id: string, before: seq<Chunk>, c: Chunk)
    requires c.choice.None?
    ensures Saying(c) == [] && CallingAll(seen, ToolsIn(c)) == [] && Ending(id, before, c) == [] && seen + ToolsIn(c) == seen
    ensures Texts(before) + ContentIn(c) == Texts(before) && Reasonings(before) + ReasoningIn(c) == Reasonings(before)
  {
  }

  lemma {:induction false} StreamNarrates(s: State, id: string, before: seq<Chunk>, chunks: seq<Chunk>)
    requires Holds(s, id, before)
    ensures Chunks(s, chunks).1 == Narration(id, before, chunks)
    decreases |chunks|
  {
    hide Holds, ChunkStep, Saying, CallingAll, Ending;
    if chunks != [] {
      ChunkTells(s, id, before, chunks[0]);
      StreamNarrates(ChunkStep(s, chunks[0]).0, id, before + [chunks[0]], chunks[1..]);
    }
  }

  /** The id of the response: the first chunk's, or a generated one. */
  function IdOf(generated: string, chunks: seq<Chunk>): string {
    if chunks != [] && chunks[0].id != "" then chunks[0].id else generated
  }

  /** The events of a stream: one response.created, and then what the reference tells of the chunks. */
  lemma {:induction false} StreamIsNarration(generated: string, chunks: seq<Chunk>)
    requires chunks != []
    ensures var id := IdOf(generated, chunks);
            Chunks(EmptyState(generated), chunks).1 == [Created(id)] + Narration(id, [], chunks)
  {
    hide SayStep, ToolSteps, EndStep, Narration;
    var s, id, c := EmptyState(generated), IdOf(generated, chunks), chunks[0];
    var begun := StartStep(s, c.id).0;
    StartTells(generated, c.id);
    StreamNarrates(begun, id, [], chunks);
    assert ChunkStep(s, c).0 == ChunkStep(begun, c).0;
    assert ChunkStep(s, c).1 == [Created(id)] + ChunkStep(begun, c).1;
    ConcatAssoc([Created(id)], ChunkStep(begun, c).1, Chunks(ChunkStep(begun, c).0, chunks[1..]).1);
  }

  lemma {:induction false} StartTells(generated: string, id: string)
    ensures Holds(StartStep(EmptyState(generated), id).0, if id != "" then id else generated, [])
  {
  }

  // ---------------------------------------------------------------------------------------------
  // What a client makes of it
  // ---------------------------------------------------------------------------------------------

  /** The deltas of one kind run together. */
  function TextSent(es: seq<Event>): string {
    if es == [] then "" else (if es[0].TextDelta? then es[0].payload else "") + TextSent(es[1..])
  }

  function ReasoningSent(es: seq<Event>): string {
    if es == [] then "" else (if es[0].ReasoningDelta? then es[0].payload else "") + ReasoningSent(es[1..])
  }

  function SummarySent(es: seq<Event>): string {
    if es == [] then "" else (if es[0].SummaryDelta? then es[0].payload else "") + SummarySent(es[1..])
  }

  /** Each item added, with the arguments that follow it up to the next one. */
  function CallsSent(calls: seq<Call>, es: seq<Event>): seq<Call>
    decreases |es|
  {
    if es == [] then calls
    else if es[0].ItemAdded? then CallsSent(calls + [Call(es[0].id, es[0].name, "")], es[1..])
    else if es[0].ArgumentsDelta? && calls != [] then
      var last := calls[|calls| - 1];
      CallsSent(calls[..|calls| - 1] + [Call(last.id, last.name, last.args + es[0].payload)], es[1..])
    else CallsSent(calls, es[1..])
  }

  /** The response.created and response.completed events, in order. */
  function Milestones(es: seq<Event>): seq<Event> {
    if es == [] then [] else (if es[0].Created? || es[0].Completed? then [es[0]] else []) + Milestones(es[1..])
  }

  /** What a client reads: the three texts and the milestones. */
  datatype Reading = Reading(text: string, reasoning: string, summary: string, milestones: seq<Event>)

  function Read(es: seq<Event>): Reading {
    Reading(TextSent(es), ReasoningSent(es), SummarySent(es), Milestones(es))
  }

  function Both(a: Reading, b: Reading): Reading {
    Reading(a.text + b.text, a.reasoning + b.reasoning, a.summary + b.summary, a.milestones + b.milestones)
  }

  lemma {:induction false} ReadAppend(a: seq<Event>, b: seq<Event>)
    ensures Read(a + b) == Both(Read(a), Read(b))
    decreases |a|
  {
    if a == [] {
      assert a + b == b;
    } else {
      assert a + b == [a[0]] + (a[1..] + b) && a == [a[0]] + a[1..];
      ReadAppend(a[1..], b);
      ReadFirst(a[0], a[1..]);
      ReadFirst(a[0], a[1..] + b);
      hide Read;
      BothAssoc(Read([a[0]]), Read(a[1..]), Read(b));
    }
  }

  lemma {:induction false} BothAssoc(a: Reading, b: Reading, c: Reading)
    ensures Both(a, Both(b, c)) == Both(Both(a, b), c)
  {
    ConcatAssoc(a.milestones, b.milestones, c.milestones);
  }

  lemma {:induction false} ReadFirst(e: Event, rest: seq<Event>)
    ensures Read([e] + rest) == Both(Read([e]), Read(rest))
  {
    var all := [e] + rest;
    assert all[0] == e && all[1..] == rest && [e][1..] == [];
    assert TextSent([e]) == if e.TextDelta? then e.payload else "";
    assert ReasoningSent([e]) == if e.ReasoningDelta? then e.payload else "";
    assert SummarySent([e]) == if e.SummaryDelta? then e.payload else "";
    assert Milestones([e]) == if e.Created? || e.Completed? then [e] else [];
    assert TextSent(all) == TextSent([e]) + TextSent(rest);
    assert ReasoningSent(all) == ReasoningSent([e]) + ReasoningSent(rest);
    assert SummarySent(all) == SummarySent([e]) + SummarySent(rest);
  }

  lemma {:induction false} CallsSentAppend(calls: seq<Call>, a: seq<Event>, b: seq<Event>)
    ensures CallsSent(calls, a + b) == CallsSent(CallsSent(calls, a), b)
    decreases |a|
  {
    if a == [] {
      assert a + b == b;
    } else {
      assert (a + b)[0] == a[0] && (a + b)[1..] == a[1..] + b;
      if a[0].ItemAdded? {
        CallsSentAppend(calls + [Call(a[0].id, a[0].name, "")], a[1..], b);
      } else if a[0].ArgumentsDelta? && calls != [] {
        var last := calls[|calls| - 1];
        CallsSentAppend(calls[..|calls| - 1] + [Call(last.id, last.name, last.args + a[0].payload)], a[1..], b);
      } else {
        CallsSentAppend(calls, a[1..], b);
      }
    }
  }

  lemma {:induction false} ReadSaying(c: Chunk)
    ensures Read(Saying(c)) == Reading(ContentIn(c), ReasoningIn(c), ReasoningIn(c), [])
    ensures forall calls :: CallsSent(calls, Saying(c)) == calls
  {
    hide ContentIn, ReasoningIn, Read, CallsSent;
    var r, t := ReasoningIn(c), ContentIn(c);
    var thought := if r == "" then [] else [SummaryDelta(r), ReasoningDelta(r)];
    var said := if t == "" then [] else [TextDelta(t)];
    assert Saying(c) == thought + said;
    ReadThought(r);
    ReadText(t);
    ReadAppend(thought, said);
    forall calls
      ensures CallsSent(calls, Saying(c)) == calls
    {
      CallsSentAppend(calls, thought, said);
    }
  }

  lemma {:induction false} ReadThought(r: string)
    ensures var es := if r == "" then [] else [SummaryDelta(r), ReasoningDelta(r)];
            Read(es) == Reading("", r, r, []) && forall calls :: CallsSent(calls, es) == calls
  {
    if r != "" {
      ReadOne(SummaryDelta(r));
      ReadOne(ReasoningDelta(r));
      ReadAppend([SummaryDelta(r)], [ReasoningDelta(r)]);
      hide Read, CallsSent;
      assert [SummaryDelta(r)] + [ReasoningDelta(r)] == [SummaryDelta(r), ReasoningDelta(r)];
      forall calls
        ensures CallsSent(calls, [SummaryDelta(r), ReasoningDelta(r)]) == calls
      {
        CallsSentAppend(calls, [SummaryDelta(r)], [ReasoningDelta(r)]);
      }
    }
  }

  lemma {:induction false} ReadText(t: string)
    ensures var es := if t == "" then [] else [TextDelta(t)];
            Read(es) == Reading(t, "", "", []) && forall calls :: CallsSent(calls, es) == calls
  {
    if t != "" {
      ReadOne(TextDelta(t));
    }
  }

  lemma {:induction false} ReadOne(e: Event)
    requires !e.ItemAdded? && !e.ArgumentsDelta?
    ensures Read([e]) == Reading(if e.TextDelta? then e.payload else "", if e.ReasoningDelta? then e.payload else "",
                                 if e.SummaryDelta? then e.payload else "", if e.Created? || e.Completed? then [e] else [])
    ensures forall calls :: CallsSent(calls, [e]) == calls
  {
    assert [e][1..] == [];
    assert TextSent([e]) == if e.TextDelta? then e.payload else "";
    assert ReasoningSent([e]) == if e.ReasoningDelta? then e.payload else "";
    assert SummarySent([e]) == if e.SummaryDelta? then e.payload else "";
    assert Milestones([e]) == if e.Created? || e.Completed? then [e] else [];
    forall calls
      ensures CallsSent(calls, [e]) == calls
    {
      assert CallsSent(calls, []) == calls;
    }
  }

  lemma {:induction false} ReadCalling(calls: seq<Call>, seen: seq<ToolDelta>, t: ToolDelta)
    requires calls == Arrived(seen)
    ensures Read(Calling(|calls|, t)) == Reading("", "", "", [])
    ensures CallsSent(calls, Calling(|calls|, t)) == Arrived(seen + [t])
  {
    hide Arrived, Itoa;
    OneMoreFragment(seen, t);
    var id := if t.id != "" then t.id else "call_" + Itoa(|calls|);
    var opens := if t.id != "" || t.name != "" then [ItemAdded(id, t.name)] else [];
    var tells := if ArgsOf(t) != "" then [ArgumentsDelta(ArgsOf(t))] else [];
    assert Calling(|calls|, t) == opens + tells;
    ReadAppend(opens, tells);
    CallsSentAppend(calls, opens, tells);
    assert opens != [] ==> opens[1..] == [];
    assert tells != [] ==> tells[1..] == [];
    assert "" + ArgsOf(t) == ArgsOf(t);
    if opens != [] {
      var grown := calls + [Call(id, t.name, "")];
      assert CallsSent(calls, opens) == grown;
      assert grown[..|grown| - 1] == calls;
    } else if calls != [] {
      var n := |calls| - 1;
      assert calls[n].args + "" == calls[n].args;
      assert calls[..n] + [Call(calls[n].id, calls[n].name, calls[n].args)] == calls;
    }
  }

  lemma {:induction false} ReadCallingAll(calls: seq<Call>, seen: seq<ToolDelta>, ts: seq<ToolDelta>)
    requires calls == Arrived(seen)
    ensures Read(CallingAll(seen, ts)) == Reading("", "", "", [])
    ensures CallsSent(calls, CallingAll(seen, ts)) == Arrived(seen + ts)
    decreases |ts|
  {
    hide Arrived, Calling;
    if ts == [] {
      assert seen + ts == seen;
    } else {
      var front, t := ts[..|ts| - 1], ts[|ts| - 1];
      ReadCallingAll(calls, seen, front);
      var now := Arrived(seen + front);
      ReadCalling(now, seen + front, t);
      ReadAppend(CallingAll(seen, front), Calling(|now|, t));
      CallsSentAppend(calls, CallingAll(seen, front), Calling(|now|, t));
      assert seen + front + [t] == seen + ts;
    }
  }

  lemma {:induction false} ReadEnding(id: string, before: seq<Chunk>, c: Chunk)
    ensures Read(Ending(id, before, c)) == Reading("", "", "", Ending(id, before, c))
    ensures forall calls :: CallsSent(calls, Ending(id, before, c)) == calls
  {
    hide Items;
    var es := Ending(id, before, c);
    if es != [] {
      assert es == [es[0]];
      ReadOne(es[0]);
    }
  }

  /** A completion for every chunk with a finish reason, each with everything up to it. */
  function Endings(id: string, before: seq<Chunk>, chunks: seq<Chunk>): seq<Event>
    decreases |chunks|
  {
    if chunks == [] then [] else Ending(id, before, chunks[0]) + Endings(id, before + [chunks[0]], chunks[1..])
  }

  lemma {:induction false} ReadNarration(id: string, before: seq<Chunk>, chunks: seq<Chunk>)
    ensures Read(Narration(id, before, chunks)) ==
            Reading(Texts(chunks), Reasonings(chunks), Reasonings(chunks), Endings(id, before, chunks))
    ensures CallsSent(Arrived(Fragments(before)), Narration(id, before, chunks)) == Arrived(Fragments(before) + Fragments(chunks))
    decreases |chunks|
  {
    hide Saying, CallingAll, Ending, Arrived, ContentIn, ReasoningIn, ToolsIn;
    if chunks == [] {
      assert Fragments(before) + [] == Fragments(before);
    } else {
      var c, seen := chunks[0], Fragments(before);
      var calls := Arrived(seen);
      var said, called, ended := Saying(c), CallingAll(seen, ToolsIn(c)), Ending(id, before, c);
      var rest := Narration(id, before + [c], chunks[1..]);
      OneMoreChunk(before, c);
      ReadNarration(id, before + [c], chunks[1..]);
      ReadSaying(c);
      ReadCallingAll(calls, seen, ToolsIn(c));
      ReadEnding(id, before, c);
      FourParts(said, called, ended, rest, calls);
      ConcatAssoc(seen, ToolsIn(c), Fragments(chunks[1..]));
    }
  }

  lemma {:induction false} FourParts(a: seq<Event>, b: seq<Event>, c: seq<Event>, d: seq<Event>, calls: seq<Call>)
    requires Read(b) == Reading("", "", "", []) && CallsSent(calls, a) == calls
    requires Read(c).text == "" && Read(c).reasoning == "" && Read(c).summary == "" && Read(a).milestones == []
    requires CallsSent(CallsSent(calls, b), c) == CallsSent(calls, b)
    ensures var all := a + b + c + d;
            && Read(all) == Reading(Read(a).text + Read(d).text, Read(a).reasoning + Read(d).reasoning,
                                    Read(a).summary + Read(d).summary, Read(c).milestones + Read(d).milestones)
            && CallsSent(calls, all) == CallsSent(CallsSent(calls, b), d)
  {
    ReadAppend(a + b + c, d);
    ReadAppend(a + b, c);
    ReadAppend(a, b);
    CallsSentAppend(calls, a + b + c, d);
    CallsSentAppend(calls, a + b, c);
    CallsSentAppend(calls, a, b);
    hide Read, CallsSent;
    assert Read(a).text + "" + "" == Read(a).text && Read(a).reasoning + "" + "" == Read(a).reasoning;
    assert Read(a).summary + "" + "" == Read(a).summary && [] + [] + Read(c).milestones == Read(c).milestones;
  }

  /**
   A Responses client of a chat stream is created once, first; its text deltas are the content of the chunks and
   its reasoning and summary deltas their reasoning; the items added, each with the arguments that follow it, are
   the calls in order of arrival; and every finish reason completes the response, as failed if and only if it is
   "error", with everything said and called up to it.
   */
  lemma {:induction false} ClientIsToldEverything(generated: string, chunks: seq<Chunk>)
    requires chunks != []
    ensures var id, es := IdOf(generated, chunks), Chunks(EmptyState(generated), chunks).1;
            && es != [] && es[0] == Created(id) && Milestones(es) == [Created(id)] + Endings(id, [], chunks)
            && TextSent(es) == Texts(chunks)
            && ReasoningSent(es) == Reasonings(chunks) && SummarySent(es) == Reasonings(chunks)
            && CallsSent([], es) == Arrived(Fragments(chunks))
  {
    hide Chunks, Narration, Endings, Arrived, Texts, Reasonings, Fragments;
    var id, told := IdOf(generated, chunks), Narration(IdOf(generated, chunks), [], chunks);
    var es := [Created(id)] + told;
    StreamIsNarration(generated, chunks);
    ReadNarration(id, [], chunks);
    NothingArrived(chunks);
    assert es[1..] == told && es[0] == Created(id);
    assert "" + TextSent(told) == TextSent(told) && "" + ReasoningSent(told) == ReasoningSent(told);
    assert "" + SummarySent(told) == SummarySent(told);
  }

  lemma {:induction false} NothingArrived(chunks: seq<Chunk>)
    ensures Arrived(Fragments([])) == [] && Fragments([]) + Fragments(chunks) == Fragments(chunks)
  {
  }
}
