/**
 The scan-and-splice normalisation of internal/provider/claude/cch.go: one pass over the bytes of a
 JSON text collects edits, and the edited ranges are then cut out.
 */
module Cch {
  import opened JsonText
  import opened Sequences

  datatype Edit = Edit(start: nat, end: nat)

  /** A scanned object member; commas are -1 when absent. */
  datatype Rec = Rec(start: nat, end: nat, commaBefore: int, commaAfter: int, excluded: bool)

  datatype Result = Ok(value: Bytes) | Err

  const MODEL: Bytes := "\"model\""

  predicate Excluded(key: Bytes) {
    key == "\"max_tokens\"" || key == "\"fallbacks\"" || key == "\"fallback_credit_token\""
  }

  // ---------------------------------------------------------------------------------------------
  // What is erased, read off the tree
  // ---------------------------------------------------------------------------------------------

  /** The text of v with the excluded members and the contents of "model" strings left out. */
  function Erase(v: Value): Bytes {
    match v
    case Bare(_) => Print(v)
    case Str(_) => Print(v)
    case EmptyArray(_) => Print(v)
    case EmptyObject(_) => Print(v)
    case Array(lead, items) => "[" + lead + EraseItems(items) + "]"
    case Object(lead, members) => "{" + lead + EraseFrom(members) + "}"
  }

  function EraseItems(items: Items): Bytes {
    match items
    case LastItem(v, after) => Erase(v) + after
    case MoreItems(v, after, lead, rest) => Erase(v) + after + "," + lead + EraseItems(rest)
  }

  predicate IsModel(m: Member) {
    m.key == MODEL && m.v.Str?
  }

  function EraseMember(m: Member): Bytes {
    m.key + m.beforeColon + ":" + m.afterColon + if IsModel(m) then "\"\"" else Erase(m.v)
  }

  /** Members from one that is first or follows a kept one; the blanks before it are already printed. */
  function EraseFrom(ms: Members): Bytes
    decreases ms, 1
  {
    if Excluded(ms.m.key) then EraseRun(ms) else EraseMember(ms.m) + ms.after + EraseTail(ms)
  }

  /** After a kept member: a single excluded last member takes its comma and blanks with it. */
  function EraseTail(ms: Members): Bytes
    decreases ms, 0
  {
    match ms
    case LastMember(_, _) => []
    case MoreMembers(_, _, lead, rest) =>
      if rest.LastMember? && Excluded(rest.m.key) then rest.after else "," + lead + EraseFrom(rest)
  }

  /** Inside a run of excluded members: the run goes together with the comma after it, if there is one. */
  function EraseRun(ms: Members): Bytes
    decreases ms, 0
  {
    match ms
    case LastMember(_, after) => after
    case MoreMembers(_, _, lead, rest) =>
      if Excluded(rest.m.key) then EraseRun(rest) else lead + EraseFrom(rest)
  }

  function EraseText(t: Text): Bytes {
    t.lead + Erase(t.v) + t.after
  }

  // ---------------------------------------------------------------------------------------------
  // The edits, in the order the scanner appends them
  // ---------------------------------------------------------------------------------------------

  function EditIf(start: int, end: int): (es: seq<Edit>) {
    if 0 <= start < end then [Edit(start, end)] else []
  }

  function Edits(v: Value, off: nat): seq<Edit> {
    match v
    case Array(lead, items) => ItemEdits(items, off + 1 + |lead|)
    case Object(lead, members) =>
      var at := off + 1 + |lead|;
      MemberEdits(members, at) + RunEdits(Recs(members, at, -1), true)
    case _ => []
  }

  function ItemEdits(items: Items, off: nat): seq<Edit> {
    Edits(items.v, off) +
    match items
    case LastItem(_, _) => []
    case MoreItems(v, after, lead, rest) => ItemEdits(rest, off + |Print(v)| + |after| + 1 + |lead|)
  }

  function ValueAt(m: Member, off: nat): nat {
    off + |m.key| + |m.beforeColon| + 1 + |m.afterColon|
  }

  function OneMemberEdits(m: Member, off: nat): seq<Edit> {
    var at := ValueAt(m, off);
    if IsModel(m) then EditIf(at + 1, at + |m.v.literal| - 1)
    else if Excluded(m.key) then []
    else Edits(m.v, at)
  }

  function NextAt(ms: Members, off: nat): nat
    requires ms.MoreMembers?
  {
    off + |PrintMember(ms.m)| + |ms.after| + 1 + |ms.lead|
  }

  function CommaAt(ms: Members, off: nat): nat {
    off + |PrintMember(ms.m)| + |ms.after|
  }

  function MemberEdits(ms: Members, off: nat): seq<Edit> {
    OneMemberEdits(ms.m, off) +
    match ms
    case LastMember(_, _) => []
    case MoreMembers(_, _, _, rest) => MemberEdits(rest, NextAt(ms, off))
  }

  function Recs(ms: Members, off: nat, commaBefore: int): (rs: seq<Rec>)
    ensures |rs| > 0
    ensures rs[0].excluded == Excluded(ms.m.key)
  {
    var end := off + |PrintMember(ms.m)|;
    var excl := Excluded(ms.m.key);
    match ms
    case LastMember(_, _) => [Rec(off, end, commaBefore, -1, excl)]
    case MoreMembers(_, _, _, rest) =>
      [Rec(off, end, commaBefore, CommaAt(ms, off), excl)] + Recs(rest, NextAt(ms, off), CommaAt(ms, off))
  }

  /** The edits of addExcluded for the records from one on; first says that it is the object's first member. */
  function RunEdits(rs: seq<Rec>, first: bool): seq<Edit>
    decreases |rs|, 1
  {
    if rs == [] then []
    else if !rs[0].excluded then RunEdits(rs[1..], false)
    else InRun(rs, rs[0], 1, first)
  }

  /** Inside a run that began with the record `run` and has reached its count-th record rs[0]. */
  function InRun(rs: seq<Rec>, run: Rec, count: nat, first: bool): seq<Edit>
    requires rs != []
    decreases |rs|, 0
  {
    if |rs| > 1 then
      if rs[1].excluded then InRun(rs[1..], run, count + 1, first)
      else EditIf(run.start, rs[0].commaAfter + 1) + RunEdits(rs[1..], false)
    else if !first && count > 1 then EditIf(run.start, rs[0].end)
    else if !first then EditIf(run.commaBefore, rs[0].end)
    else EditIf(run.start, rs[0].end)
  }

  // ---------------------------------------------------------------------------------------------
  // The same edits in text order
  // ---------------------------------------------------------------------------------------------

  function Holes(v: Value, off: nat): seq<Edit> {
    match v
    case Array(lead, items) => ItemHoles(items, off + 1 + |lead|)
    case Object(lead, members) => FromHoles(members, off + 1 + |lead|)
    case _ => []
  }

  function ItemHoles(items: Items, off: nat): seq<Edit> {
    Holes(items.v, off) +
    match items
    case LastItem(_, _) => []
    case MoreItems(v, after, lead, rest) => ItemHoles(rest, off + |Print(v)| + |after| + 1 + |lead|)
  }

  function OneMemberHoles(m: Member, off: nat): seq<Edit> {
    var at := ValueAt(m, off);
    if IsModel(m) then EditIf(at + 1, at + |m.v.literal| - 1) else Holes(m.v, at)
  }

  function FromHoles(ms: Members, off: nat): seq<Edit>
    decreases ms, 1
  {
    if Excluded(ms.m.key) then RunHoles(ms, off, off) else OneMemberHoles(ms.m, off) + TailHoles(ms, off)
  }

  function TailHoles(ms: Members, off: nat): seq<Edit>
    decreases ms, 0
  {
    match ms
    case LastMember(_, _) => []
    case MoreMembers(_, _, _, rest) =>
      var next := NextAt(ms, off);
      if rest.LastMember? && Excluded(rest.m.key)
      then [Edit(CommaAt(ms, off), next + |PrintMember(rest.m)|)]
      else FromHoles(rest, next)
  }

  function RunHoles(ms: Members, start: nat, off: nat): seq<Edit>
    decreases ms, 0
  {
    match ms
    case LastMember(m, _) => [Edit(start, off + |PrintMember(m)|)]
    case MoreMembers(_, _, _, rest) =>
      var next := NextAt(ms, off);
      if Excluded(rest.m.key) then RunHoles(rest, start, next)
      else [Edit(start, CommaAt(ms, off) + 1)] + FromHoles(rest, next)
  }

  // The scanner's order is a permutation of text order.

  lemma {:induction false} SameEdits(v: Value, off: nat)
    requires WellFormed(v)
    ensures multiset(Edits(v, off)) == multiset(Holes(v, off))
    decreases v, 2
  {
    match v
    case Array(lead, items) => SameItemEdits(items, off + 1 + |lead|);
    case Object(lead, members) =>
      SameMemberEdits(members, off + 1 + |lead|, -1, true);
    case _ =>
  }

  lemma {:induction false} SameItemEdits(items: Items, off: nat)
    requires WellFormedItems(items)
    ensures multiset(ItemEdits(items, off)) == multiset(ItemHoles(items, off))
    decreases items, 2
  {
    hide Edits, Holes, Print, WellFormed;
    SameEdits(items.v, off);
    if items.MoreItems? {
      var next := off + |Print(items.v)| + |items.after| + 1 + |items.lead|;
      SameItemEdits(items.rest, next);
      assert ItemEdits(items, off) == Edits(items.v, off) + ItemEdits(items.rest, next);
      assert ItemHoles(items, off) == Holes(items.v, off) + ItemHoles(items.rest, next);
    } else {
      assert ItemEdits(items, off) == Edits(items.v, off) && ItemHoles(items, off) == Holes(items.v, off);
    }
  }

  lemma {:induction false} SameOneMember(m: Member, off: nat)
    requires WellFormedMember(m) && !Excluded(m.key)
    ensures multiset(OneMemberEdits(m, off)) == multiset(OneMemberHoles(m, off))
    decreases m, 3
  {
    SameEdits(m.v, ValueAt(m, off));
  }

  lemma {:induction false} SameMemberEdits(ms: Members, off: nat, commaBefore: int, first: bool)
    requires WellFormedMembers(ms)
    requires first || !(ms.LastMember? && Excluded(ms.m.key))
    ensures multiset(MemberEdits(ms, off) + RunEdits(Recs(ms, off, commaBefore), first)) == multiset(FromHoles(ms, off))
    decreases ms, 4
  {
    hide PrintMember, Excluded, Edits, Holes, OneMemberEdits, OneMemberHoles, IsModel, InRun, RunHoles, WellFormedMember;
    var rs := Recs(ms, off, commaBefore);
    MemberEditsStep(ms, off);
    FromHolesCases(ms, off);
    RunEditsStep(rs, first);
    if Excluded(ms.m.key) {
      SameRun(ms, off, commaBefore, rs[0], 1, first);
    } else {
      SameOneMember(ms.m, off);
      if ms.MoreMembers? {
        SameTail(ms, off, commaBefore);
      } else {
        assert rs[1..] == [];
      }
    }
  }

  lemma {:induction false} RunEditsStep(rs: seq<Rec>, first: bool)
    requires rs != []
    ensures RunEdits(rs, first) == if rs[0].excluded then InRun(rs, rs[0], 1, first) else RunEdits(rs[1..], false)
    ensures RunEdits([], first) == []
    ensures |rs| == 1 && rs[0].excluded && !first ==> RunEdits(rs, first) == EditIf(rs[0].commaBefore, rs[0].end)
  {
  }

  lemma {:induction false} FromHolesCases(ms: Members, off: nat)
    ensures FromHoles(ms, off) ==
            if Excluded(ms.m.key) then RunHoles(ms, off, off) else OneMemberHoles(ms.m, off) + TailHoles(ms, off)
  {
  }

  /** After a kept member the two orders agree on the rest of the object. */
  lemma {:induction false} SameTail(ms: Members, off: nat, commaBefore: int)
    requires WellFormedMembers(ms) && ms.MoreMembers? && !Excluded(ms.m.key)
    ensures multiset(MemberEdits(ms.rest, NextAt(ms, off)) + RunEdits(Recs(ms, off, commaBefore)[1..], false))
            == multiset(TailHoles(ms, off))
    decreases ms.rest, 5
  {
    hide PrintMember, Excluded, Edits, Holes, OneMemberEdits, OneMemberHoles, IsModel, InRun, RunHoles, FromHoles, WellFormedMember;
    var next, comma := NextAt(ms, off), CommaAt(ms, off);
    var rest := Recs(ms.rest, next, comma);
    assert Recs(ms, off, commaBefore)[1..] == rest;
    if ms.rest.LastMember? && Excluded(ms.rest.m.key) {
      NoMemberEdits(ms.rest, next);
      RunEditsStep(rest, false);
      assert RunEdits(rest, false) == TailHoles(ms, off);
    } else {
      SameMemberEdits(ms.rest, next, comma, false);
    }
  }

  lemma {:induction false} SameRun(ms: Members, off: nat, commaBefore: int, run: Rec, count: nat, first: bool)
    requires WellFormedMembers(ms) && Excluded(ms.m.key) && count >= 1
    requires run.start <= off
    requires first || count > 1 || ms.MoreMembers?
    ensures multiset(MemberEdits(ms, off) + InRun(Recs(ms, off, commaBefore), run, count, first))
            == multiset(RunHoles(ms, run.start, off))
    decreases ms, 3
  {
    hide PrintMember, Edits, Holes, OneMemberHoles, OneMemberEdits, IsModel, Excluded, InRun, RunEdits, FromHoles, MemberEdits, WellFormedMember, TailHoles;
    NoMemberEdits(ms, off);
    var rs := Recs(ms, off, commaBefore);
    InRunStep(rs, run, count, first);
    if ms.LastMember? {
      PrintMemberNonempty(ms.m);
      assert RunHoles(ms, run.start, off) == [Edit(run.start, off + |PrintMember(ms.m)|)];
      assert InRun(rs, run, count, first) == [Edit(run.start, off + |PrintMember(ms.m)|)];
    } else {
      var next, comma := NextAt(ms, off), CommaAt(ms, off);
      assert rs[1..] == Recs(ms.rest, next, comma);
      if Excluded(ms.rest.m.key) {
        SameRun(ms.rest, next, comma, run, count + 1, first);
        assert RunHoles(ms, run.start, off) == RunHoles(ms.rest, run.start, next);
      } else {
        SameMemberEdits(ms.rest, next, comma, false);
        var close := Edit(run.start, comma + 1);
        assert rs[0].commaAfter == comma;
        assert EditIf(run.start, comma + 1) == [close];
        SwapFront(MemberEdits(ms.rest, next), close, RunEdits(rs[1..], false), FromHoles(ms.rest, next));
        assert RunHoles(ms, run.start, off) == [close] + FromHoles(ms.rest, next);
        assert InRun(rs, run, count, first) == [close] + RunEdits(rs[1..], false);
      }
    }
  }

  /** The values of excluded members hold no edits. */
  lemma {:induction false} NoMemberEdits(ms: Members, off: nat)
    requires Excluded(ms.m.key)
    ensures MemberEdits(ms, off) == if ms.MoreMembers? then MemberEdits(ms.rest, NextAt(ms, off)) else []
  {
    assert OneMemberEdits(ms.m, off) == [];
  }

  lemma {:induction false} InRunStep(rs: seq<Rec>, run: Rec, count: nat, first: bool)
    requires rs != []
    ensures |rs| > 1 && rs[1].excluded ==> InRun(rs, run, count, first) == InRun(rs[1..], run, count + 1, first)
    ensures |rs| > 1 && !rs[1].excluded ==>
              InRun(rs, run, count, first) == EditIf(run.start, rs[0].commaAfter + 1) + RunEdits(rs[1..], false)
    ensures |rs| == 1 && (first || count > 1) ==> InRun(rs, run, count, first) == EditIf(run.start, rs[0].end)
  {
  }

  lemma {:induction false} SwapFront(a: seq<Edit>, e: Edit, b: seq<Edit>, c: seq<Edit>)
    requires multiset(a + b) == multiset(c)
    ensures multiset(a + ([e] + b)) == multiset([e] + c)
  {
  }

  lemma {:induction false} PrintMemberNonempty(m: Member)
    ensures |PrintMember(m)| >= 1
  {
  }

  // ---------------------------------------------------------------------------------------------
  // Cutting the holes out of the text leaves the erased text
  // ---------------------------------------------------------------------------------------------

  /** Non-empty, in order, disjoint, and inside [lo, hi). */
  predicate Within(es: seq<Edit>, lo: nat, hi: nat) {
    if es == [] then lo <= hi
    else lo <= es[0].start < es[0].end <= hi && Within(es[1..], es[0].end, hi)
  }

  /** body[lo..hi] without the edited ranges. */
  function Cut(body: Bytes, es: seq<Edit>, lo: nat, hi: nat): Bytes
    requires Within(es, lo, hi) && hi <= |body|
    decreases |es|
  {
    if es == [] then body[lo..hi]
    else WithinBound(es[1..], es[0].end, hi); body[lo..es[0].start] + Cut(body, es[1..], es[0].end, hi)
  }

  lemma {:induction false} WithinBound(es: seq<Edit>, lo: nat, hi: nat)
    requires Within(es, lo, hi)
    ensures lo <= hi
    decreases |es|
  {
    if es != [] {
      WithinBound(es[1..], es[0].end, hi);
    }
  }

  lemma {:induction false} WithinAppend(a: seq<Edit>, b: seq<Edit>, lo: nat, mid: nat, hi: nat)
    requires Within(a, lo, mid) && Within(b, mid, hi)
    ensures Within(a + b, lo, hi)
    decreases |a|
  {
    WithinBound(b, mid, hi);
    WithinBound(a, lo, mid);
    if a == [] {
      assert a + b == b;
    } else {
      assert (a + b)[1..] == a[1..] + b;
      WithinAppend(a[1..], b, a[0].end, mid, hi);
      WithinBound(a[1..], a[0].end, mid);
    }
  }

  /** Cutting es out of body[lo..hi] leaves out. */
  predicate Cuts(body: Bytes, es: seq<Edit>, lo: nat, hi: nat, out: Bytes) {
    Within(es, lo, hi) && hi <= |body| && Cut(body, es, lo, hi) == out
  }

  lemma {:induction false} CutsAppend(body: Bytes, a: seq<Edit>, x: Bytes, b: seq<Edit>, y: Bytes, lo: nat, mid: nat, hi: nat)
    requires Cuts(body, a, lo, mid, x) && Cuts(body, b, mid, hi, y)
    ensures Cuts(body, a + b, lo, hi, x + y)
    decreases |a|
  {
    WithinBound(b, mid, hi);
    WithinBound(a, lo, mid);
    WithinAppend(a, b, lo, mid, hi);
    if a == [] {
      CutsFront(body, b, lo, mid, hi);
      assert a + b == b;
    } else {
      var (head, rest) := (a[0], a[1..]);
      assert (a + b)[1..] == rest + b;
      WithinBound(rest, head.end, mid);
      var x' := Cut(body, rest, head.end, mid);
      CutsAppend(body, rest, x', b, y, head.end, mid, hi);
      assert body[lo..head.start] + (x' + y) == (body[lo..head.start] + x') + y;
    }
  }

  /** Text before the first hole stays. */
  lemma {:induction false} CutsFront(body: Bytes, b: seq<Edit>, lo: nat, mid: nat, hi: nat)
    requires lo <= mid && Within(b, mid, hi) && hi <= |body|
    ensures mid <= hi && Cuts(body, b, lo, hi, body[lo..mid] + Cut(body, b, mid, hi))
  {
    WithinBound(b, mid, hi);
    if b == [] {
      SliceJoin(body, lo, mid, hi);
    } else {
      CutsFrontHole(body, b, lo, mid, hi);
    }
  }

  lemma {:induction false} SliceJoin(body: Bytes, lo: nat, mid: nat, hi: nat)
    requires lo <= mid <= hi <= |body|
    ensures body[lo..hi] == body[lo..mid] + body[mid..hi]
  {
  }

  lemma {:induction false} CutsFrontHole(body: Bytes, b: seq<Edit>, lo: nat, mid: nat, hi: nat)
    requires b != [] && lo <= mid <= hi <= |body| && Within(b, mid, hi)
    ensures Within(b, lo, hi) && Cut(body, b, lo, hi) == body[lo..mid] + Cut(body, b, mid, hi)
  {
    hide Cut, Within;
    WithinHead(b, mid, hi);
    var start, y := b[0].start, Cut(body, b[1..], b[0].end, hi);
    CutUnfold(body, b, lo, hi);
    CutUnfold(body, b, mid, hi);
    SliceJoin(body, lo, mid, start);
    ConcatAssoc(body[lo..mid], body[mid..start], y);
  }

  lemma {:induction false} WithinHead(es: seq<Edit>, lo: nat, hi: nat)
    requires es != [] && Within(es, lo, hi)
    ensures lo <= es[0].start < es[0].end <= hi && Within(es[1..], es[0].end, hi)
  {
  }

  lemma {:induction false} CutUnfold(body: Bytes, es: seq<Edit>, lo: nat, hi: nat)
    requires es != [] && lo <= es[0].start < es[0].end <= hi <= |body| && Within(es[1..], es[0].end, hi)
    ensures Within(es, lo, hi)
    ensures Cut(body, es, lo, hi) == body[lo..es[0].start] + Cut(body, es[1..], es[0].end, hi)
  {
  }

  lemma {:induction false} CutsHole(body: Bytes, lo: nat, hi: nat)
    requires lo < hi <= |body|
    ensures Cuts(body, [Edit(lo, hi)], lo, hi, [])
  {
    assert [Edit(lo, hi)][1..] == [];
  }

  /** Text s stands at off. */
  predicate Slice(body: Bytes, off: nat, s: Bytes) {
    off + |s| <= |body| && body[off..off + |s|] == s
  }

  lemma {:induction false} SliceSplit(body: Bytes, off: nat, a: Bytes, b: Bytes)
    ensures Slice(body, off, a + b) <==> Slice(body, off, a) && Slice(body, off + |a|, b)
  {
    if Slice(body, off, a + b) {
      assert (a + b)[..|a|] == a && (a + b)[|a|..] == b;
    }
  }

  lemma {:induction false} CutsPlain(body: Bytes, off: nat, s: Bytes)
    requires Slice(body, off, s)
    ensures Cuts(body, [], off, off + |s|, s)
  {
  }

  /** Plain text, then a region with holes. */
  lemma {:induction false} CutsAfter(body: Bytes, a: Bytes, es: seq<Edit>, y: Bytes, off: nat, hi: nat)
    requires Slice(body, off, a) && Cuts(body, es, off + |a|, hi, y)
    ensures Cuts(body, es, off, hi, a + y)
  {
    hide Cuts, Slice;
    CutsPlain(body, off, a);
    CutsAppend(body, [], a, es, y, off, off + |a|, hi);
    assert [] + es == es;
  }

  /** A region with holes, then plain text. */
  lemma {:induction false} CutsBefore(body: Bytes, es: seq<Edit>, y: Bytes, b: Bytes, off: nat, hi: nat)
    requires Cuts(body, es, off, hi, y) && Slice(body, hi, b)
    ensures Cuts(body, es, off, hi + |b|, y + b)
  {
    hide Cuts, Slice;
    CutsPlain(body, hi, b);
    CutsAppend(body, es, y, [], b, off, hi, hi + |b|);
    assert es + [] == es;
  }

  lemma {:induction false} CutsValue(body: Bytes, v: Value, off: nat)
    requires WellFormed(v) && Slice(body, off, Print(v))
    ensures Cuts(body, Holes(v, off), off, off + |Print(v)|, Erase(v))
    decreases v, 3
  {
    hide Cuts, Slice;
    match v
    case Array(lead, items) =>
      var inner := PrintItems(items);
      SliceSplit(body, off, "[" + lead + inner, "]");
      SliceSplit(body, off, "[" + lead, inner);
      CutsItems(body, items, off + 1 + |lead|);
      CutsAfter(body, "[" + lead, Holes(v, off), EraseItems(items), off, off + 1 + |lead| + |inner|);
      CutsBefore(body, Holes(v, off), "[" + lead + EraseItems(items), "]", off, off + 1 + |lead| + |inner|);
    case Object(lead, members) =>
      var inner := PrintMembers(members);
      SliceSplit(body, off, "{" + lead + inner, "}");
      SliceSplit(body, off, "{" + lead, inner);
      CutsMembers(body, members, off + 1 + |lead|);
      CutsAfter(body, "{" + lead, Holes(v, off), EraseFrom(members), off, off + 1 + |lead| + |inner|);
      CutsBefore(body, Holes(v, off), "{" + lead + EraseFrom(members), "}", off, off + 1 + |lead| + |inner|);
    case _ =>
      CutsPlain(body, off, Print(v));
  }

  lemma {:induction false} CutsItems(body: Bytes, items: Items, off: nat)
    requires WellFormedItems(items) && Slice(body, off, PrintItems(items))
    ensures Cuts(body, ItemHoles(items, off), off, off + |PrintItems(items)|, EraseItems(items))
    decreases items, 3
  {
    hide Cuts, Slice, WellFormed, Holes, Erase, Print;
    var text := Print(items.v);
    var mid := off + |text|;
    var holes := Holes(items.v, off);
    match items
    case LastItem(v, after) =>
      SliceSplit(body, off, text, after);
      CutsValue(body, v, off);
      assert ItemHoles(items, off) == holes;
      CutsBefore(body, holes, Erase(v), after, off, mid);
    case MoreItems(v, after, lead, rest) =>
      var more := PrintItems(rest);
      var next := mid + |after| + 1 + |lead|;
      SliceSplit(body, off, text + after + "," + lead, more);
      SliceSplit(body, off, text + after + ",", lead);
      SliceSplit(body, off, text + after, ",");
      SliceSplit(body, off, text, after);
      CutsValue(body, v, off);
      CutsBefore(body, holes, Erase(v), after, off, mid);
      CutsBefore(body, holes, Erase(v) + after, ",", off, mid + |after|);
      CutsBefore(body, holes, Erase(v) + after + ",", lead, off, mid + |after| + 1);
      CutsItems(body, rest, next);
      CutsAppend(body, holes, Erase(v) + after + "," + lead, ItemHoles(rest, next), EraseItems(rest), off, next, next + |more|);
  }

  lemma {:induction false} CutsMember(body: Bytes, m: Member, off: nat)
    requires WellFormedMember(m) && Slice(body, off, PrintMember(m))
    ensures Cuts(body, OneMemberHoles(m, off), off, off + |PrintMember(m)|, EraseMember(m))
    decreases m, 4
  {
    hide Cuts, Slice, WellFormed, Holes, Erase, IsModel;
    var head := m.key + m.beforeColon + ":" + m.afterColon;
    var at := ValueAt(m, off);
    SliceSplit(body, off, head, Print(m.v));
    if IsModel(m) {
      ModelIsString(m);
      CutsModel(body, m.v.literal, at);
      CutsAfter(body, head, OneMemberHoles(m, off), "\"\"", off, at + |Print(m.v)|);
    } else {
      CutsValue(body, m.v, at);
      CutsAfter(body, head, OneMemberHoles(m, off), Erase(m.v), off, at + |Print(m.v)|);
    }
  }

  lemma {:induction false} ModelIsString(m: Member)
    requires IsModel(m)
    ensures m.v.Str? && Print(m.v) == m.v.literal && (WellFormed(m.v) ==> IsLiteral(m.v.literal))
  {
  }

  /** Only the two quotes of a collected string are left. */
  lemma {:induction false} CutsModel(body: Bytes, literal: Bytes, at: nat)
    requires IsLiteral(literal) && Slice(body, at, literal)
    ensures Cuts(body, EditIf(at + 1, at + |literal| - 1), at, at + |literal|, "\"\"")
  {
    ClosesEndsWithQuote(literal[1..]);
    var end := at + |literal|;
    assert body[at..end][0] == '"' && body[at..end][|literal| - 1] == '"';
    CutsPlain(body, at, "\"");
    CutsPlain(body, end - 1, "\"");
    if |literal| > 2 {
      CutsHole(body, at + 1, end - 1);
      CutsAfter(body, "\"", [Edit(at + 1, end - 1)], [], at, end - 1);
      CutsBefore(body, [Edit(at + 1, end - 1)], "\"", "\"", at, end - 1);
    } else {
      CutsAppend(body, [], "\"", [], "\"", at, at + 1, end);
    }
  }

  lemma {:induction false} ClosesEndsWithQuote(s: Bytes)
    requires Closes(s)
    ensures s != [] && s[|s| - 1] == '"'
    decreases |s|
  {
    if s[0] == '\\' {
      ClosesEndsWithQuote(s[2..]);
    } else if s[0] != '"' {
      ClosesEndsWithQuote(s[1..]);
    }
  }

  /** What follows the first member in the text. */
  function AfterMember(ms: Members): Bytes {
    match ms
    case LastMember(_, after) => after
    case MoreMembers(_, after, lead, rest) => after + "," + lead + PrintMembers(rest)
  }

  lemma {:induction false} PrintTail(ms: Members)
    ensures PrintMembers(ms) == PrintMember(ms.m) + AfterMember(ms)
  {
    hide PrintMember;
    if ms.MoreMembers? {
      assert PrintMember(ms.m) + ms.after + "," + ms.lead + PrintMembers(ms.rest)
          == PrintMember(ms.m) + (ms.after + "," + ms.lead + PrintMembers(ms.rest));
    }
  }

  /** The pieces of text between two members, and where they stand. */
  lemma {:induction false} TailSlices(body: Bytes, ms: Members, off: nat)
    requires Slice(body, off, PrintMembers(ms)) && ms.MoreMembers?
    ensures var mid, comma, next := off + |PrintMember(ms.m)|, CommaAt(ms, off), NextAt(ms, off);
            Slice(body, mid, ms.after) && Slice(body, comma, ",") && Slice(body, comma + 1, ms.lead) &&
            Slice(body, next, PrintMembers(ms.rest)) && Slice(body, off, PrintMember(ms.m)) &&
            off + |PrintMembers(ms)| == next + |PrintMembers(ms.rest)|
  {
    hide Slice, PrintMember;
    var text, more := PrintMember(ms.m), PrintMembers(ms.rest);
    SliceSplit(body, off, text + ms.after + "," + ms.lead, more);
    SliceSplit(body, off, text + ms.after + ",", ms.lead);
    SliceSplit(body, off, text + ms.after, ",");
    SliceSplit(body, off, text, ms.after);
  }

  lemma {:induction false} CutsMembers(body: Bytes, ms: Members, off: nat)
    requires WellFormedMembers(ms) && Slice(body, off, PrintMembers(ms))
    ensures Cuts(body, FromHoles(ms, off), off, off + |PrintMembers(ms)|, EraseFrom(ms))
    decreases ms, 5
  {
    hide Cuts, Slice, PrintMember, Excluded, OneMemberHoles, EraseMember, TailHoles, RunHoles, EraseTail, EraseRun, WellFormedMember;
    if Excluded(ms.m.key) {
      CutsRun(body, ms, off, off);
    } else {
      PrintTail(ms);
      SliceSplit(body, off, PrintMember(ms.m), AfterMember(ms));
      CutsMember(body, ms.m, off);
      CutsTail(body, ms, off);
      CutsAppend(body, OneMemberHoles(ms.m, off), EraseMember(ms.m), TailHoles(ms, off), ms.after + EraseTail(ms),
                 off, off + |PrintMember(ms.m)|, off + |PrintMembers(ms)|);
      assert EraseMember(ms.m) + (ms.after + EraseTail(ms)) == EraseFrom(ms);
    }
  }

  lemma {:induction false} CutsTail(body: Bytes, ms: Members, off: nat)
    requires WellFormedMembers(ms) && Slice(body, off, PrintMembers(ms))
    ensures Cuts(body, TailHoles(ms, off), off + |PrintMember(ms.m)|, off + |PrintMembers(ms)|, ms.after + EraseTail(ms))
    decreases ms, 4
  {
    hide Cuts, Slice, PrintMember, Excluded, OneMemberHoles, EraseMember, FromHoles, EraseFrom, WellFormedMember;
    var mid, end := off + |PrintMember(ms.m)|, off + |PrintMembers(ms)|;
    match ms
    case LastMember(_, after) =>
      SliceSplit(body, off, PrintMember(ms.m), after);
      CutsPlain(body, mid, after);
      assert after + [] == after;
    case MoreMembers(_, after, lead, rest) =>
      TailSlices(body, ms, off);
      var comma, next := CommaAt(ms, off), NextAt(ms, off);
      if rest.LastMember? && Excluded(rest.m.key) {
        var gone := next + |PrintMember(rest.m)|;
        SliceSplit(body, next, PrintMember(rest.m), rest.after);
        SliceBound(body, gone, rest.after);
        CutsHole(body, comma, gone);
        CutsAfter(body, after, [Edit(comma, gone)], [], mid, gone);
        assert after + [] == after;
        CutsBefore(body, [Edit(comma, gone)], after, rest.after, mid, gone);
      } else {
        CutsMembers(body, rest, next);
        var es := FromHoles(rest, next);
        CutsAfter(body, lead, es, EraseFrom(rest), comma + 1, end);
        CutsAfter(body, ",", es, lead + EraseFrom(rest), comma, end);
        CutsAfter(body, after, es, "," + (lead + EraseFrom(rest)), mid, end);
        assert "," + (lead + EraseFrom(rest)) == "," + lead + EraseFrom(rest);
      }
  }

  lemma {:induction false} SliceBound(body: Bytes, off: nat, s: Bytes)
    requires Slice(body, off, s)
    ensures off + |s| <= |body|
  {
  }

  lemma {:induction false} CutsRun(body: Bytes, ms: Members, start: nat, off: nat)
    requires WellFormedMembers(ms) && Slice(body, off, PrintMembers(ms)) && start <= off
    ensures Cuts(body, RunHoles(ms, start, off), start, off + |PrintMembers(ms)|, EraseRun(ms))
    decreases ms, 4
  {
    PrintMemberNonempty(ms.m);
    hide Cuts, Slice, PrintMember, Excluded, OneMemberHoles, EraseMember, FromHoles, EraseFrom, WellFormedMember;
    match ms
    case LastMember(_, after) =>
      var gone := off + |PrintMember(ms.m)|;
      SliceSplit(body, off, PrintMember(ms.m), after);
      SliceBound(body, gone, after);
      CutsHole(body, start, gone);
      CutsBefore(body, [Edit(start, gone)], [], after, start, gone);
      assert [] + after == after;
    case MoreMembers(_, after, lead, rest) =>
      TailSlices(body, ms, off);
      var comma, next := CommaAt(ms, off), NextAt(ms, off);
      if Excluded(rest.m.key) {
        CutsRun(body, rest, start, next);
      } else {
        CutsMembers(body, rest, next);
        var es := FromHoles(rest, next);
        CutsAfter(body, lead, es, EraseFrom(rest), comma + 1, off + |PrintMembers(ms)|);
        SliceBound(body, comma, ",");
        CutsHole(body, start, comma + 1);
        CutsAppend(body, [Edit(start, comma + 1)], [], es, lead + EraseFrom(rest), start, comma + 1, off + |PrintMembers(ms)|);
        assert [] + (lead + EraseFrom(rest)) == lead + EraseFrom(rest);
      }
  }

  // ---------------------------------------------------------------------------------------------
  // The scanner
  // ---------------------------------------------------------------------------------------------

  /** A value ends here: at the end of the text or before a byte that ends a bare token. */
  predicate AtEnd(body: Bytes, off: nat) {
    off == |body| || (off < |body| && EndsToken(body[off]))
  }

  /** The value v, after some blanks, stands at off, and something that ends a value follows. */
  predicate Reads(body: Bytes, off: nat, lead: Bytes, v: Value) {
    Spaces(lead) && WellFormed(v) && Slice(body, off, lead + Print(v)) && AtEnd(body, off + |lead| + |Print(v)|)
  }

  /** Items after some blanks, with the closing bracket. */
  predicate ReadsItems(body: Bytes, off: nat, lead: Bytes, items: Items) {
    Spaces(lead) && WellFormedItems(items) && Slice(body, off, lead + PrintItems(items) + "]")
  }

  predicate ReadsMembers(body: Bytes, off: nat, lead: Bytes, ms: Members) {
    Spaces(lead) && WellFormedMembers(ms) && Slice(body, off, lead + PrintMembers(ms) + "}")
  }

  lemma {:induction false} SliceAt(body: Bytes, off: nat, s: Bytes, k: nat)
    requires Slice(body, off, s) && k < |s|
    ensures off + k < |body| && body[off + k] == s[k]
  {
    assert body[off..off + |s|][k] == s[k];
  }

  /** Blanks after a value, then a byte that is no blank: the value is ended. */
  lemma {:induction false} EndedBy(body: Bytes, off: nat, after: Bytes, stop: char)
    requires Spaces(after) && Slice(body, off, after + [stop]) && EndsToken(stop)
    ensures AtEnd(body, off)
  {
    SliceAt(body, off, after + [stop], 0);
  }

  lemma {:induction false} BareScan(body: Bytes, off: nat, v: Value)
    requires Reads(body, off, [], v) && v.Bare?
    ensures off + |v.token| <= |body| && forall k :: off <= k < off + |v.token| ==> !EndsToken(body[k])
  {
    hide Slice, AtEnd, Spaces;
    assert [] + Print(v) == v.token;
    TokenStands(body, off, v.token);
  }

  lemma {:induction false} TokenStands(body: Bytes, off: nat, token: Bytes)
    requires Slice(body, off, token) && IsToken(token)
    ensures off + |token| <= |body| && forall k :: off <= k < off + |token| ==> !EndsToken(body[k])
  {
    hide EndsToken;
    forall k | off <= k < off + |token|
      ensures !EndsToken(body[k])
    {
      SliceAt(body, off, token, k - off);
    }
  }

  lemma {:induction false} ReadsHead(body: Bytes, off: nat, lead: Bytes, v: Value)
    requires Reads(body, off, lead, v)
    ensures off + |lead| < |body| && body[off + |lead|] == Print(v)[0]
    ensures Slice(body, off, lead) && Reads(body, off + |lead|, [], v)
    ensures !IsSpace(body[off + |lead|])
  {
    PrintHead(v);
    SliceSplit(body, off, lead, Print(v));
    assert [] + Print(v) == Print(v);
    SliceAt(body, off + |lead|, Print(v), 0);
  }

  lemma {:induction false} ReadsEmpty(body: Bytes, off: nat, v: Value, inner: Bytes, close: char)
    requires Reads(body, off, [], v)
    requires (v == EmptyArray(inner) && close == ']') || (v == EmptyObject(inner) && close == '}')
    ensures Slice(body, off + 1, inner) && Spaces(inner)
    ensures off + 1 + |inner| < |body| && body[off + 1 + |inner|] == close && !IsSpace(close)
    ensures |Print(v)| == |inner| + 2
  {
    var open := if close == ']' then "[" else "{";
    assert [] + Print(v) == open + inner + [close];
    SliceSplit(body, off, open + inner, [close]);
    SliceSplit(body, off, open, inner);
    SliceAt(body, off + 1 + |inner|, [close], 0);
  }

  lemma {:induction false} ReadsArray(body: Bytes, off: nat, v: Value)
    requires Reads(body, off, [], v) && v.Array?
    ensures ReadsItems(body, off + 1, v.lead, v.items)
    ensures |Print(v)| == 2 + |v.lead| + |PrintItems(v.items)|
  {
    hide Slice;
    var rest := v.lead + PrintItems(v.items) + "]";
    assert [] + Print(v) == "[" + rest;
    SliceSplit(body, off, "[", rest);
  }

  lemma {:induction false} ReadsObject(body: Bytes, off: nat, v: Value)
    requires Reads(body, off, [], v) && v.Object?
    ensures ReadsMembers(body, off + 1, v.lead, v.members)
    ensures |Print(v)| == 2 + |v.lead| + |PrintMembers(v.members)|
  {
    hide Slice;
    var rest := v.lead + PrintMembers(v.members) + "}";
    assert [] + Print(v) == "{" + rest;
    SliceSplit(body, off, "{", rest);
  }

  function ItemsStop(items: Items): char {
    if items.MoreItems? then ',' else ']'
  }

  /** Where the pieces of an element stand. */
  lemma {:induction false} ItemLayout(body: Bytes, off: nat, lead: Bytes, items: Items)
    requires ReadsItems(body, off, lead, items)
    ensures Reads(body, off, lead, items.v)
    ensures var end := off + |lead| + |Print(items.v)|;
            Slice(body, off, lead) && Slice(body, end, items.after) && Spaces(items.after) &&
            end + |items.after| < |body| && body[end + |items.after|] == ItemsStop(items) &&
            (items.MoreItems? ==>
               ReadsItems(body, end + |items.after| + 1, items.lead, items.rest) &&
               |PrintItems(items)| == |Print(items.v)| + |items.after| + 1 + |items.lead| + |PrintItems(items.rest)|) &&
            (items.LastItem? ==> |PrintItems(items)| == |Print(items.v)| + |items.after|)
  {
    hide Slice, AtEnd, WellFormed, Print;
    var v, after := items.v, items.after;
    var end := off + |lead| + |Print(v)|;
    var stop := ItemsStop(items);
    var more := if items.MoreItems? then items.lead + PrintItems(items.rest) + "]" else [];
    assert lead + PrintItems(items) + "]" == (lead + Print(v)) + ((after + [stop]) + more);
    SliceSplit(body, off, lead + Print(v), (after + [stop]) + more);
    SliceSplit(body, off, lead, Print(v));
    SliceSplit(body, end, after + [stop], more);
    SliceSplit(body, end, after, [stop]);
    EndedBy(body, end, after, stop);
    SliceAt(body, end + |after|, [stop], 0);
  }

  function MembersStop(ms: Members): char {
    if ms.MoreMembers? then ',' else '}'
  }

  /** Where the pieces of a member stand. */
  lemma {:induction false} MemberLayout(body: Bytes, off: nat, m: Member)
    requires WellFormedMember(m) && Slice(body, off, PrintMember(m))
    requires AtEnd(body, off + |PrintMember(m)|)
    ensures var colon := off + |m.key| + |m.beforeColon|;
            Slice(body, off, m.key) && IsLiteral(m.key) && off < |body| && body[off] == '"' &&
            Slice(body, off + |m.key|, m.beforeColon) && Spaces(m.beforeColon) &&
            colon < |body| && body[colon] == ':' &&
            Slice(body, colon + 1, m.afterColon) && Spaces(m.afterColon) &&
            Reads(body, ValueAt(m, off), [], m.v) && ValueAt(m, off) == colon + 1 + |m.afterColon| &&
            off + |PrintMember(m)| == ValueAt(m, off) + |Print(m.v)|
  {
    hide Slice, AtEnd, WellFormed, Print;
    var colon := off + |m.key| + |m.beforeColon|;
    SliceSplit(body, off, m.key + m.beforeColon + ":" + m.afterColon, Print(m.v));
    SliceSplit(body, off, m.key + m.beforeColon + ":", m.afterColon);
    SliceSplit(body, off, m.key + m.beforeColon, ":");
    SliceSplit(body, off, m.key, m.beforeColon);
    SliceAt(body, off, m.key, 0);
    SliceAt(body, colon, ":", 0);
    assert [] + Print(m.v) == Print(m.v);
  }

  lemma {:induction false} MembersLayout(body: Bytes, off: nat, lead: Bytes, ms: Members)
    requires ReadsMembers(body, off, lead, ms)
    ensures var at := off + |lead|; var end := at + |PrintMember(ms.m)|;
            Slice(body, off, lead) && Slice(body, at, PrintMember(ms.m)) && AtEnd(body, end) &&
            Slice(body, end, ms.after) && Spaces(ms.after) &&
            end + |ms.after| < |body| && body[end + |ms.after|] == MembersStop(ms) &&
            (ms.MoreMembers? ==>
               ReadsMembers(body, end + |ms.after| + 1, ms.lead, ms.rest) &&
               |PrintMembers(ms)| == |PrintMember(ms.m)| + |ms.after| + 1 + |ms.lead| + |PrintMembers(ms.rest)|) &&
            (ms.LastMember? ==> |PrintMembers(ms)| == |PrintMember(ms.m)| + |ms.after|)
  {
    hide Slice, AtEnd, WellFormedMember, PrintMember;
    var text, after := PrintMember(ms.m), ms.after;
    var end := off + |lead| + |text|;
    var stop := MembersStop(ms);
    var more := if ms.MoreMembers? then ms.lead + PrintMembers(ms.rest) + "}" else [];
    assert lead + PrintMembers(ms) + "}" == (lead + text) + ((after + [stop]) + more);
    SliceSplit(body, off, lead + text, (after + [stop]) + more);
    SliceSplit(body, off, lead, text);
    SliceSplit(body, end, after + [stop], more);
    SliceSplit(body, end, after, [stop]);
    EndedBy(body, end, after, stop);
    SliceAt(body, end + |after|, [stop], 0);
  }

  lemma {:induction false} LiteralReads(body: Bytes, off: nat, v: Value)
    ensures Reads(body, off, [], v) && v.Str? ==> IsLiteral(Print(v)) && Slice(body, off, Print(v)) && Edits(v, off) == []
  {
    assert [] + Print(v) == Print(v);
  }

  lemma {:induction false} NotClosing(v: Value)
    requires WellFormed(v)
    ensures Print(v) != [] && !EndsToken(Print(v)[0])
  {
    PrintHead(v);
  }

  /** After its blanks the first item reads with none. */
  lemma {:induction false} SkipItemsLead(body: Bytes, off: nat, lead: Bytes, items: Items)
    requires ReadsItems(body, off, lead, items)
    ensures ReadsItems(body, off + |lead|, [], items)
  {
    var rest := PrintItems(items) + "]";
    assert lead + PrintItems(items) + "]" == lead + rest;
    assert [] + PrintItems(items) + "]" == rest;
    SliceSplit(body, off, lead, rest);
  }

  lemma {:induction false} SkipMembersLead(body: Bytes, off: nat, lead: Bytes, ms: Members)
    requires ReadsMembers(body, off, lead, ms)
    ensures ReadsMembers(body, off + |lead|, [], ms)
  {
    var rest := PrintMembers(ms) + "}";
    assert lead + PrintMembers(ms) + "}" == lead + rest;
    assert [] + PrintMembers(ms) + "}" == rest;
    SliceSplit(body, off, lead, rest);
  }

  /** The opening bracket and its blanks, up to the closing bracket or the first item. */
  lemma {:induction false} ArrayOpens(body: Bytes, off: nat, v: Value)
    requires Reads(body, off, [], v) && (v.Array? || v.EmptyArray?)
    ensures v.EmptyArray? ==>
              Slice(body, off + 1, v.inner) && Spaces(v.inner) && off + 1 + |v.inner| < |body| &&
              body[off + 1 + |v.inner|] == ']' && |Print(v)| == |v.inner| + 2 && Edits(v, off) == []
    ensures v.Array? ==>
              Slice(body, off + 1, v.lead) && Spaces(v.lead) && off + 1 + |v.lead| < |body| &&
              !EndsToken(body[off + 1 + |v.lead|]) && ReadsItems(body, off + 1 + |v.lead|, [], v.items) &&
              |Print(v)| == 2 + |v.lead| + |PrintItems(v.items)| && Edits(v, off) == ItemEdits(v.items, off + 1 + |v.lead|)
  {
    hide Slice, AtEnd;
    if v.EmptyArray? {
      ReadsEmpty(body, off, v, v.inner, ']');
    } else {
      ReadsArray(body, off, v);
      ItemLayout(body, off + 1, v.lead, v.items);
      ReadsHead(body, off + 1, v.lead, v.items.v);
      NotClosing(v.items.v);
      SkipItemsLead(body, off + 1, v.lead, v.items);
    }
  }

  function When(collect: bool, es: seq<Edit>): seq<Edit> {
    if collect then es else []
  }

  /** In the middle of an array: the items left end at end, and their edits complete those of the goal. */
  predicate ItemsLeft(body: Bytes, off: nat, lead: Bytes, items: Items, end: nat, collect: bool, edits: seq<Edit>, goal: seq<Edit>) {
    ReadsItems(body, off, lead, items) && off + |lead| + |PrintItems(items)| == end &&
    edits + When(collect, ItemEdits(items, off + |lead|)) == goal
  }

  /** One turn: the value reads, and what is left after it, its blanks and a comma. */
  lemma {:induction false} ItemTurn(body: Bytes, off: nat, lead: Bytes, items: Items, end: nat, collect: bool, edits: seq<Edit>, goal: seq<Edit>)
    requires ItemsLeft(body, off, lead, items, end, collect, edits, goal)
    ensures Reads(body, off, lead, items.v)
    ensures var at := off + |lead|; var stop := at + |Print(items.v)| + |items.after|;
            var edits' := edits + When(collect, Edits(items.v, at));
            Slice(body, at + |Print(items.v)|, items.after) && Spaces(items.after) &&
            stop < |body| && body[stop] == ItemsStop(items) && !IsSpace(body[stop]) &&
            (items.MoreItems? ==> ItemsLeft(body, stop + 1, items.lead, items.rest, end, collect, edits', goal)) &&
            (items.LastItem? ==> stop == end && edits' == goal)
  {
    hide Slice, Reads, ReadsItems, ItemEdits, Edits, Print, PrintItems, When, AtEnd, WellFormedItems;
    ItemLayout(body, off, lead, items);
    var at := off + |lead|;
    ItemEditsStep(items, at);
    var more := if items.MoreItems? then ItemEdits(items.rest, at + |Print(items.v)| + |items.after| + 1 + |items.lead|) else [];
    WhenAppend(collect, edits, Edits(items.v, at), more);
  }

  lemma {:induction false} WhenEmpty(collect: bool, before: seq<Edit>)
    ensures before + When(collect, []) == before
  {
  }

  lemma {:induction false} WhenTaken(es: seq<Edit>)
    ensures When(true, es) == es
  {
  }

  lemma {:induction false} WhenDropped(es: seq<Edit>)
    ensures When(false, es) == []
  {
  }

  lemma {:induction false} WhenAppend(collect: bool, before: seq<Edit>, a: seq<Edit>, b: seq<Edit>)
    ensures before + When(collect, a + b) == (before + When(collect, a)) + When(collect, b)
    ensures b == [] ==> before + When(collect, a + b) == before + When(collect, a)
  {
  }

  lemma {:induction false} ItemEditsStep(items: Items, off: nat)
    ensures ItemEdits(items, off) == Edits(items.v, off) +
            if items.MoreItems? then ItemEdits(items.rest, off + |Print(items.v)| + |items.after| + 1 + |items.lead|) else []
  {
  }

  /** One member stands at off, and something that ends its value follows. */
  predicate ReadsMember(body: Bytes, off: nat, m: Member) {
    WellFormedMember(m) && Slice(body, off, PrintMember(m)) && AtEnd(body, off + |PrintMember(m)|)
  }

  /** The opening brace and its blanks, up to the closing brace or the first member. */
  lemma {:induction false} ObjectOpens(body: Bytes, off: nat, v: Value)
    requires Reads(body, off, [], v) && (v.Object? || v.EmptyObject?)
    ensures v.EmptyObject? ==>
              Slice(body, off + 1, v.inner) && Spaces(v.inner) && off + 1 + |v.inner| < |body| &&
              body[off + 1 + |v.inner|] == '}' && |Print(v)| == |v.inner| + 2 && Edits(v, off) == []
    ensures v.Object? ==>
              Slice(body, off + 1, v.lead) && Spaces(v.lead) && off + 1 + |v.lead| < |body| &&
              body[off + 1 + |v.lead|] == '"' && ReadsMembers(body, off + 1 + |v.lead|, [], v.members) &&
              |Print(v)| == 2 + |v.lead| + |PrintMembers(v.members)| &&
              Edits(v, off) == ObjectEdits(v.members, off + 1 + |v.lead|)
  {
    hide Slice, AtEnd;
    if v.EmptyObject? {
      ReadsEmpty(body, off, v, v.inner, '}');
    } else {
      ReadsObject(body, off, v);
      MembersLayout(body, off + 1, v.lead, v.members);
      MemberLayout(body, off + 1 + |v.lead|, v.members.m);
      SkipMembersLead(body, off + 1, v.lead, v.members);
    }
  }

  function ObjectEdits(ms: Members, off: nat): seq<Edit> {
    MemberEdits(ms, off) + RunEdits(Recs(ms, off, -1), true)
  }

  /** The pieces of a member as the scanner meets them. */
  lemma {:induction false} MemberOpens(body: Bytes, off: nat, m: Member)
    requires ReadsMember(body, off, m)
    ensures var colon := off + |m.key| + |m.beforeColon|; var at := ValueAt(m, off);
            Slice(body, off, m.key) && IsLiteral(m.key) && off + |m.key| <= |body| && body[off..off + |m.key|] == m.key &&
            Slice(body, off + |m.key|, m.beforeColon) && Spaces(m.beforeColon) &&
            colon < |body| && body[colon] == ':' &&
            Slice(body, colon + 1, m.afterColon) && Spaces(m.afterColon) && at == colon + 1 + |m.afterColon| &&
            at < |body| && !IsSpace(body[at]) && (body[at] == '"' <==> m.v.Str?) &&
            Reads(body, at, [], m.v) && off + |PrintMember(m)| == at + |Print(m.v)|
  {
    MemberLayout(body, off, m);
    ReadsHead(body, ValueAt(m, off), [], m.v);
    PrintHead(m.v);
  }

  lemma {:induction false} MemberEditsCases(m: Member, off: nat)
    ensures IsModel(m) ==> OneMemberEdits(m, off) == EditIf(ValueAt(m, off) + 1, ValueAt(m, off) + |m.v.literal| - 1)
    ensures !IsModel(m) && Excluded(m.key) ==> OneMemberEdits(m, off) == []
    ensures !IsModel(m) && !Excluded(m.key) ==> OneMemberEdits(m, off) == Edits(m.v, ValueAt(m, off))
    ensures IsModel(m) <==> m.key == MODEL && m.v.Str?
    ensures m.v.Str? ==> Print(m.v) == m.v.literal && Edits(m.v, ValueAt(m, off)) == []
  {
  }

  /** In the middle of an object: as ItemsLeft, with the member records collected so far. */
  predicate MembersLeft(body: Bytes, off: nat, lead: Bytes, ms: Members, end: nat, collect: bool,
                        edits: seq<Edit>, goal: seq<Edit>, recs: seq<Rec>, goalRecs: seq<Rec>, commaBefore: int) {
    ReadsMembers(body, off, lead, ms) && off + |lead| + |PrintMembers(ms)| == end &&
    edits + When(collect, MemberEdits(ms, off + |lead|)) == goal &&
    (collect ==> recs + Recs(ms, off + |lead|, commaBefore) == goalRecs)
  }

  lemma {:induction false} MemberTurn(body: Bytes, off: nat, lead: Bytes, ms: Members, end: nat, collect: bool,
                   edits: seq<Edit>, goal: seq<Edit>, recs: seq<Rec>, goalRecs: seq<Rec>, commaBefore: int)
    requires MembersLeft(body, off, lead, ms, end, collect, edits, goal, recs, goalRecs, commaBefore)
    ensures var at := off + |lead|; var close := at + |PrintMember(ms.m)|; var stop := close + |ms.after|;
            var edits' := edits + When(collect, OneMemberEdits(ms.m, at));
            var recs' := recs + [Rec(at, close, commaBefore, if ms.MoreMembers? then stop else -1, collect && Excluded(ms.m.key))];
            Slice(body, off, lead) && Spaces(lead) && at < |body| && !IsSpace(body[at]) && ReadsMember(body, at, ms.m) &&
            Slice(body, close, ms.after) && Spaces(ms.after) &&
            stop < |body| && body[stop] == MembersStop(ms) && !IsSpace(body[stop]) &&
            (ms.MoreMembers? ==>
               MembersLeft(body, stop + 1, ms.lead, ms.rest, end, collect, edits', goal, recs', goalRecs, stop)) &&
            (ms.LastMember? ==> stop == end && edits' == goal && (collect ==> recs' == goalRecs))
  {
    hide When, MemberEdits, OneMemberEdits, Recs, WellFormedMember, AtEnd, Slice;
    MembersLayout(body, off, lead, ms);
    var at := off + |lead|;
    TurnHead(body, at, ms);
    MemberEditsStep(ms, at);
    hide PrintMember, PrintMembers, ReadsMember, ReadsMembers, Excluded;
    var more := if ms.MoreMembers? then MemberEdits(ms.rest, NextAt(ms, at)) else [];
    WhenAppend(collect, edits, OneMemberEdits(ms.m, at), more);
    RecsStep(ms, at, commaBefore, recs);
  }

  lemma {:induction false} TurnHead(body: Bytes, at: nat, ms: Members)
    requires WellFormedMembers(ms) && Slice(body, at, PrintMember(ms.m)) && AtEnd(body, at + |PrintMember(ms.m)|)
    ensures ReadsMember(body, at, ms.m) && at < |body| && body[at] == '"'
  {
    MemberLayout(body, at, ms.m);
  }

  lemma {:induction false} RecsStep(ms: Members, off: nat, commaBefore: int, recs: seq<Rec>)
    ensures var first := Rec(off, off + |PrintMember(ms.m)|, commaBefore, if ms.MoreMembers? then CommaAt(ms, off) else -1,
                             Excluded(ms.m.key));
            recs + Recs(ms, off, commaBefore) ==
            (recs + [first]) + if ms.MoreMembers? then Recs(ms.rest, NextAt(ms, off), CommaAt(ms, off)) else []
  {
    hide PrintMember, Excluded;
    if ms.MoreMembers? {
      var first := Rec(off, off + |PrintMember(ms.m)|, commaBefore, CommaAt(ms, off), Excluded(ms.m.key));
      var rest := Recs(ms.rest, NextAt(ms, off), CommaAt(ms, off));
      assert (recs + [first]) + rest == recs + ([first] + rest);
    }
  }

  lemma {:induction false} MemberEditsStep(ms: Members, off: nat)
    ensures MemberEdits(ms, off) ==
            OneMemberEdits(ms.m, off) + if ms.MoreMembers? then MemberEdits(ms.rest, NextAt(ms, off)) else []
  {
  }

  class Scanner {
    const body: Bytes
    var pos: nat
    var edits: seq<Edit>

    constructor (body: Bytes)
      ensures this.body == body && pos == 0 && edits == []
    {
      this.body := body;
      pos := 0;
      edits := [];
    }

    /** Moves past blanks. */
    method Skip(ghost blanks: Bytes)
      requires pos <= |body|
      modifies this`pos
      ensures old(pos) <= pos <= |body|
      ensures Slice(body, old(pos), blanks) && Spaces(blanks) &&
              (old(pos) + |blanks| == |body| || !IsSpace(body[old(pos) + |blanks|]))
              ==> pos == old(pos) + |blanks|
    {
      ghost var start := pos;
      while pos < |body|
        invariant start <= pos <= |body|
        invariant forall k :: start <= k < pos ==> IsSpace(body[k])
      {
        var c := body[pos];
        if c == ' ' || c == '\t' || c == '\r' || c == '\n' {
          pos := pos + 1;
          continue;
        }
        break;
      }
      if Slice(body, start, blanks) && Spaces(blanks) {
        assert forall k :: start <= k < start + |blanks| ==> body[k] == blanks[k - start];
      }
    }

    method Consume(ch: char) returns (ok: bool)
      requires pos <= |body|
      modifies this`pos
      ensures ok == (old(pos) < |body| && body[old(pos)] == ch)
      ensures pos == if ok then old(pos) + 1 else old(pos)
      ensures pos <= |body|
    {
      if pos >= |body| || body[pos] != ch {
        return false;
      }
      pos := pos + 1;
      return true;
    }

    method AddEdit(start: int, end: int)
      requires 0 <= start
      modifies this`edits
      ensures edits == old(edits) + EditIf(start, end)
    {
      if start < end {
        edits := edits + [Edit(start, end)];
      }
    }

    /** Reads a string literal: from its opening quote past the first quote that is not escaped. */
    method ParseString(ghost literal: Bytes) returns (ok: bool, start: nat, end: nat)
      requires pos <= |body|
      modifies this`pos
      ensures ok ==> start == old(pos) < end == pos <= |body|
      ensures IsLiteral(literal) && Slice(body, old(pos), literal) ==> ok && end == old(pos) + |literal|
    {
      start, end := 0, 0;
      if pos >= |body| || body[pos] != '"' {
        return false, 0, 0;
      }
      start := pos;
      ghost var known := IsLiteral(literal) && Slice(body, pos, literal);
      pos := pos + 1;
      while pos < |body|
        invariant start < pos
        invariant known ==> pos < start + |literal| <= |body| && Closes(literal[pos - start..])
        decreases |body| + 1 - pos
      {
        var c := body[pos];
        assert known ==> c == literal[pos - start..][0] by {
          if known {
            assert c == body[start..start + |literal|][pos - start];
          }
        }
        if c == '\\' {
          assert known ==> literal[pos - start..][2..] == literal[pos + 2 - start..];
          pos := pos + 2;
          continue;
        }
        assert known && c != '"' ==> literal[pos - start..][1..] == literal[pos + 1 - start..];
        if c == '"' {
          pos := pos + 1;
          return true, start, pos;
        }
        pos := pos + 1;
      }
      return false, 0, 0;
    }

    /** Reads one value after blanks; appends the edits of its members when collect is set. */
    method ParseValue(collect: bool, ghost lead: Bytes, ghost v: Value) returns (ok: bool)
      requires pos <= |body|
      modifies this
      ensures ok ==> old(pos) < pos <= |body|
      ensures Reads(body, old(pos), lead, v) ==>
                ok && pos == old(pos) + |lead| + |Print(v)| &&
                edits == old(edits) + When(collect, Edits(v, old(pos) + |lead|))
      decreases |body| - pos, 1
    {
      ghost var known := Reads(body, pos, lead, v);
      if known {
        ReadsHead(body, pos, lead, v);
        PrintHead(v);
      }
      hide Slice, WellFormed, Print, AtEnd;
      Skip(lead);
      if pos >= |body| {
        return false;
      }
      var c := body[pos];
      if c == '{' {
        ok := ParseObject(collect, v);
        return;
      }
      if c == '[' {
        ok := ParseArray(collect, v);
        return;
      }
      if c == '"' {
        LiteralReads(body, pos, v);
        var s, e;
        ok, s, e := ParseString(Print(v));
        return;
      }
      ok := ParseBare(v);
    }

    /** The token branch of parseValue: up to a byte that ends it. */
    method ParseBare(ghost v: Value) returns (ok: bool)
      requires pos < |body|
      modifies this`pos
      ensures ok ==> old(pos) < pos <= |body|
      ensures Reads(body, old(pos), [], v) && v.Bare? ==> ok && pos == old(pos) + |Print(v)|
    {
      var start := pos;
      ghost var known := Reads(body, pos, [], v) && v.Bare?;
      if known {
        BareScan(body, pos, v);
      }
      while pos < |body|
        invariant start <= pos <= |body|
        invariant known ==> pos <= start + |v.token|
        invariant start < |body|
      {
        var ch := body[pos];
        if ch == ',' || ch == '}' || ch == ']' || ch == ' ' || ch == '\t' || ch == '\r' || ch == '\n' {
          return pos != start;
        }
        pos := pos + 1;
      }
      return true;
    }

    method ParseArray(collect: bool, ghost v: Value) returns (ok: bool)
      requires pos < |body|
      modifies this
      ensures ok ==> old(pos) < pos <= |body|
      ensures Reads(body, old(pos), [], v) && (v.Array? || v.EmptyArray?) ==>
                ok && pos == old(pos) + |Print(v)| &&
                edits == old(edits) + When(collect, Edits(v, old(pos)))
      decreases |body| - pos, 0
    {
      hide Slice, Reads, Print, Edits, ReadsItems, ItemEdits, PrintItems, When, Spaces;
      if Reads(body, pos, [], v) && (v.Array? || v.EmptyArray?) {
        ArrayOpens(body, pos, v);
      }
      ghost var items := if v.Array? then v.items else LastItem(v, []);
      ghost var blanks := if v.EmptyArray? then v.inner else if v.Array? then v.lead else [];
      pos := pos + 1;
      Skip(blanks);
      var closed := Consume(']');
      if closed {
        WhenEmpty(collect, edits);
        return true;
      }
      ok := ParseItems(collect, items);
    }

    /** The loop of parseArray: values and commas up to the closing bracket. */
    method ParseItems(collect: bool, ghost all: Items) returns (ok: bool)
      requires pos <= |body|
      modifies this
      ensures ok ==> old(pos) < pos <= |body|
      ensures ReadsItems(body, old(pos), [], all) ==>
                ok && pos == old(pos) + |PrintItems(all)| + 1 &&
                edits == old(edits) + When(collect, ItemEdits(all, old(pos)))
      decreases |body| - pos, 2
    {
      hide Slice, WellFormed, Print, AtEnd, Edits, ReadsItems, ItemEdits, PrintItems, Reads, When;
      ghost var start := pos;
      ghost var known := ReadsItems(body, pos, [], all);
      ghost var end := pos + |PrintItems(all)|;
      ghost var goal := edits + When(collect, ItemEdits(all, pos));
      ghost var lead: Bytes := [];
      ghost var items := all;
      while true
        invariant start <= pos <= |body|
        invariant known ==> ItemsLeft(body, pos, lead, items, end, collect, edits, goal)
        decreases |body| - pos
      {
        if known {
          ItemTurn(body, pos, lead, items, end, collect, edits, goal);
        }
        hide ItemsLeft;
        ok := ParseValue(collect, lead, items.v);
        if !ok {
          return;
        }
        Skip(items.after);
        var comma := Consume(',');
        if comma {
          if items.MoreItems? {
            lead, items := items.lead, items.rest;
          }
          continue;
        }
        ok := Consume(']');
        return;
      }
    }

    method ParseObject(collect: bool, ghost v: Value) returns (ok: bool)
      requires pos < |body|
      modifies this
      ensures ok ==> old(pos) < pos <= |body|
      ensures Reads(body, old(pos), [], v) && (v.Object? || v.EmptyObject?) ==>
                ok && pos == old(pos) + |Print(v)| &&
                edits == old(edits) + When(collect, Edits(v, old(pos)))
      decreases |body| - pos, 0
    {
      hide Slice, Reads, Print, Edits, ReadsMembers, ObjectEdits, PrintMembers, When, Spaces;
      if Reads(body, pos, [], v) && (v.Object? || v.EmptyObject?) {
        ObjectOpens(body, pos, v);
      }
      ghost var members := if v.Object? then v.members else LastMember(Member([], [], [], v), []);
      ghost var blanks := if v.EmptyObject? then v.inner else if v.Object? then v.lead else [];
      pos := pos + 1;
      Skip(blanks);
      var closed := Consume('}');
      if closed {
        WhenEmpty(collect, edits);
        return true;
      }
      ok := ParseMembers(collect, members);
    }

    /** The loop of parseObject: members and commas up to the closing brace, then the excluded runs. */
    method ParseMembers(collect: bool, ghost all: Members) returns (ok: bool)
      requires pos <= |body|
      modifies this
      ensures ok ==> old(pos) < pos <= |body|
      ensures ReadsMembers(body, old(pos), [], all) ==>
                ok && pos == old(pos) + |PrintMembers(all)| + 1 &&
                edits == old(edits) + When(collect, ObjectEdits(all, old(pos)))
      decreases |body| - pos, 3
    {
      hide Slice, ReadsMembers, ReadsMember, PrintMembers, PrintMember, MemberEdits, OneMemberEdits, RunEdits, Recs, When, Spaces, Excluded;
      ghost var start, before := pos, edits;
      ghost var known := ReadsMembers(body, pos, [], all);
      ghost var end := pos + |PrintMembers(all)|;
      ghost var goal := edits + When(collect, MemberEdits(all, pos));
      ghost var goalRecs := Recs(all, pos, -1);
      ghost var lead: Bytes := [];
      ghost var ms := all;
      var members: seq<Rec> := [];
      var commaBefore := -1;
      while true
        invariant start <= pos <= |body|
        invariant members != [] ==> commaBefore >= 0
        invariant forall i :: 0 < i < |members| ==> members[i].commaBefore >= 0
        invariant known ==> MembersLeft(body, pos, lead, ms, end, collect, edits, goal, members, goalRecs, commaBefore)
        decreases |body| - pos
      {
        if known {
          MemberTurn(body, pos, lead, ms, end, collect, edits, goal, members, goalRecs, commaBefore);
        }
        hide MembersLeft;
        Skip(lead);
        var memberStart := pos;
        var excluded;
        ok, excluded := ParseMember(collect, ms.m);
        if !ok {
          return;
        }
        var memberEnd := pos;
        Skip(ms.after);
        var commaAfter := -1;
        var comma := Consume(',');
        if comma {
          commaAfter := pos - 1;
        }
        members := members + [Rec(memberStart, memberEnd, commaBefore, commaAfter, excluded)];
        if commaAfter >= 0 {
          commaBefore := commaAfter;
          if ms.MoreMembers? {
            lead, ms := ms.lead, ms.rest;
          }
          continue;
        }
        ok := Consume('}');
        if !ok {
          return;
        }
        break;
      }
      WhenAppend(collect, before, MemberEdits(all, start), RunEdits(goalRecs, true));
      WhenTaken(RunEdits(goalRecs, true));
      WhenDropped(RunEdits(goalRecs, true));
      if collect {
        AddExcluded(members);
      }
    }

    /** One turn of that loop: the key, the colon and the value; "model" strings are recorded for erasure. */
    method ParseMember(collect: bool, ghost m: Member) returns (ok: bool, excludedKey: bool)
      requires pos <= |body|
      modifies this
      ensures ok ==> old(pos) < pos <= |body|
      ensures ReadsMember(body, old(pos), m) ==>
                ok && pos == old(pos) + |PrintMember(m)| && excludedKey == (collect && Excluded(m.key)) &&
                edits == old(edits) + When(collect, OneMemberEdits(m, old(pos)))
      decreases |body| - pos, 2
    {
      hide Slice, Reads, ReadsMember, PrintMember, Print, OneMemberEdits, Edits, When, Spaces, IsLiteral, Excluded, IsModel;
      if ReadsMember(body, pos, m) {
        MemberOpens(body, pos, m);
        MemberEditsCases(m, pos);
        LiteralReads(body, ValueAt(m, pos), m.v);
      }
      WhenTaken(OneMemberEdits(m, pos));
      WhenDropped(OneMemberEdits(m, pos));
      excludedKey := false;
      var keyStart, keyEnd;
      ok, keyStart, keyEnd := ParseString(m.key);
      if !ok {
        return;
      }
      Skip(m.beforeColon);
      ok := Consume(':');
      if !ok {
        return;
      }
      Skip(m.afterColon);
      var key := body[keyStart..keyEnd];
      excludedKey := collect && Excluded(key);
      if collect && key == MODEL && pos < |body| && body[pos] == '"' {
        var vs, ve;
        ok, vs, ve := ParseString(Print(m.v));
        if !ok {
          return;
        }
        AddEdit(vs + 1, ve - 1);
      } else {
        WhenTaken(Edits(m.v, pos));
        WhenDropped(Edits(m.v, pos));
        ok := ParseValue(collect && !excludedKey, [], m.v);
      }
    }

    /** Each maximal run of excluded members becomes one edit, with a comma of its surroundings. */
    method AddExcluded(members: seq<Rec>)
      requires forall i :: 0 < i < |members| ==> members[i].commaBefore >= 0
      modifies this`edits
      ensures edits == old(edits) + RunEdits(members, true)
    {
      ghost var goal := edits + RunEdits(members, true);
      var start := 0;
      assert members[0..] == members;
      while start < |members|
        invariant start <= |members|
        invariant edits + RunEdits(members[start..], start == 0) == goal
      {
        if !members[start].excluded {
          assert members[start..][1..] == members[start + 1..];
          start := start + 1;
          continue;
        }
        var end := start;
        while end + 1 < |members| && members[end + 1].excluded
          invariant start <= end < |members|
          invariant edits + InRun(members[end..], members[start], end - start + 1, start == 0) == goal
        {
          assert members[end..][1..] == members[end + 1..];
          end := end + 1;
        }
        assert end + 1 < |members| ==> members[end..][1..] == members[end + 1..];
        if end + 1 < |members| {
          AddEdit(members[start].start, members[end].commaAfter + 1);
        } else if start > 0 && end > start {
          AddEdit(members[start].start, members[end].end);
        } else if start > 0 {
          AddEdit(members[start].commaBefore, members[end].end);
        } else {
          AddEdit(members[start].start, members[end].end);
        }
        start := end + 1;
      }
    }
  }

  // ---------------------------------------------------------------------------------------------
  // normalize: scan, sort, splice
  // ---------------------------------------------------------------------------------------------

  predicate SortedByStart(es: seq<Edit>) {
    forall i, j :: 0 <= i < j < |es| ==> es[i].start <= es[j].start
  }

  lemma {:induction false} SwapKeeps(s: seq<Edit>, j: nat)
    requires 0 < j < |s|
    ensures multiset(s[j := s[j - 1]][j - 1 := s[j]]) == multiset(s)
  {
  }

  /** Sorted up to i, but for the edit at j, which is still moving to the left. */
  predicate Inserting(s: seq<Edit>, i: nat, j: nat)
    requires i < |s|
  {
    forall a, b :: 0 <= a < b <= i && b != j ==> s[a].start <= s[b].start
  }

  lemma {:induction false} SwapInserts(s: seq<Edit>, i: nat, j: nat)
    requires 0 < j <= i < |s| && Inserting(s, i, j) && s[j].start < s[j - 1].start
    ensures Inserting(s[j := s[j - 1]][j - 1 := s[j]], i, j - 1)
  {
  }

  lemma {:induction false} Inserted(s: seq<Edit>, i: nat, j: nat)
    requires j <= i < |s| && Inserting(s, i, j) && (j > 0 ==> s[j - 1].start <= s[j].start)
    ensures SortedByStart(s[..i + 1])
  {
    forall a | 0 <= a < j
      ensures s[a].start <= s[j].start
    {
      assert a == j - 1 || s[a].start <= s[j - 1].start;
    }
  }

  /** The insertion sort of normalize. */
  method SortByStart(es: seq<Edit>) returns (sorted: seq<Edit>)
    ensures multiset(sorted) == multiset(es)
    ensures SortedByStart(sorted)
  {
    sorted := es;
    var i := 1;
    while i < |sorted|
      invariant 1 <= i && |sorted| == |es| && multiset(sorted) == multiset(es)
      invariant i <= |sorted| ==> SortedByStart(sorted[..i])
      invariant i > |sorted| ==> |sorted| == 0
    {
      var j := i;
      assert forall a :: 0 <= a < i ==> sorted[..i][a] == sorted[a];
      hide SortedByStart;
      while j > 0 && sorted[j].start < sorted[j - 1].start
        invariant 0 <= j <= i < |sorted| == |es| && multiset(sorted) == multiset(es)
        invariant Inserting(sorted, i, j)
        decreases j
      {
        hide Inserting;
        SwapKeeps(sorted, j);
        SwapInserts(sorted, i, j);
        sorted := sorted[j := sorted[j - 1]][j - 1 := sorted[j]];
        j := j - 1;
      }
      Inserted(sorted, i, j);
      i := i + 1;
    }
    assert sorted[..|sorted|] == sorted;
  }

  lemma {:induction false} WithinStarts(es: seq<Edit>, lo: nat, hi: nat)
    requires Within(es, lo, hi)
    ensures forall i :: 0 <= i < |es| ==> lo <= es[i].start < es[i].end
    ensures forall i :: 0 < i < |es| ==> es[0].start < es[i].start
    decreases |es|
  {
    if es != [] {
      WithinStarts(es[1..], es[0].end, hi);
      assert forall i :: 0 < i < |es| ==> es[i] == es[1..][i - 1];
    }
  }

  /** Sorting a permutation of disjoint edits in text order puts them in text order. */
  lemma {:induction false} SortedPermutation(a: seq<Edit>, b: seq<Edit>, lo: nat, hi: nat)
    requires multiset(a) == multiset(b) && SortedByStart(a) && Within(b, lo, hi)
    ensures a == b
    decreases |b|
  {
    assert |a| == |multiset(a)| == |multiset(b)| == |b|;
    if b != [] {
      SameFirst(a, b, lo, hi);
      WithoutFirst(a);
      WithoutFirst(b);
      assert forall i :: 0 <= i < |a[1..]| ==> a[1..][i] == a[i + 1];
      SortedPermutation(a[1..], b[1..], b[0].end, hi);
    }
  }

  lemma {:induction false} WithoutFirst(s: seq<Edit>)
    requires s != []
    ensures s == [s[0]] + s[1..] && multiset(s[1..]) == multiset(s) - multiset{s[0]}
  {
    assert s == [s[0]] + s[1..];
  }

  lemma {:induction false} SameFirst(a: seq<Edit>, b: seq<Edit>, lo: nat, hi: nat)
    requires multiset(a) == multiset(b) && SortedByStart(a) && Within(b, lo, hi) && |a| == |b| > 0
    ensures a[0] == b[0]
  {
    WithinStarts(b, lo, hi);
    assert a[0] in multiset(a) && b[0] in multiset(b);
    var k :| 0 <= k < |b| && b[k] == a[0];
    var m :| 0 <= m < |a| && a[m] == b[0];
    assert a[0].start <= b[0].start && b[0].start <= b[k].start;
  }

  lemma {:induction false} SpliceEnds(body: Bytes)
    ensures forall lo: nat :: lo <= |body| ==> Within([], lo, |body|) && Cut(body, [], lo, |body|) == body[lo..]
  {
  }

  /** The splice loop of normalize: keeps what lies between the edits, and refuses overlapping ones. */
  method Splice(body: Bytes, edits: seq<Edit>) returns (r: Result)
    requires forall i :: 0 <= i < |edits| ==> edits[i].start < edits[i].end
    ensures Within(edits, 0, |body|) ==> r == Ok(Cut(body, edits, 0, |body|))
  {
    var out: Bytes := [];
    var last: nat := 0;
    var i := 0;
    ghost var known := Within(edits, 0, |body|);
    assert edits[0..] == edits;
    SpliceEnds(body);
    hide Within, Cut;
    while i < |edits|
      invariant i <= |edits| && last <= |body|
      invariant known ==> Within(edits[i..], last, |body|) && out + Cut(body, edits[i..], last, |body|) == Cut(body, edits, 0, |body|)
    {
      var e := edits[i];
      ghost var left := edits[i..];
      assert left[0] == e && left[1..] == edits[i + 1..];
      if known {
        WithinHead(left, last, |body|);
        CutUnfold(body, left, last, |body|);
        ConcatAssoc(out, body[last..e.start], Cut(body, left[1..], e.end, |body|));
      }
      if e.start < last || e.end > |body| {
        return Err;
      }
      out := out + body[last..e.start];
      last := e.end;
      i := i + 1;
    }
    assert edits[i..] == [];
    out := out + body[last..];
    return Ok(out);
  }

  lemma {:induction false} ReadsText(t: Text)
    requires WellFormedText(t)
    ensures Reads(PrintText(t), 0, t.lead, t.v)
    ensures Slice(PrintText(t), |t.lead| + |Print(t.v)|, t.after)
  {
    SliceSplit(PrintText(t), 0, t.lead + Print(t.v), t.after);
    if t.after != [] {
      SliceAt(PrintText(t), |t.lead| + |Print(t.v)|, t.after, 0);
    }
  }

  /** All the edits of a text, cut out in text order, leave the erased text. */
  lemma {:induction false} CutsText(t: Text)
    requires WellFormedText(t)
    ensures Cuts(PrintText(t), Holes(t.v, |t.lead|), 0, |PrintText(t)|, EraseText(t))
  {
    var body := PrintText(t);
    var es := Holes(t.v, |t.lead|);
    var end := |t.lead| + |Print(t.v)|;
    hide Cuts, Slice;
    SliceSplit(body, 0, t.lead + Print(t.v), t.after);
    SliceSplit(body, 0, t.lead, Print(t.v));
    CutsValue(body, t.v, |t.lead|);
    CutsAfter(body, t.lead, es, Erase(t.v), 0, end);
    CutsBefore(body, es, t.lead + Erase(t.v), t.after, 0, end);
  }

  lemma {:induction false} TextFacts(t: Text)
    requires WellFormedText(t)
    ensures var body := PrintText(t); var end := |t.lead| + |Print(t.v)|; var holes := Holes(t.v, |t.lead|);
            Reads(body, 0, t.lead, t.v) && Slice(body, end, t.after) && Spaces(t.after) && end + |t.after| == |body| &&
            multiset(When(true, Edits(t.v, |t.lead|))) == multiset(holes) &&
            Within(holes, 0, |body|) && Cut(body, holes, 0, |body|) == EraseText(t)
  {
    ReadsText(t);
    SameEdits(t.v, |t.lead|);
    CutsText(t);
  }

  /** Sorting and splicing: edits that are a permutation of the holes cut the holes out. */
  method CutOut(body: Bytes, edits: seq<Edit>, ghost holes: seq<Edit>) returns (r: Result)
    requires multiset(edits) == multiset(holes) && Within(holes, 0, |body|)
    ensures r == Ok(Cut(body, holes, 0, |body|))
  {
    var sorted := SortByStart(edits);
    SortedPermutation(sorted, holes, 0, |body|);
    WithinStarts(sorted, 0, |body|);
    r := Splice(body, sorted);
  }

  /**
   normalize on a body that json.Valid judged: an invalid one is refused; a valid one, with tree t, is never
   refused, and gives the text of t with the excluded members and the "model" contents erased.
   */
  method Normalize(body: Bytes, valid: bool, ghost t: Text) returns (r: Result)
    requires valid ==> WellFormedText(t) && PrintText(t) == body
    ensures r == if valid then Ok(EraseText(t)) else Err
  {
    if !valid {
      return Err;
    }
    TextFacts(t);
    hide Reads, Slice, Within, Cut, Edits, Holes, EraseText, PrintText, Print, Spaces, WellFormedText, When;
    var sc := new Scanner(body);
    var ok := sc.ParseValue(true, t.lead, t.v);
    if !ok {
      return Err;
    }
    sc.Skip(t.after);
    if sc.pos != |body| {
      return Err;
    }
    r := CutOut(body, sc.edits, Holes(t.v, |t.lead|));
  }

  // ---------------------------------------------------------------------------------------------
  // What the normal form forgets
  // ---------------------------------------------------------------------------------------------

  /** The same text up to the contents of "model" strings and to excluded members. */
  predicate Alike(a: Value, b: Value) {
    match (a, b)
    case (Array(lead, items), Array(lead', items')) => lead == lead' && AlikeItems(items, items')
    case (Object(lead, ms), Object(lead', ms')) => lead == lead' && AlikeMembers(ms, ms')
    case _ => a == b
  }

  predicate AlikeItems(a: Items, b: Items) {
    Alike(a.v, b.v) && a.after == b.after && a.MoreItems? == b.MoreItems? &&
    (a.MoreItems? ==> a.lead == b.lead && AlikeItems(a.rest, b.rest))
  }

  predicate AlikeMember(a: Member, b: Member) {
    if Excluded(a.key) then Excluded(b.key)
    else
      a.key == b.key && a.beforeColon == b.beforeColon && a.afterColon == b.afterColon &&
      if IsModel(a) then IsModel(b) else !IsModel(b) && Alike(a.v, b.v)
  }

  predicate AlikeMembers(a: Members, b: Members) {
    AlikeMember(a.m, b.m) && a.after == b.after && a.MoreMembers? == b.MoreMembers? &&
    (a.MoreMembers? ==> a.lead == b.lead && AlikeMembers(a.rest, b.rest))
  }

  lemma {:induction false} AlikeErase(a: Value, b: Value)
    requires Alike(a, b)
    ensures Erase(a) == Erase(b)
    decreases a, 1
  {
    if a.Array? {
      AlikeEraseItems(a.items, b.items);
    } else if a.Object? {
      AlikeEraseMembers(a.members, b.members);
    }
  }

  lemma {:induction false} AlikeEraseItems(a: Items, b: Items)
    requires AlikeItems(a, b)
    ensures EraseItems(a) == EraseItems(b)
    decreases a, 1
  {
    AlikeErase(a.v, b.v);
    if a.MoreItems? {
      AlikeEraseItems(a.rest, b.rest);
    }
  }

  /** A kept member, its key and colon untouched and its value or "model" contents erased. */
  lemma {:induction false} AlikeEraseMember(a: Member, b: Member)
    requires AlikeMember(a, b) && !Excluded(a.key)
    requires !IsModel(a) ==> Erase(a.v) == Erase(b.v)
    ensures EraseMember(a) == EraseMember(b)
  {
    hide Erase, Excluded, IsModel, Alike;
  }

  lemma {:induction false} AlikeLastMember(a: Members, b: Members)
    requires AlikeMembers(a, b) && a.LastMember?
    ensures b.LastMember? && EraseTail(a) == EraseTail(b) && EraseRun(a) == EraseRun(b)
  {
    hide AlikeMember;
    assert EraseTail(a) == [] && EraseTail(b) == [];
    assert EraseRun(a) == a.after && EraseRun(b) == b.after;
  }

  lemma {:induction false} AlikeMoreMembers(a: Members, b: Members)
    requires AlikeMembers(a, b) && a.MoreMembers? && Excluded(a.rest.m.key) == Excluded(b.rest.m.key)
    requires EraseFrom(a.rest) == EraseFrom(b.rest)
    requires Excluded(a.rest.m.key) ==> EraseRun(a.rest) == EraseRun(b.rest)
    ensures b.MoreMembers? && EraseTail(a) == EraseTail(b) && EraseRun(a) == EraseRun(b)
  {
    hide AlikeMember, Excluded, EraseFrom;
    assert a.rest.after == b.rest.after && a.rest.LastMember? == b.rest.LastMember?;
    assert EraseTail(a) == if a.rest.LastMember? && Excluded(a.rest.m.key) then a.rest.after else "," + a.lead + EraseFrom(a.rest);
    assert EraseTail(b) == if b.rest.LastMember? && Excluded(b.rest.m.key) then b.rest.after else "," + b.lead + EraseFrom(b.rest);
    assert EraseRun(a) == if Excluded(a.rest.m.key) then EraseRun(a.rest) else a.lead + EraseFrom(a.rest);
    assert EraseRun(b) == if Excluded(b.rest.m.key) then EraseRun(b.rest) else b.lead + EraseFrom(b.rest);
  }

  lemma {:induction false} AlikeHead(a: Members, b: Members)
    requires AlikeMembers(a, b)
    ensures Excluded(a.m.key) == Excluded(b.m.key) && a.after == b.after
    ensures a.MoreMembers? ==> b.MoreMembers? && AlikeMembers(a.rest, b.rest)
    ensures AlikeMember(a.m, b.m)
  {
    hide Excluded;
  }

  lemma {:induction false} AlikeEraseMembers(a: Members, b: Members)
    requires AlikeMembers(a, b)
    ensures EraseFrom(a) == EraseFrom(b) && EraseTail(a) == EraseTail(b)
    ensures Excluded(a.m.key) ==> EraseRun(a) == EraseRun(b)
    decreases a, 1
  {
    hide Excluded, IsModel, EraseMember, EraseTail, EraseRun, Erase, Alike;
    AlikeHead(a, b);
    if !Excluded(a.m.key) {
      if !IsModel(a.m) {
        AlikeErase(a.m.v, b.m.v);
      }
      AlikeEraseMember(a.m, b.m);
    }
    if a.MoreMembers? {
      AlikeHead(a.rest, b.rest);
      AlikeEraseMembers(a.rest, b.rest);
      AlikeMoreMembers(a, b);
    } else {
      AlikeLastMember(a, b);
    }
  }

  /** Two texts that differ only in erased values have one normal form. */
  lemma {:induction false} AlikeTextsNormaliseAlike(a: Text, b: Text)
    requires a.lead == b.lead && Alike(a.v, b.v) && a.after == b.after
    ensures EraseText(a) == EraseText(b)
  {
    AlikeErase(a.v, b.v);
  }
}
