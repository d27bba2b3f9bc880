/**
 What the normal form of internal/provider/claude/cch.go is as a JSON text: the same tree without the members that are
 left out and with the contents of "model" strings gone, unless an object ends in more than one such member behind
 one that stays. Then a comma is left before the closing brace and it is no JSON text at all.
 */
module CchForm {
  import opened JsonText
  import opened Cch
  import opened Sequences

  // ---------------------------------------------------------------------------------------------
  // What stays
  // ---------------------------------------------------------------------------------------------

  const LEFT_OUT: set<Bytes> := {"\"max_tokens\"", "\"fallbacks\"", "\"fallback_credit_token\""}

  predicate Stays(m: Member) {
    m.key !in LEFT_OUT
  }

  predicate Blanked(m: Member) {
    m.key == "\"model\"" && m.v.Str?
  }

  lemma {:induction false} StaysIs(m: Member)
    ensures Stays(m) <==> !Excluded(m.key)
    ensures Blanked(m) <==> IsModel(m)
  {
  }

  /** Every member up to the end of the object is left out. */
  predicate NoneStay(ms: Members) {
    !Stays(ms.m) && (ms.MoreMembers? ==> NoneStay(ms.rest))
  }

  /** No object that is read ends in two or more members left out behind one that stays. */
  predicate Tidy(v: Value) {
    match v
    case Array(_, items) => TidyItems(items)
    case Object(_, ms) => TidyMembers(ms)
    case _ => true
  }

  predicate TidyItems(items: Items) {
    Tidy(items.v) && (items.MoreItems? ==> TidyItems(items.rest))
  }

  predicate TidyMembers(ms: Members) {
    && (Stays(ms.m) ==> TidyMember(ms.m))
    && (ms.MoreMembers? ==>
          TidyMembers(ms.rest) && (Stays(ms.m) && NoneStay(ms.rest) ==> ms.rest.LastMember?))
  }

  predicate TidyMember(m: Member) {
    Blanked(m) || Tidy(m.v)
  }

  // ---------------------------------------------------------------------------------------------
  // The tree of the normal form
  // ---------------------------------------------------------------------------------------------

  function Prune(v: Value): Value
    decreases v, 2
  {
    match v
    case Array(lead, items) => Array(lead, PruneItems(items))
    case Object(lead, ms) => PruneFrom(lead, ms)
    case _ => v
  }

  function PruneItems(items: Items): Items
    decreases items, 0
  {
    match items
    case LastItem(v, after) => LastItem(Prune(v), after)
    case MoreItems(v, after, lead, rest) => MoreItems(Prune(v), after, lead, PruneItems(rest))
  }

  function PruneMember(m: Member): Member
    decreases m, 0
  {
    Member(m.key, m.beforeColon, m.afterColon, if Blanked(m) then Str("\"\"") else Prune(m.v))
  }

  /** An object of the members that stay; blanks around those left out stay too. */
  function PruneFrom(lead: Bytes, ms: Members): Value
    decreases ms, 1
  {
    if Stays(ms.m) then Object(lead, PruneKept(ms))
    else
      match ms
      case LastMember(_, after) => EmptyObject(lead + after)
      case MoreMembers(_, _, more, rest) => PruneFrom(if Stays(rest.m) then lead + more else lead, rest)
  }

  /** From a member that stays. */
  function PruneKept(ms: Members): Members
    decreases ms, 0
  {
    match ms
    case LastMember(m, after) => LastMember(PruneMember(m), after)
    case MoreMembers(m, after, lead, rest) =>
      if NoneStay(rest) then LastMember(PruneMember(m), after + LastBlanks(rest))
      else PruneNext(PruneMember(m), after, lead, rest)
  }

  function LastBlanks(ms: Members): Bytes {
    if ms.LastMember? then ms.after else LastBlanks(ms.rest)
  }

  /** The member, and then the next that stays. */
  function PruneNext(m: Member, after: Bytes, lead: Bytes, ms: Members): Members
    requires !NoneStay(ms)
    decreases ms, 1
  {
    if Stays(ms.m) then MoreMembers(m, after, lead, PruneKept(ms))
    else PruneNext(m, after, if Stays(ms.rest.m) then lead + ms.lead else lead, ms.rest)
  }

  // Its text is the normal form.

  lemma {:induction false} PrunePrints(v: Value)
    requires Tidy(v)
    ensures Print(Prune(v)) == Erase(v)
    decreases v, 3
  {
    match v
    case Array(lead, items) => PruneItemsPrint(items);
    case Object(lead, ms) => PruneFromPrints(lead, ms);
    case _ =>
  }

  lemma {:induction false} PruneItemsPrint(items: Items)
    requires TidyItems(items)
    ensures PrintItems(PruneItems(items)) == EraseItems(items)
    decreases items, 3
  {
    hide Prune, Erase, Print;
    PrunePrints(items.v);
    if items.MoreItems? {
      PruneItemsPrint(items.rest);
    }
  }

  lemma {:induction false} PruneMemberPrints(m: Member)
    requires Stays(m) && TidyMember(m)
    ensures PrintMember(PruneMember(m)) == EraseMember(m)
    decreases m, 4
  {
    StaysIs(m);
    if !Blanked(m) {
      PrunePrints(m.v);
    }
  }

  lemma {:induction false} PruneFromPrints(lead: Bytes, ms: Members)
    requires TidyMembers(ms)
    ensures Print(PruneFrom(lead, ms)) == "{" + lead + EraseFrom(ms) + "}"
    decreases ms, 5
  {
    hide Excluded, EraseMember, PruneMember, PruneKept, PrintMembers, EraseTail;
    StaysIs(ms.m);
    if Stays(ms.m) {
      PruneKeptPrints(ms);
    } else if ms.MoreMembers? {
      StaysIs(ms.rest.m);
      if Stays(ms.rest.m) {
        PruneFromPrints(lead + ms.lead, ms.rest);
        assert lead + (ms.lead + EraseFrom(ms.rest)) == lead + ms.lead + EraseFrom(ms.rest);
      } else {
        PruneFromPrints(lead, ms.rest);
      }
    } else {
      assert "{" + (lead + ms.after) + "}" == "{" + lead + ms.after + "}";
    }
  }

  lemma {:induction false} PruneKeptPrints(ms: Members)
    requires Stays(ms.m) && TidyMembers(ms)
    ensures PrintMembers(PruneKept(ms)) == EraseMember(ms.m) + ms.after + EraseTail(ms)
    decreases ms, 4
  {
    hide Excluded, EraseMember, PruneMember, EraseFrom, PruneNext;
    PruneMemberPrints(ms.m);
    if ms.MoreMembers? {
      StaysIs(ms.rest.m);
      if NoneStay(ms.rest) {
        assert PruneKept(ms) == LastMember(PruneMember(ms.m), ms.after + ms.rest.after);
        assert EraseTail(ms) == ms.rest.after;
      } else {
        assert EraseTail(ms) == "," + ms.lead + EraseFrom(ms.rest);
        PruneNextPrints(PruneMember(ms.m), ms.after, ms.lead, ms.rest);
        assert EraseMember(ms.m) + ms.after + ("," + ms.lead + EraseFrom(ms.rest))
            == EraseMember(ms.m) + ms.after + "," + ms.lead + EraseFrom(ms.rest);
      }
    } else {
      assert EraseMember(ms.m) + ms.after + [] == EraseMember(ms.m) + ms.after;
    }
  }

  lemma {:induction false} PruneNextPrints(m: Member, after: Bytes, lead: Bytes, ms: Members)
    requires !NoneStay(ms) && TidyMembers(ms)
    ensures PrintMembers(PruneNext(m, after, lead, ms)) == PrintMember(m) + after + "," + lead + EraseFrom(ms)
    decreases ms, 5
  {
    hide Excluded, EraseMember, PruneKept, PrintMember, EraseTail;
    StaysIs(ms.m);
    if Stays(ms.m) {
      PruneKeptPrints(ms);
    } else {
      StaysIs(ms.rest.m);
      var front := PrintMember(m) + after + ",";
      if Stays(ms.rest.m) {
        PruneNextPrints(m, after, lead + ms.lead, ms.rest);
        assert front + (lead + ms.lead) + EraseFrom(ms.rest) == front + lead + (ms.lead + EraseFrom(ms.rest));
      } else {
        PruneNextPrints(m, after, lead, ms.rest);
      }
    }
  }

  // It is a tree, without what is left out.

  lemma {:induction false} SpacesAppend(a: Bytes, b: Bytes)
    requires Spaces(a) && Spaces(b)
    ensures Spaces(a + b)
  {
  }

  lemma {:induction false} PruneWellFormed(v: Value)
    requires WellFormed(v)
    ensures WellFormed(Prune(v))
    decreases v, 2
  {
    match v
    case Array(lead, items) => PruneItemsWellFormed(items);
    case Object(lead, ms) => PruneFromWellFormed(lead, ms);
    case _ =>
  }

  lemma {:induction false} PruneItemsWellFormed(items: Items)
    requires WellFormedItems(items)
    ensures WellFormedItems(PruneItems(items))
    decreases items, 0
  {
    hide Prune, WellFormed;
    PruneWellFormed(items.v);
    if items.MoreItems? {
      PruneItemsWellFormed(items.rest);
    }
  }

  lemma {:induction false} PruneMemberWellFormed(m: Member)
    requires WellFormedMember(m)
    ensures WellFormedMember(PruneMember(m))
    decreases m, 1
  {
    EmptyLiteral();
    if !Blanked(m) {
      PruneWellFormed(m.v);
    }
  }

  lemma {:induction false} EmptyLiteral()
    ensures IsLiteral("\"\"")
  {
    assert "\"\""[1..] == "\"";
  }

  lemma {:induction false} PruneFromWellFormed(lead: Bytes, ms: Members)
    requires Spaces(lead) && WellFormedMembers(ms)
    ensures WellFormed(PruneFrom(lead, ms))
    decreases ms, 3
  {
    hide Spaces, Stays, PruneKept, WellFormedMember;
    if Stays(ms.m) {
      PruneKeptWellFormed(ms);
    } else if ms.MoreMembers? {
      SpacesAppend(lead, ms.lead);
      PruneFromWellFormed(if Stays(ms.rest.m) then lead + ms.lead else lead, ms.rest);
    } else {
      SpacesAppend(lead, ms.after);
    }
  }

  lemma {:induction false} LastBlanksAreSpaces(ms: Members)
    requires WellFormedMembers(ms)
    ensures Spaces(LastBlanks(ms))
    decreases ms
  {
    if ms.MoreMembers? {
      LastBlanksAreSpaces(ms.rest);
    }
  }

  lemma {:induction false} PruneKeptWellFormed(ms: Members)
    requires WellFormedMembers(ms)
    ensures WellFormedMembers(PruneKept(ms))
    decreases ms, 2
  {
    hide Spaces, NoneStay, PruneNext, WellFormedMember;
    PruneMemberWellFormed(ms.m);
    if ms.MoreMembers? {
      if NoneStay(ms.rest) {
        LastBlanksAreSpaces(ms.rest);
        SpacesAppend(ms.after, LastBlanks(ms.rest));
      } else {
        PruneNextWellFormed(PruneMember(ms.m), ms.after, ms.lead, ms.rest);
      }
    }
  }

  lemma {:induction false} PruneNextWellFormed(m: Member, after: Bytes, lead: Bytes, ms: Members)
    requires !NoneStay(ms) && WellFormedMember(m) && Spaces(after) && Spaces(lead) && WellFormedMembers(ms)
    ensures WellFormedMembers(PruneNext(m, after, lead, ms))
    decreases ms, 3
  {
    hide Spaces, Stays, PruneKept, WellFormedMember;
    if Stays(ms.m) {
      PruneKeptWellFormed(ms);
    } else {
      SpacesAppend(lead, ms.lead);
      PruneNextWellFormed(m, after, if Stays(ms.rest.m) then lead + ms.lead else lead, ms.rest);
    }
  }

  /** The members of an object in order. */
  function Fields(ms: Members): seq<Member> {
    [ms.m] + if ms.LastMember? then [] else Fields(ms.rest)
  }

  /** The members that stay, each pruned. */
  function Remaining(ms: Members): seq<Member> {
    (if Stays(ms.m) then [PruneMember(ms.m)] else []) + if ms.LastMember? then [] else Remaining(ms.rest)
  }

  lemma {:induction false} NoneRemain(ms: Members)
    ensures NoneStay(ms) <==> Remaining(ms) == []
    decreases ms
  {
    if ms.MoreMembers? {
      NoneRemain(ms.rest);
    }
  }

  lemma {:induction false} KeptRemain(ms: Members)
    requires Stays(ms.m)
    ensures Fields(PruneKept(ms)) == Remaining(ms)
    decreases ms, 0
  {
    hide PruneMember, Stays;
    if ms.MoreMembers? {
      NoneRemain(ms.rest);
      if !NoneStay(ms.rest) {
        NextRemain(PruneMember(ms.m), ms.after, ms.lead, ms.rest);
      }
    }
  }

  lemma {:induction false} NextRemain(m: Member, after: Bytes, lead: Bytes, ms: Members)
    requires !NoneStay(ms)
    ensures Fields(PruneNext(m, after, lead, ms)) == [m] + Remaining(ms)
    decreases ms, 1
  {
    hide PruneMember, PruneKept;
    if Stays(ms.m) {
      KeptRemain(ms);
    } else {
      NextRemain(m, after, if Stays(ms.rest.m) then lead + ms.lead else lead, ms.rest);
      assert [] + Remaining(ms.rest) == Remaining(ms.rest);
    }
  }

  /** An object keeps exactly the members that stay, in order, each with its own value pruned or its model string emptied. */
  lemma {:induction false} ObjectsKeepTheRest(lead: Bytes, ms: Members)
    ensures var v := Prune(Object(lead, ms));
            if NoneStay(ms) then v.EmptyObject? else v.Object? && Fields(v.members) == Remaining(ms)
    decreases ms
  {
    hide PruneMember, PruneKept;
    if Stays(ms.m) {
      KeptRemain(ms);
    } else if ms.MoreMembers? {
      ObjectsKeepTheRest(if Stays(ms.rest.m) then lead + ms.lead else lead, ms.rest);
      assert [] + Remaining(ms.rest) == Remaining(ms.rest);
    }
  }

  /** No member anywhere is one to leave out, and every model string is empty. */
  predicate Clear(v: Value) {
    match v
    case Array(_, items) => ClearItems(items)
    case Object(_, ms) => ClearMembers(ms)
    case _ => true
  }

  predicate ClearItems(items: Items) {
    Clear(items.v) && (items.MoreItems? ==> ClearItems(items.rest))
  }

  predicate ClearMember(m: Member) {
    Stays(m) && if Blanked(m) then m.v.literal == "\"\"" else Clear(m.v)
  }

  predicate ClearMembers(ms: Members) {
    ClearMember(ms.m) && (ms.MoreMembers? ==> ClearMembers(ms.rest))
  }

  lemma {:induction false} PruneClears(v: Value)
    ensures Clear(Prune(v))
    decreases v, 2
  {
    match v
    case Array(lead, items) => PruneItemsClear(items);
    case Object(lead, ms) => PruneFromClears(lead, ms);
    case _ =>
  }

  lemma {:induction false} PruneItemsClear(items: Items)
    ensures ClearItems(PruneItems(items))
    decreases items, 0
  {
    hide Prune, Clear;
    PruneClears(items.v);
    if items.MoreItems? {
      PruneItemsClear(items.rest);
    }
  }

  lemma {:induction false} PruneMemberClears(m: Member)
    requires Stays(m)
    ensures ClearMember(PruneMember(m))
    decreases m, 1
  {
    if !Blanked(m) {
      PruneClears(m.v);
      PruneKeepsKind(m.v);
    }
  }

  lemma {:induction false} PruneKeepsKind(v: Value)
    ensures Prune(v).Str? <==> v.Str?
  {
    if v.Object? {
      ObjectsKeepTheRest(v.lead, v.members);
    }
  }

  lemma {:induction false} PruneFromClears(lead: Bytes, ms: Members)
    ensures Clear(PruneFrom(lead, ms))
    decreases ms, 3
  {
    hide Stays, PruneKept, ClearMembers;
    if Stays(ms.m) {
      PruneKeptClears(ms);
    } else if ms.MoreMembers? {
      PruneFromClears(if Stays(ms.rest.m) then lead + ms.lead else lead, ms.rest);
    }
  }

  lemma {:induction false} PruneKeptClears(ms: Members)
    requires Stays(ms.m)
    ensures ClearMembers(PruneKept(ms))
    decreases ms, 2
  {
    hide NoneStay, PruneNext, PruneMember, ClearMember;
    PruneMemberClears(ms.m);
    if ms.MoreMembers? && !NoneStay(ms.rest) {
      PruneNextClears(PruneMember(ms.m), ms.after, ms.lead, ms.rest);
    }
  }

  lemma {:induction false} PruneNextClears(m: Member, after: Bytes, lead: Bytes, ms: Members)
    requires !NoneStay(ms) && ClearMember(m)
    ensures ClearMembers(PruneNext(m, after, lead, ms))
    decreases ms, 3
  {
    hide Stays, PruneKept, ClearMember;
    if Stays(ms.m) {
      PruneKeptClears(ms);
    } else {
      PruneNextClears(m, after, if Stays(ms.rest.m) then lead + ms.lead else lead, ms.rest);
    }
  }

  lemma {:induction false} ClearIsTidy(v: Value)
    requires Clear(v)
    ensures Tidy(v) && Erase(v) == Print(v)
    decreases v, 2
  {
    match v
    case Array(lead, items) => ClearItemsTidy(items);
    case Object(lead, ms) => ClearMembersTidy(ms);
    case _ =>
  }

  lemma {:induction false} ClearItemsTidy(items: Items)
    requires ClearItems(items)
    ensures TidyItems(items) && EraseItems(items) == PrintItems(items)
    decreases items, 1
  {
    hide Erase, Print, Clear, Tidy;
    ClearIsTidy(items.v);
    if items.MoreItems? {
      ClearItemsTidy(items.rest);
    }
  }

  lemma {:induction false} ClearMemberTidy(m: Member)
    requires ClearMember(m)
    ensures TidyMember(m) && EraseMember(m) == PrintMember(m)
    decreases m, 1
  {
    StaysIs(m);
    if !Blanked(m) {
      ClearIsTidy(m.v);
    }
  }

  lemma {:induction false} ClearMembersTidy(ms: Members)
    requires ClearMembers(ms)
    ensures TidyMembers(ms) && !NoneStay(ms) && EraseFrom(ms) == PrintMembers(ms)
    decreases ms, 3
  {
    hide EraseMember, PrintMember, Excluded, Stays, TidyMember;
    assert Stays(ms.m) by {
      assert ClearMember(ms.m);
    }
    ClearMemberTidy(ms.m);
    StaysIs(ms.m);
    if ms.MoreMembers? {
      ClearMembersTidy(ms.rest);
      StaysIs(ms.rest.m);
      assert ClearMember(ms.rest.m);
      assert EraseMember(ms.m) + ms.after + ("," + ms.lead + EraseFrom(ms.rest))
          == EraseMember(ms.m) + ms.after + "," + ms.lead + EraseFrom(ms.rest);
    } else {
      assert EraseMember(ms.m) + ms.after + [] == EraseMember(ms.m) + ms.after;
    }
  }

  /** The normal form of a text whose objects are tidy: a text of the pruned tree, and its own normal form. */
  lemma {:induction false} NormalFormIsPruned(t: Text)
    requires WellFormedText(t) && Tidy(t.v)
    ensures var u := Text(t.lead, Prune(t.v), t.after);
            WellFormedText(u) && Clear(u.v) && PrintText(u) == EraseText(t) && EraseText(u) == EraseText(t)
  {
    hide Prune, Erase, Print, WellFormed, Clear, Tidy;
    PruneWellFormed(t.v);
    PrunePrints(t.v);
    PruneClears(t.v);
    ClearIsTidy(Prune(t.v));
  }

  // ---------------------------------------------------------------------------------------------
  // A comma before a closing brace
  // ---------------------------------------------------------------------------------------------

  /** Where a reader stands in a text: inside a string, behind a backslash, behind a comma; and whether a brace came there. */
  datatype Lex = Lex(quoted: bool, escaped: bool, comma: bool, bad: bool)

  const START := Lex(false, false, false, false)

  predicate Outside(l: Lex) {
    !l.quoted && !l.escaped
  }

  function Next(l: Lex, c: char): Lex {
    if l.quoted then
      if l.escaped then l.(escaped := false)
      else if c == '\\' then l.(escaped := true)
      else if c == '"' then l.(quoted := false)
      else l
    else if c == '"' then l.(quoted := true, comma := false)
    else if c == ',' then l.(comma := true)
    else if IsSpace(c) then l
    else if c == '}' then l.(comma := false, bad := l.bad || l.comma)
    else l.(comma := false)
  }

  function Lexed(l: Lex, s: Bytes): Lex
    decreases |s|
  {
    if s == [] then l else Lexed(Next(l, s[0]), s[1..])
  }

  lemma {:induction false} LexAppend(l: Lex, a: Bytes, b: Bytes)
    ensures Lexed(l, a + b) == Lexed(Lexed(l, a), b)
    decreases |a|
  {
    hide Next;
    if a == [] {
      assert a + b == b;
    } else {
      assert (a + b)[0] == a[0] && (a + b)[1..] == a[1..] + b;
      LexAppend(Next(l, a[0]), a[1..], b);
    }
  }

  lemma {:induction false} LexOne(l: Lex, c: char)
    ensures Lexed(l, [c]) == Next(l, c)
  {
    assert [c][1..] == [];
  }

  lemma {:induction false} LexSpaces(l: Lex, s: Bytes)
    requires Outside(l) && Spaces(s)
    ensures Lexed(l, s) == l
    decreases |s|
  {
    if s != [] {
      LexSpaces(l, s[1..]);
    }
  }

  /** A comma between blanks. */
  lemma {:induction false} LexComma(l: Lex, after: Bytes, lead: Bytes)
    requires Outside(l) && Spaces(after) && Spaces(lead)
    ensures Lexed(l, after + "," + lead) == l.(comma := true)
  {
    LexAppend(l, after + ",", lead);
    LexAppend(l, after, ",");
    LexSpaces(l, after);
    LexOne(l, ',');
    LexSpaces(l.(comma := true), lead);
  }

  lemma {:induction false} LexCloses(l: Lex, s: Bytes)
    requires l.quoted && !l.escaped && Closes(s)
    ensures Lexed(l, s) == l.(quoted := false)
    decreases |s|
  {
    if s[0] == '"' {
      assert s == ['"'];
      LexOne(l, '"');
    } else if s[0] == '\\' {
      assert s[1..][1..] == s[2..];
      LexCloses(l, s[2..]);
    } else {
      LexCloses(l, s[1..]);
    }
  }

  lemma {:induction false} LexLiteral(l: Lex, s: Bytes)
    requires Outside(l) && IsLiteral(s)
    ensures Lexed(l, s) == l.(comma := false)
  {
    LexCloses(l.(quoted := true, comma := false), s[1..]);
  }

  predicate Unquoted(s: Bytes) {
    forall i :: 0 <= i < |s| ==> s[i] != '"'
  }

  lemma {:induction false} LexToken(l: Lex, s: Bytes)
    requires Outside(l) && Unquoted(s) && forall i :: 0 <= i < |s| ==> !EndsToken(s[i])
    ensures Lexed(l, s) == if s == [] then l else l.(comma := false)
    decreases |s|
  {
    if s != [] {
      assert s[0] != '"';
      LexToken(l.(comma := false), s[1..]);
    }
  }

  /** No quote stands inside a number or a word, as in every JSON text. */
  predicate Strict(v: Value) {
    match v
    case Bare(token) => Unquoted(token)
    case Array(_, items) => StrictItems(items)
    case Object(_, ms) => StrictMembers(ms)
    case _ => true
  }

  predicate StrictItems(items: Items) {
    Strict(items.v) && (items.MoreItems? ==> StrictItems(items.rest))
  }

  predicate StrictMembers(ms: Members) {
    Strict(ms.m.v) && (ms.MoreMembers? ==> StrictMembers(ms.rest))
  }

  /** A bracket, what stands in it, and the closing bracket; a brace is bad behind a comma. */
  lemma {:induction false} LexBrackets(l: Lex, open: char, inner: Bytes, close: char)
    requires Outside(l) && (open == '{' || open == '[') && (close == '}' || close == ']')
    requires Outside(Lexed(l.(comma := false), inner))
    ensures var inside := Lexed(l.(comma := false), inner);
            Lexed(l, [open] + inner + [close]) == inside.(comma := false, bad := inside.bad || (close == '}' && inside.comma))
  {
    LexAppend(l, [open] + inner, [close]);
    LexAppend(l, [open], inner);
    LexOne(l, open);
    LexOne(Lexed(l.(comma := false), inner), close);
  }

  // Printed trees have none.

  lemma {:induction false} LexPrint(l: Lex, v: Value)
    requires Outside(l) && WellFormed(v) && Strict(v)
    ensures Lexed(l, Print(v)) == l.(comma := false)
    decreases v, 2
  {
    hide Lexed;
    var l' := l.(comma := false);
    match v
    case Bare(token) => LexToken(l, token);
    case Str(literal) => LexLiteral(l, literal);
    case EmptyArray(inner) =>
      LexSpaces(l', inner);
      LexBrackets(l, '[', inner, ']');
    case EmptyObject(inner) =>
      LexSpaces(l', inner);
      LexBrackets(l, '{', inner, '}');
    case Array(lead, items) =>
      LexSpaces(l', lead);
      LexPrintItems(l', items);
      LexAppend(l', lead, PrintItems(items));
      LexBrackets(l, '[', lead + PrintItems(items), ']');
      assert "[" + lead + PrintItems(items) + "]" == "[" + (lead + PrintItems(items)) + "]";
    case Object(lead, ms) =>
      LexSpaces(l', lead);
      LexPrintMembers(l', ms);
      LexAppend(l', lead, PrintMembers(ms));
      LexBrackets(l, '{', lead + PrintMembers(ms), '}');
      assert "{" + lead + PrintMembers(ms) + "}" == "{" + (lead + PrintMembers(ms)) + "}";
  }

  lemma {:induction false} LexPrintItems(l: Lex, items: Items)
    requires Outside(l) && WellFormedItems(items) && StrictItems(items)
    ensures Lexed(l, PrintItems(items)) == l.(comma := false)
    decreases items, 1
  {
    hide Lexed, Print, WellFormed, Strict;
    var l', text := l.(comma := false), Print(items.v);
    LexPrint(l, items.v);
    match items
    case LastItem(v, after) =>
      LexAppend(l, text, after);
      LexSpaces(l', after);
    case MoreItems(v, after, lead, rest) =>
      LexComma(l', after, lead);
      LexPrintItems(l'.(comma := true), rest);
      LexAppend(l', after + "," + lead, PrintItems(rest));
      LexAppend(l, text, after + "," + lead + PrintItems(rest));
      assert text + after + "," + lead + PrintItems(rest) == text + (after + "," + lead + PrintItems(rest));
  }

  /** A key with its colon, and then a value that the reader leaves with its commas forgotten. */
  lemma {:induction false} LexMember(l: Lex, m: Member, text: Bytes)
    requires Outside(l) && IsLiteral(m.key) && Spaces(m.beforeColon) && Spaces(m.afterColon)
    ensures Lexed(l, m.key + m.beforeColon + ":" + m.afterColon + text) == Lexed(l.(comma := false), text)
  {
    hide Lexed, Next;
    var l' := l.(comma := false);
    LexAppend(l, m.key + m.beforeColon + ":" + m.afterColon, text);
    LexAppend(l, m.key + m.beforeColon + ":", m.afterColon);
    LexAppend(l, m.key + m.beforeColon, ":");
    LexAppend(l, m.key, m.beforeColon);
    LexLiteral(l, m.key);
    LexSpaces(l', m.beforeColon);
    LexColon(l');
    LexSpaces(l', m.afterColon);
  }

  lemma {:induction false} LexColon(l: Lex)
    requires Outside(l) && !l.comma
    ensures Lexed(l, ":") == l
  {
    LexOne(l, ':');
  }

  lemma {:induction false} LexPrintMembers(l: Lex, ms: Members)
    requires Outside(l) && WellFormedMembers(ms) && StrictMembers(ms)
    ensures Lexed(l, PrintMembers(ms)) == l.(comma := false)
    decreases ms, 3
  {
    hide Lexed, Print, WellFormed, Strict;
    var l', text := l.(comma := false), PrintMember(ms.m);
    LexPrint(l', ms.m.v);
    LexMember(l, ms.m, Print(ms.m.v));
    match ms
    case LastMember(m, after) =>
      LexAppend(l, text, after);
      LexSpaces(l', after);
    case MoreMembers(m, after, lead, rest) =>
      LexComma(l', after, lead);
      LexPrintMembers(l'.(comma := true), rest);
      LexAppend(l', after + "," + lead, PrintMembers(rest));
      LexAppend(l, text, after + "," + lead + PrintMembers(rest));
      assert text + after + "," + lead + PrintMembers(rest) == text + (after + "," + lead + PrintMembers(rest));
  }

  // Normal forms have one exactly when an object is untidy.

  /** The values of the members that stay are tidy. */
  predicate InnerTidy(ms: Members) {
    (Stays(ms.m) ==> TidyMember(ms.m)) && (ms.MoreMembers? ==> InnerTidy(ms.rest))
  }

  /** The last member that stays has more than one behind it. */
  predicate Dangles(ms: Members) {
    ms.MoreMembers? && if Stays(ms.m) && NoneStay(ms.rest) then ms.rest.MoreMembers? else Dangles(ms.rest)
  }

  lemma {:induction false} TidySplit(ms: Members)
    ensures TidyMembers(ms) <==> InnerTidy(ms) && !Dangles(ms)
    ensures NoneStay(ms) ==> !Dangles(ms)
    decreases ms
  {
    hide TidyMember, Stays;
    if ms.MoreMembers? {
      TidySplit(ms.rest);
    }
  }

  lemma {:induction false} LexErase(l: Lex, v: Value)
    requires Outside(l) && WellFormed(v) && Strict(v)
    ensures Lexed(l, Erase(v)) == l.(comma := false, bad := l.bad || !Tidy(v))
    decreases v, 4
  {
    hide Lexed;
    var l' := l.(comma := false);
    match v
    case Array(lead, items) =>
      LexSpaces(l', lead);
      LexEraseItems(l', items);
      LexAppend(l', lead, EraseItems(items));
      LexBrackets(l, '[', lead + EraseItems(items), ']');
      assert "[" + lead + EraseItems(items) + "]" == "[" + (lead + EraseItems(items)) + "]";
    case Object(lead, ms) =>
      LexSpaces(l', lead);
      LexEraseFrom(l', ms);
      LexAppend(l', lead, EraseFrom(ms));
      LexBrackets(l, '{', lead + EraseFrom(ms), '}');
      assert "{" + lead + EraseFrom(ms) + "}" == "{" + (lead + EraseFrom(ms)) + "}";
      TidySplit(ms);
    case _ => LexPrint(l, v);
  }

  lemma {:induction false} LexEraseItems(l: Lex, items: Items)
    requires Outside(l) && WellFormedItems(items) && StrictItems(items)
    ensures Lexed(l, EraseItems(items)) == l.(comma := false, bad := l.bad || !TidyItems(items))
    decreases items, 3
  {
    hide Lexed, Erase, WellFormed, Strict, Tidy;
    var l', text := l.(comma := false, bad := l.bad || !Tidy(items.v)), Erase(items.v);
    LexErase(l, items.v);
    match items
    case LastItem(v, after) =>
      LexAppend(l, text, after);
      LexSpaces(l', after);
    case MoreItems(v, after, lead, rest) =>
      LexComma(l', after, lead);
      LexEraseItems(l'.(comma := true), rest);
      LexAppend(l', after + "," + lead, EraseItems(rest));
      LexAppend(l, text, after + "," + lead + EraseItems(rest));
      assert text + after + "," + lead + EraseItems(rest) == text + (after + "," + lead + EraseItems(rest));
  }

  lemma {:induction false} LexEraseMember(l: Lex, m: Member)
    requires Outside(l) && WellFormedMember(m) && Strict(m.v)
    ensures Lexed(l, EraseMember(m)) == l.(comma := false, bad := l.bad || !TidyMember(m))
    decreases m, 5
  {
    hide Lexed, Erase, WellFormed, Strict, Tidy;
    StaysIs(m);
    LexMember(l, m, if IsModel(m) then "\"\"" else Erase(m.v));
    if IsModel(m) {
      EmptyLiteral();
      LexLiteral(l.(comma := false), "\"\"");
    } else {
      LexErase(l.(comma := false), m.v);
    }
  }

  /** A comma seen before the members is still seen after them if none stays; else the last that stays may leave one. */
  lemma {:induction false} LexEraseFrom(l: Lex, ms: Members)
    requires Outside(l) && WellFormedMembers(ms) && StrictMembers(ms)
    ensures Lexed(l, EraseFrom(ms)) ==
            l.(comma := if NoneStay(ms) then l.comma else Dangles(ms), bad := l.bad || !InnerTidy(ms))
    decreases ms, 6
  {
    hide Lexed, EraseMember, WellFormedMember, Strict, TidyMember, Excluded;
    StaysIs(ms.m);
    if Stays(ms.m) {
      LexEraseKept(l, ms);
    } else {
      match ms
      case LastMember(m, after) => LexSpaces(l, after);
      case MoreMembers(m, after, lead, rest) =>
        StaysIs(rest.m);
        LexEraseFrom(l, rest);
        if Stays(rest.m) {
          LexSpaces(l, lead);
          LexAppend(l, lead, EraseFrom(rest));
        }
    }
  }

  lemma {:induction false} LexEraseKept(l: Lex, ms: Members)
    requires Outside(l) && WellFormedMembers(ms) && StrictMembers(ms) && Stays(ms.m)
    ensures Lexed(l, EraseFrom(ms)) == l.(comma := Dangles(ms), bad := l.bad || !InnerTidy(ms))
    decreases ms, 5
  {
    hide Lexed, EraseMember, WellFormedMember, Strict, TidyMember, Excluded;
    StaysIs(ms.m);
    var text, l' := EraseMember(ms.m), l.(comma := false, bad := l.bad || !TidyMember(ms.m));
    LexEraseMember(l, ms.m);
    match ms
    case LastMember(m, after) =>
      LexSpaces(l', after);
      LexAppend(l, text, after);
      assert text + after + [] == text + after;
    case MoreMembers(m, after, lead, rest) =>
      StaysIs(rest.m);
      if rest.LastMember? && !Stays(rest.m) {
        LexSpaces(l', after);
        LexSpaces(l', rest.after);
        LexAppend(l, text, after);
        LexAppend(l, text + after, rest.after);
      } else {
        LexComma(l', after, lead);
        LexEraseFrom(l'.(comma := true), rest);
        LexAppend(l', after + "," + lead, EraseFrom(rest));
        LexAppend(l, text, after + "," + lead + EraseFrom(rest));
        assert text + after + ("," + lead + EraseFrom(rest)) == text + (after + "," + lead + EraseFrom(rest));
      }
  }

  lemma {:induction false} LexText(lead: Bytes, text: Bytes, after: Bytes)
    requires Spaces(lead) && Spaces(after) && Outside(Lexed(START, text))
    ensures Lexed(START, lead + text + after) == Lexed(START, text)
  {
    hide Lexed;
    LexAppend(START, lead + text, after);
    LexAppend(START, lead, text);
    LexSpaces(START, lead);
    LexSpaces(Lexed(START, text), after);
  }

  lemma {:induction false} PruneStaysStrict(v: Value)
    requires Strict(v)
    ensures Strict(Prune(v))
    decreases v, 2
  {
    match v
    case Array(lead, items) => PruneItemsStrict(items);
    case Object(lead, ms) => PruneFromStrict(lead, ms);
    case _ =>
  }

  lemma {:induction false} PruneItemsStrict(items: Items)
    requires StrictItems(items)
    ensures StrictItems(PruneItems(items))
    decreases items, 0
  {
    hide Prune, Strict;
    PruneStaysStrict(items.v);
    if items.MoreItems? {
      PruneItemsStrict(items.rest);
    }
  }

  lemma {:induction false} PruneMemberStrict(m: Member)
    requires Strict(m.v)
    ensures Strict(PruneMember(m).v)
    decreases m, 1
  {
    if !Blanked(m) {
      PruneStaysStrict(m.v);
    }
  }

  lemma {:induction false} PruneFromStrict(lead: Bytes, ms: Members)
    requires StrictMembers(ms)
    ensures Strict(PruneFrom(lead, ms))
    decreases ms, 3
  {
    hide Stays, PruneKept;
    if Stays(ms.m) {
      PruneKeptStrict(ms);
    } else if ms.MoreMembers? {
      PruneFromStrict(if Stays(ms.rest.m) then lead + ms.lead else lead, ms.rest);
    }
  }

  lemma {:induction false} PruneKeptStrict(ms: Members)
    requires StrictMembers(ms)
    ensures StrictMembers(PruneKept(ms))
    decreases ms, 2
  {
    hide NoneStay, PruneNext, PruneMember, Strict;
    PruneMemberStrict(ms.m);
    if ms.MoreMembers? && !NoneStay(ms.rest) {
      PruneNextStrict(PruneMember(ms.m), ms.after, ms.lead, ms.rest);
    }
  }

  lemma {:induction false} PruneNextStrict(m: Member, after: Bytes, lead: Bytes, ms: Members)
    requires !NoneStay(ms) && Strict(m.v) && StrictMembers(ms)
    ensures StrictMembers(PruneNext(m, after, lead, ms))
    decreases ms, 3
  {
    hide Stays, PruneKept, Strict;
    if Stays(ms.m) {
      PruneKeptStrict(ms);
    } else {
      PruneNextStrict(m, after, if Stays(ms.rest.m) then lead + ms.lead else lead, ms.rest);
    }
  }

  /** The text is that of a tree. */
  ghost predicate IsText(body: Bytes) {
    exists u: Text :: WellFormedText(u) && Strict(u.v) && PrintText(u) == body
  }

  /**
   The normal form of a JSON text is a JSON text exactly when no object in it ends in two or more members left out behind
   one that stays; otherwise a comma is left before a closing brace.
   */
  lemma {:induction false} NormalFormIsText(t: Text)
    requires WellFormedText(t) && Strict(t.v)
    ensures IsText(EraseText(t)) <==> Tidy(t.v)
    ensures Lexed(START, EraseText(t)).bad <==> !Tidy(t.v)
  {
    hide Prune, Erase, Print, WellFormed, Strict, Tidy, Lexed;
    LexErase(START, t.v);
    LexText(t.lead, Erase(t.v), t.after);
    if Tidy(t.v) {
      NormalFormIsPruned(t);
      PruneStaysStrict(t.v);
      var u := Text(t.lead, Prune(t.v), t.after);
      assert WellFormedText(u) && Strict(u.v) && PrintText(u) == EraseText(t);
    }
    if IsText(EraseText(t)) {
      var u: Text :| WellFormedText(u) && Strict(u.v) && PrintText(u) == EraseText(t);
      LexPrint(START, u.v);
      LexText(u.lead, Print(u.v), u.after);
    }
  }

  lemma {:induction false} NoneStayErase(ms: Members)
    requires NoneStay(ms)
    ensures EraseFrom(ms) == LastBlanks(ms)
    decreases ms
  {
    StaysIs(ms.m);
    if ms.MoreMembers? {
      StaysIs(ms.rest.m);
      hide Excluded;
      NoneStayErase(ms.rest);
    }
  }

  /** Such an object: behind its last member that stays there is a comma, blanks and the closing brace. */
  lemma {:induction false} CommaBeforeBrace(lead: Bytes, m: Member, after: Bytes, more: Bytes, rest: Members)
    requires Stays(m) && NoneStay(rest) && rest.MoreMembers?
    ensures Erase(Object(lead, MoreMembers(m, after, more, rest)))
            == "{" + lead + (EraseMember(m) + after + ("," + more + LastBlanks(rest))) + "}"
  {
    var ms := MoreMembers(m, after, more, rest);
    StaysIs(m);
    NoneStayErase(rest);
    hide Excluded, EraseMember;
    assert EraseTail(ms) == "," + more + EraseFrom(rest);
    assert EraseFrom(ms) == EraseMember(m) + after + EraseTail(ms);
  }
}
