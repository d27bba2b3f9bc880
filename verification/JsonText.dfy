/**
 JSON texts as concrete syntax trees: every blank, comma and colon of the text is in the tree
 (the grammar of sections 2 to 7 of RFC 8259). Bytes are shown as characters. Bare tokens and string
 bodies are looser than the RFC's numbers, literals and escapes, so every valid text has a tree.
 */
module JsonText {

  type Bytes = seq<char>

  datatype Value =
    | Bare(token: Bytes)
    | Str(literal: Bytes)
    | EmptyArray(inner: Bytes)
    | Array(lead: Bytes, items: Items)
    | EmptyObject(inner: Bytes)
    | Object(lead: Bytes, members: Members)

  datatype Items =
    | LastItem(v: Value, after: Bytes)
    | MoreItems(v: Value, after: Bytes, lead: Bytes, rest: Items)

  datatype Member = Member(key: Bytes, beforeColon: Bytes, afterColon: Bytes, v: Value)

  datatype Members =
    | LastMember(m: Member, after: Bytes)
    | MoreMembers(m: Member, after: Bytes, lead: Bytes, rest: Members)

  datatype Text = Text(lead: Bytes, v: Value, after: Bytes)

  predicate IsSpace(c: char) {
    c == ' ' || c == '\t' || c == '\r' || c == '\n'
  }

  predicate Spaces(s: Bytes) {
    forall i :: 0 <= i < |s| ==> IsSpace(s[i])
  }

  /** The characters that end a bare token. */
  predicate EndsToken(c: char) {
    c == ',' || c == '}' || c == ']' || IsSpace(c)
  }

  predicate IsToken(s: Bytes) {
    && s != []
    && s[0] != '{' && s[0] != '[' && s[0] != '"'
    && forall i :: 0 <= i < |s| ==> !EndsToken(s[i])
  }

  /** s is the rest of a string literal, up to and including its closing quote. */
  predicate Closes(s: Bytes) {
    s != [] &&
    if s[0] == '"' then |s| == 1
    else if s[0] == '\\' then |s| >= 2 && Closes(s[2..])
    else Closes(s[1..])
  }

  predicate IsLiteral(s: Bytes) {
    s != [] && s[0] == '"' && Closes(s[1..])
  }

  predicate WellFormed(v: Value) {
    match v
    case Bare(token) => IsToken(token)
    case Str(literal) => IsLiteral(literal)
    case EmptyArray(inner) => Spaces(inner)
    case Array(lead, items) => Spaces(lead) && WellFormedItems(items)
    case EmptyObject(inner) => Spaces(inner)
    case Object(lead, members) => Spaces(lead) && WellFormedMembers(members)
  }

  predicate WellFormedItems(items: Items) {
    WellFormed(items.v) && Spaces(items.after) &&
    (items.MoreItems? ==> Spaces(items.lead) && WellFormedItems(items.rest))
  }

  predicate WellFormedMember(m: Member) {
    IsLiteral(m.key) && Spaces(m.beforeColon) && Spaces(m.afterColon) && WellFormed(m.v)
  }

  predicate WellFormedMembers(ms: Members) {
    WellFormedMember(ms.m) && Spaces(ms.after) &&
    (ms.MoreMembers? ==> Spaces(ms.lead) && WellFormedMembers(ms.rest))
  }

  predicate WellFormedText(t: Text) {
    Spaces(t.lead) && WellFormed(t.v) && Spaces(t.after)
  }

  function Print(v: Value): Bytes {
    match v
    case Bare(token) => token
    case Str(literal) => literal
    case EmptyArray(inner) => "[" + inner + "]"
    case Array(lead, items) => "[" + lead + PrintItems(items) + "]"
    case EmptyObject(inner) => "{" + inner + "}"
    case Object(lead, members) => "{" + lead + PrintMembers(members) + "}"
  }

  function PrintItems(items: Items): Bytes {
    match items
    case LastItem(v, after) => Print(v) + after
    case MoreItems(v, after, lead, rest) => Print(v) + after + "," + lead + PrintItems(rest)
  }

  function PrintMember(m: Member): Bytes {
    m.key + m.beforeColon + ":" + m.afterColon + Print(m.v)
  }

  function PrintMembers(ms: Members): Bytes {
    match ms
    case LastMember(m, after) => PrintMember(m) + after
    case MoreMembers(m, after, lead, rest) => PrintMember(m) + after + "," + lead + PrintMembers(rest)
  }

  function PrintText(t: Text): Bytes {
    t.lead + Print(t.v) + t.after
  }

  /** The first byte of a value is not blank and tells its kind. */
  lemma {:induction false} PrintHead(v: Value)
    requires WellFormed(v)
    ensures Print(v) != [] && !IsSpace(Print(v)[0])
    ensures Print(v)[0] == '{' <==> v.Object? || v.EmptyObject?
    ensures Print(v)[0] == '[' <==> v.Array? || v.EmptyArray?
    ensures Print(v)[0] == '"' <==> v.Str?
  {
    if v.Bare? {
      assert !EndsToken(v.token[0]);
    }
  }
}
