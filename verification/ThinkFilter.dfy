/**
 The incremental tag lexer of internal/provider/cursor/think.go: text between thinking tags is
 reasoning, the rest is content, and a tag may arrive split over several pieces.
 Text is a sequence of ASCII characters.
 */
module ThinkFilter {
  import opened Sequences
  import opened Strings

  const MAX_TAG := 16
  const NAMES: set<string> := {"think", "thinking", "reasoning", "thought", "think_intent"}

  predicate IsBlank(c: char) {
    c == ' ' || c == '\t' || c == '\n' || c == '\r' || c as int == 12
  }

  predicate IsTagLetter(c: char) {
    'a' <= Lower(c) <= 'z' || c == '_'
  }

  function DropBlanks(s: string): (r: string)
    ensures r <= s
    ensures forall i :: |r| <= i < |s| ==> IsBlank(s[i])
  {
    if s != [] && IsBlank(s[|s| - 1]) then DropBlanks(s[..|s| - 1]) else s
  }

  /** The text between '<' or '</' and '>'. */
  function TagBody(t: string): string
    requires |t| >= 2
  {
    if t[1] == '/' then t[2..][..if |t| == 2 then 0 else |t| - 3] else t[1..|t| - 1]
  }

  /** t is one whole tag: '<', an optional '/', a tag name in any case, blanks, '>'. */
  predicate IsTag(t: string) {
    |t| >= 3 && t[0] == '<' && t[|t| - 1] == '>' && LowerAll(DropBlanks(TagBody(t))) in NAMES
  }

  function FirstClose(s: string): (k: nat)
    ensures k <= |s|
    ensures k < |s| ==> s[k] == '>'
    ensures forall i :: 0 <= i < k ==> s[i] != '>'
  {
    if s == [] || s[0] == '>' then 0 else 1 + FirstClose(s[1..])
  }

  /** The length of the tag that begins s, or 0. */
  function TagLen(s: string): (n: nat)
    ensures n <= |s|
  {
    var k := FirstClose(s);
    if k < |s| && IsTag(s[..k + 1]) then k + 1 else 0
  }

  predicate Closing(s: string) {
    |s| > 1 && s[1] == '/'
  }

  /** What a piece of text contributed, and the mode it left the filter in. */
  datatype Split = Split(content: string, reasoning: string, inThinking: bool)

  function Put(text: string, inThinking: bool): Split {
    if inThinking then Split([], text, true) else Split(text, [], false)
  }

  function Join(a: Split, b: Split): Split {
    Split(a.content + b.content, a.reasoning + b.reasoning, b.inThinking)
  }

  /** The reference reading of a whole text: remove tags, route every other character by the last tag. */
  function Scan(s: string, inThinking: bool): Split
    decreases |s|
  {
    if s == [] then Put([], inThinking)
    else if TagLen(s) > 0 then Scan(s[TagLen(s)..], !Closing(s))
    else Join(Put(s[..1], inThinking), Scan(s[1..], inThinking))
  }

  /** The index of the last '<', or |s|. */
  function LastOpen(s: string): (k: nat)
    ensures k <= |s|
    ensures k < |s| ==> s[k] == '<'
    ensures forall i :: k < i < |s| ==> s[i] != '<'
    ensures k == |s| ==> forall i :: 0 <= i < |s| ==> s[i] != '<'
  {
    if s == [] then 0
    else if s[|s| - 1] == '<' then |s| - 1
    else
      var k := LastOpen(s[..|s| - 1]);
      if k == |s| - 1 then |s| else k
  }

  /** '<', an optional '/', then tag letters to the end. */
  predicate IsPartial(t: string) {
    |t| >= 1 && t[0] == '<' &&
    forall i :: 1 <= i < |t| ==> IsTagLetter(t[i]) || (i == 1 && t[i] == '/')
  }

  /** Where the suffix that is kept back begins. */
  function Hold(s: string): (k: nat)
    ensures k <= |s|
    ensures k < |s| ==> s[k] == '<' && IsPartial(s[k..])
  {
    var lt := LastOpen(s);
    if lt < |s| && |s| - lt < MAX_TAG && IsPartial(s[lt..]) then lt else |s|
  }

  /** The start of the leftmost tag at or after from, or |s|. */
  function NextTag(s: string, from: nat): (i: nat)
    requires from <= |s|
    ensures from <= i <= |s|
    ensures i < |s| ==> TagLen(s[i..]) > 0
    ensures forall j :: from <= j < i ==> TagLen(s[j..]) == 0
    decreases |s| - from
  {
    if from == |s| || TagLen(s[from..]) > 0 then from else NextTag(s, from + 1)
  }

  lemma {:induction false} HoldCases(s: string)
    ensures var lt := LastOpen(s);
            Hold(s) == if lt < |s| && |s| - lt < MAX_TAG && IsPartial(s[lt..]) then lt else |s|
  {
  }

  lemma {:induction false} IsTagShape(t: string)
    requires IsTag(t)
    ensures forall i :: 0 < i < |t| ==> t[i] != '<'
    ensures forall i :: 0 <= i < |t| - 1 ==> t[i] != '>'
  {
    var body := TagBody(t);
    var name := DropBlanks(body);
    NameLetters(name);
    var skip := if t[1] == '/' then 2 else 1;
    assert t[1] == '/' ==> |t| > 3;
    assert body == t[skip..|t| - 1];
    forall i | 0 < i < |t| - 1
      ensures t[i] != '<' && t[i] != '>'
    {
      if i >= skip {
        assert t[i] == body[i - skip];
      }
    }
  }

  predicate PlainName(s: string) {
    forall i :: 0 <= i < |s| ==> 'a' <= s[i] <= 'z' || s[i] == '_'
  }

  lemma {:induction false} ShortNamesArePlain()
    ensures PlainName("think") && PlainName("thinking") && PlainName("reasoning") && PlainName("thought")
  {
  }

  lemma {:induction false} LongNameIsPlain()
    ensures PlainName("think_intent")
  {
  }

  lemma {:induction false} NamesArePlain(name: string)
    requires name in NAMES
    ensures PlainName(name) && 5 <= |name| <= 12
  {
    hide PlainName;
    ShortNamesArePlain();
    LongNameIsPlain();
  }

  lemma {:induction false} NameLetters(name: string)
    requires LowerAll(name) in NAMES
    ensures 5 <= |name| <= 12
    ensures forall i :: 0 <= i < |name| ==> IsTagLetter(name[i])
  {
    hide LowerAll;
    NamesArePlain(LowerAll(name));
    forall i | 0 <= i < |name|
      ensures IsTagLetter(name[i])
    {
      assert LowerAll(name)[i] == Lower(name[i]);
    }
  }

  lemma {:induction false} FirstCloseUnique(s: string, k: nat)
    requires k <= |s|
    requires k < |s| ==> s[k] == '>'
    requires forall i :: 0 <= i < k ==> s[i] != '>'
    ensures FirstClose(s) == k
  {
  }

  /** A tag at the front of s, however much text follows it. */
  lemma {:induction false} TagLenPrefix(s: string, n: nat)
    requires n <= |s|
    ensures TagLen(s) <= n ==> TagLen(s[..n]) == TagLen(s)
    ensures TagLen(s[..n]) > 0 ==> TagLen(s) == TagLen(s[..n])
  {
    var k := FirstClose(s);
    if k < n {
      FirstCloseUnique(s[..n], k);
      assert s[..n][..k + 1] == s[..k + 1];
    } else {
      FirstCloseUnique(s[..n], n);
    }
  }

  lemma {:induction false} TagLenShape(s: string)
    ensures TagLen(s) > 0 ==> s[0] == '<' && s[TagLen(s) - 1] == '>'
    ensures forall i :: 0 < i < TagLen(s) ==> s[i] != '<'
    ensures forall i :: 0 <= i < TagLen(s) - 1 ==> s[i] != '>'
  {
    if TagLen(s) > 0 {
      IsTagShape(s[..TagLen(s)]);
    }
  }

  /** No tag of s lies across position n. */
  ghost predicate CutsNoTag(s: string, n: nat)
    requires n <= |s|
  {
    forall i :: 0 <= i < n ==> i + TagLen(s[i..]) <= n
  }

  lemma {:induction false} JoinAssoc(a: Split, b: Split, c: Split)
    ensures Join(a, Join(b, c)) == Join(Join(a, b), c)
  {
    assert a.content + (b.content + c.content) == (a.content + b.content) + c.content;
    assert a.reasoning + (b.reasoning + c.reasoning) == (a.reasoning + b.reasoning) + c.reasoning;
  }

  lemma {:induction false} JoinEmpty(t: bool, b: Split)
    ensures Join(Put([], t), b) == b
    ensures b.inThinking == t ==> Join(b, Put([], t)) == b
  {
  }

  /** How much of s one step of Scan reads, and the mode after it. */
  function StepLen(s: string): (n: nat)
    requires s != []
    ensures 0 < n <= |s|
  {
    if TagLen(s) > 0 then TagLen(s) else 1
  }

  function StepOut(s: string, t: bool): Split
    requires s != []
  {
    if TagLen(s) > 0 then Put([], !Closing(s)) else Put(s[..1], t)
  }

  lemma {:induction false} ScanStep(s: string, t: bool)
    requires s != []
    ensures Scan(s, t) == Join(StepOut(s, t), Scan(s[StepLen(s)..], StepOut(s, t).inThinking))
  {
    JoinEmpty(!Closing(s), Scan(s[StepLen(s)..], !Closing(s)));
  }

  lemma {:induction false} StepOfPrefix(s: string, n: nat, t: bool)
    requires 0 < n <= |s| && TagLen(s) <= n
    ensures StepLen(s[..n]) == StepLen(s) <= n
    ensures StepOut(s[..n], t) == StepOut(s, t)
  {
    TagLenPrefix(s, n);
    assert s[..n][..1] == s[..1];
    if TagLen(s) > 0 {
      TagLenShape(s);
      assert Closing(s[..n]) == Closing(s);
    }
  }

  lemma {:induction false} JoinPut(a: Split, text: string)
    ensures Join(a, Put(text, a.inThinking)) ==
            if a.inThinking then Split(a.content, a.reasoning + text, true)
            else Split(a.content + text, a.reasoning, false)
  {
  }

  /** Reading a text in two halves is reading it whole, when the cut is not inside a tag. */
  lemma {:induction false} ScanSplit(s: string, n: nat, t: bool)
    requires n <= |s|
    requires CutsNoTag(s, n)
    ensures Scan(s, t) == Join(Scan(s[..n], t), Scan(s[n..], Scan(s[..n], t).inThinking))
    decreases n
  {
    hide TagLen;
    if n == 0 {
      assert s[n..] == s;
      JoinEmpty(t, Scan(s, t));
    } else {
      assert s[0..] == s;
      StepOfPrefix(s, n, t);
      var k := StepLen(s);
      var out := StepOut(s, t);
      CutsNoTagInRest(s, n, k);
      ScanSplit(s[k..], n - k, out.inThinking);
      assert s[..n][k..] == s[k..][..n - k];
      assert s[k..][n - k..] == s[n..];
      ScanStep(s, t);
      ScanStep(s[..n], t);
      var mid := Scan(s[k..][..n - k], out.inThinking);
      JoinAssoc(out, mid, Scan(s[n..], mid.inThinking));
    }
  }

  lemma {:induction false} CutsNoTagInRest(s: string, n: nat, k: nat)
    requires k <= n <= |s| && CutsNoTag(s, n)
    ensures CutsNoTag(s[k..], n - k)
  {
    forall i | 0 <= i < n - k
      ensures i + TagLen(s[k..][i..]) <= n - k
    {
      assert s[k..][i..] == s[k + i..];
    }
  }

  /** Text without tags goes to one channel unchanged. */
  lemma {:induction false} ScanPlain(s: string, t: bool)
    requires forall i :: 0 <= i < |s| ==> TagLen(s[i..]) == 0
    ensures Scan(s, t) == Put(s, t)
    decreases |s|
  {
    if s != [] {
      assert s[0..] == s;
      forall i | 0 <= i < |s[1..]|
        ensures TagLen(s[1..][i..]) == 0
      {
        assert s[1..][i..] == s[1 + i..];
      }
      ScanPlain(s[1..], t);
      assert s[..1] + s[1..] == s;
    }
  }

  lemma {:induction false} PartialHasNoTag(s: string)
    requires IsPartial(s)
    ensures forall i :: 0 <= i < |s| ==> TagLen(s[i..]) == 0
  {
    forall i | 0 <= i < |s|
      ensures TagLen(s[i..]) == 0
    {
      var w := s[i..];
      assert forall j :: 0 <= j < |s| ==> s[j] != '>';
      assert forall j :: 0 <= j < |w| ==> w[j] == s[i + j];
      FirstCloseUnique(w, |w|);
    }
  }

  /** The filter between calls. */
  datatype State = State(buffer: string, inThinking: bool)

  /** One Process call on values: what it emits, and the state it leaves. */
  function Step(f: State, text: string): (r: (Split, State)) {
    var input := f.buffer + text;
    var out := Scan(input[..Hold(input)], f.inThinking);
    (out, State(input[Hold(input)..], out.inThinking))
  }

  lemma {:induction false} StepOnInput(f: State, text: string)
    ensures Step(f, text) == Step(State([], f.inThinking), f.buffer + text)
  {
    assert [] + (f.buffer + text) == f.buffer + text;
  }

  class ThinkingFilter {
    var buffer: string
    var inThinking: bool

    constructor ()
      ensures buffer == [] && !inThinking
    {
      buffer := [];
      inThinking := false;
    }

    /**
     Emits the reading of everything up to the held-back suffix, which becomes the buffer.
     */
    method Process(text: string) returns (content: string, reasoning: string)
      modifies this
      ensures (Split(content, reasoning, inThinking), State(buffer, inThinking))
              == Step(State(old(buffer), old(inThinking)), text)
    {
      hide TagLen, IsPartial, LastOpen, NextTag, Scan, Hold, Step, Closing, Join;
      var input := buffer + text;
      ghost var start := inThinking;
      content, reasoning := [], [];
      var last := 0;
      var tag := NextTag(input, last);
      assert input[0..] == input;
      ghost var emitted := Put([], start);
      StepOnInput(State(buffer, start), text);
      buffer := [];
      JoinEmpty(start, Scan(input, start));
      while tag < |input|
        invariant buffer == []
        invariant last <= |input| && tag == NextTag(input, last)
        invariant last > 0 ==> input[last - 1] == '>'
        invariant emitted == Split(content, reasoning, inThinking)
        invariant Join(emitted, Scan(input[last..], emitted.inThinking)) == Scan(input, start)
        decreases |input| - last
      {
        TagStep(input, last, emitted, start);
        JoinPut(emitted, input[last..tag]);
        emitted := Join(emitted, Put(input[last..tag], inThinking)).(inThinking := !Closing(input[tag..]));
        var before := input[last..tag];
        if inThinking {
          reasoning := reasoning + before;
        } else {
          content := content + before;
        }
        inThinking := !Closing(input[tag..]);
        last := tag + TagLen(input[tag..]);
        tag := NextTag(input, last);
      }
      var rest := input[last..];
      var lt := LastOpen(rest);
      FinalStep(input, last, emitted, start);
      JoinPut(emitted, rest);
      JoinPut(emitted, if lt < |rest| then rest[..lt] else rest);
      if lt < |rest| && |rest| - lt < MAX_TAG && IsPartial(rest[lt..]) {
        buffer := rest[lt..];
        var before := rest[..lt];
        if inThinking {
          reasoning := reasoning + before;
        } else {
          content := content + before;
        }
      } else if inThinking {
        reasoning := reasoning + rest;
      } else {
        content := content + rest;
      }
    }

    /** Emits whatever was held back in the current mode. */
    method Flush() returns (content: string, reasoning: string)
      modifies this
      ensures Split(content, reasoning, inThinking) == Put(old(buffer), old(inThinking))
      ensures buffer == [] && inThinking == old(inThinking)
    {
      var b := buffer;
      buffer := [];
      if b == [] {
        return [], [];
      }
      if inThinking {
        return [], b;
      }
      return b, [];
    }
  }

  /** One turn of the loop in Process: the text before the tag is emitted and the tag sets the mode. */
  lemma {:induction false} TagStep(s: string, last: nat, acc: Split, t0: bool)
    requires last <= |s| && NextTag(s, last) < |s|
    requires Join(acc, Scan(s[last..], acc.inThinking)) == Scan(s, t0)
    ensures var tag := NextTag(s, last);
            var next := tag + TagLen(s[tag..]);
            var emitted := Join(acc, Put(s[last..tag], acc.inThinking));
            var acc' := emitted.(inThinking := !Closing(s[tag..]));
            last < next <= |s| && s[next - 1] == '>' &&
            Join(acc', Scan(s[next..], acc'.inThinking)) == Scan(s, t0)
  {
    hide TagLen;
    var tag := NextTag(s, last);
    var t := acc.inThinking;
    NextSegment(s, last, tag, t);
    JoinAssoc(acc, Put(s[last..tag], t), Scan(s[tag..], t));
    TagLenShape(s[tag..]);
    var next := tag + TagLen(s[tag..]);
    assert s[tag..][TagLen(s[tag..])..] == s[next..];
    assert s[tag..][TagLen(s[tag..]) - 1] == s[next - 1];
  }

  /** The two ends of Process: with and without a held-back suffix. */
  lemma {:induction false} FinalStep(s: string, last: nat, acc: Split, t0: bool)
    requires last <= |s| && NextTag(s, last) == |s|
    requires last > 0 ==> s[last - 1] == '>'
    requires Join(acc, Scan(s[last..], acc.inThinking)) == Scan(s, t0)
    ensures var rest := s[last..];
            var lt := LastOpen(rest);
            var t := acc.inThinking;
            Step(State([], t0), s) ==
            if lt < |rest| && |rest| - lt < MAX_TAG && IsPartial(rest[lt..])
            then (Join(acc, Put(rest[..lt], t)), State(rest[lt..], t))
            else (Join(acc, Put(rest, t)), State([], t))
  {
    hide TagLen, IsPartial, LastOpen, NextTag, Scan, Hold, Join, Put;
    var rest := s[last..];
    RestStep(s, last, acc, t0);
    HoldCases(rest);
    StepAt(s, t0);
    assert rest[..|rest|] == rest && rest[|rest|..] == [];
    JoinKeepsMode(acc, rest[..Hold(rest)]);
  }

  lemma {:induction false} JoinKeepsMode(acc: Split, text: string)
    ensures Join(acc, Put(text, acc.inThinking)).inThinking == acc.inThinking
  {
  }

  lemma {:induction false} StepAt(s: string, t0: bool)
    ensures Step(State([], t0), s) == (Scan(s[..Hold(s)], t0), State(s[Hold(s)..], Scan(s[..Hold(s)], t0).inThinking))
  {
    hide Scan, Hold;
    assert [] + s == s;
  }

  /** After the last tag: what is emitted and what is held back. */
  lemma {:induction false} PutSplit(x: string, y: string, t: bool)
    ensures Put(x + y, t) == Join(Put(x, t), Put(y, t))
  {
    assert [] + [] == "";
  }

  lemma {:induction false} JoinPutMode(a: Split, text: string)
    ensures Join(a, Put(text, a.inThinking)).inThinking == a.inThinking
  {
  }

  lemma {:induction false} RestStep(s: string, last: nat, acc: Split, t0: bool)
    requires last <= |s| && NextTag(s, last) == |s|
    requires last > 0 ==> s[last - 1] == '>'
    requires Join(acc, Scan(s[last..], acc.inThinking)) == Scan(s, t0)
    ensures var rest := s[last..];
            var k := Hold(rest);
            s[Hold(s)..] == rest[k..] &&
            Scan(s[..Hold(s)], t0) == Join(acc, Put(rest[..k], acc.inThinking))
  {
    hide TagLen, IsPartial, NextTag, Scan, Hold, LastOpen, Join, Put, CutsNoTag;
    var rest, t := s[last..], acc.inThinking;
    var k := Hold(rest);
    HoldInRest(s, last);
    assert s[Hold(s)..] == rest[k..];
    PlainRest(s, last, t);
    PutSplit(rest[..k], rest[k..], t);
    assert rest == rest[..k] + rest[k..];
    var emitted, head := Join(acc, Put(rest[..k], t)), Scan(s[..Hold(s)], t0);
    JoinPutMode(acc, rest[..k]);
    JoinAssoc(acc, Put(rest[..k], t), Put(rest[k..], t));
    assert Scan(s, t0) == Join(emitted, Put(rest[k..], emitted.inThinking));
    HeldSplit(s, t0);
    assert Scan(s, t0) == Join(head, Put(rest[k..], head.inThinking));
    CancelHeld(emitted, head, rest[k..]);
  }

  lemma {:induction false} NextSegment(s: string, from: nat, tag: nat, t: bool)
    requires from <= tag < |s| && tag == NextTag(s, from)
    ensures Scan(s[from..], t) == Join(Put(s[from..tag], t), Scan(s[tag..], t))
  {
    hide TagLen;
    var w := s[from..];
    var n := tag - from;
    forall i | 0 <= i < n
      ensures TagLen(w[i..]) == 0
    {
      assert w[i..] == s[from + i..];
    }
    forall i | 0 <= i < |w[..n]|
      ensures TagLen(w[..n][i..]) == 0
    {
      assert w[..n][i..] == w[i..][..n - i];
      TagLenPrefix(w[i..], n - i);
    }
    ScanSplit(w, n, t);
    ScanPlain(w[..n], t);
    assert w[..n] == s[from..tag];
    assert w[n..] == s[tag..];
  }

  lemma {:induction false} PlainRest(s: string, from: nat, t: bool)
    requires from <= |s| && NextTag(s, from) == |s|
    ensures Scan(s[from..], t) == Put(s[from..], t)
  {
    forall i | 0 <= i < |s[from..]|
      ensures TagLen(s[from..][i..]) == 0
    {
      assert s[from..][i..] == s[from + i..];
    }
    ScanPlain(s[from..], t);
  }

  lemma {:induction false} LastOpenUnique(s: string, k: nat)
    requires k < |s| && s[k] == '<'
    requires forall i :: k < i < |s| ==> s[i] != '<'
    ensures LastOpen(s) == k
  {
  }

  lemma {:induction false} ClosedIsNoPartial(w: string, i: nat)
    requires i < |w| && w[i] == '>'
    ensures !IsPartial(w)
  {
  }

  /** Looking for the held suffix after the last tag finds the one of the whole input. */
  lemma {:induction false} HoldInRest(s: string, last: nat)
    requires last <= |s|
    requires last > 0 ==> s[last - 1] == '>'
    ensures last <= Hold(s) && Hold(s) == last + Hold(s[last..])
  {
    var rest := s[last..];
    var k := LastOpen(rest);
    if k < |rest| {
      LastOpenUnique(s, last + k);
      assert s[last + k..] == rest[k..];
    } else {
      var h := LastOpen(s);
      assert forall i :: last <= i < |s| ==> s[i] == rest[i - last] != '<';
      if h < |s| {
        assert h < last;
        ClosedIsNoPartial(s[h..], last - 1 - h);
      }
    }
  }

  /** The held suffix begins outside every tag, and reads as plain text. */
  lemma {:induction false} HeldSplit(s: string, t: bool)
    ensures var k := Hold(s); var head := Scan(s[..k], t);
            CutsNoTag(s, k) && Scan(s, t) == Join(head, Put(s[k..], head.inThinking))
  {
    var k := Hold(s);
    forall i | 0 <= i < k
      ensures i + TagLen(s[i..]) <= k
    {
      TagLenShape(s[i..]);
      if k < |s| {
        assert s[i..][k - i] == '<';
      }
    }
    ScanSplit(s, k, t);
    if k < |s| {
      PartialHasNoTag(s[k..]);
    }
    ScanPlain(s[k..], Scan(s[..k], t).inThinking);
  }

  lemma {:induction false} CancelHeld(a: Split, b: Split, held: string)
    requires Join(a, Put(held, a.inThinking)) == Join(b, Put(held, b.inThinking))
    ensures a == b
  {
    if a.inThinking {
      assert a.content == a.content + [] && b.content == b.content + [];
      assert |a.reasoning| == |b.reasoning|;
      assert (a.reasoning + held)[..|a.reasoning|] == a.reasoning;
      assert (b.reasoning + held)[..|b.reasoning|] == b.reasoning;
    } else {
      assert a.reasoning == a.reasoning + [] && b.reasoning == b.reasoning + [];
      assert |a.content| == |b.content|;
      assert (a.content + held)[..|a.content|] == a.content;
      assert (b.content + held)[..|b.content|] == b.content;
    }
  }

  /** Everything emitted by processing the pieces in order and flushing at the end. */
  function Run(f: State, pieces: seq<string>): Split
    decreases |pieces|
  {
    if pieces == [] then Put(f.buffer, f.inThinking)
    else
      var (out, next) := Step(f, pieces[0]);
      Join(out, Run(next, pieces[1..]))
  }

  /** A whole turn through the class, piece by piece: what the caller collects is Run. */
  method Collect(pieces: seq<string>) returns (content: string, reasoning: string)
    ensures content == Run(State([], false), pieces).content
    ensures reasoning == Run(State([], false), pieces).reasoning
  {
    hide Scan, Hold;
    var f := new ThinkingFilter();
    content, reasoning := [], [];
    ghost var whole := Run(State([], false), pieces);
    JoinEmpty(false, whole);
    assert pieces[0..] == pieces;
    for i := 0 to |pieces|
      invariant Join(Split(content, reasoning, f.inThinking), Run(State(f.buffer, f.inThinking), pieces[i..])) == whole
    {
      ghost var before := State(f.buffer, f.inThinking);
      ghost var acc := Split(content, reasoning, f.inThinking);
      var c, r := f.Process(pieces[i]);
      assert pieces[i..][1..] == pieces[i + 1..];
      ghost var out := Split(c, r, f.inThinking);
      JoinAssoc(acc, out, Run(State(f.buffer, f.inThinking), pieces[i + 1..]));
      content, reasoning := content + c, reasoning + r;
    }
    assert pieces[|pieces|..] == [];
    var c, r := f.Flush();
    content, reasoning := content + c, reasoning + r;
  }

  /** A tag with a blank before its '>' lies somewhere in s. */
  predicate HasBlankTag(s: string) {
    exists i :: 0 <= i < |s| && BlankTagAt(s[i..])
  }

  predicate BlankTagAt(s: string) {
    TagLen(s) >= 2 && IsBlank(s[TagLen(s) - 2])
  }

  /** A proper start of an unblanked tag is held back: it is partial, short, and holds the last '<'. */
  lemma {:induction false} TagStartIsHeld(t: string, n: nat)
    requires IsTag(t) && !IsBlank(t[|t| - 2])
    requires 0 < n < |t|
    ensures IsPartial(t[..n]) && n < MAX_TAG
  {
    hide LowerAll, NAMES;
    IsTagShape(t);
    var body := TagBody(t);
    NameLetters(DropBlanks(body));
    var skip := if t[1] == '/' then 2 else 1;
    assert |body| >= 5 && body == t[skip..|t| - 1];
    assert body[|body| - 1] == t[|t| - 2];
    assert DropBlanks(body) == body;
    forall i | 1 <= i < n
      ensures IsTagLetter(t[i]) || (i == 1 && t[i] == '/')
    {
      if i >= skip {
        assert t[i] == body[i - skip];
      }
    }
  }

  /** The first m characters of an unblanked tag look like the start of one, and only the first is '<'. */
  lemma {:induction false} TagStart(w: string, m: nat)
    requires 0 < m < TagLen(w) && !BlankTagAt(w)
    ensures IsPartial(w[..m]) && m < MAX_TAG && w[0] == '<' && forall j :: 0 < j < m ==> w[j] != '<'
  {
    hide TagLen, IsPartial;
    var n := TagLen(w);
    TagLenShape(w);
    TagLenIsTag(w);
    TagStartIsHeld(w[..n], m);
    assert w[..n][..m] == w[..m];
  }

  /** A tag that runs past the end of the input is the one held back. */
  lemma {:induction false} OverrunIsHeld(input: string, more: string, i: nat)
    requires i < |input| && !BlankTagAt((input + more)[i..])
    requires i + TagLen((input + more)[i..]) > |input|
    ensures Hold(input) == i
  {
    hide TagLen, IsPartial, BlankTagAt;
    var w := (input + more)[i..];
    var m := |input| - i;
    TagStart(w, m);
    assert w[..m] == input[i..];
    assert forall j :: i < j < |input| ==> input[j] == w[j - i];
    LastOpenUnique(input, i);
  }

  /** Whatever follows, the position where Process cuts is inside no unblanked tag. */
  lemma {:induction false} HoldCutsNoTag(input: string, more: string)
    requires !HasBlankTag(input + more)
    ensures CutsNoTag(input + more, Hold(input))
  {
    hide TagLen, IsPartial;
    var s := input + more;
    var k := Hold(input);
    forall i | 0 <= i < k
      ensures i + TagLen(s[i..]) <= k
    {
      var n := TagLen(s[i..]);
      TagLenShape(s[i..]);
      assert !BlankTagAt(s[i..]);
      if k < |input| {
        assert s[i..][k - i] == input[k];
      }
      assert i + n > |input| ==> k == i by {
        if i + n > |input| {
          OverrunIsHeld(input, more, i);
        }
      }
    }
  }

  lemma {:induction false} TagLenIsTag(s: string)
    ensures TagLen(s) > 0 ==> IsTag(s[..TagLen(s)])
  {
  }

  lemma {:induction false} NoBlankTagInRest(s: string, k: nat)
    requires k <= |s| && !HasBlankTag(s)
    ensures !HasBlankTag(s[k..])
  {
    hide BlankTagAt;
    forall i | 0 <= i < |s| - k
      ensures !BlankTagAt(s[k..][i..])
    {
      assert s[k..][i..] == s[k + i..];
    }
  }

  /** Any cutting of text without blanked tags is read as the whole text is. */
  lemma {:induction false} RunIsScan(f: State, pieces: seq<string>)
    requires !HasBlankTag(f.buffer + Flatten(pieces))
    requires f.buffer == [] || IsPartial(f.buffer)
    ensures Run(f, pieces) == Scan(f.buffer + Flatten(pieces), f.inThinking)
    decreases |pieces|
  {
    hide TagLen, Hold, HasBlankTag, IsPartial;
    if pieces == [] {
      assert f.buffer + Flatten(pieces) == f.buffer;
      if f.buffer != [] {
        PartialHasNoTag(f.buffer);
      }
      ScanPlain(f.buffer, f.inThinking);
    } else {
      var input := f.buffer + pieces[0];
      var more := Flatten(pieces[1..]);
      var s := f.buffer + Flatten(pieces);
      assert s == input + more;
      var k := Hold(input);
      HoldCutsNoTag(input, more);
      ScanSplit(s, k, f.inThinking);
      assert s[..k] == input[..k];
      var next := Step(f, pieces[0]).1;
      assert s[k..] == next.buffer + more;
      NoBlankTagInRest(s, k);
      RunIsScan(next, pieces[1..]);
    }
  }

  /** One call on the whole text, then a flush, reads it as Scan does, blanked tags included. */
  lemma {:induction false} WholeIsScan(t: bool, s: string)
    ensures Run(State([], t), [s]) == Scan(s, t)
  {
    hide TagLen, Hold, Scan;
    var f := State([], t);
    var next := Step(f, s).1;
    assert [] + s == s;
    assert [s][1..] == [];
    assert Run(next, [s][1..]) == Put(next.buffer, next.inThinking);
    HeldSplit(s, t);
  }

  function Size(a: Split): nat {
    |a.content| + |a.reasoning|
  }

  /** The mode decides where a character goes, not whether it is kept. */
  lemma {:induction false} SizeIgnoresMode(s: string, t: bool, u: bool)
    ensures Size(Scan(s, t)) == Size(Scan(s, u))
    decreases |s|
  {
    if s != [] {
      ScanStep(s, t);
      ScanStep(s, u);
      SizeIgnoresMode(s[StepLen(s)..], StepOut(s, t).inThinking, StepOut(s, u).inThinking);
    }
  }

  lemma {:induction false} TagAtCutsNoTag(s: string, i: nat)
    requires i < |s| && TagLen(s[i..]) > 0
    ensures CutsNoTag(s, i)
  {
    hide TagLen;
    TagLenShape(s[i..]);
    forall j | 0 <= j < i
      ensures j + TagLen(s[j..]) <= i
    {
      TagLenShape(s[j..]);
      assert s[j..][i - j] == s[i..][0];
    }
  }

  /** The start of a tag, read without its '>', is plain text. */
  lemma {:induction false} TagStartIsPlain(s: string, n: nat, t: bool)
    requires n < TagLen(s)
    ensures Scan(s[..n], t) == Put(s[..n], t)
  {
    hide TagLen;
    TagLenShape(s);
    forall j | 0 <= j < n
      ensures TagLen(s[..n][j..]) == 0
    {
      NoCloseNoTag(s[..n][j..]);
    }
    ScanPlain(s[..n], t);
  }

  lemma {:induction false} NoCloseNoTag(s: string)
    requires forall j :: 0 <= j < |s| ==> s[j] != '>'
    ensures TagLen(s) == 0
  {
    FirstCloseUnique(s, |s|);
  }

  /** Read in one go, a tag adds nothing; read in two, its characters come through as text. */
  lemma {:induction false} TagWhole(s: string, i: nat, t: bool)
    requires i < |s| && TagLen(s[i..]) > 0
    ensures Size(Scan(s, t)) == Size(Scan(s[..i], t)) + Size(Scan(s[i + TagLen(s[i..])..], t))
  {
    hide TagLen, Scan;
    var n := TagLen(s[i..]);
    TagAtCutsNoTag(s, i);
    ScanSplit(s, i, t);
    var u := Scan(s[..i], t).inThinking;
    ScanStep(s[i..], u);
    assert s[i..][n..] == s[i + n..];
    SizeIgnoresMode(s[i + n..], StepOut(s[i..], u).inThinking, t);
  }

  lemma {:induction false} TagBroken(s: string, i: nat, n: nat, t: bool)
    requires i < |s| && n == TagLen(s[i..]) > 0
    ensures var p := s[..i + n - 1]; var q := s[i + n - 1..];
            Size(Scan(p, t)) == Size(Scan(s[..i], t)) + n - 1 &&
            Size(Scan(q, t)) == 1 + Size(Scan(s[i + n..], t))
  {
    hide TagLen, Scan;
    var p, q := s[..i + n - 1], s[i + n - 1..];
    var w := s[i..];
    TagLenShape(w);
    TagAtCutsNoTag(s, i);
    assert p[..i] == s[..i] && p[i..] == w[..n - 1];
    assert CutsNoTag(p, i) by {
      forall j | 0 <= j < i
        ensures j + TagLen(p[j..]) <= i
      {
        assert p[j..] == s[j..][..i + n - 1 - j];
        TagLenPrefix(s[j..], i + n - 1 - j);
      }
    }
    ScanSplit(p, i, t);
    TagStartIsPlain(w, n - 1, Scan(s[..i], t).inThinking);
    assert q[0] == w[n - 1] == '>' && q[1..] == s[i + n..];
    TagLenShape(q);
    ScanStep(q, t);
  }

  lemma {:induction false} EndsBlankHoldsNothing(p: string, i: nat)
    requires i < |p| - 1 && p[i] == '<' && IsBlank(p[|p| - 1])
    requires forall j :: i < j < |p| ==> p[j] != '<'
    ensures Hold(p) == |p|
  {
    LastOpenUnique(p, i);
    assert p[i..][|p| - 1 - i] == p[|p| - 1];
  }

  /** When the first of two pieces holds nothing back, the two are read apart. */
  lemma {:induction false} RunApart(p: string, q: string)
    requires Hold(p) == |p|
    ensures var out := Scan(p, false);
            Run(State([], false), [p, q]) == Join(out, Scan(q, out.inThinking))
  {
    hide TagLen, Scan, Hold;
    var f := State([], false);
    assert [] + p == p && p[..|p|] == p && p[|p|..] == [];
    var out := Scan(p, false);
    assert Step(f, p) == (out, State([], out.inThinking));
    assert [p, q][1..] == [q];
    WholeIsScan(out.inThinking, q);
  }

  /** A blanked tag cut just before its '>' comes through as text, so this cutting is read differently. */
  lemma {:induction false} BlankTagBreaks(s: string, i: nat)
    requires i < |s| && BlankTagAt(s[i..])
    ensures var n := TagLen(s[i..]);
            Run(State([], false), [s[..i + n - 1], s[i + n - 1..]]) != Run(State([], false), [s])
  {
    hide TagLen, Scan, Hold, Run;
    var w := s[i..];
    var n := TagLen(w);
    var p, q := s[..i + n - 1], s[i + n - 1..];
    TagLenShape(w);
    assert p[|p| - 1] == w[n - 2] && p[i] == w[0];
    assert forall j :: i < j < |p| ==> p[j] == w[j - i];
    EndsBlankHoldsNothing(p, i);
    RunApart(p, q);
    SizeIgnoresMode(q, Scan(p, false).inThinking, false);
    TagBroken(s, i, n, false);
    TagWhole(s, i, false);
    WholeIsScan(false, s);
  }

  /** Every cutting is read as one call on the whole text exactly when no tag has a blank before its '>'. */
  lemma {:induction false} ChunkInvariance(s: string)
    ensures (forall pieces :: Flatten(pieces) == s ==> Run(State([], false), pieces) == Run(State([], false), [s]))
            <==> !HasBlankTag(s)
  {
    hide TagLen, Scan, Hold, BlankTagAt, Run;
    if HasBlankTag(s) {
      var i :| 0 <= i < |s| && BlankTagAt(s[i..]);
      BlankTagBreaks(s, i);
      var cut := i + TagLen(s[i..]) - 1;
      TagLenAtLeastTwo(s[i..]);
      var pieces := [s[..cut], s[cut..]];
      assert pieces[1..] == [s[cut..]];
      FlattenOne(s[cut..]);
      assert Flatten(pieces) == s;
    } else {
      WholeIsScan(false, s);
      forall pieces | Flatten(pieces) == s
        ensures Run(State([], false), pieces) == Run(State([], false), [s])
      {
        assert [] + Flatten(pieces) == s;
        RunIsScan(State([], false), pieces);
      }
    }
  }

  lemma {:induction false} TagLenAtLeastTwo(s: string)
    requires BlankTagAt(s)
    ensures 2 <= TagLen(s) <= |s|
  {
  }

  datatype Channel = ToContent | ToReasoning | InTag

  /** Where each character of the text goes. */
  function Channels(s: string, t: bool): (r: seq<Channel>)
    ensures |r| == |s|
    decreases |s|
  {
    if s == [] then []
    else
      seq(StepLen(s), _ => Here(s, t)) + Channels(s[StepLen(s)..], StepOut(s, t).inThinking)
  }

  function Select(s: string, chans: seq<Channel>, c: Channel): string
    requires |s| == |chans|
  {
    if s == [] then []
    else (if chans[0] == c then s[..1] else []) + Select(s[1..], chans[1..], c)
  }

  lemma {:induction false} SelectSplit(s: string, chans: seq<Channel>, c: Channel, n: nat)
    requires |s| == |chans| && n <= |s|
    ensures Select(s, chans, c) == Select(s[..n], chans[..n], c) + Select(s[n..], chans[n..], c)
  {
    if n > 0 {
      assert s[..n][1..] == s[1..][..n - 1] && chans[..n][1..] == chans[1..][..n - 1];
      assert s[1..][n - 1..] == s[n..] && chans[1..][n - 1..] == chans[n..];
      assert s[..n][..1] == s[..1];
      SelectSplit(s[1..], chans[1..], c, n - 1);
    } else {
      assert s[n..] == s && chans[n..] == chans;
    }
  }

  lemma {:induction false} SelectUniform(s: string, chans: seq<Channel>, c: Channel)
    requires |s| == |chans|
    requires forall i :: 0 <= i < |chans| ==> chans[i] == chans[0]
    ensures Select(s, chans, c) == if s != [] && chans[0] == c then s else []
  {
    if s != [] {
      assert forall i :: 0 <= i < |chans[1..]| ==> chans[1..][i] == chans[0];
      SelectUniform(s[1..], chans[1..], c);
      assert s[..1] + s[1..] == s;
    }
  }

  /** Content and reasoning are the characters of their channels, in order. */
  lemma {:induction false} ChannelsCarryText(s: string, t: bool)
    ensures Scan(s, t).content == Select(s, Channels(s, t), ToContent)
    ensures Scan(s, t).reasoning == Select(s, Channels(s, t), ToReasoning)
    decreases |s|
  {
    hide Channels, Scan, Select, StepLen, StepOut;
    if s != [] {
      ChannelsCarryText(s[StepLen(s)..], StepOut(s, t).inThinking);
      ScanStep(s, t);
      SelectStep(s, t, ToContent);
      SelectStep(s, t, ToReasoning);
      StepByChannel(s, t);
    } else {
      NothingToCarry(t);
    }
  }

  lemma {:induction false} NothingToCarry(t: bool)
    ensures Scan([], t) == Put([], t) && Channels([], t) == [] && forall c :: Select([], [], c) == []
  {
  }

  function Here(s: string, t: bool): Channel {
    if TagLen(s) > 0 then InTag else if t then ToReasoning else ToContent
  }

  lemma {:induction false} StepByChannel(s: string, t: bool)
    requires s != []
    ensures StepOut(s, t).content == if Here(s, t) == ToContent then s[..StepLen(s)] else []
    ensures StepOut(s, t).reasoning == if Here(s, t) == ToReasoning then s[..StepLen(s)] else []
  {
    hide TagLen;
  }

  lemma {:induction false} SelectStep(s: string, t: bool, c: Channel)
    requires s != []
    ensures var n, rest := StepLen(s), Channels(s[StepLen(s)..], StepOut(s, t).inThinking);
            Select(s, Channels(s, t), c) == (if Here(s, t) == c then s[..n] else []) + Select(s[n..], rest, c)
  {
    hide TagLen, StepOut, Select;
    var n, chans := StepLen(s), Channels(s, t);
    var rest := Channels(s[n..], StepOut(s, t).inThinking);
    assert chans == seq(n, _ => Here(s, t)) + rest;
    assert chans[..n] == seq(n, _ => Here(s, t)) && chans[n..] == rest;
    hide Channels, StepLen;
    SelectSplit(s, chans, c, n);
    SelectUniform(s[..n], chans[..n], c);
  }

  /** The characters of neither channel are exactly those covered by a tag. */
  lemma {:induction false} ChannelsDropTags(s: string, t: bool)
    ensures forall j :: 0 <= j < |s| ==> (Channels(s, t)[j] == InTag <==> exists i :: 0 <= i <= j < i + TagLen(s[i..]))
    decreases |s|
  {
    hide TagLen, Scan;
    if s != [] {
      var n := StepLen(s);
      var chans := Channels(s, t);
      var rest := s[n..];
      var t' := StepOut(s, t).inThinking;
      ChannelsDropTags(rest, t');
      forall j | 0 <= j < |s|
        ensures chans[j] == InTag <==> exists i :: 0 <= i <= j < i + TagLen(s[i..])
      {
        CoverageStep(s, n, j);
        if j >= n {
          assert chans[j] == Channels(rest, t')[j - n];
        }
      }
    }
  }

  /**
   Content, reasoning and tags account for every character: each goes to exactly one of them, in order,
   and the ones in neither text are exactly those covered by a tag.
   */
  lemma {:induction false} EveryCharacterAccounted(s: string, t: bool)
    ensures Scan(s, t).content == Select(s, Channels(s, t), ToContent)
    ensures Scan(s, t).reasoning == Select(s, Channels(s, t), ToReasoning)
    ensures forall j :: 0 <= j < |s| ==> (Channels(s, t)[j] == InTag <==> exists i :: 0 <= i <= j < i + TagLen(s[i..]))
  {
    ChannelsCarryText(s, t);
    ChannelsDropTags(s, t);
  }

  /** Tags beginning inside the first step cover nothing beyond it. */
  lemma {:induction false} CoverageStep(s: string, n: nat, j: nat)
    requires s != [] && n == StepLen(s) && j < |s|
    ensures j < n ==> ((exists i :: 0 <= i <= j < i + TagLen(s[i..])) <==> TagLen(s) > 0)
    ensures j >= n ==> ((exists i :: 0 <= i <= j < i + TagLen(s[i..])) <==>
                        (exists i :: 0 <= i <= j - n < i + TagLen(s[n..][i..])))
  {
    hide TagLen;
    TagLenShape(s);
    assert s[0..] == s;
    forall i | 0 < i < n
      ensures TagLen(s[i..]) == 0
    {
      TagLenShape(s[i..]);
      assert s[i..][0] == s[i];
    }
    if j < n {
      if TagLen(s) > 0 {
        assert 0 <= 0 <= j < 0 + TagLen(s[0..]);
      }
    } else {
      forall i | 0 <= i <= j - n && j - n < i + TagLen(s[n..][i..])
        ensures exists i' :: 0 <= i' <= j < i' + TagLen(s[i'..])
      {
        assert s[n..][i..] == s[n + i..];
        assert 0 <= n + i <= j < n + i + TagLen(s[n + i..]);
      }
      forall i | 0 <= i <= j && j < i + TagLen(s[i..])
        ensures exists i' :: 0 <= i' <= j - n < i' + TagLen(s[n..][i'..])
      {
        assert s[n..][i - n..] == s[i..];
        assert 0 <= i - n <= j - n < i - n + TagLen(s[n..][i - n..]);
      }
    }
  }
}
