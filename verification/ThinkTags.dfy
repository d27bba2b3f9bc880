/**
 Which texts are thinking tags, and what they do to the reading of internal/provider/cursor/think.go: a tag sets the
 mode for the text after it, and everything else goes where the mode says.
 */
module ThinkTags {
  import opened Sequences
  import opened Strings
  import opened ThinkFilter

  predicate TagName(name: string) {
    LowerAll(name) in {"think", "thinking", "reasoning", "thought", "think_intent"}
  }

  predicate Blanks(s: string) {
    forall i :: 0 <= i < |s| ==> s[i] in {' ', '\t', '\n', '\r', '\U{0C}'}
  }

  /** '<', a slash in closing tags, one of the names in any case, blanks, '>'. */
  function TagOf(closing: bool, name: string, blanks: string): string {
    (if closing then "</" else "<") + name + blanks + ">"
  }

  ghost predicate IsTagOf(t: string, closing: bool) {
    exists name, blanks :: TagName(name) && Blanks(blanks) && t == TagOf(closing, name, blanks)
  }

  lemma {:induction false} NameChars(name: string)
    requires TagName(name)
    ensures |name| >= 5 && forall i :: 0 <= i < |name| ==> IsTagLetter(name[i]) && !IsBlank(name[i]) && name[i] != '>' && name[i] != '/'
  {
    NameLetters(name);
    assert |LowerAll(name)| >= 5;
  }

  lemma {:induction false} BlanksAre(s: string)
    ensures Blanks(s) <==> forall i :: 0 <= i < |s| ==> IsBlank(s[i])
  {
  }

  lemma {:induction false} DropsOnlyBlanks(name: string, blanks: string)
    requires Blanks(blanks) && name != "" && !IsBlank(name[|name| - 1])
    ensures DropBlanks(name + blanks) == name
    decreases |blanks|
  {
    BlanksAre(blanks);
    if blanks == "" {
      assert name + blanks == name;
    } else {
      var all := name + blanks;
      assert all[..|all| - 1] == name + blanks[..|blanks| - 1];
      DropsOnlyBlanks(name, blanks[..|blanks| - 1]);
    }
  }

  lemma {:induction false} TagIsClosedOnce(closing: bool, name: string, blanks: string, rest: string)
    requires TagName(name) && Blanks(blanks)
    ensures FirstClose(TagOf(closing, name, blanks) + rest) == |TagOf(closing, name, blanks)| - 1
  {
    var t := TagOf(closing, name, blanks);
    var s := t + rest;
    var h := if closing then 2 else 1;
    NameChars(name);
    BlanksAre(blanks);
    assert forall i :: 0 <= i < |name| ==> s[h + i] == name[i];
    assert forall i :: 0 <= i < |blanks| ==> s[h + |name| + i] == blanks[i];
    forall i | 0 <= i < |t| - 1
      ensures s[i] != '>'
    {
      if i >= h + |name| {
        assert s[i] == blanks[i - h - |name|];
      } else if i >= h {
        assert s[i] == name[i - h];
      }
    }
    assert s[|t| - 1] == '>';
  }

  lemma {:induction false} TagOfIsTag(closing: bool, name: string, blanks: string)
    requires TagName(name) && Blanks(blanks)
    ensures IsTag(TagOf(closing, name, blanks)) && Closing(TagOf(closing, name, blanks)) == closing
  {
    NameChars(name);
    DropsOnlyBlanks(name, blanks);
    hide DropBlanks, LowerAll, TagBody, IsTagLetter, Blanks;
    var inner := name + blanks;
    assert inner[0] == name[0];
    ConcatAssoc(if closing then "</" else "<", name, blanks);
    BodyOf(closing, inner);
  }

  /** A bracketed text and its body. */
  function Bracketed(closing: bool, body: string): string {
    (if closing then "</" else "<") + body + ">"
  }

  lemma {:induction false} BodyOf(closing: bool, body: string)
    requires body != "" && body[0] != '/'
    ensures var t := Bracketed(closing, body);
            |t| >= 3 && t[0] == '<' && t[|t| - 1] == '>' && TagBody(t) == body && Closing(t) == closing
  {
    var t := Bracketed(closing, body);
    if closing {
      assert t[1] == '/';
      assert t[2..][..|t| - 3] == body;
    } else {
      assert t[1] == body[0];
      assert t[1..|t| - 1] == body;
    }
  }

  lemma {:induction false} FromBody(t: string)
    requires |t| >= 3 && t[0] == '<' && t[|t| - 1] == '>' && (t[1] == '/' ==> |t| > 3)
    ensures t == Bracketed(Closing(t), TagBody(t))
  {
    if t[1] == '/' {
      assert t[2..][..|t| - 3] == t[2..|t| - 1];
    }
  }

  /** A text begins with a tag exactly when it begins with a tag's text, which is closing exactly when it has the slash. */
  lemma {:induction false} TagsAre(s: string, n: nat)
    requires 0 < n <= |s|
    ensures TagLen(s) == n <==> IsTagOf(s[..n], false) || IsTagOf(s[..n], true)
    ensures TagLen(s) == n ==> (Closing(s) <==> IsTagOf(s[..n], true))
  {
    var t := s[..n];
    if TagLen(s) == n {
      TagIsRead(t);
      assert n > 2 && t[1] == s[1];
    }
    hide TagLen, Closing, IsTagOf;
    forall closing | IsTagOf(t, closing)
      ensures TagLen(s) == n && Closing(s) == closing
    {
      TagOfIsRead(s, n, closing);
    }
  }

  lemma {:induction false} TagOfIsRead(s: string, n: nat, closing: bool)
    requires 0 < n <= |s| && IsTagOf(s[..n], closing)
    ensures TagLen(s) == n && Closing(s) == closing
  {
    var name, blanks :| TagName(name) && Blanks(blanks) && s[..n] == TagOf(closing, name, blanks);
    assert s == s[..n] + s[n..];
    TagIsClosedOnce(closing, name, blanks, s[n..]);
    TagOfIsTag(closing, name, blanks);
    NameChars(name);
    hide TagName, Blanks, IsTag;
    assert n > 2 && s[..n][1] == s[1];
  }

  lemma {:induction false} TagIsRead(t: string)
    requires IsTag(t)
    ensures IsTagOf(t, Closing(t))
  {
    var body := TagBody(t);
    var name := DropBlanks(body);
    var blanks := body[|name|..];
    NameLetters(name);
    assert |LowerAll(name)| == |name| && name != "";
    BlanksAre(blanks);
    assert body == name + blanks;
    assert t[1] == '/' ==> |t| > 3;
    FromBody(t);
    hide DropBlanks, LowerAll, TagBody, IsTag, IsTagLetter;
    ConcatAssoc(if Closing(t) then "</" else "<", name, blanks);
    assert t == TagOf(Closing(t), name, blanks);
  }

  /** Behind an opening tag the text is reasoning, behind a closing one content, whatever it was before. */
  lemma {:induction false} TagsSetTheMode(closing: bool, name: string, blanks: string, rest: string, mode: bool)
    requires TagName(name) && Blanks(blanks)
    ensures Scan(TagOf(closing, name, blanks) + rest, mode) == Scan(rest, !closing)
  {
    var t := TagOf(closing, name, blanks);
    var s := t + rest;
    assert s[..|t|] == t && s[|t|..] == rest;
    assert IsTagOf(t, closing);
    TagsAre(s, |t|);
    TagOfIsTag(closing, name, blanks);
    assert s[1] == t[1];
    hide TagLen, TagOf;
    assert Closing(s) == Closing(t);
  }

  /** A text without a tag in it goes as a whole where the mode says. */
  lemma {:induction false} UntaggedStays(s: string)
    requires forall i :: 0 <= i < |s| ==> TagLen(s[i..]) == 0
    ensures Scan(s, false) == Split(s, "", false) && Scan(s, true) == Split("", s, true)
  {
    ScanPlain(s, false);
    ScanPlain(s, true);
  }

  // ---------------------------------------------------------------------------------------------
  // What is held back
  // ---------------------------------------------------------------------------------------------

  predicate TagLetters(s: string) {
    forall i :: 0 <= i < |s| ==> 'a' <= s[i] <= 'z' || 'A' <= s[i] <= 'Z' || s[i] == '_'
  }

  /** What a tag may begin with: at most 15 characters, '<', a slash or none, and letters. */
  ghost predicate MayBecomeTag(h: string) {
    |h| < 16 && exists letters :: TagLetters(letters) && (h == "<" + letters || h == "</" + letters)
  }

  lemma {:induction false} LettersAre(s: string)
    ensures TagLetters(s) <==> forall i :: 0 <= i < |s| ==> IsTagLetter(s[i])
  {
  }

  lemma {:induction false} PartialIs(h: string)
    ensures |h| < 16 && IsPartial(h) <==> MayBecomeTag(h)
  {
    if IsPartial(h) {
      PartialReads(h);
    }
    if MayBecomeTag(h) {
      var letters :| TagLetters(letters) && (h == "<" + letters || h == "</" + letters);
      LettersArePartial("<", letters);
      LettersArePartial("</", letters);
    }
  }

  lemma {:induction false} PartialReads(h: string)
    requires IsPartial(h)
    ensures exists letters :: TagLetters(letters) && (h == "<" + letters || h == "</" + letters)
  {
    hide IsTagLetter;
    if |h| > 1 && h[1] == '/' {
      var letters := h[2..];
      LettersAre(letters);
      assert h == "</" + letters;
    } else {
      var letters := h[1..];
      LettersAre(letters);
      assert h == "<" + letters;
    }
  }

  lemma {:induction false} LettersArePartial(head: string, letters: string)
    requires TagLetters(letters) && (head == "<" || head == "</")
    ensures IsPartial(head + letters)
  {
    LettersAre(letters);
    hide IsTagLetter, TagLetters;
    var h := head + letters;
    assert forall i :: |head| <= i < |h| ==> h[i] == letters[i - |head|];
  }

  /** A suffix is held back exactly when it may become a tag; there is at most one, and nothing else is held back. */
  lemma {:induction false} HeldBackIs(s: string, k: nat)
    requires k < |s|
    ensures Hold(s) == k <==> MayBecomeTag(s[k..])
  {
    PartialIs(s[k..]);
    if MayBecomeTag(s[k..]) {
      OneOpen(s[k..]);
      assert forall i :: k < i < |s| ==> s[i] == s[k..][i - k];
      LastOpenUnique(s, k);
    }
  }

  lemma {:induction false} OneOpen(h: string)
    requires IsPartial(h)
    ensures h[0] == '<' && forall i :: 0 < i < |h| ==> h[i] != '<'
  {
  }
}
