/** Names of user-added sources and the model ids built from them (internal/provider/openai/source.go). */
module Slugs {
  import opened Strings
  import opened Decimal
  import opened Sequences

  const MAX_SLUG := 48

  predicate IsDash(c: char) {
    c == '-'
  }

  const DASH: set<char> := {'-'}
  const SPACES: set<char> := {' ', '\t', '\n', '\r', '\U{0B}', '\U{0C}', '\U{85}', '\U{A0}'}

  predicate IsAlnum(c: char) {
    'a' <= c <= 'z' || '0' <= c <= '9'
  }

  predicate AllSlugChars(s: string) {
    forall i :: 0 <= i < |s| ==> IsAlnum(s[i]) || IsDash(s[i])
  }

  predicate ValidSlug(s: string) {
    1 <= |s| <= MAX_SLUG && 'a' <= s[0] <= 'z' && AllSlugChars(s)
  }

  const RESERVED: set<string> := {
    "claude", "codex", "grok", "cursor", "openai", "opencode", "fob", "v1",
    "gpt", "o1", "o3", "o4", "composer", "gemini", "kimi", "glm"}

  predicate ReservedSlug(s: string) {
    s in RESERVED
  }

  /** Letters and digits kept, each run of separators between them made one dash, everything else dropped. */
  function Squeeze(s: string, out: string, lastDash: bool): (r: string)
    requires AllSlugChars(out)
    ensures AllSlugChars(r)
    decreases |s|
  {
    if s == "" then out
    else if IsAlnum(s[0]) then Squeeze(s[1..], out + [s[0]], false)
    else if s[0] in "-_ ." && out != "" && !lastDash then Squeeze(s[1..], out + "-", true)
    else Squeeze(s[1..], out, lastDash)
  }

  function Cut(s: string): string {
    if |s| > MAX_SLUG then Trim(s[..MAX_SLUG], DASH) else s
  }

  lemma {:induction false} SrcIsValid()
    ensures ValidSlug("src")
  {
  }

  /** Any text made into a valid slug; "src" when nothing of it can be used. */
  function ClipSlug(text: string): (r: string)
    ensures ValidSlug(r)
  {
    var s := Trim(text, DASH);
    SrcIsValid();
    if s == "" then "src"
    else
      var t := Cut(s);
      var u := if t == "" || !('a' <= t[0] <= 'z') then Cut("s-" + Trim(t, DASH)) else t;
      if ValidSlug(u) then u else "src"
  }

  function Slugified(name: string): (r: string)
    ensures ValidSlug(r)
  {
    ClipSlug(Trim(Squeeze(LowerAll(Trim(name, SPACES)), "", false), DASH))
  }

  method Slugify(name: string) returns (r: string)
    ensures r == Slugified(name)
  {
    hide ClipSlug, Trim, LowerAll;
    var s := LowerAll(Trim(name, SPACES));
    var b, lastDash := "", false;
    for i := 0 to |s|
      invariant AllSlugChars(b) && Squeeze(s[i..], b, lastDash) == Squeeze(s, "", false)
    {
      assert s[i..][1..] == s[i + 1..];
      var c := s[i];
      if 'a' <= c <= 'z' || '0' <= c <= '9' {
        b := b + [c];
        lastDash := false;
      } else if c == '-' || c == '_' || c == ' ' || c == '.' {
        if |b| == 0 || lastDash {
          continue;
        }
        b := b + "-";
        lastDash := true;
      }
    }
    assert s[|s|..] == "";
    r := ClipSlug(Trim(b, DASH));
  }

  function NumberedSlug(base: string, n: nat): (r: string)
    requires base != ""
    ensures ValidSlug(r)
  {
    var suffix := "-" + Itoa(n);
    var cut := if MAX_SLUG - |suffix| < 1 then 1 else MAX_SLUG - |suffix|;
    var short := if |base| + |suffix| > MAX_SLUG then Trim(base[..cut], DASH) else base;
    ClipSlug((if short == "" then "s" else short) + suffix)
  }

  /** The slug asked for, kept clear of the reserved names. */
  function Wanted(name: string): (r: string)
    ensures ValidSlug(r)
  {
    var want := Slugified(name);
    if ReservedSlug(want) then ClipSlug("src-" + want) else want
  }

  /** The first free numbered slug from i on. */
  function Search(taken: set<string>, base: string, i: nat, existing: nat): (r: string)
    requires base != ""
    ensures ValidSlug(r)
    decreases 100000 - i
  {
    if i >= 100000 then NumberedSlug("src", existing + 2)
    else
      var base' := if i == 1000 then "src" else base;
      var next := NumberedSlug(base', i);
      if next !in taken then next else Search(taken, base', i + 1, existing)
  }

  function Unique(taken: set<string>, name: string, existing: nat): (r: string)
    ensures ValidSlug(r)
  {
    var want := Wanted(name);
    if want !in taken then want else Search(taken, want, 2, existing)
  }

  /** A stored source; a slug recorded as "" is derived from its name. */
  datatype Source = Source(name: string, slug: string)

  function SourceSlug(s: Source): (r: string)
    ensures r != ""
  {
    if s.slug != "" then s.slug else Slugified(s.name)
  }

  function Taken(sources: seq<Source>): set<string> {
    set s | s in sources :: SourceSlug(s)
  }

  function UniqueSlug(sources: seq<Source>, name: string): (r: string)
    ensures ValidSlug(r)
  {
    Unique(Taken(sources), name, |sources|)
  }

  method FindUniqueSlug(existing: seq<Source>, name: string) returns (r: string)
    ensures r == UniqueSlug(existing, name)
  {
    hide ClipSlug, Slugified, NumberedSlug, ReservedSlug, SourceSlug;
    var want := Slugify(name);
    if ReservedSlug(want) {
      want := ClipSlug("src-" + want);
    }
    var taken: set<string> := {};
    for i := 0 to |existing|
      invariant taken == Taken(existing[..i])
    {
      assert existing[..i + 1] == existing[..i] + [existing[i]];
      taken := taken + {SourceSlug(existing[i])};
    }
    assert existing[..|existing|] == existing;
    if want !in taken {
      return want;
    }
    var base := want;
    for i := 2 to 100000
      invariant base != "" && Search(taken, base, i, |existing|) == Search(taken, want, 2, |existing|)
    {
      if i == 1000 {
        base := "src";
      }
      var next := NumberedSlug(base, i);
      if ValidSlug(next) && next !in taken {
        return next;
      }
    }
    r := NumberedSlug("src", |existing| + 2);
  }

  // ---------------------------------------------------------------------------------------------
  // Slugs are fresh and unreserved
  // ---------------------------------------------------------------------------------------------

  lemma {:induction false} ReservedHasNoDash(s: string)
    requires '-' in s
    ensures !ReservedSlug(s)
  {
  }

  /** A valid slug that does not end in a dash is not clipped. */
  lemma {:induction false} ClipKeeps(s: string)
    requires ValidSlug(s) && !IsDash(s[|s| - 1])
    ensures ClipSlug(s) == s
  {
    assert Trim(s, DASH) == s && Cut(s) == s;
    hide Trim, Cut, AllSlugChars;
  }

  lemma {:induction false} ClipCuts(s: string)
    requires |s| > MAX_SLUG && 'a' <= s[0] <= 'z' && AllSlugChars(s) && !IsDash(s[|s| - 1]) && !IsDash(s[MAX_SLUG - 1])
    ensures ClipSlug(s) == s[..MAX_SLUG]
  {
    var t := s[..MAX_SLUG];
    assert Trim(s, DASH) == s;
    assert Trim(t, DASH) == t;
    assert Cut(s) == t;
    PrefixChars(t, s);
    assert ValidSlug(t);
    hide Trim, Cut, ValidSlug, AllSlugChars;
  }

  /** A numbered slug shows its dash: a nonempty start of the base, then the number, then cut if still too long. */
  lemma {:induction false} NumberedShape(base: string, n: nat)
    requires ValidSlug(base)
    ensures '-' in NumberedSlug(base, n)
    ensures |base| + 1 + |Itoa(n)| <= MAX_SLUG ==> NumberedSlug(base, n) == base + "-" + Itoa(n)
  {
    hide ClipSlug, Itoa, Trim, AllSlugChars;
    var suffix := "-" + Itoa(n);
    var cut := if MAX_SLUG - |suffix| < 1 then 1 else MAX_SLUG - |suffix|;
    var short := if |base| + |suffix| > MAX_SLUG then Trim(base[..cut], DASH) else base;
    assert short != "" && short <= base;
    var s := short + suffix;
    SuffixChars(n);
    PrefixChars(short, base);
    SlugChars(short, suffix);
    assert s[|short|] == '-';
    if |s| <= MAX_SLUG {
      ClipKeeps(s);
      assert s == short + "-" + Itoa(n);
    } else {
      assert |short| == 1;
      assert s[MAX_SLUG - 1] == Itoa(n)[MAX_SLUG - 3];
      ClipCuts(s);
      assert s[..MAX_SLUG][1] == '-';
    }
  }

  lemma {:induction false} SuffixChars(n: nat)
    ensures AllSlugChars("-" + Itoa(n)) && !IsDash(("-" + Itoa(n))[|Itoa(n)|])
    ensures forall i :: 0 <= i < |Itoa(n)| ==> !IsDash(Itoa(n)[i])
  {
    var s := "-" + Itoa(n);
    assert forall i :: 1 <= i < |s| ==> s[i] == Itoa(n)[i - 1];
  }

  lemma {:induction false} SrcDashChars()
    ensures AllSlugChars("src-")
  {
  }

  lemma {:induction false} PrefixChars(a: string, b: string)
    requires a <= b && AllSlugChars(b)
    ensures AllSlugChars(a)
  {
  }

  lemma {:induction false} SlugChars(a: string, b: string)
    requires AllSlugChars(a) && AllSlugChars(b)
    ensures AllSlugChars(a + b)
  {
  }

  lemma {:induction false} WantedIsUnreserved(name: string)
    ensures !ReservedSlug(Wanted(name))
  {
    hide ClipSlug, ReservedSlug, Slugified, AllSlugChars;
    var want := Slugified(name);
    if ReservedSlug(want) {
      ReservedIsShort(want);
      var s := "src-" + want;
      assert s[3] == '-' && s[0] == 's';
      SrcDashChars();
      SlugChars("src-", want);
      ClipKeeps(s);
      ReservedHasNoDash(s);
    }
  }

  lemma {:induction false} ReservedIsShort(s: string)
    requires ReservedSlug(s)
    ensures 1 <= |s| <= 8 && !IsDash(s[|s| - 1])
  {
  }

  lemma {:induction false} SearchIsUnreserved(taken: set<string>, base: string, i: nat, existing: nat)
    requires ValidSlug(base)
    ensures !ReservedSlug(Search(taken, base, i, existing))
    decreases 100000 - i
  {
    hide NumberedSlug, ReservedSlug;
    var n := if i >= 100000 then existing + 2 else i;
    var base' := if i >= 1000 then "src" else base;
    NumberedShape("src", n);
    NumberedShape(base, n);
    ReservedHasNoDash(NumberedSlug("src", n));
    ReservedHasNoDash(NumberedSlug(base, n));
    if i < 100000 {
      SearchIsUnreserved(taken, if i == 1000 then "src" else base, i + 1, existing);
    }
  }

  lemma {:induction false} ItoaShort(n: nat, digits: nat)
    requires digits > 0 && (digits == 1 ==> n < 10) && (digits == 2 ==> n < 100) && (digits == 3 ==> n < 1000)
    requires (digits == 4 ==> n < 10000) && (digits == 5 ==> n < 100000) && digits <= 5
    ensures |Itoa(n)| <= digits
  {
    if digits > 1 && n >= 10 {
      ItoaShort(n / 10, digits - 1);
    }
  }

  lemma {:induction false} SrcNumbered(i: nat)
    requires i < 100000
    ensures NumberedSlug("src", i) == "src-" + Itoa(i)
  {
    hide NumberedSlug, Itoa;
    ItoaShort(i, 5);
    NumberedShape("src", i);
    assert "src" + "-" + Itoa(i) == "src-" + Itoa(i);
  }

  /** From 1000 on, a search that ends on a taken slug has found every number taken. */
  lemma {:induction false} SearchedAll(taken: set<string>, i: nat, existing: nat)
    requires 1000 <= i && Search(taken, "src", i, existing) in taken
    ensures forall k: nat :: i <= k < 100000 ==> NumberedSlug("src", k) in taken
    decreases 100000 - i
  {
    hide NumberedSlug;
    if i < 100000 {
      SearchedAll(taken, i + 1, existing);
    }
  }

  lemma {:induction false} SearchReachesSrc(taken: set<string>, base: string, i: nat, existing: nat)
    requires ValidSlug(base) && i <= 1000 && Search(taken, base, i, existing) in taken
    ensures Search(taken, "src", 1000, existing) in taken
    decreases 1000 - i
  {
    hide NumberedSlug;
    if i < 1000 {
      SearchReachesSrc(taken, base, i + 1, existing);
    }
  }

  /** With fewer than 99,000 slugs taken the search finds a free one. */
  lemma {:induction false} SearchIsFresh(taken: set<string>, base: string, existing: nat)
    requires ValidSlug(base) && |taken| < 99000
    ensures Search(taken, base, 2, existing) !in taken
  {
    hide NumberedSlug, Search;
    if Search(taken, base, 2, existing) in taken {
      SearchReachesSrc(taken, base, 2, existing);
      SearchedAll(taken, 1000, existing);
      var all := seq(99000, k requires 0 <= k < 99000 => NumberedSlug("src", k + 1000));
      forall i, j | 0 <= i < j < |all|
        ensures all[i] != all[j]
      {
        SrcNumbersDiffer(i + 1000, j + 1000);
      }
      Pigeonhole(all, taken);
    }
  }

  lemma {:induction false} SrcNumbersDiffer(i: nat, j: nat)
    requires i < j < 100000
    ensures NumberedSlug("src", i) != NumberedSlug("src", j)
  {
    SrcNumbered(i);
    SrcNumbered(j);
    if "src-" + Itoa(i) == "src-" + Itoa(j) {
      assert ("src-" + Itoa(i))[4..] == Itoa(i) && ("src-" + Itoa(j))[4..] == Itoa(j);
      ItoaInjective(i, j);
    }
  }

  lemma {:induction false} TakenIsSmall(sources: seq<Source>)
    ensures |Taken(sources)| <= |sources|
    decreases |sources|
  {
    hide SourceSlug;
    if sources != [] {
      var front, last := sources[..|sources| - 1], SourceSlug(sources[|sources| - 1]);
      TakenIsSmall(front);
      assert sources == front + [sources[|sources| - 1]];
      assert Taken(sources) == Taken(front) + {last};
    }
  }

  /** UniqueSlug always gives a valid unreserved slug, and one not in use while there are fewer than 99,000 sources. */
  lemma {:induction false} UniqueSlugIsFresh(sources: seq<Source>, name: string)
    ensures !ReservedSlug(UniqueSlug(sources, name)) && ValidSlug(UniqueSlug(sources, name))
    ensures |sources| < 99000 ==> UniqueSlug(sources, name) !in Taken(sources)
  {
    hide ReservedSlug, Search;
    WantedIsUnreserved(name);
    SearchIsUnreserved(Taken(sources), Wanted(name), 2, |sources|);
    if |sources| < 99000 {
      TakenIsSmall(sources);
      SearchIsFresh(Taken(sources), Wanted(name), |sources|);
    }
  }

  /** The search takes the first number that is free. */
  lemma {:induction false} SearchIsFirst(taken: set<string>, base: string, i: nat, existing: nat)
    requires ValidSlug(base) && i <= 1000
    ensures FirstFree(taken, base, i, Search(taken, base, i, existing)) ||
            forall k: nat :: i <= k < 1000 ==> NumberedSlug(base, k) in taken
    decreases 1000 - i
  {
    hide NumberedSlug, AllSlugChars;
    if i < 1000 {
      var r := Search(taken, base, i, existing);
      if NumberedSlug(base, i) !in taken {
        assert r == NumberedSlug(base, i);
      } else {
        assert r == Search(taken, base, i + 1, existing);
        hide Search;
        SearchIsFirst(taken, base, i + 1, existing);
      }
    }
  }

  /** The slug is the base with the first number from i on, below 1000, that makes it free. */
  ghost predicate FirstFree(taken: set<string>, base: string, i: nat, slug: string)
    requires base != ""
  {
    exists n: nat :: i <= n < 1000 && slug == NumberedSlug(base, n) && slug !in taken &&
                     forall k: nat :: i <= k < n ==> NumberedSlug(base, k) in taken
  }

  lemma {:induction false} Numbered(base: string, n: nat)
    requires ValidSlug(base) && |base| <= 44 && n < 1000
    ensures NumberedSlug(base, n) == base + "-" + Itoa(n)
  {
    hide NumberedSlug, AllSlugChars;
    ItoaShort(n, 3);
    NumberedShape(base, n);
  }

  lemma {:induction false} NumbersDiffer(base: string, i: nat, j: nat)
    requires i != j
    ensures base + "-" + Itoa(i) != base + "-" + Itoa(j)
  {
    var front := base + "-";
    if front + Itoa(i) == front + Itoa(j) {
      assert (front + Itoa(i))[|front|..] == Itoa(i) && (front + Itoa(j))[|front|..] == Itoa(j);
      ItoaInjective(i, j);
    }
  }

  /** 998 numbers cannot all be taken by fewer slugs. */
  lemma {:induction false} NumbersSuffice(taken: set<string>, base: string)
    requires ValidSlug(base) && |base| <= 44 && |taken| < 998
    ensures !(forall k: nat :: 2 <= k < 1000 ==> NumberedSlug(base, k) in taken)
  {
    hide NumberedSlug, AllSlugChars;
    if forall k: nat :: 2 <= k < 1000 ==> NumberedSlug(base, k) in taken {
      var all := seq(998, k requires 0 <= k < 998 => NumberedSlug(base, k + 2));
      forall i, j | 0 <= i < j < |all|
        ensures all[i] != all[j]
      {
        Numbered(base, i + 2);
        Numbered(base, j + 2);
        NumbersDiffer(base, i + 2, j + 2);
      }
      Pigeonhole(all, taken);
    }
  }

  lemma {:induction false} WantedIs(name: string)
    ensures var slug := Slugified(name);
            Wanted(name) ==
            if slug in {"claude", "codex", "grok", "cursor", "openai", "opencode", "fob", "v1",
                        "gpt", "o1", "o3", "o4", "composer", "gemini", "kimi", "glm"} then "src-" + slug else slug
  {
    hide ClipSlug, Slugified, AllSlugChars;
    var want := Slugified(name);
    if ReservedSlug(want) {
      ReservedIsShort(want);
      var s := "src-" + want;
      assert s[3] == '-' && s[0] == 's' && s[|s| - 1] == want[|want| - 1];
      SrcDashChars();
      SlugChars("src-", want);
      ClipKeeps(s);
    }
  }

  /**
   A slug that is not in use is taken as it is, behind "src-" if it is reserved; one in use gets the first number
   from 2 on that makes it free, as long as it has room for one and there are fewer than 998 sources.
   */
  lemma {:induction false} UniqueSlugIsFirstFree(sources: seq<Source>, name: string)
    ensures Wanted(name) !in Taken(sources) ==> UniqueSlug(sources, name) == Wanted(name)
    ensures Wanted(name) in Taken(sources) && |Wanted(name)| <= 44 && |sources| < 998 ==>
              exists n: nat :: 2 <= n < 1000 && UniqueSlug(sources, name) == Wanted(name) + "-" + Itoa(n) &&
                               UniqueSlug(sources, name) !in Taken(sources) &&
                               forall k: nat :: 2 <= k < n ==> Wanted(name) + "-" + Itoa(k) in Taken(sources)
  {
    hide NumberedSlug, Search, Wanted, AllSlugChars, Taken;
    var want, taken := Wanted(name), Taken(sources);
    if want in taken && |want| <= 44 && |sources| < 998 {
      TakenIsSmall(sources);
      NumbersSuffice(taken, want);
      SearchIsFirst(taken, want, 2, |sources|);
      var slug := UniqueSlug(sources, name);
      assert FirstFree(taken, want, 2, slug);
      var n: nat :| 2 <= n < 1000 && slug == NumberedSlug(want, n) && slug !in taken &&
                    forall k: nat :: 2 <= k < n ==> NumberedSlug(want, k) in taken;
      Numbered(want, n);
      forall k: nat | 2 <= k < n
        ensures want + "-" + Itoa(k) in taken
      {
        Numbered(want, k);
      }
    }
  }

  // ---------------------------------------------------------------------------------------------
  // Any history of adding and removing
  // ---------------------------------------------------------------------------------------------

  datatype Change = Add(name: string) | Remove(index: nat)

  function Apply(sources: seq<Source>, c: Change): seq<Source> {
    match c
    case Add(name) => sources + [Source(name, UniqueSlug(sources, name))]
    case Remove(i) => if i < |sources| then sources[..i] + sources[i + 1..] else sources
  }

  function ApplyAll(sources: seq<Source>, changes: seq<Change>): seq<Source>
    decreases |changes|
  {
    if changes == [] then sources else ApplyAll(Apply(sources, changes[0]), changes[1..])
  }

  /** Never 99,000 sources at once. */
  predicate NeverFull(sources: seq<Source>, changes: seq<Change>)
    decreases |changes|
  {
    |sources| < 99000 && (changes == [] || NeverFull(Apply(sources, changes[0]), changes[1..]))
  }

  predicate Sound(sources: seq<Source>) {
    && (forall i :: 0 <= i < |sources| ==> ValidSlug(SourceSlug(sources[i])) && !ReservedSlug(SourceSlug(sources[i])))
    && (forall i, j :: 0 <= i < j < |sources| ==> SourceSlug(sources[i]) != SourceSlug(sources[j]))
  }

  lemma {:induction false} ApplySound(sources: seq<Source>, c: Change)
    requires Sound(sources) && |sources| < 99000
    ensures Sound(Apply(sources, c))
  {
    hide ValidSlug, ReservedSlug, UniqueSlug, SourceSlug;
    match c
    case Add(name) => AddSound(sources, name);
    case Remove(i) => RemoveSound(sources, i);
  }

  lemma {:induction false} AddSound(sources: seq<Source>, name: string)
    requires Sound(sources) && |sources| < 99000
    ensures Sound(sources + [Source(name, UniqueSlug(sources, name))])
  {
    hide ValidSlug, ReservedSlug, UniqueSlug;
    var slug := UniqueSlug(sources, name);
    UniqueSlugIsFresh(sources, name);
    ValidIsNotEmpty(slug);
    assert SourceSlug(Source(name, slug)) == slug;
    hide SourceSlug;
    forall i | 0 <= i < |sources|
      ensures SourceSlug(sources[i]) != slug
    {
      assert SourceSlug(sources[i]) in Taken(sources);
    }
  }

  lemma {:induction false} RemoveSound(sources: seq<Source>, i: nat)
    requires Sound(sources)
    ensures Sound(Apply(sources, Remove(i)))
  {
    hide ValidSlug, ReservedSlug, SourceSlug;
    if i < |sources| {
      var left := sources[..i] + sources[i + 1..];
      assert forall j :: 0 <= j < |left| ==> left[j] == sources[if j < i then j else j + 1];
    }
  }

  lemma {:induction false} ValidIsNotEmpty(s: string)
    requires ValidSlug(s)
    ensures s != "" && s[0] !in SPACES && s[|s| - 1] !in SPACES && '/' !in s
  {
  }

  /** Whatever was added and removed, slugs are valid, unreserved and pairwise distinct. */
  lemma {:induction false} EveryHistoryIsSound(sources: seq<Source>, changes: seq<Change>)
    requires Sound(sources) && NeverFull(sources, changes)
    ensures Sound(ApplyAll(sources, changes))
    decreases |changes|
  {
    hide Sound, Apply;
    if changes != [] {
      ApplySound(sources, changes[0]);
      EveryHistoryIsSound(Apply(sources, changes[0]), changes[1..]);
    }
  }

  // ---------------------------------------------------------------------------------------------
  // Model ids
  // ---------------------------------------------------------------------------------------------

  /** The match made by openaiSourceHops and pickCredentials. */
  predicate Owns(s: Source, model: string) {
    SourceSlug(s) + "/" <= model
  }

  function PublicModelID(slug: string, id: string): string {
    var t := Trim(id, SPACES);
    if t == "" then slug else slug + "/" + t
  }

  function StripSlug(slug: string, id: string): string {
    var t := Trim(id, SPACES);
    if slug + "/" <= t && t != slug + "/" then t[|slug| + 1..] else t
  }

  /** Two slugs that both begin a model id are the same slug. */
  lemma {:induction false} SlugsApart(a: string, b: string, model: string)
    requires '/' !in a && '/' !in b && a + "/" <= model && b + "/" <= model
    ensures a == b
  {
    assert model[|a|] == '/' && model[|b|] == '/';
    assert forall i :: 0 <= i < |a| ==> model[i] == a[i] && a[i] != '/';
    assert forall i :: 0 <= i < |b| ==> model[i] == b[i] && b[i] != '/';
  }

  /** A model id matches at most one source, and none of the cursor/ and opencode/ ids. */
  lemma {:induction false} ModelHasOneOwner(sources: seq<Source>, i: nat, j: nat, model: string)
    requires Sound(sources) && i < |sources| && j < |sources| && Owns(sources[i], model)
    ensures Owns(sources[j], model) ==> i == j
    ensures !("cursor/" <= model) && !("opencode/" <= model)
  {
    hide ReservedSlug, ValidSlug;
    var a, b := SourceSlug(sources[i]), SourceSlug(sources[j]);
    ValidIsNotEmpty(a);
    ValidIsNotEmpty(b);
    if Owns(sources[j], model) {
      SlugsApart(a, b, model);
    }
    ReservedNames();
    if "cursor/" <= model {
      SlugsApart(a, "cursor", model);
    }
    if "opencode/" <= model {
      SlugsApart(a, "opencode", model);
    }
  }

  lemma {:induction false} ReservedNames()
    ensures ReservedSlug("cursor") && ReservedSlug("opencode")
  {
  }

  /** A source's public model id is its own and no other source's, and gives back the model id. */
  lemma {:induction false} PublicIDComesHome(sources: seq<Source>, i: nat, id: string)
    requires Sound(sources) && i < |sources| && Trim(id, SPACES) != ""
    ensures var slug := SourceSlug(sources[i]);
            Owns(sources[i], PublicModelID(slug, id)) && StripSlug(slug, PublicModelID(slug, id)) == Trim(id, SPACES)
  {
    var slug := SourceSlug(sources[i]);
    assert ValidSlug(slug);
    hide ReservedSlug, ValidSlug, SourceSlug, Sound, Trim;
    ValidIsNotEmpty(slug);
    StripUndoesPublic(slug, id);
    hide StripSlug;
    assert slug + "/" <= slug + "/" + Trim(id, SPACES);
  }

  /** StripSlug gives back exactly the ids that are trimmed and not empty. */
  lemma {:induction false} StripUndoesPublic(slug: string, id: string)
    requires |slug| > 0 && slug[0] !in SPACES && slug[|slug| - 1] !in SPACES
    ensures StripSlug(slug, PublicModelID(slug, id)) == id <==> Trim(id, SPACES) == id && id != ""
    ensures Trim(id, SPACES) != "" ==> StripSlug(slug, PublicModelID(slug, id)) == Trim(id, SPACES)
  {
    hide Trim;
    var t := Trim(id, SPACES);
    var public := PublicModelID(slug, id);
    if |t| > 0 {
      assert public[0] == slug[0] && public[|public| - 1] == t[|t| - 1];
      assert public[|slug| + 1..] == t;
    }
  }

  // ---------------------------------------------------------------------------------------------
  // What a slug shows of the name
  // ---------------------------------------------------------------------------------------------

  predicate IsSeparator(c: char) {
    c == '-' || c == '_' || c == ' ' || c == '.'
  }

  /** The text between separators; there is one piece more than there are separators. */
  function Between(s: string): (r: seq<string>)
    ensures r != []
  {
    if s == "" then [""]
    else
      var rest := Between(s[1..]);
      if IsSeparator(s[0]) then [""] + rest else [[s[0]] + rest[0]] + rest[1..]
  }

  /** The letters and digits of a piece. */
  function Letters(w: string): string {
    if w == "" then "" else (if 'a' <= w[0] <= 'z' || '0' <= w[0] <= '9' then [w[0]] else "") + Letters(w[1..])
  }

  /** The words of a text: the letters and digits of each piece that has any. */
  function Words(pieces: seq<string>): seq<string> {
    if pieces == [] then []
    else (if Letters(pieces[0]) == "" then [] else [Letters(pieces[0])]) + Words(pieces[1..])
  }

  function Dashed(words: seq<string>): string {
    if words == [] then "" else if |words| == 1 then words[0] else words[0] + "-" + Dashed(words[1..])
  }

  /** What words make of a text that has been squeezed so far, without a dash at its end. */
  function Grown(out: string, lastDash: bool, first: string, rest: seq<string>): string
    requires lastDash ==> out != ""
  {
    if lastDash then
      var words := (if first == "" then [] else [first]) + rest;
      if words == [] then out[..|out| - 1] else out + Dashed(words)
    else if rest == [] then out + first
    else if out + first == "" then Dashed(rest)
    else out + first + "-" + Dashed(rest)
  }

  function Undashed(s: string): string {
    if s != "" && s[|s| - 1] == '-' then s[..|s| - 1] else s
  }

  lemma {:induction false} SqueezeStep(c: char, later: string, out: string, lastDash: bool)
    requires AllSlugChars(out)
    ensures Squeeze([c] + later, out, lastDash) ==
            if 'a' <= c <= 'z' || '0' <= c <= '9' then Squeeze(later, out + [c], false)
            else if IsSeparator(c) && out != "" && !lastDash then Squeeze(later, out + "-", true)
            else Squeeze(later, out, lastDash)
  {
    assert ([c] + later)[1..] == later;
    assert c in "-_ ." <==> IsSeparator(c) by {
      assert |"-_ ."| == 4 && "-_ ."[0] == '-' && "-_ ."[1] == '_' && "-_ ."[2] == ' ' && "-_ ."[3] == '.';
    }
  }

  /** Cut short of a dash at its end, the squeezed text is what was there, grown by the words that are left. */
  lemma {:induction false} SqueezeGrows(s: string, out: string, lastDash: bool)
    requires AllSlugChars(out) && (lastDash <==> out != "" && out[|out| - 1] == '-')
    ensures var pieces := Between(s);
            Undashed(Squeeze(s, out, lastDash)) == Grown(out, lastDash, Letters(pieces[0]), Words(pieces[1..]))
    decreases |s|
  {
    if s == "" {
      assert out + "" == out;
    } else {
      var c, later := s[0], Between(s[1..]);
      var first, rest := Letters(later[0]), Words(later[1..]);
      assert s == [c] + s[1..];
      SqueezeStep(c, s[1..], out, lastDash);
      FirstPiece(c, s[1..]);
      hide Undashed, Squeeze, Between, Letters, Words, Grown;
      if 'a' <= c <= 'z' || '0' <= c <= '9' {
        SqueezeGrows(s[1..], out + [c], false);
        GrowByLetter(out, lastDash, c, first, rest);
      } else if IsSeparator(c) && out != "" && !lastDash {
        SqueezeGrows(s[1..], out + "-", true);
        GrowByDash(out, first, rest);
      } else {
        SqueezeGrows(s[1..], out, lastDash);
        GrowByNothing(out, lastDash, first, rest);
      }
    }
  }

  /** The words of a text and those of the text after its first character. */
  lemma {:induction false} FirstPiece(c: char, s: string)
    ensures var pieces, later := Between([c] + s), Between(s);
            var first, rest := Letters(later[0]), Words(later[1..]);
            if IsSeparator(c) then Letters(pieces[0]) == "" && Words(pieces[1..]) == (if first == "" then [] else [first]) + rest
            else Words(pieces[1..]) == rest &&
                 Letters(pieces[0]) == (if 'a' <= c <= 'z' || '0' <= c <= '9' then [c] else "") + first
  {
    var pieces, later := Between([c] + s), Between(s);
    assert ([c] + s)[1..] == s;
    if IsSeparator(c) {
      assert pieces[0] == "" && pieces[1..] == later;
    } else {
      assert pieces[0] == [c] + later[0] && pieces[0][1..] == later[0] && pieces[1..] == later[1..];
    }
  }

  /** A separator at the start or after a dash adds nothing, and nor does any other character. */
  lemma {:induction false} GrowByNothing(out: string, lastDash: bool, first: string, rest: seq<string>)
    requires lastDash ==> out != ""
    ensures var words := (if first == "" then [] else [first]) + rest;
            lastDash || out == "" ==> Grown(out, lastDash, "", words) == Grown(out, lastDash, first, rest)
    ensures "" + first == first
  {
    var words := (if first == "" then [] else [first]) + rest;
    GrowFromNothing(first, rest);
    assert [] + words == words && "" + first == first;
  }

  lemma {:induction false} GrowByLetter(out: string, lastDash: bool, c: char, first: string, rest: seq<string>)
    requires lastDash ==> out != ""
    ensures Grown(out + [c], false, first, rest) == Grown(out, lastDash, [c] + first, rest)
  {
    var word := [c] + first;
    assert out + [c] + first == out + word;
    if lastDash {
      assert ([word] + rest)[0] == word && ([word] + rest)[1..] == rest;
      assert out + (word + "-" + Dashed(rest)) == out + word + "-" + Dashed(rest);
    }
  }

  lemma {:induction false} GrowByDash(out: string, first: string, rest: seq<string>)
    requires out != ""
    ensures var words := (if first == "" then [] else [first]) + rest;
            Grown(out + "-", true, first, rest) == Grown(out, false, "", words)
  {
    assert (out + "-")[..|out|] == out && out + "" == out;
  }

  lemma {:induction false} GrowFromNothing(first: string, rest: seq<string>)
    ensures var words := (if first == "" then [] else [first]) + rest;
            Grown("", false, first, rest) == Dashed(words) && Grown("", false, "", words) == Dashed(words)
  {
    var words := (if first == "" then [] else [first]) + rest;
    assert "" + first == first && "" + "" == "";
    if first != "" {
      assert words[0] == first && words[1..] == rest;
    } else {
      assert words == rest;
    }
  }

  predicate NoDashAtEnds(s: string) {
    s != "" ==> s[0] != '-' && s[|s| - 1] != '-'
  }

  lemma {:induction false} LettersAreNoDash(w: string)
    ensures forall i :: 0 <= i < |Letters(w)| ==> Letters(w)[i] != '-'
    decreases |w|
  {
    if w != "" {
      LettersAreNoDash(w[1..]);
    }
  }

  lemma {:induction false} WordsHaveEnds(pieces: seq<string>)
    ensures var words := Words(pieces); words != [] ==> Dashed(words) != "" && NoDashAtEnds(Dashed(words))
    decreases |pieces|
  {
    if pieces != [] {
      WordsHaveEnds(pieces[1..]);
      LettersAreNoDash(pieces[0]);
      var w, rest := Letters(pieces[0]), Words(pieces[1..]);
      if w != "" {
        assert ([w] + rest)[0] == w && ([w] + rest)[1..] == rest;
      } else {
        assert [] + rest == rest;
      }
    }
  }

  /** Within 48 characters, cut if need be and then without dashes at its ends. */
  function Fitting(s: string): string {
    if |s| <= 48 then s else Trim(s[..48], {'-'})
  }

  /** A slug of words is the words as far as they fit, behind "s-" if they begin with a digit, or "src" if there are none. */
  lemma {:induction false} SlugOfWords(words: string)
    requires AllSlugChars(words) && NoDashAtEnds(words)
    ensures ClipSlug(words) ==
            if words == "" then "src"
            else if 'a' <= words[0] <= 'z' then Fitting(words)
            else Fitting("s-" + Fitting(words))
  {
    hide Trim, Cut, Fitting, AllSlugChars, IsAlnum;
    if words == "" {
      EmptyTrims();
    } else {
      assert Trim(words, DASH) == words;
      FittingSlug(words);
      var t := Cut(words);
      assert Trim(t, DASH) == t;
      BehindS(t);
      FittingSlug("s-" + t);
      assert 'a' <= words[0] <= 'z' ==> ValidSlug(t);
      assert ValidSlug(Cut("s-" + t));
    }
  }

  lemma {:induction false} EmptyTrims()
    ensures Trim("", DASH) == ""
  {
  }

  lemma {:induction false} BehindS(t: string)
    requires t != "" && AllSlugChars(t)
    ensures var u := "s-" + t;
            AllSlugChars(u) && |u| == |t| + 2 && u[0] == 's' && u[|u| - 1] == t[|t| - 1]
  {
    var u := "s-" + t;
    assert u[0] == 's' && u[1] == '-';
    assert forall i :: 2 <= i < |u| ==> u[i] == t[i - 2];
  }

  lemma {:induction false} FittingSlug(s: string)
    requires s != "" && AllSlugChars(s) && s[0] != '-' && s[|s| - 1] != '-'
    ensures Cut(s) == Fitting(s) && Fitting(s) <= s && Fitting(s) != "" && |Fitting(s)| <= 48 && AllSlugChars(Fitting(s))
    ensures Fitting(s)[0] == s[0] && Fitting(s)[|Fitting(s)| - 1] != '-'
  {
    hide Trim, AllSlugChars;
    if |s| > 48 {
      var t := s[..48];
      assert t[0] == s[0];
      var r := Trim(t, DASH);
      assert r <= t && r != "" && r[|r| - 1] !in DASH;
      PrefixChars(r, s);
    }
  }

  lemma {:induction false} TrimUndashed(s: string)
    requires NoDashAtEnds(Undashed(s))
    ensures Trim(s, DASH) == Undashed(s)
  {
  }

  lemma {:induction false} DashedChars(pieces: seq<string>)
    ensures AllSlugChars(Dashed(Words(pieces)))
    decreases |pieces|
  {
    if pieces != [] {
      DashedChars(pieces[1..]);
      LettersAreAlnum(pieces[0]);
      var w, rest := Letters(pieces[0]), Words(pieces[1..]);
      if w != "" {
        assert ([w] + rest)[0] == w && ([w] + rest)[1..] == rest;
        SlugChars(w, "-" + Dashed(rest));
      } else {
        assert [] + rest == rest;
      }
    }
  }

  lemma {:induction false} LettersAreAlnum(w: string)
    ensures AllSlugChars(Letters(w))
    decreases |w|
  {
    if w != "" {
      LettersAreAlnum(w[1..]);
    }
  }

  /**
   The slug of a name is its words, the letters and digits between separators, with one dash between words, as far
   as they fit in 48 characters; behind "s-" if they begin with a digit, and "src" if there are none.
   */
  lemma {:induction false} SlugShowsWords(name: string)
    ensures var words := Dashed(Words(Between(LowerAll(Trim(name, SPACES)))));
            Slugified(name) ==
            if words == "" then "src"
            else if 'a' <= words[0] <= 'z' then Fitting(words)
            else Fitting("s-" + Fitting(words))
  {
    var s := LowerAll(Trim(name, SPACES));
    var pieces := Between(s);
    var squeezed, words := Squeeze(s, "", false), Dashed(Words(pieces));
    hide Trim, LowerAll, ClipSlug, Squeeze, Fitting, AllSlugChars;
    NothingYet();
    SqueezeGrows(s, "", false);
    GrowFromNothing(Letters(pieces[0]), Words(pieces[1..]));
    WordsHaveEnds(pieces);
    DashedChars(pieces);
    assert Undashed(squeezed) == words;
    TrimUndashed(squeezed);
    SlugOfWords(words);
  }

  lemma {:induction false} NothingYet()
    ensures AllSlugChars("")
  {
  }
}
