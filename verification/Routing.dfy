/**
 Which provider serves a model and with which credentials, in which order (internal/proxy/proxy.go,
 pickCredentials, resolveProviderChain and openaiSourceHops). The Cursor model catalogue is a parameter.
 */
module Routing {
  import opened Chat
  import opened Failover
  import opened Sequences
  import opened Slugs

  // ---------------------------------------------------------------------------------------------
  // Credentials
  // ---------------------------------------------------------------------------------------------

  function Accounts(xs: seq<Cred>): seq<Cred> {
    Filter(xs, (c: Cred) => !c.apiKey)
  }

  function Keys(xs: seq<Cred>): seq<Cred> {
    Filter(xs, (c: Cred) => c.apiKey)
  }

  /** An OpenAI source serves only its own models; Cursor's OAuth accounts come before its API keys. */
  function Eligible(provider: string, model: string, all: seq<Cred>): seq<Cred> {
    if provider == "openai" then Filter(all, (c: Cred) => Owns(c.source, model))
    else if provider == "cursor" then Accounts(all) + Keys(all)
    else all
  }

  /** The last credential with an id. */
  function LastHit(xs: seq<Cred>, id: string): (r: Option<Cred>)
    ensures r.Some? ==> r.value in xs && r.value.id == id
    ensures r.None? <==> forall c :: c in xs ==> c.id != id
  {
    if xs == [] then None
    else
      assert xs == xs[..|xs| - 1] + [xs[|xs| - 1]];
      if xs[|xs| - 1].id == id then Some(xs[|xs| - 1]) else LastHit(xs[..|xs| - 1], id)
  }

  function Others(xs: seq<Cred>, id: string): seq<Cred> {
    Filter(xs, (c: Cred) => c.id != id)
  }

  function Arranged(xs: seq<Cred>, preferred: string): seq<Cred> {
    var hit := LastHit(xs, preferred);
    if preferred == "" || hit.None? then xs else [hit.value] + Others(xs, preferred)
  }

  method OwnSources(all: seq<Cred>, model: string) returns (matched: seq<Cred>)
    ensures matched == Filter(all, (c: Cred) => Owns(c.source, model))
  {
    hide SourceSlug;
    matched := [];
    for i := 0 to |all|
      invariant matched == Filter(all[..i], (c: Cred) => Owns(c.source, model))
    {
      assert all[..i + 1][..i] == all[..i];
      if SourceSlug(all[i].source) + "/" <= model {
        matched := matched + [all[i]];
      }
    }
    assert all[..|all|] == all;
  }

  method AccountsThenKeys(all: seq<Cred>) returns (r: seq<Cred>)
    ensures r == Accounts(all) + Keys(all)
  {
    var oauth: seq<Cred>, keys: seq<Cred> := [], [];
    for i := 0 to |all|
      invariant oauth == Accounts(all[..i]) && keys == Keys(all[..i])
    {
      assert all[..i + 1][..i] == all[..i];
      if all[i].apiKey {
        keys := keys + [all[i]];
      } else {
        oauth := oauth + [all[i]];
      }
    }
    assert all[..|all|] == all;
    r := oauth + keys;
  }

  method PutFirst(all: seq<Cred>, preferred: string) returns (r: seq<Cred>)
    requires preferred != ""
    ensures r == Arranged(all, preferred)
  {
    var hit: Option<Cred>, rest: seq<Cred> := None, [];
    for i := 0 to |all|
      invariant hit == LastHit(all[..i], preferred) && rest == Others(all[..i], preferred)
    {
      assert all[..i + 1][..i] == all[..i];
      if all[i].id == preferred {
        hit := Some(all[i]);
      } else {
        rest := rest + [all[i]];
      }
    }
    assert all[..|all|] == all;
    if hit.None? {
      return all;
    }
    r := [hit.value] + rest;
  }

  method PickCredentials(provider: string, model: string, vault: seq<Cred>, stickyID: string, remembered: string)
    returns (r: seq<Cred>)
    ensures r == Arranged(Eligible(provider, model, vault), if stickyID != "" then stickyID else remembered)
  {
    hide Filter, LastHit, Others, Owns;
    r := vault;
    if provider == "openai" {
      r := OwnSources(r, model);
    }
    if provider == "cursor" {
      r := AccountsThenKeys(r);
    }
    if |r| == 0 {
      return;
    }
    var preferred := stickyID;
    if preferred == "" {
      preferred := remembered;
    }
    if preferred == "" {
      return;
    }
    r := PutFirst(r, preferred);
  }

  /** How many credentials have an id. */
  function Named(xs: seq<Cred>, id: string): nat {
    if xs == [] then 0 else Named(xs[..|xs| - 1], id) + if xs[|xs| - 1].id == id then 1 else 0
  }

  lemma {:induction false} OthersCount(xs: seq<Cred>, id: string)
    ensures |Others(xs, id)| + Named(xs, id) == |xs|
    ensures LastHit(xs, id).Some? <==> Named(xs, id) > 0
    decreases |xs|
  {
    if xs != [] {
      OthersCount(xs[..|xs| - 1], id);
    }
  }

  lemma {:induction false} NoneNamed(xs: seq<Cred>, id: string)
    requires Named(xs, id) == 0
    ensures Others(xs, id) == xs
    decreases |xs|
  {
    if xs != [] {
      NoneNamed(xs[..|xs| - 1], id);
      assert xs == xs[..|xs| - 1] + [xs[|xs| - 1]];
    }
  }

  lemma {:induction false} OneNamed(xs: seq<Cred>, id: string)
    requires Named(xs, id) == 1
    ensures LastHit(xs, id).Some? && multiset([LastHit(xs, id).value] + Others(xs, id)) == multiset(xs)
    decreases |xs|
  {
    var front, last := xs[..|xs| - 1], xs[|xs| - 1];
    assert xs == front + [last];
    if last.id == id {
      NoneNamed(front, id);
    } else {
      OneNamed(front, id);
      assert [LastHit(xs, id).value] + Others(xs, id) == ([LastHit(front, id).value] + Others(front, id)) + [last];
    }
  }

  /** The preferred credential comes first; the list is a permutation of the eligible one exactly when at most one has its id. */
  lemma {:induction false} ArrangingKeepsAll(xs: seq<Cred>, preferred: string)
    requires preferred != ""
    ensures multiset(Arranged(xs, preferred)) == multiset(xs) <==> Named(xs, preferred) <= 1
    ensures Named(xs, preferred) > 0 ==>
              var r := Arranged(xs, preferred); |r| > 0 && r[0].id == preferred && r[1..] == Others(xs, preferred)
  {
    OthersCount(xs, preferred);
    if Named(xs, preferred) == 1 {
      OneNamed(xs, preferred);
    }
    assert |multiset(xs)| == |xs| && |multiset(Arranged(xs, preferred))| == |Arranged(xs, preferred)|;
    if Named(xs, preferred) > 0 {
      assert ([LastHit(xs, preferred).value] + Others(xs, preferred))[1..] == Others(xs, preferred);
    }
  }

  /** The vault keeps one credential an id. */
  predicate DistinctIds(xs: seq<Cred>) {
    forall i, j :: 0 <= i < j < |xs| ==> xs[i].id != xs[j].id
  }

  lemma {:induction false} AtMostOneNamed(xs: seq<Cred>, id: string)
    requires DistinctIds(xs)
    ensures Named(xs, id) == 0 <==> forall c :: c in xs ==> c.id != id
    ensures Named(xs, id) <= 1
    decreases |xs|
  {
    if xs != [] {
      var front, last := xs[..|xs| - 1], xs[|xs| - 1];
      AtMostOneNamed(front, id);
      assert xs == front + [last];
    }
  }

  lemma {:induction false} FilterDistinct(xs: seq<Cred>, keep: Cred -> bool)
    requires DistinctIds(xs)
    ensures DistinctIds(Filter(xs, keep))
    decreases |xs|
  {
    if xs != [] {
      var front, last := xs[..|xs| - 1], xs[|xs| - 1];
      FilterDistinct(front, keep);
      forall i | 0 <= i < |Filter(front, keep)|
        ensures Filter(front, keep)[i].id != last.id
      {
        assert Filter(front, keep)[i] in front;
      }
    }
  }

  lemma {:induction false} EligibleDistinct(provider: string, model: string, all: seq<Cred>)
    requires DistinctIds(all)
    ensures DistinctIds(Eligible(provider, model, all))
  {
    if provider == "openai" {
      FilterDistinct(all, (c: Cred) => Owns(c.source, model));
    } else if provider == "cursor" {
      var accounts, keys := Accounts(all), Keys(all);
      FilterDistinct(all, (c: Cred) => !c.apiKey);
      FilterDistinct(all, (c: Cred) => c.apiKey);
      forall i, j | 0 <= i < |accounts| && 0 <= j < |keys|
        ensures accounts[i].id != keys[j].id
      {
        assert accounts[i] in all && keys[j] in all && accounts[i] != keys[j];
      }
    }
  }

  /** So picking never loses a credential of the vault: a permutation of the eligible list, the preferred one first. */
  lemma {:induction false} PickingKeepsAll(provider: string, model: string, vault: seq<Cred>, preferred: string)
    requires DistinctIds(vault)
    ensures var eligible := Eligible(provider, model, vault);
            && multiset(Arranged(eligible, preferred)) == multiset(eligible)
            && (preferred != "" && (exists c :: c in eligible && c.id == preferred) ==>
                  |Arranged(eligible, preferred)| > 0 && Arranged(eligible, preferred)[0].id == preferred &&
                  Arranged(eligible, preferred)[1..] == Others(eligible, preferred))
  {
    hide Eligible, Arranged, Others;
    EligibleDistinct(provider, model, vault);
    var eligible := Eligible(provider, model, vault);
    AtMostOneNamed(eligible, preferred);
    if preferred == "" {
      NothingPreferred(eligible);
    } else {
      ArrangingKeepsAll(eligible, preferred);
    }
  }

  lemma {:induction false} NothingPreferred(xs: seq<Cred>)
    ensures Arranged(xs, "") == xs
  {
  }

  lemma {:induction false} SplitLast(xs: seq<Cred>)
    requires |xs| > 0
    ensures var front, last := xs[..|xs| - 1], xs[|xs| - 1];
            && Accounts(xs) == Accounts(front) + (if last.apiKey then [] else [last])
            && Keys(xs) == Keys(front) + if last.apiKey then [last] else []
  {
  }

  /** Splitting by kind loses nothing. */
  lemma {:induction false} SplitKeepsAll(xs: seq<Cred>)
    ensures multiset(Accounts(xs) + Keys(xs)) == multiset(xs)
    decreases |xs|
  {
    if xs == [] {
      NothingToSplit();
    } else {
      hide Accounts, Keys;
      var front, last := xs[..|xs| - 1], xs[|xs| - 1];
      SplitKeepsAll(front);
      SplitLast(xs);
      assert xs == front + [last];
    }
  }

  lemma {:induction false} NothingToSplit()
    ensures Accounts([]) == [] && Keys([]) == []
  {
  }

  /** Cursor offers every credential once, accounts before keys. */
  lemma {:induction false} CursorAccountsFirst(model: string, all: seq<Cred>)
    ensures multiset(Eligible("cursor", model, all)) == multiset(all)
    ensures var r := Eligible("cursor", model, all); forall i, j :: 0 <= i < j < |r| && r[i].apiKey ==> r[j].apiKey
  {
    SplitKeepsAll(all);
    var accounts, keys := Accounts(all), Keys(all);
    AllPass(accounts, keys);
  }

  lemma {:induction false} AllPass(accounts: seq<Cred>, keys: seq<Cred>)
    requires (forall c :: c in accounts ==> !c.apiKey) && (forall c :: c in keys ==> c.apiKey)
    ensures var r := accounts + keys; forall i, j :: 0 <= i < j < |r| && r[i].apiKey ==> r[j].apiKey
  {
    var r := accounts + keys;
    assert forall i :: 0 <= i < |r| ==> r[i] == if i < |accounts| then accounts[i] else keys[i - |accounts|];
    assert forall i :: 0 <= i < |accounts| ==> accounts[i] in accounts;
    assert forall i :: 0 <= i < |keys| ==> keys[i] in keys;
  }

  // ---------------------------------------------------------------------------------------------
  // Hops
  // ---------------------------------------------------------------------------------------------

  datatype Hop = Hop(provider: string, model: string)

  /** What the chain is resolved against: the vault, the Cursor catalogue and the executors' model lists. */
  datatype Fob = Fob(
    connected: string -> bool, sources: seq<Source>, grokFailover: bool,
    restore: string -> string, toWire: string -> string, toNative: string -> Option<Hop>, listed: string -> Option<string>)

  predicate Starts(model: string, prefix: string) {
    prefix <= model
  }

  predicate Ends(model: string, suffix: string) {
    |suffix| <= |model| && model[|model| - |suffix|..] == suffix
  }

  predicate Contains(model: string, part: string) {
    exists i :: 0 <= i <= |model| - |part| && part <= model[i..]
  }

  function StripCursor(model: string): string {
    if Starts(model, "cursor/") then model[7..] else model
  }

  /** Models only Cursor serves, unless the request forces Cursor anyway. */
  predicate CursorOnly(model: string, restored: string) {
    || Ends(model, "-fast") || Ends(restored, "-fast") || Starts(restored, "composer-") || Starts(restored, "cursor-")
    || Starts(restored, "gemini-") || Starts(restored, "kimi-") || Starts(restored, "glm-") || restored == "cursor-auto"
  }

  const PROVIDERS: set<string> := {"claude", "codex", "grok", "cursor", "openai", "opencode"}

  /** A native hop, with Cursor behind it when it serves the same model. */
  function NativeThenCursor(fob: Fob, provider: string, model: string, failover: bool): seq<Hop> {
    [Hop(provider, model)] +
    if failover && fob.connected("cursor") && fob.toWire(model) != "" then [Hop("cursor", fob.toWire(model))] else []
  }

  /** Cursor first, then the native provider of a grok model when that failover is on. */
  function CursorThenNative(fob: Fob, restored: string): seq<Hop> {
    if !fob.connected("cursor") then []
    else
      [Hop("cursor", restored)] +
      if fob.grokFailover && Contains(restored, "grok") && fob.toNative(restored).Some? && fob.connected(fob.toNative(restored).value.provider)
      then [fob.toNative(restored).value] else []
  }

  function ResolveChain(fob: Fob, raw: string): seq<Hop> {
    if Starts(raw, "opencode/") then
      if fob.connected("opencode") then [Hop("opencode", raw)] else []
    else if exists s :: s in fob.sources && Owns(s, raw) then [Hop("openai", raw)]
    else
      var model := StripCursor(raw);
      var restored := fob.restore(model);
      if Starts(raw, "cursor/") || CursorOnly(model, restored) then CursorThenNative(fob, restored)
      else if Starts(model, "claude-") then NativeThenCursor(fob, "claude", model, true)
      else if Starts(model, "gpt-") || Starts(model, "o1") || Starts(model, "o3") || Starts(model, "o4") then
        NativeThenCursor(fob, "codex", model, true)
      else if Starts(model, "grok-") then NativeThenCursor(fob, "grok", model, fob.grokFailover)
      else if model in PROVIDERS then [Hop(model, model)]
      else if fob.listed(model).Some? then [Hop(fob.listed(model).value, model)]
      else []
  }

  /** The catalogue maps a wire id to a native provider, never back to Cursor, and lists no added source. */
  ghost predicate Sensible(fob: Fob) {
    && (forall m :: fob.toNative(m).Some? ==> fob.toNative(m).value.provider in {"claude", "codex", "grok"})
    && (forall m :: fob.listed(m).Some? ==> fob.listed(m).value !in {"openai", "opencode"})
  }

  /** Every chain has at most two hops, to different providers, and a second hop only behind or before Cursor. */
  lemma {:induction false} ChainsAreShort(fob: Fob, raw: string)
    requires Sensible(fob)
    ensures var chain := ResolveChain(fob, raw);
            |chain| <= 2 && (|chain| == 2 ==> (chain[0].provider == "cursor") != (chain[1].provider == "cursor"))
  {
    hide CursorOnly, Starts, Contains, StripCursor;
  }

  function SourcesOf(creds: seq<Cred>): (r: seq<Source>)
    ensures |r| == |creds| && forall i :: 0 <= i < |creds| ==> r[i] == creds[i].source
  {
    seq(|creds|, i requires 0 <= i < |creds| => creds[i].source)
  }

  lemma {:induction false} OnlyOwner(creds: seq<Cred>, i: nat, model: string)
    requires i < |creds| && Owns(creds[i].source, model)
    requires forall j :: 0 <= j < |creds| && Owns(creds[j].source, model) ==> j == i
    ensures Filter(creds, (c: Cred) => Owns(c.source, model)) == [creds[i]]
    decreases |creds|
  {
    hide Owns;
    var front := creds[..|creds| - 1];
    if i < |front| {
      OnlyOwner(front, i, model);
    } else {
      NoOwner(front, model);
    }
  }

  lemma {:induction false} NoOwner(creds: seq<Cred>, model: string)
    requires forall j :: 0 <= j < |creds| ==> !Owns(creds[j].source, model)
    ensures Filter(creds, (c: Cred) => Owns(c.source, model)) == []
    decreases |creds|
  {
    hide Owns;
    if creds != [] {
      NoOwner(creds[..|creds| - 1], model);
    }
  }

  /** A model that a source owns goes to the sources alone, and there to that source's credential alone. */
  lemma {:induction false} SourceModelHasOneCredential(fob: Fob, creds: seq<Cred>, i: nat, model: string)
    requires fob.sources == SourcesOf(creds) && Sound(fob.sources) && i < |creds| && Owns(creds[i].source, model)
    ensures ResolveChain(fob, model) == [Hop("openai", model)]
    ensures Eligible("openai", model, creds) == [creds[i]]
  {
    hide Owns, Sound, CursorOnly, Contains, StripCursor;
    forall j | 0 <= j < |creds| && Owns(creds[j].source, model)
      ensures j == i
    {
      ModelHasOneOwner(fob.sources, i, j, model);
    }
    ModelHasOneOwner(fob.sources, i, i, model);
    assert fob.sources[i] in fob.sources;
    OnlyOwner(creds, i, model);
  }

  /** An id asked of Cursor or OpenCode never reaches an added source. */
  lemma {:induction false} PrefixesAreNotCaptured(fob: Fob, model: string)
    requires Sound(fob.sources) && Sensible(fob) && (Starts(model, "cursor/") || Starts(model, "opencode/"))
    ensures forall h :: h in ResolveChain(fob, model) ==> h.provider != "openai"
  {
    hide Owns, Sound, CursorOnly, Contains, StripCursor;
    forall i | 0 <= i < |fob.sources|
      ensures !Owns(fob.sources[i], model)
    {
      if Owns(fob.sources[i], model) {
        ModelHasOneOwner(fob.sources, i, i, model);
      }
    }
  }

  // ---------------------------------------------------------------------------------------------
  // Which provider serves which model
  // ---------------------------------------------------------------------------------------------

  predicate Claimed(fob: Fob, model: string) {
    exists s :: s in fob.sources && Owns(s, model)
  }

  const CURSOR_FAMILIES: set<string> := {"composer-", "cursor-", "gemini-", "kimi-", "glm-"}

  /** Cursor's own: of one of its families, or a fast variant under either name. */
  predicate CursorsOwn(model: string, restored: string) {
    OfFamily(restored, CURSOR_FAMILIES) || IsFast(model) || IsFast(restored)
  }

  predicate IsFast(model: string) {
    |model| >= 5 && model[|model| - 5..] == "-fast"
  }

  const CODEX_FAMILIES: set<string> := {"gpt-", "o1", "o3", "o4"}

  predicate OfFamily(model: string, families: set<string>) {
    exists p :: p in families && p <= model
  }

  lemma {:induction false} OwnIsCursorOnly(model: string, restored: string)
    ensures CursorsOwn(model, restored) <==> CursorOnly(model, restored)
  {
    CursorFamily(restored);
    hide OfFamily;
    assert restored == "cursor-auto" ==> "cursor-" <= restored;
  }

  lemma {:induction false} CursorFamily(model: string)
    ensures OfFamily(model, CURSOR_FAMILIES) <==>
            Starts(model, "composer-") || Starts(model, "cursor-") || Starts(model, "gemini-") || Starts(model, "kimi-") ||
            Starts(model, "glm-")
  {
    assert "composer-" in CURSOR_FAMILIES && "cursor-" in CURSOR_FAMILIES && "gemini-" in CURSOR_FAMILIES;
    assert "kimi-" in CURSOR_FAMILIES && "glm-" in CURSOR_FAMILIES;
  }

  lemma {:induction false} CodexFamily(model: string)
    ensures OfFamily(model, CODEX_FAMILIES) <==> Starts(model, "gpt-") || Starts(model, "o1") || Starts(model, "o3") || Starts(model, "o4")
  {
    assert "gpt-" in CODEX_FAMILIES && "o1" in CODEX_FAMILIES && "o3" in CODEX_FAMILIES && "o4" in CODEX_FAMILIES;
  }

  /** The hops behind a native one: Cursor's name for the model, if Cursor is connected and has one. */
  function BehindNative(fob: Fob, model: string): seq<Hop> {
    if !fob.connected("cursor") || fob.toWire(model) == "" then [] else [Hop("cursor", fob.toWire(model))]
  }

  /**
   A model that no source claims and that is neither asked of OpenCode or Cursor nor Cursor's own goes to the
   provider of its family, with Cursor behind it if Cursor has it too; behind grok only when that failover is on.
   A provider's name goes to that provider, any other model to the first executor that lists it, or nowhere.
   */
  lemma {:induction false} NativeModelsGoHome(fob: Fob, model: string)
    requires !Claimed(fob, model) && !("opencode/" <= model) && !("cursor/" <= model) && !CursorsOwn(model, fob.restore(model))
    ensures var chain := ResolveChain(fob, model);
            && ("claude-" <= model ==> chain == [Hop("claude", model)] + BehindNative(fob, model))
            && (OfFamily(model, CODEX_FAMILIES) ==> chain == [Hop("codex", model)] + BehindNative(fob, model))
            && ("grok-" <= model ==> chain == [Hop("grok", model)] + if fob.grokFailover then BehindNative(fob, model) else [])
            && (!("claude-" <= model) && !OfFamily(model, CODEX_FAMILIES) && !("grok-" <= model) ==>
                  chain == if model in {"claude", "codex", "grok", "cursor", "openai", "opencode"} then [Hop(model, model)]
                           else if fob.listed(model).Some? then [Hop(fob.listed(model).value, model)] else [])
  {
    hide Owns, CursorOnly, CursorsOwn, OfFamily;
    OwnIsCursorOnly(model, fob.restore(model));
    CodexFamily(model);
    FamiliesApart(model);
    assert StripCursor(model) == model;
    hide Starts;
  }

  lemma {:induction false} FamiliesApart(model: string)
    ensures !("claude-" <= model && OfFamily(model, CODEX_FAMILIES)) && !("grok-" <= model && OfFamily(model, CODEX_FAMILIES))
    ensures !("claude-" <= model && "grok-" <= model)
    ensures Starts(model, "claude-") == ("claude-" <= model) && Starts(model, "grok-") == ("grok-" <= model)
    ensures Starts(model, "opencode/") == ("opencode/" <= model) && Starts(model, "cursor/") == ("cursor/" <= model)
  {
    CodexFamily(model);
    hide OfFamily;
    if OfFamily(model, CODEX_FAMILIES) {
      assert (model[0] == 'g' && model[1] == 'p') || model[0] == 'o';
    }
  }

  /**
   A model asked of Cursor, or Cursor's own, goes to Cursor under its restored name, or nowhere if Cursor is not
   connected; behind it goes the native model if its name has grok in it, that failover is on, it maps to one and
   that provider is connected.
   */
  lemma {:induction false} CursorModelsGoToCursor(fob: Fob, raw: string, model: string)
    requires !Claimed(fob, raw) && !("opencode/" <= raw)
    requires raw == "cursor/" + model || (raw == model && !("cursor/" <= raw) && CursorsOwn(model, fob.restore(model)))
    ensures var restored := fob.restore(model);
            var native := fob.toNative(restored);
            var behind := fob.grokFailover && Around(restored, "grok") &&
                          native.Some? && fob.connected(native.value.provider);
            ResolveChain(fob, raw) ==
            if !fob.connected("cursor") then []
            else [Hop("cursor", restored)] + if behind then [native.value] else []
  {
    hide Owns, CursorOnly, CursorsOwn;
    OwnIsCursorOnly(model, fob.restore(model));
    PartInside(fob.restore(model), "grok");
    hide Contains, Around;
    assert StripCursor(raw) == model;
  }

  lemma {:induction false} PartInside(s: string, part: string)
    ensures Contains(s, part) <==> Around(s, part)
  {
    if Contains(s, part) {
      var i :| 0 <= i <= |s| - |part| && part <= s[i..];
      assert s == s[..i] + part + s[i + |part|..];
    }
    if Around(s, part) {
      var a, b :| s == a + part + b;
      assert s[|a|..] == part + b;
    }
  }

  ghost predicate Around(s: string, part: string) {
    exists a, b :: s == a + part + b
  }

  /** A model asked of OpenCode goes there or nowhere. */
  lemma {:induction false} OpenCodeModelsGoThere(fob: Fob, model: string)
    ensures ResolveChain(fob, "opencode/" + model) ==
            if fob.connected("opencode") then [Hop("opencode", "opencode/" + model)] else []
  {
    assert "opencode/" <= "opencode/" + model;
  }
}
