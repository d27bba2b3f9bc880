/**
 The names that sanitizeInputIDs of internal/provider/codex/sanitize.go gives, in full: the prefix of each kind, what
 is dropped, and which of the hashed names is taken when the name wanted is too long or another item's.
 */
module CodexNames {
  import opened CodexIds
  import opened Sequences

  /** The item goes out; long ids of encrypted reasoning do not. */
  predicate GoesOut(x: Item) {
    !(x.kind == "reasoning" && |x.id| > 64 && x.encrypted != "")
  }

  const PREFIXES: map<string, string> := map[
    "message" := "msg", "reasoning" := "rs", "function_call" := "fc",
    "custom_tool_call" := "ctc", "custom_tool_call_output" := "ctco"]

  /** The name an item asks for: its id, behind the prefix of its kind unless it begins with it. */
  function Asked(x: Item): string {
    if x.id != "" && x.kind in PREFIXES && !(PREFIXES[x.kind] <= x.id) then PREFIXES[x.kind] + "_" + x.id else x.id
  }

  function Hash(digest: (string, nat) -> string, name: string, attempt: nat): string {
    (if |name| <= 47 then name else name[..47]) + "_" + digest(name, attempt)
  }

  /** Another item asks for the name and has it as its own id. */
  predicate HeldByAnother(xs: seq<Item>, x: Item) {
    Asked(x) != x.id && exists i :: 0 <= i < |xs| && xs[i].id == Asked(x) && Asked(xs[i]) == xs[i].id
  }

  lemma {:induction false} AskedIsNormal(x: Item)
    ensures Asked(x) == Normal(x)
  {
    PrefixesAre(x.kind);
    hide Prefix;
  }

  lemma {:induction false} PrefixesAre(kind: string)
    ensures Prefix(kind) == if kind in PREFIXES then PREFIXES[kind] else ""
    ensures kind in PREFIXES ==> PREFIXES[kind] != ""
  {
  }

  lemma {:induction false} KeptGoOut(input: seq<Item>)
    ensures Kept(input) == Filter(input, GoesOut)
    decreases |input|
  {
    if input != [] {
      KeptGoOut(input[..|input| - 1]);
    }
  }

  // ---------------------------------------------------------------------------------------------
  // Hashed names
  // ---------------------------------------------------------------------------------------------

  /** The first of the hashed names of an id that is not in use. */
  ghost predicate FirstHash(digest: (string, nat) -> string, occupied: set<string>, id: string, name: string) {
    exists a: nat :: name == Hash(digest, id, a) && forall j: nat :: j < a ==> Hash(digest, id, j) in occupied
  }

  ghost predicate AllFirst(digest: (string, nat) -> string, ns: Names) {
    && (forall k :: k in ns.mapped ==> FirstHash(digest, ns.occupied, k, ns.mapped[k]))
    && (forall k :: k in ns.collision ==> FirstHash(digest, ns.occupied, k, ns.collision[k]))
  }

  lemma {:induction false} FreshIsFirst(digest: (string, nat) -> string, id: string, occupied: set<string>)
    requires Spread(digest, |occupied|)
    ensures FirstHash(digest, occupied, id, Fresh(digest, id, occupied))
  {
    var a := Probe(digest, id, 0, occupied);
    assert forall j: nat :: HashSuffix(digest, id, j) == Hash(digest, id, j);
    assert Fresh(digest, id, occupied) == Hash(digest, id, a);
  }

  lemma {:induction false} FirstStays(digest: (string, nat) -> string, occupied: set<string>, more: set<string>, id: string, name: string)
    requires FirstHash(digest, occupied, id, name) && occupied <= more
    ensures FirstHash(digest, more, id, name)
  {
  }

  lemma {:induction false} GrownStaysFirst(digest: (string, nat) -> string, ns: Names, name: string)
    requires AllFirst(digest, ns)
    ensures AllFirst(digest, ns.(occupied := ns.occupied + {name}))
  {
    hide FirstHash;
    var more := ns.occupied + {name};
    forall k | k in ns.mapped
      ensures FirstHash(digest, more, k, ns.mapped[k])
    {
      FirstStays(digest, ns.occupied, more, k, ns.mapped[k]);
    }
    forall k | k in ns.collision
      ensures FirstHash(digest, more, k, ns.collision[k])
    {
      FirstStays(digest, ns.occupied, more, k, ns.collision[k]);
    }
  }

  lemma {:induction false} PlaceStaysFirst(digest: (string, nat) -> string, preserved: set<string>, ns: Names, x: Item)
    requires Spread(digest, |ns.occupied|) && AllFirst(digest, ns)
    ensures AllFirst(digest, Place(digest, preserved, ns, x).1)
  {
    hide FirstHash, Spread, Normal, Fresh;
    var id := Normal(x);
    var name := Fresh(digest, id, ns.occupied);
    FreshIsFirst(digest, id, ns.occupied);
    FirstStays(digest, ns.occupied, ns.occupied + {name}, id, name);
    GrownStaysFirst(digest, ns, name);
  }

  /** Every name in use was in use at the start or is given to an item. */
  ghost predicate Given(base: set<string>, ns: Names, outs: seq<Item>) {
    forall n :: n in ns.occupied ==> n in base || exists i :: 0 <= i < |outs| && outs[i].id == n
  }

  lemma {:induction false} PlaceGives(digest: (string, nat) -> string, preserved: set<string>, ns: Names, x: Item, base: set<string>, outs: seq<Item>)
    requires Spread(digest, |ns.occupied|) && Given(base, ns, outs)
    ensures var (out, ns') := Place(digest, preserved, ns, x); Given(base, ns', outs + [out])
  {
    hide Fresh, Spread, Normal;
    var (out, ns') := Place(digest, preserved, ns, x);
    var all := outs + [out];
    assert all[|outs|] == out;
    forall n | n in ns'.occupied
      ensures n in base || exists i :: 0 <= i < |all| && all[i].id == n
    {
      if n in ns.occupied {
        if n !in base {
          var i :| 0 <= i < |outs| && outs[i].id == n;
          assert all[i].id == n;
        }
      } else {
        assert all[|outs|].id == n;
      }
    }
  }

  lemma {:induction false} AllPlaced(digest: (string, nat) -> string, preserved: set<string>, ns: Names, xs: seq<Item>, base: set<string>)
    requires Spread(digest, |ns.occupied| + |xs|) && AllFirst(digest, ns) && Given(base, ns, [])
    ensures var (outs, ns') := PlaceAll(digest, preserved, ns, xs); AllFirst(digest, ns') && Given(base, ns', outs)
    decreases |xs|
  {
    hide Place, Spread, AllFirst, Given;
    if xs != [] {
      var front := xs[..|xs| - 1];
      SpreadLess(digest, |ns.occupied| + |xs|, |ns.occupied| + |front|);
      AllPlaced(digest, preserved, ns, front, base);
      var (outs, ns') := PlaceAll(digest, preserved, ns, front);
      SpreadLess(digest, |ns.occupied| + |xs|, |ns'.occupied|);
      PlaceStaysFirst(digest, preserved, ns', xs[|xs| - 1]);
      PlaceGives(digest, preserved, ns', xs[|xs| - 1], base, outs);
    }
  }

  lemma {:induction false} NothingGiven(digest: (string, nat) -> string, base: set<string>)
    ensures AllFirst(digest, Names(base, map[], map[])) && Given(base, Names(base, map[], map[]), [])
  {
  }

  // ---------------------------------------------------------------------------------------------
  // The names in full
  // ---------------------------------------------------------------------------------------------

  /** The name is another output item's. */
  predicate InUse(outs: seq<Item>, name: string) {
    exists i :: 0 <= i < |outs| && outs[i].id == name
  }

  /** The first hashed name that no output item has otherwise. */
  ghost predicate Hashes(digest: (string, nat) -> string, outs: seq<Item>, asked: string, name: string) {
    exists a: nat :: name == Hash(digest, asked, a) && forall j: nat :: j < a ==> InUse(outs, Hash(digest, asked, j))
  }

  lemma {:induction false} CollidesIfHeld(input: seq<Item>, x: Item)
    ensures Collides(Preserved(input), x) <==> HeldByAnother(Kept(input), x)
  {
    var kept := Kept(input);
    forall y: Item
      ensures Asked(y) == Normal(y)
    {
      AskedIsNormal(y);
    }
    hide Asked, Normal, Kept;
    if HeldByAnother(kept, x) {
      var i :| 0 <= i < |kept| && kept[i].id == Asked(x) && Asked(kept[i]) == kept[i].id;
      AskedNotEmpty(x);
      assert kept[i] in kept;
    }
  }

  lemma {:induction false} AskedNotEmpty(x: Item)
    ensures Asked(x) != x.id ==> Asked(x) != ""
  {
  }

  lemma {:induction false} PlacedReads(preserved: set<string>, ns: Names, x: Item, name: string)
    requires Placed(preserved, ns, x, name)
    ensures Asked(x) == Normal(x)
    ensures x.id == "" ==> name == ""
    ensures x.id != "" && !Collides(preserved, x) && |Asked(x)| <= 64 ==> name == Asked(x)
    ensures x.id != "" && (Collides(preserved, x) || |Asked(x)| > 64) ==>
              (Asked(x) in ns.collision && name == ns.collision[Asked(x)]) || (Asked(x) in ns.mapped && name == ns.mapped[Asked(x)])
  {
    AskedIsNormal(x);
    hide Asked, Normal;
  }

  /** Names in use at the start are output items' in the end. */
  lemma {:induction false} BaseIsInUse(input: seq<Item>, ns: Names, outs: seq<Item>, n: string)
    requires |outs| == |Kept(input)| && forall i :: 0 <= i < |outs| ==> Placed(Preserved(input), ns, Kept(input)[i], outs[i].id)
    requires n in Occupied(input)
    ensures InUse(outs, n)
  {
    var kept, preserved := Kept(input), Preserved(input);
    var x :| x in kept && x.id != "" && |Normal(x)| <= LIMIT && Normal(x) == n;
    hide Kept, Normal, Occupied;
    var y := x;
    if Collides(preserved, x) {
      y :| y in kept && y.id != "" && Normal(y) == y.id && y.id == n;
    }
    var i :| 0 <= i < |kept| && kept[i] == y;
    assert Placed(preserved, ns, y, outs[i].id);
    assert outs[i].id == n;
  }

  /**
   The renaming in full: what goes out, in order; and for each item its name: the one it asks for if that fits in 64
   characters and is no other item's id, and else the first hashed name of it that is not in use.
   */
  lemma {:induction false} NamesInFull(digest: (string, nat) -> string, input: seq<Item>)
    requires Spread(digest, 2 * |input|)
    ensures var kept, outs := Filter(input, GoesOut), Rename(digest, input).0;
            && |outs| == |kept|
            && forall i :: 0 <= i < |outs| ==>
                 && outs[i] == kept[i].(id := outs[i].id)
                 && if kept[i].id == "" then outs[i].id == ""
                    else if |Asked(kept[i])| <= 64 && !HeldByAnother(kept, kept[i]) then outs[i].id == Asked(kept[i])
                    else Hashes(digest, outs, Asked(kept[i]), outs[i].id)
  {
    hide Place, Placed, Spread, Normal, Kept, Hashed, AllFirst, Given, Asked, HeldByAnother, Hashes, InUse, Occupied, Preserved;
    KeptGoOut(input);
    var kept, base, preserved := Kept(input), Occupied(input), Preserved(input);
    OccupiedIsSmall(input);
    var start := Names(base, map[], map[]);
    NothingHashed(base);
    NothingGiven(digest, base);
    SpreadLess(digest, 2 * |input|, |base| + |kept|);
    PlaceAllIsPlaced(digest, preserved, start, kept, base);
    AllPlaced(digest, preserved, start, kept, base);
    var (outs, ns) := Rename(digest, input);
    forall i | 0 <= i < |outs|
      ensures if kept[i].id == "" then outs[i].id == ""
              else if |Asked(kept[i])| <= 64 && !HeldByAnother(kept, kept[i]) then outs[i].id == Asked(kept[i])
              else Hashes(digest, outs, Asked(kept[i]), outs[i].id)
    {
      PlacedReads(preserved, ns, kept[i], outs[i].id);
      CollidesIfHeld(input, kept[i]);
      if kept[i].id != "" && (Collides(preserved, kept[i]) || |Asked(kept[i])| > 64) {
        FirstOfAll(digest, input, ns, outs, Asked(kept[i]), outs[i].id);
      }
    }
  }

  lemma {:induction false} FirstOfAll(digest: (string, nat) -> string, input: seq<Item>, ns: Names, outs: seq<Item>, asked: string, name: string)
    requires |outs| == |Kept(input)| && forall i :: 0 <= i < |outs| ==> Placed(Preserved(input), ns, Kept(input)[i], outs[i].id)
    requires AllFirst(digest, ns) && Given(Occupied(input), ns, outs)
    requires (asked in ns.collision && name == ns.collision[asked]) || (asked in ns.mapped && name == ns.mapped[asked])
    ensures Hashes(digest, outs, asked, name)
  {
    hide Kept, Placed, Occupied, Preserved, Hash, InUse;
    assert FirstHash(digest, ns.occupied, asked, name);
    var a: nat :| name == Hash(digest, asked, a) && forall j: nat :: j < a ==> Hash(digest, asked, j) in ns.occupied;
    forall j: nat | j < a
      ensures InUse(outs, Hash(digest, asked, j))
    {
      GivenIsInUse(input, ns, outs, Hash(digest, asked, j));
    }
  }

  lemma {:induction false} GivenIsInUse(input: seq<Item>, ns: Names, outs: seq<Item>, n: string)
    requires |outs| == |Kept(input)| && forall i :: 0 <= i < |outs| ==> Placed(Preserved(input), ns, Kept(input)[i], outs[i].id)
    requires Given(Occupied(input), ns, outs) && n in ns.occupied
    ensures InUse(outs, n)
  {
    hide Kept, Placed, Occupied, Preserved;
    if n in Occupied(input) {
      BaseIsInUse(input, ns, outs, n);
    }
  }
}
