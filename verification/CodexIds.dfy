/**
 Bounded unique renaming of input item ids (internal/provider/codex/sanitize.go, sanitizeInputIDs).
 SHA-256 is the parameter `digest`: the sixteen hexadecimal digits taken for an id and an attempt number.
 Strings are sequences of runes.
 */
module CodexIds {
  import opened Sequences

  const LIMIT := 64
  const KEPT := 47

  /** An input item; id, kind and encrypted are "" when absent or not a string, rest is everything else. */
  datatype Item = Item(kind: string, id: string, encrypted: string, rest: string)

  function Prefix(kind: string): string {
    if kind == "message" then "msg"
    else if kind == "reasoning" then "rs"
    else if kind == "function_call" then "fc"
    else if kind == "custom_tool_call" then "ctc"
    else if kind == "custom_tool_call_output" then "ctco"
    else ""
  }

  predicate Dropped(x: Item) {
    x.kind == "reasoning" && |x.id| > LIMIT && x.encrypted != ""
  }

  /** The id a kept item should have, before limits and collisions. */
  function Normal(x: Item): string {
    var prefix := Prefix(x.kind);
    if prefix == "" || x.id == "" || prefix <= x.id then x.id else prefix + "_" + x.id
  }

  function HashSuffix(digest: (string, nat) -> string, id: string, attempt: nat): string {
    id[..if |id| < KEPT then |id| else KEPT] + "_" + digest(id, attempt)
  }

  /** The digests of one id for the first attempts are all different. */
  ghost predicate Spread(digest: (string, nat) -> string, attempts: nat) {
    && (forall id, i: nat :: |digest(id, i)| == 16)
    && (forall id, i: nat, j: nat :: i < j <= attempts ==> digest(id, i) != digest(id, j))
  }

  lemma {:induction false} HashSuffixFits(digest: (string, nat) -> string, id: string, attempt: nat)
    requires |digest(id, attempt)| == 16
    ensures |HashSuffix(digest, id, attempt)| <= LIMIT
  {
  }

  lemma {:induction false} HashSuffixDiffers(digest: (string, nat) -> string, id: string, i: nat, j: nat)
    requires digest(id, i) != digest(id, j)
    ensures HashSuffix(digest, id, i) != HashSuffix(digest, id, j)
  {
    var front := id[..if |id| < KEPT then |id| else KEPT] + "_";
    assert HashSuffix(digest, id, i)[|front|..] == digest(id, i);
    assert HashSuffix(digest, id, j)[|front|..] == digest(id, j);
  }

  /** All attempts below n are taken. */
  ghost predicate Taken(digest: (string, nat) -> string, id: string, n: nat, occupied: set<string>) {
    forall i: nat :: i < n ==> HashSuffix(digest, id, i) in occupied
  }

  /** The probing stops: the first |occupied| + 1 names cannot all be taken. */
  lemma {:induction false} SomeNameIsFree(digest: (string, nat) -> string, id: string, n: nat, occupied: set<string>)
    requires Spread(digest, |occupied|) && n <= |occupied| + 1 && Taken(digest, id, n, occupied)
    ensures n <= |occupied|
  {
    var names := seq(n, i requires 0 <= i < n => HashSuffix(digest, id, i));
    forall i: nat, j: nat | i < j < n
      ensures names[i] != names[j]
    {
      HashSuffixDiffers(digest, id, i, j);
    }
    Pigeonhole(names, occupied);
  }

  /** The first attempt from n on whose name is free. */
  function Probe(digest: (string, nat) -> string, id: string, n: nat, occupied: set<string>): (k: nat)
    requires Spread(digest, |occupied|) && n <= |occupied| + 1 && Taken(digest, id, n, occupied)
    ensures n <= k <= |occupied| && HashSuffix(digest, id, k) !in occupied && Taken(digest, id, k, occupied)
    decreases |occupied| + 1 - n
  {
    SomeNameIsFree(digest, id, n, occupied);
    if HashSuffix(digest, id, n) in occupied then Probe(digest, id, n + 1, occupied) else n
  }

  // ---------------------------------------------------------------------------------------------
  // The two passes
  // ---------------------------------------------------------------------------------------------

  function Kept(input: seq<Item>): (r: seq<Item>)
    ensures |r| <= |input|
  {
    if input == [] then []
    else Kept(input[..|input| - 1]) + if Dropped(input[|input| - 1]) then [] else [input[|input| - 1]]
  }

  /** The ids that stay as they are, and those within the limit. */
  function Preserved(input: seq<Item>): set<string> {
    set x | x in Kept(input) && x.id != "" && Normal(x) == x.id :: x.id
  }

  function Occupied(input: seq<Item>): set<string> {
    set x | x in Kept(input) && x.id != "" && |Normal(x)| <= LIMIT :: Normal(x)
  }

  datatype Names = Names(occupied: set<string>, mapped: map<string, string>, collision: map<string, string>)

  predicate Collides(preserved: set<string>, x: Item) {
    Normal(x) != x.id && Normal(x) in preserved
  }

  function Fresh(digest: (string, nat) -> string, id: string, occupied: set<string>): (name: string)
    requires Spread(digest, |occupied|)
    ensures name !in occupied && |name| <= LIMIT
  {
    var k := Probe(digest, id, 0, occupied);
    HashSuffixFits(digest, id, k);
    HashSuffix(digest, id, k)
  }

  /** The names once a colliding id has one. */
  function Collide(digest: (string, nat) -> string, ns: Names, id: string): Names
    requires Spread(digest, |ns.occupied|)
  {
    if id in ns.collision then ns
    else
      var hit := Fresh(digest, id, ns.occupied);
      ns.(collision := ns.collision[id := hit], occupied := ns.occupied + {hit})
  }

  /** The names once a long id has one. */
  function Shorten(digest: (string, nat) -> string, ns: Names, id: string): Names
    requires Spread(digest, |ns.occupied|)
  {
    if id in ns.mapped then ns
    else
      var short := Fresh(digest, id, ns.occupied);
      ns.(mapped := ns.mapped[id := short], occupied := ns.occupied + {short})
  }

  /** What the second pass does for one kept item. */
  function Place(digest: (string, nat) -> string, preserved: set<string>, ns: Names, x: Item): (Item, Names)
    requires Spread(digest, |ns.occupied|)
  {
    var id := Normal(x);
    if x.id == "" then (x, ns)
    else if Collides(preserved, x) then
      var ns' := Collide(digest, ns, id);
      (x.(id := ns'.collision[id]), ns')
    else if |id| > LIMIT then
      var ns' := Shorten(digest, ns, id);
      (x.(id := ns'.mapped[id]), ns')
    else (x.(id := id), ns)
  }

  lemma {:induction false} PlaceGrows(digest: (string, nat) -> string, preserved: set<string>, ns: Names, x: Item)
    requires Spread(digest, |ns.occupied|)
    ensures |Place(digest, preserved, ns, x).1.occupied| <= |ns.occupied| + 1
  {
  }

  function PlaceAll(digest: (string, nat) -> string, preserved: set<string>, ns: Names, xs: seq<Item>): (r: (seq<Item>, Names))
    requires Spread(digest, |ns.occupied| + |xs|)
    ensures |r.0| == |xs| && |r.1.occupied| <= |ns.occupied| + |xs|
    decreases |xs|
  {
    if xs == [] then ([], ns)
    else
      var (front, ns') := PlaceAll(digest, preserved, ns, xs[..|xs| - 1]);
      var (last, ns'') := Place(digest, preserved, ns', xs[|xs| - 1]);
      PlaceGrows(digest, preserved, ns', xs[|xs| - 1]);
      (front + [last], ns'')
  }

  lemma {:induction false} OccupiedIsSmall(input: seq<Item>)
    ensures |Occupied(input)| <= |Kept(input)|
  {
    NamesOfFew(Kept(input));
  }

  lemma {:induction false} NamesOfFew(xs: seq<Item>)
    ensures |set x | x in xs && x.id != "" && |Normal(x)| <= LIMIT :: Normal(x)| <= |xs|
    decreases |xs|
  {
    var all := set x | x in xs && x.id != "" && |Normal(x)| <= LIMIT :: Normal(x);
    if xs != [] {
      var front := set x | x in xs[1..] && x.id != "" && |Normal(x)| <= LIMIT :: Normal(x);
      NamesOfFew(xs[1..]);
      assert all <= front + {Normal(xs[0])};
      SubsetIsSmaller(all, front + {Normal(xs[0])});
    }
  }

  lemma {:induction false} SubsetIsSmaller(a: set<string>, b: set<string>)
    requires a <= b
    ensures |a| <= |b|
  {
    assert b == a + (b - a);
  }

  function Rename(digest: (string, nat) -> string, input: seq<Item>): (seq<Item>, Names)
    requires Spread(digest, 2 * |input|)
  {
    OccupiedIsSmall(input);
    PlaceAll(digest, Preserved(input), Names(Occupied(input), map[], map[]), Kept(input))
  }

  method FreshName(digest: (string, nat) -> string, id: string, occupied: set<string>) returns (name: string)
    requires Spread(digest, |occupied|)
    ensures name == Fresh(digest, id, occupied)
  {
    var attempt: nat := 0;
    name := HashSuffix(digest, id, 0);
    while name in occupied
      invariant name == HashSuffix(digest, id, attempt) && attempt <= |occupied|
      invariant Taken(digest, id, attempt, occupied)
      invariant Probe(digest, id, attempt, occupied) == Probe(digest, id, 0, occupied)
      decreases |occupied| - attempt
    {
      SomeNameIsFree(digest, id, attempt + 1, occupied);
      attempt := attempt + 1;
      name := HashSuffix(digest, id, attempt);
    }
  }

  /** The first loop: which ids stay, and which names are in use. */
  method CollectIDs(input: seq<Item>) returns (occupied: set<string>, preserved: set<string>)
    ensures occupied == Occupied(input) && preserved == Preserved(input)
  {
    occupied, preserved := {}, {};
    for i := 0 to |input|
      invariant preserved == Preserved(input[..i]) && occupied == Occupied(input[..i])
    {
      assert input[..i + 1][..i] == input[..i];
      var rec := input[i];
      if Dropped(rec) {
        continue;
      }
      if rec.id == "" {
        continue;
      }
      var id := Normal(rec);
      if id == rec.id {
        preserved := preserved + {id};
      }
      if |id| <= LIMIT {
        occupied := occupied + {id};
      }
    }
    assert input[..|input|] == input;
  }

  lemma {:induction false} PlaceNext(digest: (string, nat) -> string, preserved: set<string>, ns: Names, xs: seq<Item>, x: Item)
    requires Spread(digest, |ns.occupied| + |xs| + 1)
    ensures var (front, ns') := PlaceAll(digest, preserved, ns, xs);
            var (last, ns'') := Place(digest, preserved, ns', x);
            PlaceAll(digest, preserved, ns, xs + [x]) == (front + [last], ns'')
  {
    assert (xs + [x])[..|xs|] == xs;
  }

  method SanitizeInputIDs(digest: (string, nat) -> string, input: seq<Item>) returns (rebuilt: seq<Item>)
    requires Spread(digest, 2 * |input|)
    ensures rebuilt == Rename(digest, input).0
  {
    hide Kept, Dropped, Normal, Fresh, PlaceAll, Spread;
    var occupied, preserved := CollectIDs(input);
    var mapped: map<string, string>, collision: map<string, string> := map[], map[];
    rebuilt := [];
    OccupiedIsSmall(input);
    ghost var start := Names(occupied, map[], map[]);
    SpreadLess(digest, 2 * |input|, |occupied|);
    NothingPlaced(digest, preserved, start);
    for i := 0 to |input|
      invariant forall id :: id in collision ==> |collision[id]| <= LIMIT
      invariant Spread(digest, |start.occupied| + |Kept(input[..i])|)
      invariant (rebuilt, Names(occupied, mapped, collision)) == PlaceAll(digest, preserved, start, Kept(input[..i]))
    {
      var item := input[i];
      KeptNext(input, i);
      ghost var ns := Names(occupied, mapped, collision);
      ghost var kept := Kept(input[..i]);
      if Dropped(item) {
        continue;
      }
      SpreadLess(digest, 2 * |input|, |start.occupied| + |kept| + 1);
      SpreadLess(digest, 2 * |input|, |ns.occupied|);
      PlaceNext(digest, preserved, start, kept, item);
      if item.id == "" {
        rebuilt := rebuilt + [item];
        continue;
      }
      var id := Normal(item);
      if id != item.id && id in preserved {
        if id !in collision {
          var hit := FreshName(digest, id, occupied);
          collision := collision[id := hit];
          occupied := occupied + {hit};
        }
        id := collision[id];
      }
      if |id| > LIMIT {
        if id !in mapped {
          var short := FreshName(digest, id, occupied);
          mapped := mapped[id := short];
          occupied := occupied + {short};
        }
        id := mapped[id];
      }
      rebuilt := rebuilt + [item.(id := id)];
    }
    assert input[..|input|] == input;
  }

  lemma {:induction false} KeptNext(input: seq<Item>, i: nat)
    requires i < |input|
    ensures Kept(input[..i + 1]) == if Dropped(input[i]) then Kept(input[..i]) else Kept(input[..i]) + [input[i]]
  {
    assert input[..i + 1][..i] == input[..i];
  }

  lemma {:induction false} NothingPlaced(digest: (string, nat) -> string, preserved: set<string>, ns: Names)
    requires Spread(digest, |ns.occupied|)
    ensures PlaceAll(digest, preserved, ns, []) == ([], ns)
  {
  }

  lemma {:induction false} SpreadLess(digest: (string, nat) -> string, m: nat, n: nat)
    requires Spread(digest, m) && n <= m
    ensures Spread(digest, n)
  {
  }

  // ---------------------------------------------------------------------------------------------
  // What the names promise
  // ---------------------------------------------------------------------------------------------

  /** Prefixes have no underscore, so a prefixed id can be taken apart again. */
  lemma {:induction false} NormalInjective(x: Item, y: Item)
    requires Normal(x) != x.id && Normal(y) != y.id && Normal(x) == Normal(y)
    ensures x.id == y.id
  {
    var p, q := Prefix(x.kind), Prefix(y.kind);
    assert Normal(x) == p + "_" + x.id && Normal(y) == q + "_" + y.id;
    PrefixIsPlain(x.kind);
    PrefixIsPlain(y.kind);
    hide Prefix, Normal;
    var z := Normal(x);
    SameHead(p, x.id, q, y.id, z);
  }

  lemma {:induction false} PrefixIsPlain(kind: string)
    ensures '_' !in Prefix(kind)
  {
  }

  lemma {:induction false} SameHead(p: string, a: string, q: string, b: string, z: string)
    requires '_' !in p && '_' !in q && z == p + "_" + a && z == q + "_" + b
    ensures p == q && a == b
  {
    assert z[|p|] == '_' && z[|q|] == '_';
    assert forall i :: 0 <= i < |p| ==> z[i] == p[i];
    assert forall i :: 0 <= i < |q| ==> z[i] == q[i];
    assert |p| == |q|;
    assert p == z[..|p|] && q == z[..|q|];
    assert a == z[|p| + 1..] && b == z[|q| + 1..];
  }

  /** The hashed names: where they lie, whose they are, and that no two keys share one. */
  ghost predicate Hashed(base: set<string>, ns: Names) {
    && base <= ns.occupied
    && (forall k :: k in ns.mapped ==> HashedName(base, ns.occupied, k, ns.mapped[k]))
    && (forall k :: k in ns.collision ==> HashedName(base, ns.occupied, k, ns.collision[k]))
    && (forall k, l :: k in ns.mapped && l in ns.mapped && ns.mapped[k] == ns.mapped[l] ==> k == l)
    && (forall k, l :: k in ns.collision && l in ns.collision && ns.collision[k] == ns.collision[l] ==> k == l)
    && (forall k, l :: k in ns.mapped && l in ns.collision ==> ns.mapped[k] != ns.collision[l])
  }

  /** A hashed name fits, is in use, was not in use before, and keeps the start of the id it replaces. */
  predicate HashedName(base: set<string>, occupied: set<string>, id: string, name: string) {
    && name in occupied && name !in base && |name| <= LIMIT
    && id[..if |id| < KEPT then |id| else KEPT] <= name
  }

  lemma {:induction false} FreshIsHashed(digest: (string, nat) -> string, id: string, base: set<string>, occupied: set<string>)
    requires Spread(digest, |occupied|)
    ensures var name := Fresh(digest, id, occupied);
            name !in occupied && |name| <= LIMIT && (base <= occupied ==> HashedName(base, occupied + {name}, id, name))
  {
  }

  /** Where the second pass has put x's name by the end. */
  predicate Placed(preserved: set<string>, ns: Names, x: Item, name: string) {
    if x.id == "" then name == ""
    else if Collides(preserved, x) then Normal(x) in ns.collision && name == ns.collision[Normal(x)]
    else if |Normal(x)| > LIMIT then Normal(x) in ns.mapped && name == ns.mapped[Normal(x)]
    else name == Normal(x)
  }

  predicate Extends(ns: Names, ns': Names) {
    && ns.occupied <= ns'.occupied
    && (forall k :: k in ns.mapped ==> k in ns'.mapped && ns'.mapped[k] == ns.mapped[k])
    && (forall k :: k in ns.collision ==> k in ns'.collision && ns'.collision[k] == ns.collision[k])
  }

  lemma {:induction false} PlacedStays(preserved: set<string>, ns: Names, ns': Names, x: Item, name: string)
    requires Placed(preserved, ns, x, name) && Extends(ns, ns')
    ensures Placed(preserved, ns', x, name)
  {
  }

  lemma {:induction false} CollideIsHashed(digest: (string, nat) -> string, base: set<string>, ns: Names, id: string)
    requires Spread(digest, |ns.occupied|) && Hashed(base, ns)
    ensures var ns' := Collide(digest, ns, id);
            Hashed(base, ns') && Extends(ns, ns') && id in ns'.collision
  {
    hide Fresh, Spread;
    FreshIsHashed(digest, id, base, ns.occupied);
  }

  lemma {:induction false} ShortenIsHashed(digest: (string, nat) -> string, base: set<string>, ns: Names, id: string)
    requires Spread(digest, |ns.occupied|) && Hashed(base, ns)
    ensures var ns' := Shorten(digest, ns, id);
            Hashed(base, ns') && Extends(ns, ns') && id in ns'.mapped
  {
    hide Fresh, Spread;
    FreshIsHashed(digest, id, base, ns.occupied);
  }

  lemma {:induction false} PlaceIsPlaced(digest: (string, nat) -> string, preserved: set<string>, ns: Names, x: Item, base: set<string>)
    requires Spread(digest, |ns.occupied|) && Hashed(base, ns)
    ensures var (out, ns') := Place(digest, preserved, ns, x);
            Hashed(base, ns') && Extends(ns, ns') && Placed(preserved, ns', x, out.id) && out == x.(id := out.id)
  {
    hide Collide, Shorten, Spread, Hashed, Normal;
    CollideIsHashed(digest, base, ns, Normal(x));
    ShortenIsHashed(digest, base, ns, Normal(x));
  }

  lemma {:induction false} PlaceAllIsPlaced(digest: (string, nat) -> string, preserved: set<string>, ns: Names, xs: seq<Item>, base: set<string>)
    requires Spread(digest, |ns.occupied| + |xs|) && Hashed(base, ns)
    ensures var (outs, ns') := PlaceAll(digest, preserved, ns, xs);
            && Hashed(base, ns')
            && forall i :: 0 <= i < |xs| ==> Placed(preserved, ns', xs[i], outs[i].id) && outs[i] == xs[i].(id := outs[i].id)
    decreases |xs|
  {
    hide Place, Hashed, Placed, Extends, Spread;
    if xs != [] {
      var front := xs[..|xs| - 1];
      SpreadLess(digest, |ns.occupied| + |xs|, |ns.occupied| + |front|);
      var (outs, ns') := PlaceAll(digest, preserved, ns, front);
      SpreadLess(digest, |ns.occupied| + |xs|, |ns'.occupied|);
      PlaceAllIsPlaced(digest, preserved, ns, front, base);
      PlaceIsPlaced(digest, preserved, ns', xs[|xs| - 1], base);
      var ns'' := Place(digest, preserved, ns', xs[|xs| - 1]).1;
      forall i | 0 <= i < |front|
        ensures Placed(preserved, ns'', xs[i], outs[i].id)
      {
        PlacedStays(preserved, ns', ns'', xs[i], outs[i].id);
      }
    }
  }

  /** Two kept items with ids get one name exactly when both their ids and their normalised ids are equal. */
  lemma {:induction false} PlacedApart(input: seq<Item>, ns: Names, x: Item, y: Item, name: string, other: string)
    requires x in Kept(input) && y in Kept(input) && x.id != "" && y.id != "" && Hashed(Occupied(input), ns)
    requires Placed(Preserved(input), ns, x, name) && Placed(Preserved(input), ns, y, other)
    ensures name == other <==> x.id == y.id && Normal(x) == Normal(y)
  {
    hide Kept, Normal;
    var base, preserved := Occupied(input), Preserved(input);
    assert !Collides(preserved, x) && |Normal(x)| <= LIMIT ==> name in base;
    assert !Collides(preserved, y) && |Normal(y)| <= LIMIT ==> other in base;
    assert Normal(x) == x.id ==> Normal(x) in preserved;
    assert Normal(y) == y.id ==> Normal(y) in preserved;
    if Normal(x) == Normal(y) && Normal(x) != x.id && Normal(y) != y.id {
      NormalInjective(x, y);
    }
  }

  /** A renamed item fits the limit, carries its kind's prefix and needs no further renaming. */
  predicate Clean(x: Item) {
    x.id == "" || (|x.id| <= LIMIT && Normal(x) == x.id)
  }

  lemma {:induction false} PlacedIsClean(preserved: set<string>, ns: Names, base: set<string>, x: Item, name: string)
    requires Hashed(base, ns) && Placed(preserved, ns, x, name)
    ensures x.id != "" ==> Clean(x.(id := name)) && Prefix(x.kind) <= name
    ensures Clean(x) ==> name == x.id
  {
    var p, id := Prefix(x.kind), Normal(x);
    assert x.id != "" ==> p <= id;
    if x.id != "" && name != id {
      assert id[..if |id| < KEPT then |id| else KEPT] <= name;
    }
  }

  /**
   The renaming of every input: kept items in order with only their ids changed, every id at most 64 runes
   and carrying its kind's prefix, well-formed ids untouched, and names shared exactly by equal ids of like kind.
   */
  lemma {:induction false} RenamingIsInjectiveAndBounded(digest: (string, nat) -> string, input: seq<Item>)
    requires Spread(digest, 2 * |input|)
    ensures var kept, out := Kept(input), Rename(digest, input).0;
            && |out| == |kept|
            && (forall i :: 0 <= i < |out| ==> out[i] == kept[i].(id := out[i].id) && (out[i].id == "" <==> kept[i].id == ""))
            && (forall i :: 0 <= i < |out| ==> Clean(out[i]) && |out[i].id| <= LIMIT && !Dropped(out[i]))
            && (forall i :: 0 <= i < |out| && kept[i].id != "" ==> Prefix(kept[i].kind) <= out[i].id)
            && (forall i :: 0 <= i < |out| && Clean(kept[i]) ==> out[i] == kept[i])
            && (forall i, j :: 0 <= i < |out| && 0 <= j < |out| && kept[i].id != "" && kept[j].id != "" ==>
                  (out[i].id == out[j].id <==> kept[i].id == kept[j].id && Normal(kept[i]) == Normal(kept[j])))
  {
    hide Place, Placed, Spread, Clean, Normal, Kept, Hashed;
    var kept, base, preserved := Kept(input), Occupied(input), Preserved(input);
    OccupiedIsSmall(input);
    var start := Names(base, map[], map[]);
    NothingHashed(base);
    SpreadLess(digest, 2 * |input|, |base| + |kept|);
    PlaceAllIsPlaced(digest, preserved, start, kept, base);
    var (out, ns) := Rename(digest, input);
    forall i | 0 <= i < |out|
      ensures Clean(out[i]) && |out[i].id| <= LIMIT && !Dropped(out[i]) && (out[i].id == "" <==> kept[i].id == "")
      ensures kept[i].id != "" ==> Prefix(kept[i].kind) <= out[i].id
      ensures Clean(kept[i]) ==> out[i] == kept[i]
    {
      PlacedIsClean(preserved, ns, base, kept[i], out[i].id);
      PlacedEmpty(preserved, ns, base, kept[i], out[i].id);
    }
    forall i, j | 0 <= i < |out| && 0 <= j < |out| && kept[i].id != "" && kept[j].id != ""
      ensures out[i].id == out[j].id <==> kept[i].id == kept[j].id && Normal(kept[i]) == Normal(kept[j])
    {
      PlacedApart(input, ns, kept[i], kept[j], out[i].id, out[j].id);
    }
  }

  lemma {:induction false} NothingHashed(base: set<string>)
    ensures Hashed(base, Names(base, map[], map[]))
  {
  }

  lemma {:induction false} PlacedEmpty(preserved: set<string>, ns: Names, base: set<string>, x: Item, name: string)
    requires Hashed(base, ns) && Placed(preserved, ns, x, name)
    ensures name == "" <==> x.id == ""
    ensures x.id == "" ==> Clean(x.(id := name))
  {
    if x.id != "" && name != Normal(x) {
      var id := Normal(x);
      assert id != "";
      assert id[..if |id| < KEPT then |id| else KEPT] <= name;
    }
  }

  lemma {:induction false} CleanIsKept(input: seq<Item>)
    requires forall i :: 0 <= i < |input| ==> Clean(input[i])
    ensures Kept(input) == input
    decreases |input|
  {
    hide Clean, Dropped;
    if input != [] {
      var front, last := input[..|input| - 1], input[|input| - 1];
      assert input == front + [last];
      CleanIsKept(front);
      CleanStays(last);
      hide Kept;
      assert Kept(input) == front + [last];
    }
  }

  lemma {:induction false} CleanStays(x: Item)
    requires Clean(x)
    ensures !Dropped(x)
  {
  }

  /** The inputs the renaming leaves alone are exactly the clean ones. */
  lemma {:induction false} FixedIffClean(digest: (string, nat) -> string, input: seq<Item>)
    requires Spread(digest, 2 * |input|)
    ensures Rename(digest, input).0 == input <==> forall i :: 0 <= i < |input| ==> Clean(input[i])
  {
    hide Clean, Rename, Spread, Normal, Dropped;
    RenamingIsInjectiveAndBounded(digest, input);
    var out := Rename(digest, input).0;
    if out == input {
      forall i | 0 <= i < |input|
        ensures Clean(input[i])
      {
        assert Clean(out[i]);
      }
    }
    if forall i :: 0 <= i < |input| ==> Clean(input[i]) {
      CleanIsKept(input);
      assert out == input;
    }
  }

  /** A second pass changes nothing, whatever digest it uses. */
  lemma {:induction false} RenamingIsIdempotent(digest: (string, nat) -> string, other: (string, nat) -> string, input: seq<Item>)
    requires Spread(digest, 2 * |input|) && Spread(other, 2 * |input|)
    ensures var out := Rename(digest, input).0;
            Spread(other, 2 * |out|) && Rename(other, out).0 == out
  {
    hide Rename, Clean, Spread;
    RenamingIsInjectiveAndBounded(digest, input);
    var out := Rename(digest, input).0;
    SpreadLess(other, 2 * |input|, 2 * |out|);
    FixedIffClean(other, out);
  }
}
