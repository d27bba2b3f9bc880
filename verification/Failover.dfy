/**
 The failover walk over hops and credentials (internal/proxy/proxy.go, the loop of Proxy). What happens
 outside is the Env: which hops the key allows and have an executor, the credentials picked at each hop,
 and the answers to calls, which may depend on every call made before. `drained` is the state that
 translating the served stream leaves once it is drained, and nothing for a whole body.
 */
module Failover {
  import opened Chat
  import opened Slugs

  /** A stored credential; source is what names it when it is a user-added source. */
  datatype Cred = Cred(id: string, token: string, nearExpiry: bool, apiKey: bool, source: Source)

  /** The result of Execute, with transport errors already turned into failures. */
  datatype Answer = Answer(ok: bool, status: int, retryable: bool)

  datatype Call = Execute(hop: nat, cred: nat, using: Cred) | Refresh(hop: nat, cred: nat, using: Cred)

  datatype Listing = VaultError | Picked(creds: seq<Cred>)

  datatype Env = Env(
    hops: nat, allows: nat -> bool, available: nat -> bool, creds: nat -> Listing,
    execute: seq<Call> -> Answer, refresh: seq<Call> -> Option<Cred>, drained: seq<Call> -> Option<State>)

  /** One credential tried at one hop, and its final answer. */
  datatype Visit = Visit(hop: nat, cred: nat, answer: Answer)

  datatype Log = Log(calls: seq<Call>, visits: seq<Visit>)

  datatype Last = Nothing | Failed(hop: nat, status: int)

  datatype Outcome =
    | Served(hop: nat, cred: nat, using: Cred)
    | Refused(hop: nat, cred: nat)
    | Broken(hop: nat)
    | Left(last: Last)

  // ---------------------------------------------------------------------------------------------
  // The walk on values
  // ---------------------------------------------------------------------------------------------

  /** Refresh, keeping the old credential when that fails. */
  function Renew(env: Env, calls: seq<Call>, hop: nat, i: nat, cred: Cred): (Option<Cred>, seq<Call>) {
    var calls' := calls + [Refresh(hop, i, cred)];
    (env.refresh(calls'), calls')
  }

  function Ready(env: Env, calls: seq<Call>, hop: nat, i: nat, cred: Cred): (Cred, seq<Call>) {
    if !cred.nearExpiry then (cred, calls)
    else
      var (renewed, calls') := Renew(env, calls, hop, i, cred);
      (if renewed.Some? then renewed.value else cred, calls')
  }

  /** All calls for one credential, the answer that counts, and the credential that got it. */
  function Attempt(env: Env, calls: seq<Call>, hop: nat, i: nat, cred: Cred): (Answer, Cred, seq<Call>) {
    var (using, c1) := Ready(env, calls, hop, i, cred);
    var c2 := c1 + [Execute(hop, i, using)];
    var first := env.execute(c2);
    if first.ok || first.status != 401 then (first, using, c2)
    else
      var (renewed, c3) := Renew(env, c2, hop, i, using);
      if renewed.None? then (first, using, c3)
      else
        var c4 := c3 + [Execute(hop, i, renewed.value)];
        (env.execute(c4), renewed.value, c4)
  }

  function Skip(env: Env, hop: nat): Option<int> {
    if !env.allows(hop) then Some(403)
    else if !env.available(hop) then Some(503)
    else if env.creds(hop) == Picked([]) then Some(503)
    else None
  }

  /** The credentials of one hop from the i-th on; None when the walk goes on to the next hop. */
  function TryCreds(env: Env, log: Log, last: Last, hop: nat, creds: seq<Cred>, i: nat): (Log, Last, Option<Outcome>)
    requires i <= |creds|
    decreases |creds| - i
  {
    if i == |creds| then (log, last, None)
    else
      var (answer, using, calls) := Attempt(env, log.calls, hop, i, creds[i]);
      var log' := Log(calls, log.visits + [Visit(hop, i, answer)]);
      if answer.ok then (log', last, Some(Served(hop, i, using)))
      else
        var last' := Failed(hop, answer.status);
        if answer.retryable && i < |creds| - 1 then TryCreds(env, log', last', hop, creds, i + 1)
        else if answer.retryable && hop < env.hops - 1 then (log', last', None)
        else (log', last', Some(Refused(hop, i)))
  }

  function Walk(env: Env, log: Log, last: Last, hop: nat): (Log, Outcome)
    requires hop <= env.hops
    decreases env.hops - hop
  {
    if hop == env.hops then (log, Left(last))
    else if Skip(env, hop).Some? then Walk(env, log, Failed(hop, Skip(env, hop).value), hop + 1)
    else if env.creds(hop).VaultError? then (log, Broken(hop))
    else
      var (log', last', out) := TryCreds(env, log, last, hop, env.creds(hop).creds, 0);
      if out.Some? then (log', out.value) else Walk(env, log', last', hop + 1)
  }

  /** A usage event: the hop it is charged to, and whether its status is ok. */
  datatype Usage = Usage(hop: nat, ok: bool)

  /** What the client gets, and the usage recorded once any stream is drained. */
  datatype Reply = Reply(status: int, usage: seq<Usage>)

  /** A whole body is ok; a stream is if its state says so when it is drained. */
  predicate ServedWell(env: Env, log: Log) {
    env.drained(log.calls).None? || EndsWell(env.drained(log.calls).value)
  }

  /** failFromExec never answers with status 0. */
  function ReplyStatus(status: int): int {
    if status == 0 then 502 else status
  }

  /** One event, charged to the hop that answered or else to the last one; none when the vault broke. */
  function UsageOf(env: Env, log: Log, outcome: Outcome): seq<Usage>
    requires env.hops > 0
  {
    match outcome
    case Served(hop, _, _) => [Usage(hop, ServedWell(env, log))]
    case Refused(hop, _) => [Usage(hop, false)]
    case Broken(_) => []
    case Left(_) => [Usage(env.hops - 1, false)]
  }

  /** What is left of the walk inside hop's credentials. */
  function Rest(env: Env, log: Log, last: Last, hop: nat, creds: seq<Cred>, i: nat): (Log, Outcome)
    requires i <= |creds| && hop < env.hops
  {
    var (log', last', out) := TryCreds(env, log, last, hop, creds, i);
    if out.Some? then (log', out.value) else Walk(env, log', last', hop + 1)
  }

  /** The last execution is the last call, unless it was answered 401 and the refresh after it failed. */
  ghost predicate Settles(env: Env, calls: seq<Call>, calls': seq<Call>, p: nat, answer: Answer, using: Cred)
    requires |calls| <= p < |calls'| && calls'[p].Execute?
  {
    if p == |calls'| - 1 then
      (forall q :: |calls| <= q < p ==> !calls'[q].Execute?) ==> answer.ok || answer.status != 401
    else
      && p == |calls'| - 2 && !answer.ok && answer.status == 401
      && calls'[p + 1] == Refresh(calls'[p].hop, calls'[p].cred, using) && env.refresh(calls').None?
  }

  /**
   Between these two points of the log the pair was executed, by nobody else and last with this credential, and
   that answer counts. There were at most two executions, the second two calls after the first, which was
   answered 401 and followed by a refresh that gave the credential.
   */
  ghost predicate Counts(env: Env, calls: seq<Call>, calls': seq<Call>, hop: nat, i: nat, answer: Answer, using: Cred)
    requires calls <= calls'
  {
    && (forall p :: |calls| <= p < |calls'| ==> calls'[p].hop == hop && calls'[p].cred == i)
    && (exists p :: |calls| <= p < |calls'| && calls'[p] == Execute(hop, i, using) && answer == env.execute(calls'[..p + 1])
                    && Settles(env, calls, calls', p, answer, using))
    && Repeats(env, calls, calls', hop, i)
  }

  /** A second execution comes two calls after the first, after a 401 and a refresh that gave its credential. */
  ghost predicate Repeats(env: Env, calls: seq<Call>, calls': seq<Call>, hop: nat, i: nat) {
    forall p, q :: |calls| <= p < q < |calls'| && calls'[p].Execute? && calls'[q].Execute? ==>
      && q == p + 2 && q == |calls'| - 1
      && calls'[p + 1] == Refresh(hop, i, calls'[p].using)
      && !env.execute(calls'[..p + 1]).ok && env.execute(calls'[..p + 1]).status == 401
      && env.refresh(calls'[..p + 2]) == Some(calls'[q].using)
  }

  lemma {:induction false} RepeatsOnce(env: Env, calls: seq<Call>, calls': seq<Call>, hop: nat, i: nat, n: nat)
    requires |calls| <= n && |calls'| == n + 3 && calls'[n].Execute? && calls'[n + 2].Execute?
    requires forall p :: |calls| <= p < n ==> calls'[p].Refresh?
    requires calls'[n + 1] == Refresh(hop, i, calls'[n].using)
    requires !env.execute(calls'[..n + 1]).ok && env.execute(calls'[..n + 1]).status == 401
    requires env.refresh(calls'[..n + 2]) == Some(calls'[n + 2].using)
    ensures Repeats(env, calls, calls', hop, i)
  {
  }

  /** At most one refresh stands between the two points. */
  ghost predicate Refreshed(calls: seq<Call>, calls': seq<Call>, hop: nat, i: nat) {
    calls <= calls' && forall p :: |calls| <= p < |calls'| ==> calls'[p].Refresh? && calls'[p].hop == hop && calls'[p].cred == i
  }

  lemma {:induction false} OnceCounts(env: Env, calls: seq<Call>, c1: seq<Call>, hop: nat, i: nat, using: Cred)
    requires Refreshed(calls, c1, hop, i)
    requires var a := env.execute(c1 + [Execute(hop, i, using)]); a.ok || a.status != 401
    ensures calls <= c1 + [Execute(hop, i, using)]
    ensures Counts(env, calls, c1 + [Execute(hop, i, using)], hop, i, env.execute(c1 + [Execute(hop, i, using)]), using)
  {
    var c2 := c1 + [Execute(hop, i, using)];
    assert c2[|c1|] == Execute(hop, i, using) && c2[..|c1| + 1] == c2;
    assert Settles(env, calls, c2, |c1|, env.execute(c2), using);
  }

  lemma {:induction false} UnrenewedCounts(env: Env, calls: seq<Call>, c1: seq<Call>, hop: nat, i: nat, using: Cred)
    requires Refreshed(calls, c1, hop, i)
    requires var a := env.execute(c1 + [Execute(hop, i, using)]); !a.ok && a.status == 401
    requires env.refresh(c1 + [Execute(hop, i, using)] + [Refresh(hop, i, using)]).None?
    ensures var c3 := c1 + [Execute(hop, i, using)] + [Refresh(hop, i, using)];
            calls <= c3 && Counts(env, calls, c3, hop, i, env.execute(c1 + [Execute(hop, i, using)]), using)
  {
    var c2 := c1 + [Execute(hop, i, using)];
    var c3 := c2 + [Refresh(hop, i, using)];
    assert c3[|c1|] == Execute(hop, i, using) && c3[..|c1| + 1] == c2;
    assert Settles(env, calls, c3, |c1|, env.execute(c2), using);
  }

  lemma {:induction false} TwiceCounts(env: Env, calls: seq<Call>, all: seq<Call>, hop: nat, i: nat, n: nat, using: Cred)
    requires |all| == n + 3 && Refreshed(calls, all[..n], hop, i)
    requires all[n].Execute? && all[n].hop == hop && all[n].cred == i && all[n + 1] == Refresh(hop, i, all[n].using)
    requires all[n + 2] == Execute(hop, i, using)
    requires !env.execute(all[..n + 1]).ok && env.execute(all[..n + 1]).status == 401
    requires env.refresh(all[..n + 2]) == Some(using)
    ensures calls <= all && Counts(env, calls, all, hop, i, env.execute(all), using)
  {
    assert calls <= all;
    forall p | |calls| <= p < n
      ensures all[p].Refresh? && all[p].hop == hop && all[p].cred == i
    {
      assert all[p] == all[..n][p];
    }
    hide Refreshed;
    RepeatsOnce(env, calls, all, hop, i, n);
    hide Repeats;
    assert all[..n + 3] == all;
    assert all[n].Execute?;
    assert Settles(env, calls, all, n + 2, env.execute(all), using);
  }

  lemma {:induction false} RenewedCounts(env: Env, calls: seq<Call>, c1: seq<Call>, hop: nat, i: nat, first: Cred, using: Cred)
    requires Refreshed(calls, c1, hop, i)
    requires var a := env.execute(c1 + [Execute(hop, i, first)]); !a.ok && a.status == 401
    requires env.refresh(c1 + [Execute(hop, i, first)] + [Refresh(hop, i, first)]) == Some(using)
    ensures var c4 := c1 + [Execute(hop, i, first)] + [Refresh(hop, i, first)] + [Execute(hop, i, using)];
            calls <= c4 && Counts(env, calls, c4, hop, i, env.execute(c4), using)
  {
    var c2 := c1 + [Execute(hop, i, first)];
    var c3 := c2 + [Refresh(hop, i, first)];
    var c4 := c3 + [Execute(hop, i, using)];
    var n := |c1|;
    assert c4[n] == Execute(hop, i, first) && c4[n + 1] == Refresh(hop, i, first) && c4[n + 2] == Execute(hop, i, using);
    assert c4[..n + 1] == c2 && c4[..n + 2] == c3 && c4[..n] == c1;
    hide Counts;
    TwiceCounts(env, calls, c4, hop, i, n, using);
  }

  lemma {:induction false} AttemptCounts(env: Env, calls: seq<Call>, hop: nat, i: nat, cred: Cred)
    ensures var (answer, using, calls') := Attempt(env, calls, hop, i, cred);
            calls < calls' && Counts(env, calls, calls', hop, i, answer, using)
  {
    hide Counts;
    var (first, c1) := Ready(env, calls, hop, i, cred);
    assert Refreshed(calls, c1, hop, i);
    var c2 := c1 + [Execute(hop, i, first)];
    var renewed := env.refresh(c2 + [Refresh(hop, i, first)]);
    if env.execute(c2).ok || env.execute(c2).status != 401 {
      OnceCounts(env, calls, c1, hop, i, first);
    } else if renewed.None? {
      UnrenewedCounts(env, calls, c1, hop, i, first);
    } else {
      RenewedCounts(env, calls, c1, hop, i, first, renewed.value);
    }
  }

  // ---------------------------------------------------------------------------------------------
  // The loops
  // ---------------------------------------------------------------------------------------------

  /** One credential: its calls, the answer that counts and the credential that got it. */
  method Send(env: Env, calls: seq<Call>, hop: nat, i: nat, cred: Cred)
    returns (answer: Answer, using: Cred, calls': seq<Call>)
    ensures (answer, using, calls') == Attempt(env, calls, hop, i, cred)
    ensures calls < calls' && Counts(env, calls, calls', hop, i, answer, using)
  {
    AttemptCounts(env, calls, hop, i, cred);
    hide Counts;
    using, calls' := cred, calls;
    if using.nearExpiry {
      calls' := calls' + [Refresh(hop, i, using)];
      var refreshed := env.refresh(calls');
      if refreshed.Some? {
        using := refreshed.value;
      }
    }
    calls' := calls' + [Execute(hop, i, using)];
    answer := env.execute(calls');
    if !answer.ok && answer.status == 401 {
      calls' := calls' + [Refresh(hop, i, using)];
      var refreshed := env.refresh(calls');
      if refreshed.Some? {
        using := refreshed.value;
        calls' := calls' + [Execute(hop, i, using)];
        answer := env.execute(calls');
      }
    }
  }

  method Proxy(env: Env) returns (log: Log, outcome: Outcome, reply: Reply)
    requires env.hops > 0
    ensures (log, outcome) == Walk(env, Log([], []), Nothing, 0)
    ensures reply.usage == UsageOf(env, log, outcome)
    ensures outcome.Served? ==> reply.status == 200
    ensures outcome.Refused? ==> log.visits != [] && reply.status == ReplyStatus(log.visits[|log.visits| - 1].answer.status)
    ensures outcome.Left? ==> outcome.last.Failed? && reply.status == outcome.last.status
  {
    log := Log([], []);
    var last := Nothing;
    var attempted := false;
    for h := 0 to env.hops
      invariant Walk(env, log, last, h) == Walk(env, Log([], []), Nothing, 0)
      invariant h > 0 && Skip(env, h - 1).Some? ==> last == Failed(h - 1, Skip(env, h - 1).value)
      invariant h > 0 && Skip(env, h - 1).None? ==> h < env.hops
    {
      if !env.allows(h) {
        last := Failed(h, 403);
        continue;
      }
      if !env.available(h) {
        last := Failed(h, 503);
        continue;
      }
      var listing := env.creds(h);
      if listing.VaultError? {
        return log, Broken(h), Reply(0, []);
      }
      var creds := listing.creds;
      if |creds| == 0 {
        last := Failed(h, 503);
        continue;
      }
      attempted := true;
      for i := 0 to |creds|
        invariant i < |creds|
        invariant Rest(env, log, last, h, creds, i) == Walk(env, Log([], []), Nothing, 0)
      {
        var answer, using, calls := Send(env, log.calls, h, i, creds[i]);
        log := Log(calls, log.visits + [Visit(h, i, answer)]);
        if !answer.ok {
          last := Failed(h, answer.status);
          if answer.retryable && i < |creds| - 1 {
            continue;
          }
          if answer.retryable && h < env.hops - 1 {
            break;
          }
          return log, Refused(h, i), Reply(ReplyStatus(answer.status), [Usage(h, false)]);
        }
        return log, Served(h, i, using), Reply(200, [Usage(h, ServedWell(env, log))]);
      }
    }
    outcome := Left(last);
    var status := if last.Nothing? then 0 else last.status;
    var lastHop := if last.Nothing? then 0 else last.hop;
    if status == 0 {
      status := if attempted then 502 else 503;
    }
    reply := Reply(ReplyStatus(status), [Usage(lastHop, false)]);
  }

  // ---------------------------------------------------------------------------------------------
  // Which pairs are visited, and where the walk stops
  // ---------------------------------------------------------------------------------------------

  type Pair = (nat, nat)

  function HopPairs(hop: nat, i: nat, n: nat): (r: seq<Pair>)
    requires i <= n
    ensures |r| == n - i && forall j :: 0 <= j < |r| ==> r[j] == (hop, i + j)
    decreases n - i
  {
    if i == n then [] else [(hop, i)] + HopPairs(hop, i + 1, n)
  }

  /** Every pair the chain offers from a hop on, in order, up to a hop whose vault listing fails. */
  function Pairs(env: Env, hop: nat): seq<Pair>
    requires hop <= env.hops
    decreases env.hops - hop
  {
    if hop == env.hops then []
    else if Skip(env, hop).Some? then Pairs(env, hop + 1)
    else if env.creds(hop).VaultError? then []
    else HopPairs(hop, 0, |env.creds(hop).creds|) + Pairs(env, hop + 1)
  }

  function PairsOf(visits: seq<Visit>): (r: seq<Pair>)
    ensures |r| == |visits| && forall i :: 0 <= i < |r| ==> r[i] == (visits[i].hop, visits[i].cred)
  {
    seq(|visits|, i requires 0 <= i < |visits| => (visits[i].hop, visits[i].cred))
  }

  predicate Decisive(a: Answer) {
    a.ok || !a.retryable
  }

  /** The pair after which nothing is left to try. */
  predicate IsLastPair(env: Env, v: Visit) {
    v.hop == env.hops - 1 && env.creds(v.hop).Picked? && v.cred == |env.creds(v.hop).creds| - 1
  }

  /** These visits, of the pairs on offer, lead to this outcome. */
  ghost predicate Leads(env: Env, offered: seq<Pair>, visits: seq<Visit>, outcome: Outcome) {
    && PairsOf(visits) <= offered
    && (forall i :: 0 <= i < |visits| - 1 ==> !Decisive(visits[i].answer))
    && match outcome
       case Served(hop, cred, _) =>
         visits != [] && var v := visits[|visits| - 1]; v.answer.ok && (v.hop, v.cred) == (hop, cred)
       case Refused(hop, cred) =>
         visits != [] && var v := visits[|visits| - 1];
         !v.answer.ok && (!v.answer.retryable || IsLastPair(env, v)) && (v.hop, v.cred) == (hop, cred)
       case Broken(hop) =>
         PairsOf(visits) == offered && (visits != [] ==> !Decisive(visits[|visits| - 1].answer)) &&
         hop < env.hops && Skip(env, hop).None? && env.creds(hop).VaultError?
       case Left(last) =>
         PairsOf(visits) == offered && (visits != [] ==> !Decisive(visits[|visits| - 1].answer)) &&
         env.hops > 0 && Skip(env, env.hops - 1).Some? && last == Failed(env.hops - 1, Skip(env, env.hops - 1).value)
  }

  /** One more visit in front that decided nothing. */
  lemma {:induction false} LeadsCons(env: Env, offered: seq<Pair>, v: Visit, visits: seq<Visit>, outcome: Outcome)
    requires Leads(env, offered, visits, outcome) && !Decisive(v.answer)
    ensures Leads(env, [(v.hop, v.cred)] + offered, [v] + visits, outcome)
  {
    var more, pairs := [v] + visits, [(v.hop, v.cred)] + PairsOf(visits);
    assert PairsOf(more) == pairs;
    assert pairs <= [(v.hop, v.cred)] + offered;
    assert more[|more| - 1] == if visits == [] then v else visits[|visits| - 1];
    forall i | 0 <= i < |more| - 1
      ensures !Decisive(more[i].answer)
    {
      assert i > 0 ==> more[i] == visits[i - 1];
    }
    hide PairsOf, IsLastPair, Skip, Decisive;
  }

  /** The visits of one hop's credentials: all but the last undecided, in order, and the outcome if there is one. */
  ghost predicate HopLeads(env: Env, hop: nat, creds: seq<Cred>, i: nat, visits: seq<Visit>, outcome: Option<Outcome>)
    requires i <= |creds|
  {
    match outcome
    case Some(o) => (o.Served? || o.Refused?) && Leads(env, HopPairs(hop, i, |creds|), visits, o)
    case None => PairsOf(visits) == HopPairs(hop, i, |creds|) && forall j :: 0 <= j < |visits| ==> !Decisive(visits[j].answer)
  }

  /** An answer that ends the hop: it decides, or its credential is the hop's last. */
  lemma {:induction false} HopEnds(env: Env, hop: nat, creds: seq<Cred>, i: nat, v: Visit, using: Cred)
    requires hop < env.hops && i < |creds| && env.creds(hop) == Picked(creds) && v.hop == hop && v.cred == i
    requires Decisive(v.answer) || i == |creds| - 1
    ensures v.answer.ok ==> HopLeads(env, hop, creds, i, [v], Some(Served(hop, i, using)))
    ensures !v.answer.ok && (!v.answer.retryable || hop == env.hops - 1) ==>
              HopLeads(env, hop, creds, i, [v], Some(Refused(hop, i)))
    ensures !v.answer.ok && v.answer.retryable ==> HopLeads(env, hop, creds, i, [v], None)
  {
    assert PairsOf([v]) == [(hop, i)];
    assert HopPairs(hop, i, |creds|)[..1] == [(hop, i)];
    assert !Decisive(v.answer) ==> HopPairs(hop, i, |creds|) == [(hop, i)];
  }

  lemma {:induction false} HopGoesOn(env: Env, hop: nat, creds: seq<Cred>, i: nat, v: Visit, more: seq<Visit>, out: Option<Outcome>)
    requires i < |creds| && v.hop == hop && v.cred == i && !Decisive(v.answer) && HopLeads(env, hop, creds, i + 1, more, out)
    ensures HopLeads(env, hop, creds, i, [v] + more, out)
  {
    hide Leads;
    assert PairsOf([v] + more) == [(hop, i)] + PairsOf(more);
    if out.Some? {
      LeadsCons(env, HopPairs(hop, i + 1, |creds|), v, more, out.value);
    }
  }

  lemma {:induction false} AfterOneMore(before: seq<Visit>, v: Visit, all: seq<Visit>)
    requires before + [v] <= all
    ensures before <= all && all[|before|..] == [v] + all[|before + [v]|..]
  {
  }

  lemma {:induction false} TryFirst(env: Env, log: Log, last: Last, hop: nat, creds: seq<Cred>, i: nat)
    requires i < |creds|
    ensures var (answer, using, calls) := Attempt(env, log.calls, hop, i, creds[i]);
            var log1 := Log(calls, log.visits + [Visit(hop, i, answer)]);
            var (log', last', out) := TryCreds(env, log, last, hop, creds, i);
            if !Decisive(answer) && i < |creds| - 1 then
              (log', last', out) == TryCreds(env, log1, Failed(hop, answer.status), hop, creds, i + 1)
            else
              log' == log1 && out == if answer.ok then Some(Served(hop, i, using))
                                     else if answer.retryable && hop < env.hops - 1 then None
                                     else Some(Refused(hop, i))
  {
    hide Attempt;
  }

  lemma {:induction false} HopVisits(env: Env, log: Log, last: Last, hop: nat, i: nat)
    requires hop < env.hops && Skip(env, hop).None? && env.creds(hop).Picked? && i <= |env.creds(hop).creds|
    ensures var creds := env.creds(hop).creds;
            var (log', last', out) := TryCreds(env, log, last, hop, creds, i);
            && log.visits <= log'.visits
            && HopLeads(env, hop, creds, i, log'.visits[|log.visits|..], out)
            && (i < |creds| && out.None? ==> hop < env.hops - 1)
    decreases |env.creds(hop).creds| - i
  {
    var creds := env.creds(hop).creds;
    if i < |creds| {
      hide Attempt, HopLeads, Skip, PairsOf, HopPairs, TryCreds;
      var (answer, using, calls) := Attempt(env, log.calls, hop, i, creds[i]);
      var v := Visit(hop, i, answer);
      var log1 := Log(calls, log.visits + [v]);
      var (log', last', out) := TryCreds(env, log, last, hop, creds, i);
      TryFirst(env, log, last, hop, creds, i);
      if !Decisive(answer) && i < |creds| - 1 {
        HopVisits(env, log1, Failed(hop, answer.status), hop, i + 1);
        var more := log'.visits[|log1.visits|..];
        AfterOneMore(log.visits, v, log'.visits);
        HopGoesOn(env, hop, creds, i, v, more, out);
      } else {
        assert log'.visits[|log.visits|..] == [v];
        HopEnds(env, hop, creds, i, v, using);
      }
    } else {
      assert log.visits[|log.visits|..] == [];
      assert PairsOf([]) == [];
    }
  }

  lemma {:induction false} LeadsAppend(env: Env, offered: seq<Pair>, before: seq<Visit>, visits: seq<Visit>, outcome: Outcome)
    requires Leads(env, offered, visits, outcome) && forall j :: 0 <= j < |before| ==> !Decisive(before[j].answer)
    ensures Leads(env, PairsOf(before) + offered, before + visits, outcome)
    decreases |before|
  {
    hide Leads;
    if before == [] {
      assert before + visits == visits && PairsOf(before) + offered == offered;
    } else {
      LeadsAppend(env, offered, before[1..], visits, outcome);
      LeadsCons(env, PairsOf(before[1..]) + offered, before[0], before[1..] + visits, outcome);
      assert before + visits == [before[0]] + (before[1..] + visits);
      assert PairsOf(before) + offered == [(before[0].hop, before[0].cred)] + (PairsOf(before[1..]) + offered);
    }
  }

  /** A hop that decided the walk decides it whatever would have been offered after it. */
  lemma {:induction false} LeadsMore(env: Env, offered: seq<Pair>, more: seq<Pair>, visits: seq<Visit>, outcome: Outcome)
    requires Leads(env, offered, visits, outcome) && (outcome.Served? || outcome.Refused?)
    ensures Leads(env, offered + more, visits, outcome)
  {
    assert PairsOf(visits) <= offered + more;
  }

  lemma {:induction false} WalkVisits(env: Env, log: Log, last: Last, hop: nat)
    requires hop <= env.hops && env.hops > 0
    requires hop == env.hops ==> Skip(env, hop - 1).Some? && last == Failed(hop - 1, Skip(env, hop - 1).value)
    ensures var (log', outcome) := Walk(env, log, last, hop);
            log.visits <= log'.visits && Leads(env, Pairs(env, hop), log'.visits[|log.visits|..], outcome)
    decreases env.hops - hop
  {
    hide TryCreds, Leads;
    var (log', outcome) := Walk(env, log, last, hop);
    if hop == env.hops || (Skip(env, hop).None? && env.creds(hop).VaultError?) {
      assert log.visits[|log.visits|..] == [];
      NothingLeads(env, outcome);
    } else if Skip(env, hop).Some? {
      WalkVisits(env, log, Failed(hop, Skip(env, hop).value), hop + 1);
    } else {
      var creds := env.creds(hop).creds;
      assert creds != [];
      HopVisits(env, log, last, hop, 0);
      var (log1, last1, out) := TryCreds(env, log, last, hop, creds, 0);
      var here := log1.visits[|log.visits|..];
      if out.Some? {
        LeadsMore(env, HopPairs(hop, 0, |creds|), Pairs(env, hop + 1), here, outcome);
      } else {
        WalkVisits(env, log1, last1, hop + 1);
        var there := log'.visits[|log1.visits|..];
        LeadsAppend(env, Pairs(env, hop + 1), here, there, outcome);
        assert log'.visits[|log.visits|..] == here + there;
      }
    }
  }

  lemma {:induction false} NothingLeads(env: Env, outcome: Outcome)
    requires outcome.Broken? || outcome.Left?
    requires outcome.Broken? ==> outcome.hop < env.hops && Skip(env, outcome.hop).None? && env.creds(outcome.hop).VaultError?
    requires outcome.Left? ==>
               env.hops > 0 && Skip(env, env.hops - 1).Some? && outcome.last == Failed(env.hops - 1, Skip(env, env.hops - 1).value)
    ensures Leads(env, [], [], outcome)
  {
    assert PairsOf([]) == [];
  }

  /** A whole walk. */
  function Whole(env: Env): (Log, Outcome) {
    Walk(env, Log([], []), Nothing, 0)
  }

  /**
   The walk visits the offered pairs in chain order up to the first decisive answer or to the end, is served
   or refused by that answer, and otherwise stops at a failing vault or behind a last hop that was skipped.
   */
  lemma {:induction false} WalkStopsAtFirstDecision(env: Env)
    requires env.hops > 0
    ensures Leads(env, Pairs(env, 0), Whole(env).0.visits, Whole(env).1)
  {
    hide Leads;
    WalkVisits(env, Log([], []), Nothing, 0);
    assert Whole(env).0.visits[0..] == Whole(env).0.visits;
  }

  /** Leaving the loop means the last hop was skipped: the status is 403 or 503, never the 0 that would be repaired. */
  lemma {:induction false} LeftMeansLastHopSkipped(env: Env)
    requires env.hops > 0 && Whole(env).1.Left?
    ensures Whole(env).1.last.Failed? && Whole(env).1.last.hop == env.hops - 1
    ensures Whole(env).1.last.status == if env.allows(env.hops - 1) then 503 else 403
  {
    WalkStopsAtFirstDecision(env);
  }

  lemma {:induction false} PairsAreAllowed(env: Env, hop: nat, p: Pair)
    requires hop <= env.hops && p in Pairs(env, hop)
    ensures hop <= p.0 < env.hops && Skip(env, p.0).None? && env.creds(p.0).Picked? && p.1 < |env.creds(p.0).creds|
    decreases env.hops - hop
  {
    if Skip(env, hop).None? && env.creds(hop).Picked? && p in HopPairs(hop, 0, |env.creds(hop).creds|) {
    } else {
      PairsAreAllowed(env, hop + 1, p);
    }
  }

  // ---------------------------------------------------------------------------------------------
  // What is called
  // ---------------------------------------------------------------------------------------------

  predicate Runs(c: Call, hop: nat, cred: nat) {
    c.Execute? && c.hop == hop && c.cred == cred
  }

  /** The same pair is executed twice only two calls apart: a 401, then a refresh, then again with its credential. */
  ghost predicate TwiceOnlyRenewed(env: Env, calls: seq<Call>) {
    forall p, q :: 0 <= p < q < |calls| && calls[p].Execute? && Runs(calls[q], calls[p].hop, calls[p].cred) ==>
      && q == p + 2
      && calls[p + 1] == Refresh(calls[p].hop, calls[p].cred, calls[p].using)
      && !env.execute(calls[..p + 1]).ok && env.execute(calls[..p + 1]).status == 401
      && env.refresh(calls[..p + 2]) == Some(calls[q].using)
  }

  /** No execution of the pair yet. */
  predicate NotYet(calls: seq<Call>, hop: nat, cred: nat) {
    forall p :: 0 <= p < |calls| ==> !Runs(calls[p], hop, cred)
  }

  lemma {:induction false} RefreshKeeps(env: Env, calls: seq<Call>, hop: nat, i: nat, cred: Cred)
    requires TwiceOnlyRenewed(env, calls)
    ensures TwiceOnlyRenewed(env, calls + [Refresh(hop, i, cred)])
    ensures NotYet(calls, hop, i) ==> NotYet(calls + [Refresh(hop, i, cred)], hop, i)
  {
    var calls' := calls + [Refresh(hop, i, cred)];
    assert forall p :: 0 <= p <= |calls| ==> calls'[..p] == calls[..p];
  }

  lemma {:induction false} FirstExecuteKeeps(env: Env, calls: seq<Call>, hop: nat, i: nat, cred: Cred)
    requires TwiceOnlyRenewed(env, calls) && NotYet(calls, hop, i)
    ensures TwiceOnlyRenewed(env, calls + [Execute(hop, i, cred)])
  {
    var calls' := calls + [Execute(hop, i, cred)];
    assert forall p :: 0 <= p <= |calls| ==> calls'[..p] == calls[..p];
  }

  lemma {:induction false} SecondExecuteKeeps(env: Env, calls: seq<Call>, hop: nat, i: nat, cred: Cred, renewed: Cred)
    requires NotYet(calls, hop, i)
    requires var tried := calls + [Execute(hop, i, cred)];
             !env.execute(tried).ok && env.execute(tried).status == 401
    requires var asked := calls + [Execute(hop, i, cred)] + [Refresh(hop, i, cred)];
             TwiceOnlyRenewed(env, asked) && env.refresh(asked) == Some(renewed)
    ensures TwiceOnlyRenewed(env, calls + [Execute(hop, i, cred)] + [Refresh(hop, i, cred)] + [Execute(hop, i, renewed)])
  {
    var tried := calls + [Execute(hop, i, cred)];
    var asked := tried + [Refresh(hop, i, cred)];
    var calls' := asked + [Execute(hop, i, renewed)];
    assert calls'[..|tried|] == tried && calls'[..|asked|] == asked;
    assert forall p :: 0 <= p <= |asked| ==> calls'[..p] == asked[..p];
    forall p, q | 0 <= p < q < |calls'| && calls'[p].Execute? && Runs(calls'[q], calls'[p].hop, calls'[p].cred)
      ensures q == p + 2 && calls'[p + 1] == Refresh(calls'[p].hop, calls'[p].cred, calls'[p].using)
      ensures !env.execute(calls'[..p + 1]).ok && env.execute(calls'[..p + 1]).status == 401
      ensures env.refresh(calls'[..p + 2]) == Some(calls'[q].using)
    {
      assert p < |calls| ==> calls'[p] == calls[p];
      assert q < |asked| ==> calls'[q] == asked[q] && calls'[p] == asked[p];
    }
  }

  lemma {:induction false} AttemptKeeps(env: Env, calls: seq<Call>, hop: nat, i: nat, cred: Cred)
    requires TwiceOnlyRenewed(env, calls) && NotYet(calls, hop, i)
    ensures TwiceOnlyRenewed(env, Attempt(env, calls, hop, i, cred).2)
  {
    hide TwiceOnlyRenewed;
    var (using, c1) := Ready(env, calls, hop, i, cred);
    RefreshKeeps(env, calls, hop, i, cred);
    FirstExecuteKeeps(env, c1, hop, i, using);
    var c2 := c1 + [Execute(hop, i, using)];
    RefreshKeeps(env, c2, hop, i, using);
    var renewed := env.refresh(c2 + [Refresh(hop, i, using)]);
    if !env.execute(c2).ok && env.execute(c2).status == 401 && renewed.Some? {
      SecondExecuteKeeps(env, c1, hop, i, using, renewed.value);
    }
  }

  /** An attempt makes calls for its own pair only, and at least executes it once. */
  lemma {:induction false} AttemptAdds(env: Env, calls: seq<Call>, hop: nat, i: nat, cred: Cred)
    ensures var calls' := Attempt(env, calls, hop, i, cred).2;
            calls < calls' && forall p :: |calls| <= p < |calls'| ==> calls'[p].hop == hop && calls'[p].cred == i
  {
  }

  /** The calls so far obey the rule and are all for pairs before (hop, cred). */
  ghost predicate Orderly(env: Env, log: Log, hop: nat, cred: nat) {
    && TwiceOnlyRenewed(env, log.calls)
    && (forall p :: 0 <= p < |log.calls| ==>
          (log.calls[p].hop < hop || (log.calls[p].hop == hop && log.calls[p].cred < cred)) &&
          (log.calls[p].hop, log.calls[p].cred) in PairsOf(log.visits))
  }

  lemma {:induction false} OrderlyAttempt(env: Env, log: Log, hop: nat, i: nat, cred: Cred)
    requires Orderly(env, log, hop, i)
    ensures var (answer, using, calls) := Attempt(env, log.calls, hop, i, cred);
            Orderly(env, Log(calls, log.visits + [Visit(hop, i, answer)]), hop, i + 1)
  {
    hide Attempt, TwiceOnlyRenewed;
    AttemptKeeps(env, log.calls, hop, i, cred);
    AttemptAdds(env, log.calls, hop, i, cred);
    var (answer, using, calls) := Attempt(env, log.calls, hop, i, cred);
    var visits := log.visits + [Visit(hop, i, answer)];
    assert PairsOf(visits) == PairsOf(log.visits) + [(hop, i)];
    forall p | 0 <= p < |calls|
      ensures calls[p].hop < hop || (calls[p].hop == hop && calls[p].cred < i + 1)
      ensures (calls[p].hop, calls[p].cred) in PairsOf(visits)
    {
      assert p < |log.calls| ==> calls[p] == log.calls[p];
    }
  }

  lemma {:induction false} OrderlyHop(env: Env, log: Log, last: Last, hop: nat, creds: seq<Cred>, i: nat)
    requires i <= |creds| && Orderly(env, log, hop, i)
    ensures Orderly(env, TryCreds(env, log, last, hop, creds, i).0, hop + 1, 0)
    decreases |creds| - i
  {
    hide Attempt, TwiceOnlyRenewed;
    if i < |creds| {
      OrderlyAttempt(env, log, hop, i, creds[i]);
      var (answer, using, calls) := Attempt(env, log.calls, hop, i, creds[i]);
      var log' := Log(calls, log.visits + [Visit(hop, i, answer)]);
      OrderlyHop(env, log', Failed(hop, answer.status), hop, creds, i + 1);
    }
  }

  lemma {:induction false} OrderlyWalk(env: Env, log: Log, last: Last, hop: nat)
    requires hop <= env.hops && Orderly(env, log, hop, 0)
    ensures Orderly(env, Walk(env, log, last, hop).0, env.hops, 0)
    decreases env.hops - hop
  {
    hide TryCreds, TwiceOnlyRenewed;
    if hop < env.hops {
      if Skip(env, hop).Some? {
        OrderlyWalk(env, log, Failed(hop, Skip(env, hop).value), hop + 1);
      } else if env.creds(hop).Picked? {
        OrderlyHop(env, log, last, hop, env.creds(hop).creds, 0);
        var (log', last', out) := TryCreds(env, log, last, hop, env.creds(hop).creds, 0);
        if out.None? {
          OrderlyWalk(env, log', last', hop + 1);
        }
      }
    }
  }

  /**
   No call is made at a hop that is disallowed, unavailable or without credentials, and a pair is executed a
   second time only after a 401 and a successful refresh, with the refreshed credential; never a third time.
   */
  lemma {:induction false} CallsAreDisciplined(env: Env)
    requires env.hops > 0
    ensures var calls := Whole(env).0.calls;
            && TwiceOnlyRenewed(env, calls)
            && (forall p :: 0 <= p < |calls| ==> calls[p].hop < env.hops && env.allows(calls[p].hop) && env.available(calls[p].hop))
            && (forall p, q, r :: 0 <= p < q < r < |calls| && calls[p].Execute? ==>
                  !(Runs(calls[q], calls[p].hop, calls[p].cred) && Runs(calls[r], calls[p].hop, calls[p].cred)))
  {
    hide Walk;
    OrderlyWalk(env, Log([], []), Nothing, 0);
    WalkStopsAtFirstDecision(env);
    var (log, outcome) := Whole(env);
    forall p | 0 <= p < |log.calls|
      ensures log.calls[p].hop < env.hops && env.allows(log.calls[p].hop) && env.available(log.calls[p].hop)
    {
      PairsAreAllowed(env, 0, (log.calls[p].hop, log.calls[p].cred));
    }
  }

  // ---------------------------------------------------------------------------------------------
  // What is offered, and with which credential each pair begins
  // ---------------------------------------------------------------------------------------------

  /** The hop may be used. */
  predicate Usable(env: Env, hop: nat) {
    env.allows(hop) && env.available(hop)
  }

  /** No usable hop between the two fails to list its credentials. */
  predicate ReachedFrom(env: Env, from: nat, hop: nat) {
    forall g: nat :: from <= g < hop ==> Usable(env, g) ==> !env.creds(g).VaultError?
  }

  lemma {:induction false} OfferedFrom(env: Env, hop: nat, p: Pair)
    requires hop <= env.hops
    ensures p in Pairs(env, hop) <==>
            hop <= p.0 < env.hops && Usable(env, p.0) && env.creds(p.0).Picked? && p.1 < |env.creds(p.0).creds| &&
            ReachedFrom(env, hop, p.0)
    decreases env.hops - hop
  {
    if hop < env.hops {
      OfferedFrom(env, hop + 1, p);
      if Skip(env, hop).None? && env.creds(hop).Picked? {
        InHopPairs(hop, |env.creds(hop).creds|, p);
      }
    }
  }

  lemma {:induction false} InHopPairs(hop: nat, n: nat, p: Pair)
    ensures p in HopPairs(hop, 0, n) <==> p.0 == hop && p.1 < n
  {
    var pairs := HopPairs(hop, 0, n);
    if p.0 == hop && p.1 < n {
      assert pairs[p.1] == p;
    }
  }

  predicate Before(p: Pair, q: Pair) {
    p.0 < q.0 || (p.0 == q.0 && p.1 < q.1)
  }

  lemma {:induction false} OfferedInOrder(env: Env, hop: nat)
    requires hop <= env.hops
    ensures InOrder(Pairs(env, hop))
    decreases env.hops - hop
  {
    if hop < env.hops {
      OfferedInOrder(env, hop + 1);
      if Skip(env, hop).None? && env.creds(hop).Picked? {
        var here, later := HopPairs(hop, 0, |env.creds(hop).creds|), Pairs(env, hop + 1);
        forall j | 0 <= j < |later|
          ensures later[j].0 > hop
        {
          OfferedFrom(env, hop + 1, later[j]);
        }
        InOrderAppend(here, later);
        assert Pairs(env, hop) == here + later;
      }
    }
  }

  predicate InOrder(pairs: seq<Pair>) {
    forall i, j :: 0 <= i < j < |pairs| ==> Before(pairs[i], pairs[j])
  }

  lemma {:induction false} InOrderAppend(a: seq<Pair>, b: seq<Pair>)
    requires InOrder(a) && InOrder(b) && forall i, j :: 0 <= i < |a| && 0 <= j < |b| ==> Before(a[i], b[j])
    ensures InOrder(a + b)
  {
    var all := a + b;
    forall i, j | 0 <= i < j < |all|
      ensures Before(all[i], all[j])
    {
      assert all[i] == if i < |a| then a[i] else b[i - |a|];
      assert all[j] == if j < |a| then a[j] else b[j - |a|];
    }
  }

  /**
   The pairs on offer: every credential of every hop that is allowed and available, by hop and then by place, up to a
   usable hop whose credentials cannot be listed.
   */
  lemma {:induction false} EveryPairIsOffered(env: Env, hop: nat, cred: nat)
    ensures (hop, cred) in Pairs(env, 0) <==>
            hop < env.hops && env.allows(hop) && env.available(hop) && env.creds(hop).Picked? && cred < |env.creds(hop).creds| &&
            ReachedFrom(env, 0, hop)
    ensures InOrder(Pairs(env, 0))
  {
    OfferedFrom(env, 0, (hop, cred));
    OfferedInOrder(env, 0);
  }

  /** No call for the same pair before. */
  predicate FirstOf(calls: seq<Call>, p: nat)
    requires p < |calls|
  {
    forall q :: 0 <= q < p ==> calls[q].hop != calls[p].hop || calls[q].cred != calls[p].cred
  }

  /** The call begins with the pair's own credential: refreshed first if it is near its expiry, and then executed. */
  ghost predicate Begins(env: Env, calls: seq<Call>, p: nat)
    requires p < |calls|
  {
    var c := calls[p];
    && env.creds(c.hop).Picked? && c.cred < |env.creds(c.hop).creds|
    && var own := env.creds(c.hop).creds[c.cred];
       if !own.nearExpiry then c == Execute(c.hop, c.cred, own)
       else
         && c == Refresh(c.hop, c.cred, own) && p + 1 < |calls|
         && match env.refresh(calls[..p + 1])
            case Some(renewed) => calls[p + 1] == Execute(c.hop, c.cred, renewed)
            case None => calls[p + 1] == Execute(c.hop, c.cred, own)
  }

  ghost predicate AllBegin(env: Env, calls: seq<Call>) {
    forall p :: 0 <= p < |calls| && FirstOf(calls, p) ==> Begins(env, calls, p)
  }

  lemma {:induction false} AttemptBegins(env: Env, calls: seq<Call>, hop: nat, i: nat)
    requires env.creds(hop).Picked? && i < |env.creds(hop).creds|
    ensures var calls' := Attempt(env, calls, hop, i, env.creds(hop).creds[i]).2;
            calls < calls' && Begins(env, calls', |calls|)
  {
    var own := env.creds(hop).creds[i];
    var (using, c1) := Ready(env, calls, hop, i, own);
    var c2 := c1 + [Execute(hop, i, using)];
    var calls' := Attempt(env, calls, hop, i, own).2;
    assert c2 <= calls';
    assert calls'[..|calls|] == calls;
    if own.nearExpiry {
      assert c2[|calls|] == Refresh(hop, i, own) && c2[..|calls| + 1] == c1;
      assert calls'[..|calls| + 1] == c1;
    }
  }

  lemma {:induction false} BeginsStays(env: Env, calls: seq<Call>, calls': seq<Call>, p: nat)
    requires calls <= calls' && p < |calls| && Begins(env, calls, p)
    ensures Begins(env, calls', p)
  {
    assert calls'[..p + 1] == calls[..p + 1];
  }

  lemma {:induction false} AllBeginAttempt(env: Env, calls: seq<Call>, hop: nat, i: nat)
    requires AllBegin(env, calls) && env.creds(hop).Picked? && i < |env.creds(hop).creds|
    ensures AllBegin(env, Attempt(env, calls, hop, i, env.creds(hop).creds[i]).2)
  {
    hide Attempt, Begins;
    var calls' := Attempt(env, calls, hop, i, env.creds(hop).creds[i]).2;
    AttemptBegins(env, calls, hop, i);
    AttemptAdds(env, calls, hop, i, env.creds(hop).creds[i]);
    forall p | 0 <= p < |calls'| && FirstOf(calls', p)
      ensures Begins(env, calls', p)
    {
      if p < |calls| {
        assert FirstOf(calls, p);
        BeginsStays(env, calls, calls', p);
      } else {
        assert p == |calls|;
      }
    }
  }

  lemma {:induction false} AllBeginHop(env: Env, log: Log, last: Last, hop: nat, i: nat)
    requires env.creds(hop).Picked? && i <= |env.creds(hop).creds| && AllBegin(env, log.calls)
    ensures AllBegin(env, TryCreds(env, log, last, hop, env.creds(hop).creds, i).0.calls)
    decreases |env.creds(hop).creds| - i
  {
    hide Attempt, AllBegin;
    var creds := env.creds(hop).creds;
    if i < |creds| {
      AllBeginAttempt(env, log.calls, hop, i);
      var (answer, using, calls) := Attempt(env, log.calls, hop, i, creds[i]);
      AllBeginHop(env, Log(calls, log.visits + [Visit(hop, i, answer)]), Failed(hop, answer.status), hop, i + 1);
    }
  }

  lemma {:induction false} AllBeginWalk(env: Env, log: Log, last: Last, hop: nat)
    requires hop <= env.hops && AllBegin(env, log.calls)
    ensures AllBegin(env, Walk(env, log, last, hop).0.calls)
    decreases env.hops - hop
  {
    hide TryCreds, AllBegin;
    if hop < env.hops {
      if Skip(env, hop).Some? {
        AllBeginWalk(env, log, Failed(hop, Skip(env, hop).value), hop + 1);
      } else if env.creds(hop).Picked? {
        AllBeginHop(env, log, last, hop, 0);
        var (log', last', out) := TryCreds(env, log, last, hop, env.creds(hop).creds, 0);
        if out.None? {
          AllBeginWalk(env, log', last', hop + 1);
        }
      }
    }
  }

  /** Every pair begins with its own credential, refreshed before it is executed exactly when it is near its expiry. */
  lemma {:induction false} PairsBeginWithTheirCredential(env: Env, p: nat)
    requires p < |Whole(env).0.calls| && FirstOf(Whole(env).0.calls, p)
    ensures Begins(env, Whole(env).0.calls, p)
  {
    hide Walk, Begins;
    NothingBegins(env);
    AllBeginWalk(env, Log([], []), Nothing, 0);
  }

  lemma {:induction false} NothingBegins(env: Env)
    ensures AllBegin(env, [])
  {
  }

  /**
   The usage recorded for a walk: one event for the hop that was served or refused, which is the hop of the last visit,
   and ok exactly when that visit was answered well and what it served ended well; else one failure for the last hop,
   or nothing if the vault failed.
   */
  lemma {:induction false} UsageIsCharged(env: Env)
    requires env.hops > 0
    ensures var (log, outcome) := Whole(env); var usage := UsageOf(env, log, outcome);
            if outcome.Broken? then usage == []
            else
              && |usage| == 1
              && (outcome.Left? ==> usage[0].hop == env.hops - 1 && !usage[0].ok)
              && (outcome.Served? || outcome.Refused? ==>
                    log.visits != [] &&
                    var v := log.visits[|log.visits| - 1];
                    && usage[0].hop == v.hop
                    && (usage[0].ok <==> v.answer.ok && match env.drained(log.calls)
                                                        case None => true
                                                        case Some(state) => state.finished && state.error == ""))
  {
    WalkStopsAtFirstDecision(env);
    hide Walk;
  }
}
