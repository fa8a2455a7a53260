/**
 The store as the program uses it: tables updated in place, one method per repository
 operation, with the clock and the random source beside it.
 */
module Repositories {
  import opened Wrappers
  import opened Tables
  import opened Protocol
  import opened Machine
  import opened Registry
  import Service

  /** Of the bytes drawn, those not left have been taken before. */
  ghost predicate Taken(rows: seq<HandleRow>, all: seq<Bytes>, left: seq<Bytes>)
  {
    && (forall i :: 0 <= i < |left| ==> left[i] in all)
    && (forall i :: 0 <= i < |all| ==> all[i] in left || Service.HasBytes(rows, all[i]))
  }

  lemma TakenOneMore(rows: seq<HandleRow>, all: seq<Bytes>, left: seq<Bytes>, b: Bytes, rest: seq<Bytes>,
                     pick: Option<nat>)
    requires Taken(rows, all, left) && left == [b] + rest && PicksHandle(rows, b, pick) && |b| == 32
    ensures if pick.Some? then Taken(rows, all, rest) else Service.Draws(rows, all, Some(b))
  {
    assert left[0] == b;
    if pick.Some? {
      forall i | 0 <= i < |rest| ensures rest[i] in all { assert left[i + 1] == rest[i]; }
      forall i | 0 <= i < |all| ensures all[i] in rest || Service.HasBytes(rows, all[i]) {
        if all[i] in left && all[i] != b {
          var k :| 0 <= k < |left| && left[k] == all[i];
          assert rest[k - 1] == all[i];
        }
      }
    }
  }

  type RandomBytes = b: Bytes | |b| == 32 witness seq(32, i => 0)

  /** What the program draws from outside: random bytes until the source fails, and a clock
      that never goes back. */
  class Environment {
    var draws: seq<RandomBytes>
    var ticks: seq<nat>
    var now: int

    constructor (draws: seq<RandomBytes>, ticks: seq<nat>, now: int)
      ensures this.draws == draws && this.ticks == ticks && this.now == now
    {
      this.draws, this.ticks, this.now := draws, ticks, now;
    }

    method Random() returns (b: Option<RandomBytes>)
      modifies this`draws
      ensures b.None? ==> old(draws) == [] && draws == []
      ensures b.Some? ==> old(draws) == [b.value] + draws
    {
      if draws == [] {
        return None;
      }
      b := Some(draws[0]);
      draws := draws[1..];
    }

    method Now() returns (t: int)
      modifies this`ticks, this`now
      ensures t == now && old(now) <= now
    {
      if ticks != [] {
        now, ticks := now + ticks[0], ticks[1..];
      }
      t := now;
    }
  }

  /** The rows an Update's manifests are linked by. */
  function LinksFor(update: nat, picked: seq<nat>): (r: seq<LinkRow>)
    ensures |r| == |picked| && forall i :: 0 <= i < |picked| ==> r[i] == LinkRow(update, picked[i])
  {
    seq(|picked|, i requires 0 <= i < |picked| => LinkRow(update, picked[i]))
  }

  datatype Creation = Created | Rejected | NilManifest

  /** How many manifests are known before the first unknown one. */
  function KnownUpTo(picked: seq<nat>, known: nat): (r: nat)
    ensures r <= |picked| && (forall i :: 0 <= i < r ==> picked[i] < known) && (r < |picked| ==> picked[r] >= known)
  {
    if picked == [] || picked[0] >= known then 0
    else
      var rest := KnownUpTo(picked[1..], known);
      assert forall i :: 1 <= i < 1 + rest ==> picked[i] == picked[1..][i - 1];
      1 + rest
  }

  lemma LinksOneMore(update: nat, picked: seq<nat>, i: nat)
    requires i < |picked|
    ensures LinksFor(update, picked[..i + 1]) == LinksFor(update, picked[..i]) + [LinkRow(update, picked[i])]
  {
  }

  class Store {
    var tokens: seq<HandleRow>
    var challenges: seq<HandleRow>
    var queries: seq<QueryRow>
    var updates: seq<UpdateRow>
    var links: seq<LinkRow>
    var agents: seq<AgentRow>
    var signingKeys: seq<SigningKeyRow>
    var manifests: seq<ManifestRow>
    var holdings: seq<HoldingRow>
    var reports: seq<ReportRow>
    var devices: seq<Bytes>

    constructor (signingKeys: seq<SigningKeyRow>, devices: seq<Bytes>)
      ensures View() == EmptyDb(signingKeys, devices)
    {
      tokens, challenges, queries, updates, links := [], [], [], [], [];
      agents, manifests, holdings, reports := [], [], [], [];
      this.signingKeys, this.devices := signingKeys, devices;
    }

    function View(): Db
      reads this
    {
      Db(tokens, challenges, queries, updates, links, agents, signingKeys, manifests, holdings, reports, devices)
    }

    // ---- tokens and challenges ----

    static method FindHandle(rows: seq<HandleRow>, bytes: Bytes) returns (pick: Option<nat>)
      ensures PicksHandle(rows, bytes, pick)
    {
      for i := 0 to |rows|
        invariant forall j :: 0 <= j < i ==> rows[j].bytes != bytes
      {
        if rows[i].bytes == bytes {
          return Some(i);
        }
      }
      pick := None;
    }

    /** Draws until the bytes are new, then stores them. */
    method GenerateUniqueToken(env: Environment) returns (token: Option<Bytes>)
      modifies this`tokens, env`draws
      ensures token.Some? ==>
        && |token.value| == 32 && !Issued(old(tokens), token.value)
        && View() == Apply(old(View()), PutToken(token.value))
      ensures token.None? ==> View() == old(View()) && env.draws == []
      ensures Service.Draws(old(tokens), old(env.draws), token)
    {
      while true
        invariant View() == old(View()) && Taken(tokens, old(env.draws), env.draws)
        decreases |env.draws|
      {
        var drawn := env.Random();
        if drawn.None? {
          return None;
        }
        var existing := FindHandle(tokens, drawn.value);
        TakenOneMore(tokens, old(env.draws), [drawn.value] + env.draws, drawn.value, env.draws, existing);
        if existing.None? {
          tokens := tokens + [HandleRow(drawn.value, false)];
          return Some(drawn.value);
        }
      }
    }

    method GenerateUniqueChallenge(env: Environment) returns (challenge: Option<Bytes>)
      modifies this`challenges, env`draws
      ensures challenge.Some? ==>
        && |challenge.value| == 32 && !Issued(old(challenges), challenge.value)
        && View() == Apply(old(View()), PutChallenge(challenge.value))
      ensures challenge.None? ==> View() == old(View()) && env.draws == []
      ensures Service.Draws(old(challenges), old(env.draws), challenge)
    {
      while true
        invariant View() == old(View()) && Taken(challenges, old(env.draws), env.draws)
        decreases |env.draws|
      {
        var drawn := env.Random();
        if drawn.None? {
          return None;
        }
        var existing := FindHandle(challenges, drawn.value);
        TakenOneMore(challenges, old(env.draws), [drawn.value] + env.draws, drawn.value, env.draws, existing);
        if existing.None? {
          challenges := challenges + [HandleRow(drawn.value, false)];
          return Some(drawn.value);
        }
      }
    }

    static method IsUnconsumed(rows: seq<HandleRow>, bytes: Bytes) returns (found: bool)
      ensures found == Unconsumed(rows, bytes)
    {
      for i := 0 to |rows|
        invariant forall j :: 0 <= j < i ==> rows[j].bytes != bytes || rows[j].consumed
      {
        if rows[i].bytes == bytes && !rows[i].consumed {
          return true;
        }
      }
      found := false;
    }

    /** Whether an unconsumed row was there to flip; consumed rows are left as they are. */
    method MarkTokenConsumed(bytes: Bytes) returns (ok: bool)
      modifies this`tokens
      ensures ok == Unconsumed(old(tokens), bytes)
      ensures View() == if ok then Apply(old(View()), UseToken(bytes)) else old(View())
    {
      ok := IsUnconsumed(tokens, bytes);
      if ok {
        tokens := Consumed(tokens, bytes);
      }
    }

    method MarkChallengeConsumed(bytes: Bytes) returns (ok: bool)
      modifies this`challenges
      ensures ok == Unconsumed(old(challenges), bytes)
      ensures View() == if ok then Apply(old(View()), UseChallenge(bytes)) else old(View())
    {
      ok := IsUnconsumed(challenges, bytes);
      if ok {
        challenges := Consumed(challenges, bytes);
      }
    }

    // ---- sent messages ----

    /** Records a QueryRequest under an unconsumed handle. */
    method CreateQuery(handle: Handle) returns (ok: bool, ghost pick: Option<nat>)
      modifies this`queries
      ensures PicksHandle(if handle.TokenHandle? then tokens else challenges, handle.bytes, pick)
      ensures ok == (pick.Some? && !(if handle.TokenHandle? then tokens else challenges)[pick.value].consumed)
      ensures View() == if ok then Apply(old(View()), PutQuery(QueryRowFor(handle, pick.value))) else old(View())
    {
      var rows := if handle.TokenHandle? then tokens else challenges;
      var found := FindHandle(rows, handle.bytes);
      pick := found;
      if found.None? || rows[found.value].consumed {
        return false, pick;
      }
      queries := queries + [QueryRowFor(handle, found.value)];
      ok := true;
    }

    method FindQueryByToken(token: Bytes) returns (pick: Option<nat>)
      ensures PicksQueryByToken(View(), token, pick)
    {
      for q := 0 to |queries|
        invariant forall p: nat :: p < q ==> !QueryUsesToken(View(), p, token)
      {
        if QueryUsesToken(View(), q, token) {
          return Some(q);
        }
      }
      pick := None;
    }

    method FindQueryByChallenge(challenge: Bytes) returns (pick: Option<nat>)
      ensures PicksQueryByChallenge(View(), challenge, pick)
    {
      for q := 0 to |queries|
        invariant forall p: nat :: p < q ==> !QueryUsesChallenge(View(), p, challenge)
      {
        if QueryUsesChallenge(View(), q, challenge) {
          return Some(q);
        }
      }
      pick := None;
    }

    /** The manifests linked to the Update sent under the token, gathered row by row. */
    method FindUpdateByToken(token: Bytes) returns (answer: Option<seq<nat>>)
      ensures PicksUpdate(View(), token, answer)
    {
      var found := false;
      for u := 0 to |updates|
        invariant !found ==> forall t: nat :: t < u ==> !UpdateUsesToken(View(), t, token)
        invariant found ==> exists t: nat :: UpdateUsesToken(View(), t, token)
      {
        if UpdateUsesToken(View(), u, token) {
          found := true;
        }
      }
      if !found {
        return None;
      }
      var ids := [];
      for l := 0 to |links|
        invariant ids == LinkedManifests(View(), token, l)
      {
        if UpdateUsesToken(View(), links[l].update, token) {
          ids := ids + [links[l].manifest];
        }
      }
      answer := Some(ids);
    }

    method FindManifest(id: nat) returns (found: Option<nat>)
      ensures found == if id < |manifests| then Some(id) else None
    {
      found := if id < |manifests| then Some(id) else None;
    }

    /** Records an Update for a live agent under an unconsumed token, then looks its manifests
        up and links them one by one; with the agent or the token missing nothing is written,
        and an unknown manifest is a nil dereference after the links before it. */
    method CreateUpdate(kid: Bytes, token: Bytes, picked: seq<nat>, now: int)
      returns (creation: Creation, ghost agent: Option<nat>, ghost id: Option<nat>)
      modifies this`updates, this`links
      ensures PicksAgent(agents, kid, agent) && PicksHandle(tokens, token, id)
      ensures creation.Rejected? <==>
        !(agent.Some? && Live(agents[agent.value], now) && id.Some? && !tokens[id.value].consumed)
      ensures creation.NilManifest? ==> KnownUpTo(picked, |manifests|) < |picked|
      ensures creation.Created? ==> KnownUpTo(picked, |manifests|) == |picked|
      ensures View() == if creation.Rejected? then old(View())
        else old(View()).(updates := old(updates) + [UpdateRow(agent.value, id.value)],
                          links := old(links) + LinksFor(|old(updates)|, picked[..KnownUpTo(picked, |manifests|)]))
    {
      hide LinksFor, KnownUpTo;
      var a := FindAgent(kid);
      var t := FindHandle(tokens, token);
      agent, id := a, t;
      if a.None? || !Live(agents[a.value], now) {
        return Rejected, agent, id;
      }
      if t.None? || tokens[t.value].consumed {
        return Rejected, agent, id;
      }
      var update := |updates|;
      updates := updates + [UpdateRow(a.value, t.value)];
      for i := 0 to |picked|
        invariant updates == old(updates) + [UpdateRow(a.value, t.value)]
        invariant links == old(links) + LinksFor(update, picked[..i])
        invariant i <= KnownUpTo(picked, |manifests|)
      {
        var found := FindManifest(picked[i]);
        if found.None? {
          return NilManifest, agent, id;
        }
        links := links + [LinkRow(update, found.value)];
        LinksOneMore(update, picked, i);
      }
      creation := Created;
    }

    // ---- agents, keys and devices ----

    method FindAgent(kid: Bytes) returns (pick: Option<nat>)
      ensures PicksAgent(agents, kid, pick)
    {
      for a := 0 to |agents|
        invariant forall b :: 0 <= b < a ==> agents[b].kid != kid
      {
        if agents[a].kid == kid {
          return Some(a);
        }
      }
      pick := None;
    }

    /** The thumbprint is unique: a second row is refused. */
    method CreateAgent(agent: AgentRow) returns (ok: bool)
      modifies this`agents
      ensures ok == !KnownAgent(old(agents), agent.kid)
      ensures View() == if ok then Apply(old(View()), PutAgent(agent)) else old(View())
    {
      var existing := FindAgent(agent.kid);
      ok := existing.None?;
      if ok {
        agents := agents + [agent];
      }
    }

    method RevokeByKid(kid: Bytes, now: int) returns (ok: bool)
      modifies this`agents
      ensures ok == exists a :: 0 <= a < |old(agents)| && old(agents)[a].kid == kid && old(agents)[a].revokedAt.None?
      ensures View() == if ok then Apply(old(View()), RevokeAgent(kid, WholeSeconds(now))) else old(View())
    {
      ok := false;
      for a := 0 to |agents|
        invariant ok == exists b :: 0 <= b < a && agents[b].kid == kid && agents[b].revokedAt.None?
      {
        if agents[a].kid == kid && agents[a].revokedAt.None? {
          ok := true;
        }
      }
      if ok {
        agents := Revoked(agents, kid, WholeSeconds(now));
      }
    }

    method FindSigningKey(kid: Bytes) returns (pick: Option<nat>)
      ensures PicksSigningKey(signingKeys, kid, pick)
    {
      for k := 0 to |signingKeys|
        invariant forall j :: 0 <= j < k ==> signingKeys[j].kid != kid
      {
        if signingKeys[k].kid == kid {
          return Some(k);
        }
      }
      pick := None;
    }

    method FindDevice(ueid: Bytes) returns (pick: Option<nat>)
      ensures PicksDevice(devices, ueid, pick)
    {
      for d := 0 to |devices|
        invariant forall e :: 0 <= e < d ==> devices[e] != ueid
      {
        if devices[d] == ueid {
          return Some(d);
        }
      }
      pick := None;
    }

    // ---- manifests ----

    /** A row with the largest sequence number stored for the component. */
    method FindLatest(component: Bytes) returns (pick: Option<nat>)
      ensures PicksLatest(manifests, component, pick)
    {
      pick := None;
      for m := 0 to |manifests|
        invariant pick.None? ==> forall k :: 0 <= k < m ==> manifests[k].component != component
        invariant pick.Some? ==>
          && pick.value < m && manifests[pick.value].component == component
          && forall k :: 0 <= k < m && manifests[k].component == component ==>
               manifests[k].sequenceNumber <= manifests[pick.value].sequenceNumber
      {
        if manifests[m].component == component
           && (pick.None? || manifests[pick.value].sequenceNumber < manifests[m].sequenceNumber)
        {
          pick := Some(m);
        }
      }
    }

    /** The rows carrying the largest sequence number of their component, by component. */
    method FindLatestAll() returns (answer: seq<nat>)
      ensures PicksAllLatest(manifests, answer)
    {
      hide PicksLatestBelow, Ascending, IsLatest;
      NoneBelow(manifests);
      answer := [];
      for m := 0 to |manifests|
        invariant PicksLatestBelow(manifests, answer, m) && Ascending(manifests, answer)
      {
        var latest := FindLatest(manifests[m].component);
        ComponentIsKnown(manifests, m, latest);
        SameNumberIsLatest(manifests, latest.value, m);
        if manifests[latest.value].sequenceNumber == manifests[m].sequenceNumber {
          ghost var before, n := answer, 0;
          answer, n := InsertByComponent(answer, m);
          LatestInserted(manifests, before, n, m);
        } else {
          LatestSkipped(manifests, answer, m);
        }
      }
      AllBelow(manifests, answer);
    }

    method InsertByComponent(answer: seq<nat>, m: nat) returns (longer: seq<nat>, ghost n: nat)
      requires Ascending(manifests, answer) && m < |manifests|
      ensures Ascending(manifests, longer)
      ensures n <= |answer| && longer == answer[..n] + [m] + answer[n..]
    {
      var at: nat := |answer|;
      while at > 0 && !NotAfter(manifests[answer[at - 1]].component, manifests[m].component)
        invariant 0 <= at <= |answer|
        invariant at < |answer| ==> NotAfter(manifests[m].component, manifests[answer[at]].component)
      {
        at := at - 1;
        NotAfterIsTotal(manifests[answer[at]].component, manifests[m].component);
      }
      AscendingBelow(manifests, answer, at, m);
      AscendingInserted(manifests, answer, at, m);
      longer := answer[..at] + [m] + answer[at..];
      n := at;
    }

    method FindByDigest(digest: Bytes) returns (pick: Option<nat>)
      ensures PicksManifestByDigest(manifests, digest, pick)
    {
      for m := 0 to |manifests|
        invariant forall k :: 0 <= k < m ==> manifests[k].digest != digest
      {
        if manifests[m].digest == digest {
          return Some(m);
        }
      }
      pick := None;
    }

    /** Refuses sequence numbers from 2^63 - 1 on. */
    method CreateManifest(input: Input, key: nat) returns (ok: bool)
      requires input.Registration? && input.envelope.Some?
      modifies this`manifests
      ensures ok == (input.sequenceNumber < MAX_INT64)
      ensures View() == if ok then Apply(old(View()), PutManifest(NewManifest(input, key))) else old(View())
    {
      ok := input.sequenceNumber < MAX_INT64;
      if ok {
        manifests := manifests + [NewManifest(input, key)];
      }
    }

    // ---- reports and holdings ----

    /** One transaction: retire what the agent held of the component, insert the new holding
        and its report; if the insert meets the unique index, nothing is written. */
    method ReflectManifestSuccess(kid: Bytes, digest: Bytes, report: Bytes, now: int)
      returns (ok: bool, ghost agent: Option<nat>, ghost manifest: Option<nat>)
      modifies this`holdings, this`reports
      ensures PicksAgent(agents, kid, agent) && PicksManifestByDigest(manifests, digest, manifest)
      ensures ok == (agent.Some? && manifest.Some?
                     && !HoldCollides(old(View()), agent.value, manifest.value, manifests[manifest.value].component))
      ensures View() == if ok then
          Apply(old(View()),
                Hold(agent.value, manifest.value, manifests[manifest.value].component, WholeSeconds(now), report))
        else old(View())
    {
      var a := FindAgent(kid);
      var m := FindByDigest(digest);
      agent, manifest := a, m;
      if a.None? || m.None? {
        return false, agent, manifest;
      }
      var retired := Retired(View(), a.value, manifests[m.value].component);
      for h := 0 to |retired|
        invariant forall k: nat :: k < h ==>
          retired[k].deleted || retired[k].agent != a.value || retired[k].manifest != m.value
      {
        if !retired[h].deleted && retired[h].agent == a.value && retired[h].manifest == m.value {
          return false, agent, manifest;
        }
      }
      holdings := retired + [HoldingRow(a.value, m.value, WholeSeconds(now), false)];
      reports := reports + [ReportRow(a.value, Some(m.value), report, true)];
      ok := true;
    }

    /** An unresolved report, about a manifest if the digest names one. */
    method RecordManifestProcessingFailure(kid: Bytes, digest: Bytes, report: Bytes)
      returns (ok: bool, ghost agent: Option<nat>, ghost about: Option<nat>)
      modifies this`reports
      ensures PicksAgent(agents, kid, agent) && PicksManifestByDigest(manifests, digest, about)
      ensures ok == agent.Some?
      ensures View() ==
        if ok then Apply(old(View()), PutReport(ReportRow(agent.value, about, report, false))) else old(View())
    {
      var a := FindAgent(kid);
      var m := FindByDigest(digest);
      agent, about := a, m;
      ok := a.Some?;
      if ok {
        reports := reports + [ReportRow(a.value, m, report, false)];
      }
    }
  }
}
