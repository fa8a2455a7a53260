/**
 How agent keys become trusted: every stored key has a request that proved it, and keys never
 outnumber the challenges consumed.
 */
module Trust {
  import opened Wrappers
  import opened Tables
  import opened Protocol
  import opened Machine
  import opened RequestFacts
  import opened Handles
  import opened Delivery
  import opened Sums

  // ---- where trusted keys come from ----

  function AsAdded(agent: AgentRow): AgentRow
  {
    agent.(revokedAt := None)
  }

  ghost predicate AddedBy(log: seq<Write>, agent: AgentRow)
  {
    exists k :: 0 <= k < |log| && log[k] == PutAgent(AsAdded(agent))
  }

  /** Some request of the run stored this key. */
  ghost predicate HasAdder(threads: seq<Thread>, agent: AgentRow)
  {
    exists i :: 0 <= i < |threads| && AddedBy(threads[i].log, agent)
  }

  function Additions(threads: seq<Thread>): (r: seq<nat>)
    ensures |r| == |threads| && forall i :: 0 <= i < |r| ==> r[i] == AgentsAdded(threads[i].log)
  {
    seq(|threads|, i requires 0 <= i < |threads| => AgentsAdded(threads[i].log))
  }

  function ChallengesUsed(threads: seq<Thread>): (r: seq<nat>)
    ensures |r| == |threads| && forall i :: 0 <= i < |r| ==> r[i] == if threads[i].req.challenge.Some? then 1 else 0
  {
    seq(|threads|, i requires 0 <= i < |threads| => if threads[i].req.challenge.Some? then 1 else 0)
  }

  function SpentRows(rows: seq<HandleRow>): (r: seq<nat>)
    ensures |r| == |rows| && forall i :: 0 <= i < |r| ==> r[i] == if rows[i].consumed then 1 else 0
  {
    seq(|rows|, i requires 0 <= i < |rows| => if rows[i].consumed then 1 else 0)
  }

  ghost predicate TrustSound(s: Sys)
  {
    && UniqueKids(s.db.agents)
    && (forall a :: 0 <= a < |s.db.agents| ==> HasAdder(s.threads, s.db.agents[a]))
    && |s.db.agents| == Sum(Additions(s.threads))
    && Sum(ChallengesUsed(s.threads)) <= Sum(SpentRows(s.db.challenges))
  }

  /** What a step does that bears on trust. */
  ghost predicate TrustStep(db: Db, th: Thread, write: Write, th': Thread)
  {
    && th'.log == Logged(th.log, write)
    && (write.PutAgent? ==> !KnownAgent(db.agents, write.agent.kid) && write.agent.revokedAt.None?)
    && (write.UseChallenge? ==>
          th.req.challenge.None? && th'.req.challenge.Some? && Unconsumed(db.challenges, write.bytes))
    && (!write.UseChallenge? ==> th'.req.challenge == th.req.challenge)
  }

  lemma AttestTrust(w: World, now: int, db: Db, req: Request, pc: AttestPc, log: seq<Write>, ev: Event)
    requires AtAttesting(w, req, pc, log)
    ensures var (write, req', pc') := AttestStep(w, now, db, req, pc, ev);
      && (write.PutAgent? ==> !KnownAgent(db.agents, write.agent.kid) && write.agent.revokedAt.None?)
      && (write.UseChallenge? ==> req.challenge.None? && req'.challenge.Some? && Unconsumed(db.challenges, write.bytes))
      && (!write.UseChallenge? ==> req'.challenge == req.challenge)
  {
    hide ComponentSet, PicksAgent, PicksQueryByChallenge;
  }

  lemma OthersTrust(w: World, now: int, db: Db, req: Request, pc: Pc, ev: Event)
    requires !pc.Attesting?
    ensures var (write, req', pc') := Next(w, now, db, req, pc, ev);
      !write.PutAgent? && !write.UseChallenge? && req'.challenge == req.challenge
  {
    hide ComponentSet, NextCounted, LinkedManifests, PicksLatest, PicksAgent, DigestKey, HoldCollides, Envelopes,
         PicksManifestByDigest;
  }

  lemma AdvanceTrust(w: World, now: int, db: Db, th: Thread, ev: Event)
    requires Faithful(w, th)
    ensures var (write, th') := Advance(w, now, db, th, ev); TrustStep(db, th, write, th')
  {
    if !ev.fault {
      hide AllGrounded, Counts, IssueStep, MatchStep, AttestStep, DeliverStep, ReportStep, RegisterStep, AtAttesting;
      if th.pc.Attesting? {
        AttestTrust(w, now, db, th.req, th.pc.attest, th.log, ev);
      } else {
        OthersTrust(w, now, db, th.req, th.pc, ev);
      }
    }
  }

  lemma AddedByKept(log: seq<Write>, write: Write, agent: AgentRow, agent': AgentRow)
    requires AddedBy(log, agent) && AsAdded(agent') == AsAdded(agent)
    ensures AddedBy(Logged(log, write), agent')
  {
    var k :| 0 <= k < |log| && log[k] == PutAgent(AsAdded(agent));
    assert Logged(log, write)[k] == PutAgent(AsAdded(agent'));
  }

  lemma AgentsAfter(db: Db, write: Write)
    ensures var agents' := Apply(db, write).agents;
      && |agents'| == |db.agents| + (if write.PutAgent? then 1 else 0)
      && (forall a :: 0 <= a < |db.agents| ==>
            AsAdded(agents'[a]) == AsAdded(db.agents[a]) && agents'[a].kid == db.agents[a].kid)
      && (write.PutAgent? ==> agents'[|db.agents|] == write.agent)
  {
  }

  lemma KidsStayUnique(db: Db, write: Write)
    requires UniqueKids(db.agents)
    requires write.PutAgent? ==> !KnownAgent(db.agents, write.agent.kid)
    ensures UniqueKids(Apply(db, write).agents)
  {
    AgentsAfter(db, write);
    hide Apply;
    var agents' := Apply(db, write).agents;
    forall a, b | 0 <= a < b < |agents'| ensures agents'[a].kid != agents'[b].kid {
      assert agents'[a].kid == db.agents[a].kid;
    }
  }

  lemma RunOrigins(s: Sys, i: nat, write: Write, th': Thread)
    requires i < |s.threads| && TrustSound(s) && TrustStep(s.db, s.threads[i], write, th')
    ensures var s' := Sys(s.now, Apply(s.db, write), s.threads[i := th']);
      && UniqueKids(s'.db.agents)
      && forall a :: 0 <= a < |s'.db.agents| ==> HasAdder(s'.threads, s'.db.agents[a])
  {
    var s' := Sys(s.now, Apply(s.db, write), s.threads[i := th']);
    AgentsAfter(s.db, write);
    KidsStayUnique(s.db, write);
    hide Apply, AddedBy, Unconsumed, UniqueKids, AgentsAdded;
    forall a | 0 <= a < |s'.db.agents|
      ensures HasAdder(s'.threads, s'.db.agents[a])
    {
      if a < |s.db.agents| {
        var j :| 0 <= j < |s.threads| && AddedBy(s.threads[j].log, s.db.agents[a]);
        AddedByKept(s.threads[j].log, if j == i then write else Nothing, s.db.agents[a], s'.db.agents[a]);
        assert AddedBy(s'.threads[j].log, s'.db.agents[a]);
      } else {
        JustAdded(s.threads[i].log, write.agent);
        assert AddedBy(s'.threads[i].log, s'.db.agents[a]);
      }
    }
  }

  lemma JustAdded(log: seq<Write>, agent: AgentRow)
    requires agent.revokedAt.None?
    ensures AddedBy(Logged(log, PutAgent(agent)), agent)
  {
    assert Logged(log, PutAgent(agent))[|log|] == PutAgent(AsAdded(agent));
  }

  lemma SpentGrows(db: Db, write: Write)
    requires write.UseChallenge? ==> Unconsumed(db.challenges, write.bytes)
    ensures Sum(SpentRows(db.challenges)) + (if write.UseChallenge? then 1 else 0)
      <= Sum(SpentRows(Apply(db, write).challenges))
  {
    var rows, rows' := db.challenges, Apply(db, write).challenges;
    var xs, ys := SpentRows(rows), SpentRows(rows');
    if write.UseChallenge? {
      var k :| 0 <= k < |rows| && rows[k].bytes == write.bytes && !rows[k].consumed;
      SumMonotone(xs[k := 1], ys);
      SumChangedAt(xs, xs[k := 1], k);
    } else if write.PutChallenge? {
      SumGrown(xs, ys);
    } else {
      assert rows' == rows;
    }
  }

  lemma RunCounts(s: Sys, i: nat, write: Write, th': Thread)
    requires i < |s.threads| && TrustSound(s) && TrustStep(s.db, s.threads[i], write, th')
    ensures var s' := Sys(s.now, Apply(s.db, write), s.threads[i := th']);
      && |s'.db.agents| == Sum(Additions(s'.threads))
      && Sum(ChallengesUsed(s'.threads)) <= Sum(SpentRows(s'.db.challenges))
  {
    var s' := Sys(s.now, Apply(s.db, write), s.threads[i := th']);
    AgentsAfter(s.db, write);
    SpentGrows(s.db, write);
    LogGrows(s.threads[i].log, write);
    hide Apply, AddedBy, Unconsumed, UniqueKids, AgentsAdded;
    SumChangedAt(Additions(s.threads), Additions(s'.threads), i);
    SumChangedAt(ChallengesUsed(s.threads), ChallengesUsed(s'.threads), i);
  }

  lemma ArrivalTrust(s: Sys, input: Input)
    requires TrustSound(s)
    ensures TrustSound(s.(threads := s.threads + [Launch(input)]))
  {
    var th := Launch(input);
    assert th.log == [] && th.req.challenge.None?;
    var s' := s.(threads := s.threads + [th]);
    hide AddedBy, UniqueKids, Launch;
    SumGrown(Additions(s.threads), Additions(s'.threads));
    SumGrown(ChallengesUsed(s.threads), ChallengesUsed(s'.threads));
    forall a | 0 <= a < |s'.db.agents|
      ensures HasAdder(s'.threads, s'.db.agents[a])
    {
      var j :| 0 <= j < |s.threads| && AddedBy(s.threads[j].log, s.db.agents[a]);
      assert AddedBy(s'.threads[j].log, s'.db.agents[a]);
    }
  }

  lemma StepTrust(w: World, s: Sys, action: Action)
    requires AllFaithful(w, s) && TrustSound(s)
    ensures TrustSound(Step(w, s, action))
  {
    hide Faithful, Advance, Apply, Launch, UniqueKids, AddedBy;
    match action
    case Arrive(input) => ArrivalTrust(s, input);
    case Tick(_) =>
    case Run(i, ev) =>
      if i < |s.threads| {
        var (write, th') := Advance(w, s.now, s.db, s.threads[i], ev);
        AdvanceTrust(w, s.now, s.db, s.threads[i], ev);
        hide TrustStep;
        RunOrigins(s, i, write, th');
        RunCounts(s, i, write, th');
      }
  }

  lemma {:induction false} ExecuteTrust(w: World, s: Sys, actions: seq<Action>)
    requires AllFaithful(w, s) && TrustSound(s)
    ensures TrustSound(Execute(w, s, actions))
    decreases |actions|
  {
    hide AllFaithful, TrustSound, Step;
    if actions != [] {
      var before := actions[..|actions| - 1];
      ExecuteTrust(w, s, before);
      RunFaithful(w, s, before);
      StepTrust(w, Execute(w, s, before), actions[|actions| - 1]);
    }
  }

  /** In every reached state each stored key was stored by a request for which the verifier
      affirmed, whose attested nonce is a challenge the TAM had issued under a sent
      QueryRequest and this very request consumed, whose live message verifies under that
      key, and whose thumbprint is the row's kid.  Different rows have different kids. */
  lemma TrustedKeysWereProved(w: World, now: int, signingKeys: seq<SigningKeyRow>, devices: seq<Bytes>,
                              actions: seq<Action>, a: nat)
    requires a < |Reached(w, now, signingKeys, devices, actions).db.agents|
    ensures var s := Reached(w, now, signingKeys, devices, actions);
      && UniqueKids(s.db.agents)
      && exists i :: 0 <= i < |s.threads| && Proves(w, s, s.threads[i].req, s.db.agents[a])
  {
    var s := Reached(w, now, signingKeys, devices, actions);
    ReachedSound(w, now, signingKeys, devices, actions);
    ReachedTrust(w, now, signingKeys, devices, actions);
    hide Reached, UniqueKids, AddedBy;
    var i :| 0 <= i < |s.threads| && AddedBy(s.threads[i].log, s.db.agents[a]);
    AdderProves(w, s, i, a);
  }

  ghost predicate Proves(w: World, s: Sys, req: Request, agent: AgentRow)
  {
    && Introduces(w, req, agent.kid) && req.auth.None? && |agent.kid| == 32
    && agent.publicKey == req.input.verdict.key.value
    && Spent(s.db.challenges, req.challenge.value)
    && req.recovered.value.SentQuery?
    && QueryRecorded(s.db, ChallengeHandle(req.challenge.value),
                     req.recovered.value.attestation, req.recovered.value.tcList)
  }

  lemma AdderProves(w: World, s: Sys, i: nat, a: nat)
    requires HandlesSound(s) && AllFaithful(w, s) && DeliverySound(s)
    requires i < |s.threads| && a < |s.db.agents| && AddedBy(s.threads[i].log, s.db.agents[a])
    ensures Proves(w, s, s.threads[i].req, s.db.agents[a])
  {
    var th := s.threads[i];
    var k :| 0 <= k < |th.log| && th.log[k] == PutAgent(AsAdded(s.db.agents[a]));
    assert Faithful(w, th) && Custody(s.db, th.req, th.pc) && RecoveredRecorded(s.db, th.req);
    assert Grounded(w, th.req, th.log[k]);
  }

  lemma ReachedTrust(w: World, now: int, signingKeys: seq<SigningKeyRow>, devices: seq<Bytes>,
                     actions: seq<Action>)
    ensures TrustSound(Reached(w, now, signingKeys, devices, actions))
  {
    ExecuteTrust(w, Initial(now, signingKeys, devices), actions);
  }

  lemma {:induction false} AddingIsLogged(log: seq<Write>)
    requires AgentsAdded(log) > 0
    ensures exists k :: 0 <= k < |log| && log[k].PutAgent?
  {
    if !log[|log| - 1].PutAgent? {
      AddingIsLogged(log[..|log| - 1]);
    }
  }

  /** A request stores at most one key, and only after consuming a challenge. */
  lemma AdditionsPaidFor(w: World, th: Thread)
    requires Faithful(w, th)
    ensures AgentsAdded(th.log) <= (if th.req.challenge.Some? then 1 else 0)
  {
    if AgentsAdded(th.log) > 0 {
      AddingIsLogged(th.log);
      var k :| 0 <= k < |th.log| && th.log[k].PutAgent?;
      assert Grounded(w, th.req, th.log[k]);
    }
  }

  /** Stored keys never outnumber the challenges consumed. */
  lemma KeysNeverOutnumberChallenges(w: World, now: int, signingKeys: seq<SigningKeyRow>,
                                     devices: seq<Bytes>, actions: seq<Action>)
    ensures var s := Reached(w, now, signingKeys, devices, actions);
      |s.db.agents| <= Sum(SpentRows(s.db.challenges))
  {
    var s := Reached(w, now, signingKeys, devices, actions);
    ReachedSound(w, now, signingKeys, devices, actions);
    ReachedTrust(w, now, signingKeys, devices, actions);
    hide Reached, HandlesSound, DeliverySound, UniqueKids, AddedBy, Faithful, AgentsAdded;
    forall i | 0 <= i < |s.threads| ensures Additions(s.threads)[i] <= ChallengesUsed(s.threads)[i] {
      AdditionsPaidFor(w, s.threads[i]);
    }
    SumMonotone(Additions(s.threads), ChallengesUsed(s.threads));
  }
}
