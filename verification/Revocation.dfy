/**
 What revoking or letting a key expire achieves for Updates: from then on none goes out for it,
 re-attestation with the same key included.  Requests that passed the liveness check before are
 the one exception, and exactly so.
 */
module Revocation {
  import opened Wrappers
  import opened Tables
  import opened Protocol
  import opened Machine
  import opened RequestFacts
  import opened Handles
  import opened Delivery
  import opened Holdings
  import opened Beliefs
  import opened Trust

  /** The key with this thumbprint is stored, and revoked or expired. */
  ghost predicate Dead(db: Db, now: int, kid: Bytes)
  {
    exists a :: 0 <= a < |db.agents| && db.agents[a].kid == kid && !Live(db.agents[a], now)
  }

  lemma DeadForGood(db: Db, now: int, db': Db, now': int, kid: Bytes)
    requires Extends(db, db') && now <= now' && Dead(db, now, kid)
    ensures Dead(db', now', kid)
  {
    var a :| 0 <= a < |db.agents| && db.agents[a].kid == kid && !Live(db.agents[a], now);
    assert db'.agents[a].kid == kid && !Live(db'.agents[a], now');
  }

  lemma DeadEverywhere(db: Db, now: int, kid: Bytes, a: nat)
    requires UniqueKids(db.agents) && Dead(db, now, kid) && a < |db.agents| && db.agents[a].kid == kid
    ensures !Live(db.agents[a], now)
  {
  }

  /** All the invariants a revocation argument needs. */
  ghost predicate Sound(w: World, s: Sys)
  {
    HandlesSound(s) && AllFaithful(w, s) && DeliverySound(s) && HoldingsSound(s) && TrustSound(s)
  }

  lemma ReachedIsSound(w: World, now: int, signingKeys: seq<SigningKeyRow>, devices: seq<Bytes>,
                       actions: seq<Action>)
    ensures Sound(w, Reached(w, now, signingKeys, devices, actions))
  {
    hide HandlesSound, AllFaithful, DeliverySound, HoldingsSound, TrustSound, Reached;
    ReachedSound(w, now, signingKeys, devices, actions);
    ReachedTrust(w, now, signingKeys, devices, actions);
    OneManifestPerComponent(w, now, signingKeys, devices, actions);
  }

  lemma StepIsSound(w: World, s: Sys, action: Action)
    requires Sound(w, s)
    ensures Sound(w, Step(w, s, action))
  {
    hide HandlesSound, AllFaithful, DeliverySound, HoldingsSound, TrustSound, Step;
    StepSound(w, s, action);
    StepFaithful(w, s, action);
    StepDelivers(w, s, action);
    StepHoldings(w, s, action);
    StepTrust(w, s, action);
  }

  // ---- no Update ----

  /** The thread has passed the liveness check of kid and nothing later can stop it. */
  ghost predicate PastGate(db: Db, pc: Pc, kid: Bytes)
  {
    && pc.Delivering? && pc.deliver.kid == kid
    && (pc.deliver.AddUpdate? || pc.deliver.FindManifest? || pc.deliver.AddLink?
        || (pc.deliver.CheckToken? && Unconsumed(db.tokens, pc.deliver.token)))
  }

  predicate SentTo(pc: Pc, kid: Bytes)
  {
    pc.Done? && pc.outcome.UpdateSent? && pc.outcome.kid == kid
  }

  lemma ConsumedForGood(db: Db, req: Request, pc: Pc, write: Write, req': Request, pc': Pc, token: Bytes)
    requires Proper(db, req, pc, write, req', pc') && Issued(db.tokens, token)
    requires Unconsumed(Apply(db, write).tokens, token)
    ensures Unconsumed(db.tokens, token)
  {
    var rows := Apply(db, write).tokens;
    var i :| 0 <= i < |rows| && rows[i].bytes == token && !rows[i].consumed;
    assert i < |db.tokens| && db.tokens[i].bytes == token && !db.tokens[i].consumed;
  }

  /** A dead key gets nobody past the gate. */
  lemma {:induction false} GateStaysShut(w: World, now: int, db: Db, th: Thread, ev: Event, kid: Bytes)
    requires UniqueKids(db.agents) && Dead(db, now, kid) && !PastGate(db, th.pc, kid)
    ensures var (write, th') := Advance(w, now, db, th, ev);
      && !PastGate(db, th'.pc, kid) && (SentTo(th'.pc, kid) ==> th'.pc == th.pc)
      && (th'.pc.Delivering? && th'.pc.deliver.CheckToken? ==> write.Nothing?)
  {
    if ev.fault {
      hide ComponentSet, NextCounted;
    } else if th.pc.Delivering? {
      DeliverGate(now, db, th.pc.deliver, ev, kid);
      hide DeliverStep, PastGate;
    } else {
      hide PastGate;
      EarlyGate(w, now, db, th.req, th.pc, ev);
      hide IssueStep, MatchStep, AttestStep, DeliverStep, ReportStep, RegisterStep;
      NotDeliveringNotPast(db, th.pc, kid);
      NotDeliveringNotPast(db, Advance(w, now, db, th, ev).1.pc, kid);
    }
  }

  lemma NotDeliveringNotPast(db: Db, pc: Pc, kid: Bytes)
    ensures !pc.Delivering? || pc.deliver.PickLatest? ==> !PastGate(db, pc, kid)
  {
  }

  lemma EarlyGate(w: World, now: int, db: Db, req: Request, pc: Pc, ev: Event)
    requires !pc.Delivering?
    ensures var (write, req', pc') := Next(w, now, db, req, pc, ev);
      && (pc'.Delivering? ==> pc'.deliver.PickLatest?)
      && (pc'.Done? && pc'.outcome.UpdateSent? ==> pc' == pc)
  {
    hide ComponentSet, NextCounted, LinkedManifests, PicksLatest, PicksAgent, DigestKey, HoldCollides, Envelopes,
         PicksManifestByDigest;
  }

  lemma DeliverGate(now: int, db: Db, pc: DeliverPc, ev: Event, kid: Bytes)
    requires UniqueKids(db.agents) && Dead(db, now, kid) && !PastGate(db, Delivering(pc), kid)
    ensures var (write, pc') := DeliverStep(now, db, pc, ev);
      && !PastGate(db, pc', kid) && !SentTo(pc', kid)
      && (pc'.Delivering? && pc'.deliver.CheckToken? ==> write.Nothing?)
  {
    hide Envelopes, PicksLatest;
    if pc.CheckAgent? && pc.kid == kid && PicksAgent(db.agents, kid, ev.pick) && ev.pick.Some? {
      DeadEverywhere(db, now, kid, ev.pick.value);
    }
  }

  lemma GateKept(db: Db, req: Request, pc: Pc, write: Write, req': Request, pc': Pc, opc: Pc, kid: Bytes)
    requires Proper(db, req, pc, write, req', pc') && Recorded(db, opc) && !PastGate(db, opc, kid)
    ensures !PastGate(Apply(db, write), opc, kid)
  {
    hide Proper, Apply;
    if opc.Delivering? && opc.deliver.CheckToken? && Unconsumed(Apply(db, write).tokens, opc.deliver.token) {
      ConsumedForGood(db, req, pc, write, req', pc', opc.deliver.token);
    }
  }

  /** Nobody is past the gate, and every Update for kid was there in the earlier state. */
  ghost predicate Shut(s0: Sys, s: Sys, kid: Bytes)
  {
    && Dead(s.db, s.now, kid) && |s0.threads| <= |s.threads|
    && forall i :: 0 <= i < |s.threads| ==>
         && !PastGate(s.db, s.threads[i].pc, kid)
         && (SentTo(s.threads[i].pc, kid) ==> i < |s0.threads| && s.threads[i].pc == s0.threads[i].pc)
  }

  lemma ThreadRecorded(s: Sys, i: nat)
    requires HandlesSound(s) && DeliverySound(s) && TrustSound(s) && i < |s.threads|
    ensures Custody(s.db, s.threads[i].req, s.threads[i].pc) && Recorded(s.db, s.threads[i].pc)
    ensures UniqueKids(s.db.agents)
  {
  }

  lemma RunStaysShut(w: World, s0: Sys, s: Sys, i: nat, ev: Event, kid: Bytes)
    requires Sound(w, s) && Shut(s0, s, kid) && i < |s.threads|
    ensures Shut(s0, Step(w, s, Run(i, ev)), kid)
  {
    hide Advance, Apply, Proper, PastGate, Dead, Custody, Recorded, UniqueKids, HandlesSound, DeliverySound,
         AllFaithful, HoldingsSound, TrustSound, Extends, SentTo;
    var th := s.threads[i];
    var (write, th') := Advance(w, s.now, s.db, th, ev);
    ThreadRecorded(s, i);
    GateStaysShut(w, s.now, s.db, th, ev, kid);
    AdvanceProper(w, s.now, s.db, th, ev);
    StepExtends(w, s, Run(i, ev));
    DeadForGood(s.db, s.now, Apply(s.db, write), s.now, kid);
    if write == Nothing {
      ApplyNothing(s.db);
    } else {
      forall j | 0 <= j < |s.threads| && j != i ensures !PastGate(Apply(s.db, write), s.threads[j].pc, kid) {
        ThreadRecorded(s, j);
        GateKept(s.db, th.req, th.pc, write, th'.req, th'.pc, s.threads[j].pc, kid);
      }
      OwnGateKept(s.db, write, th'.pc, kid);
    }
  }

  lemma OwnGateKept(db: Db, write: Write, pc: Pc, kid: Bytes)
    requires !PastGate(db, pc, kid) && !(pc.Delivering? && pc.deliver.CheckToken?)
    ensures !PastGate(Apply(db, write), pc, kid)
  {
  }

  lemma LaunchGate(db: Db, input: Input, kid: Bytes)
    ensures !PastGate(db, Launch(input).pc, kid) && !SentTo(Launch(input).pc, kid)
  {
    hide ComponentSet, NextCounted;
  }

  lemma StepStaysShut(w: World, s0: Sys, s: Sys, action: Action, kid: Bytes)
    requires Sound(w, s) && Shut(s0, s, kid)
    ensures Shut(s0, Step(w, s, action), kid)
  {
    hide Sound, PastGate, Dead, Advance, Apply, Launch;
    match action
    case Arrive(input) => LaunchGate(s.db, input, kid);
    case Tick(elapsed) =>
      ApplyExtends(s.db, Nothing);
      ApplyNothing(s.db);
      DeadForGood(s.db, s.now, s.db, s.now + elapsed, kid);
    case Run(i, ev) => if i < |s.threads| { RunStaysShut(w, s0, s, i, ev, kid); }
  }

  lemma {:induction false} ExecuteStaysShut(w: World, s: Sys, actions: seq<Action>, kid: Bytes)
    requires Sound(w, s) && Shut(s, s, kid)
    ensures Shut(s, Execute(w, s, actions), kid) && Sound(w, Execute(w, s, actions))
    decreases |actions|
  {
    hide Sound, Shut, Step;
    if actions != [] {
      var before := actions[..|actions| - 1];
      ExecuteStaysShut(w, s, before, kid);
      StepStaysShut(w, s, Execute(w, s, before), actions[|actions| - 1], kid);
      StepIsSound(w, Execute(w, s, before), actions[|actions| - 1]);
    }
  }

  /** No Update for kid has been answered since s. */
  ghost predicate NothingSentSince(s: Sys, s': Sys, kid: Bytes)
  {
    forall i :: 0 <= i < |s'.threads| && SentTo(s'.threads[i].pc, kid) ==>
      i < |s.threads| && s'.threads[i].pc == s.threads[i].pc
  }

  predicate Linking(pc: Pc)
  {
    pc.Delivering? && (pc.deliver.FindManifest? || pc.deliver.AddLink?) && pc.deliver.linked < |pc.deliver.picked|
  }

  lemma CalmLink(w: World, s: Sys, i: nat)
    requires i < |s.threads| && Linking(s.threads[i].pc) && InRange(s.threads[i].pc.deliver.picked, |s.db.manifests|)
    ensures var pc := s.threads[i].pc.deliver;
      var s' := Step(w, s, Run(i, Choose(None, None)));
      && |s'.threads| == |s.threads| && s'.db.manifests == s.db.manifests
      && (if pc.FindManifest? then
            s'.threads[i].pc == Delivering(AddLink(pc.kid, pc.token, pc.picked, pc.update, pc.linked))
          else if pc.linked + 1 < |pc.picked| then
            s'.threads[i].pc == Delivering(FindManifest(pc.kid, pc.token, pc.picked, pc.update, pc.linked + 1))
          else SentTo(s'.threads[i].pc, pc.kid))
  {
    hide Envelopes;
  }

  /** A thread linking manifests can go on, undisturbed, until its Update is answered. */
  lemma {:induction false} LinkingCompletes(w: World, s: Sys, i: nat) returns (actions: seq<Action>)
    requires i < |s.threads| && Linking(s.threads[i].pc) && InRange(s.threads[i].pc.deliver.picked, |s.db.manifests|)
    ensures var s' := Execute(w, s, actions);
      i < |s'.threads| && SentTo(s'.threads[i].pc, s.threads[i].pc.deliver.kid)
    decreases |s.threads[i].pc.deliver.picked| - s.threads[i].pc.deliver.linked, s.threads[i].pc.deliver.FindManifest?
  {
    CalmLink(w, s, i);
    hide Step, InRange;
    var first := Run(i, Choose(None, None));
    var s1 := Step(w, s, first);
    var rest := [];
    if s1.threads[i].pc.Delivering? {
      rest := LinkingCompletes(w, s1, i);
    }
    ExecuteFirst(w, s, first, rest);
    actions := [first] + rest;
  }

  lemma CalmUpdate(w: World, s: Sys, i: nat)
    requires i < |s.threads| && s.threads[i].pc.Delivering? && s.threads[i].pc.deliver.AddUpdate?
    requires s.threads[i].pc.deliver.picked != []
    ensures var pc := s.threads[i].pc.deliver;
      var s' := Step(w, s, Run(i, Choose(None, None)));
      && |s'.threads| == |s.threads| && s'.db.manifests == s.db.manifests
      && Linking(s'.threads[i].pc) && s'.threads[i].pc.deliver.kid == pc.kid
      && s'.threads[i].pc.deliver.picked == pc.picked
  {
  }

  lemma CalmCheck(w: World, s: Sys, i: nat) returns (pick: Option<nat>)
    requires i < |s.threads| && s.threads[i].pc.Delivering? && s.threads[i].pc.deliver.CheckToken?
    requires Unconsumed(s.db.tokens, s.threads[i].pc.deliver.token)
    ensures var pc := s.threads[i].pc.deliver;
      var s' := Step(w, s, Run(i, Choose(pick, None)));
      && |s'.threads| == |s.threads| && s'.db.manifests == s.db.manifests
      && s'.threads[i].pc.Delivering? && s'.threads[i].pc.deliver.AddUpdate?
      && s'.threads[i].pc.deliver.kid == pc.kid && s'.threads[i].pc.deliver.picked == pc.picked
  {
    var id: nat :|
      id < |s.db.tokens| && s.db.tokens[id].bytes == s.threads[i].pc.deliver.token && !s.db.tokens[id].consumed;
    pick := Some(id);
  }

  lemma UpdateCompletes(w: World, s: Sys, i: nat) returns (actions: seq<Action>)
    requires i < |s.threads| && s.threads[i].pc.Delivering? && s.threads[i].pc.deliver.AddUpdate?
    requires s.threads[i].pc.deliver.picked != [] && InRange(s.threads[i].pc.deliver.picked, |s.db.manifests|)
    ensures var s' := Execute(w, s, actions);
      i < |s'.threads| && SentTo(s'.threads[i].pc, s.threads[i].pc.deliver.kid)
  {
    CalmUpdate(w, s, i);
    hide Step, InRange;
    var rest := LinkingCompletes(w, Step(w, s, Run(i, Choose(None, None))), i);
    ExecuteFirst(w, s, Run(i, Choose(None, None)), rest);
    actions := [Run(i, Choose(None, None))] + rest;
  }

  lemma PastGateReady(w: World, s: Sys, i: nat, kid: Bytes)
    requires Sound(w, s) && i < |s.threads| && PastGate(s.db, s.threads[i].pc, kid)
    ensures InRange(s.threads[i].pc.deliver.picked, |s.db.manifests|) && s.threads[i].pc.deliver.picked != []
    ensures s.threads[i].pc.deliver.FindManifest? || s.threads[i].pc.deliver.AddLink? ==> Linking(s.threads[i].pc)
  {
    ThreadRecorded(s, i);
    assert Faithful(w, s.threads[i]);
    hide HandlesSound, AllFaithful, DeliverySound, HoldingsSound, TrustSound, Custody, InRange, Linked, MayDeliver;
  }

  /** Whoever is past the gate can still get its Update out. */
  lemma PastGateGetsThrough(w: World, s: Sys, i: nat, kid: Bytes) returns (actions: seq<Action>)
    requires Sound(w, s) && i < |s.threads| && PastGate(s.db, s.threads[i].pc, kid)
    ensures !NothingSentSince(s, Execute(w, s, actions), kid)
  {
    PastGateReady(w, s, i, kid);
    hide Sound, Step, InRange;
    var at := s.threads[i].pc.deliver;
    if at.CheckToken? {
      var pick := CalmCheck(w, s, i);
      var rest := UpdateCompletes(w, Step(w, s, Run(i, Choose(pick, None))), i);
      ExecuteFirst(w, s, Run(i, Choose(pick, None)), rest);
      actions := [Run(i, Choose(pick, None))] + rest;
    } else if at.AddUpdate? {
      actions := UpdateCompletes(w, s, i);
    } else {
      actions := LinkingCompletes(w, s, i);
    }
  }

  /** Once kid is revoked or expired, no continuation whatever answers another Update for it
      if and only if no request has already passed the liveness check for it. */
  lemma NoUpdateForDeadKey(w: World, now: int, signingKeys: seq<SigningKeyRow>, devices: seq<Bytes>,
                           past: seq<Action>, kid: Bytes)
    requires var s := Reached(w, now, signingKeys, devices, past); Dead(s.db, s.now, kid)
    ensures var s := Reached(w, now, signingKeys, devices, past);
      (forall actions: seq<Action> :: NothingSentSince(s, Execute(w, s, actions), kid))
      <==> (forall i :: 0 <= i < |s.threads| ==> !PastGate(s.db, s.threads[i].pc, kid))
  {
    var s := Reached(w, now, signingKeys, devices, past);
    ReachedIsSound(w, now, signingKeys, devices, past);
    hide Reached, Sound, PastGate, Dead, NothingSentSince, SentTo;
    if i :| 0 <= i < |s.threads| && PastGate(s.db, s.threads[i].pc, kid) {
      var actions := PastGateGetsThrough(w, s, i, kid);
      assert !NothingSentSince(s, Execute(w, s, actions), kid);
    } else {
      assert Shut(s, s, kid);
      forall actions: seq<Action> ensures NothingSentSince(s, Execute(w, s, actions), kid) {
        ExecuteStaysShut(w, s, actions, kid);
        ShutMeansNothingSent(s, Execute(w, s, actions), kid);
      }
    }
  }

  lemma ShutMeansNothingSent(s0: Sys, s: Sys, kid: Bytes)
    requires Shut(s0, s, kid)
    ensures NothingSentSince(s0, s, kid)
  {
  }

  // ---- who changes holdings ----

  lemma MatchAuthenticates(w: World, now: int, db: Db, req: Request, pc: MatchPc, ev: Event, kid: Bytes)
    requires req.input.Signed? && UniqueKids(db.agents) && Dead(db, now, kid) && req.auth != Some(kid)
    ensures MatchStep(w, now, db, req, pc, ev).1.auth != Some(kid)
  {
    hide Envelopes, PicksUpdate, PicksQueryByToken;
    if pc.Authenticate? && req.input.kid == Some(kid) && PicksAgent(db.agents, kid, ev.pick) && ev.pick.Some? {
      DeadEverywhere(db, now, kid, ev.pick.value);
    }
  }

  lemma NextAuthenticates(w: World, now: int, db: Db, req: Request, pc: Pc, ev: Event, kid: Bytes)
    requires UniqueKids(db.agents) && Dead(db, now, kid) && req.auth != Some(kid)
    ensures Next(w, now, db, req, pc, ev).1.auth != Some(kid)
  {
    hide IssueStep, MatchStep, DeliverStep, ReportStep, RegisterStep, Dead, UniqueKids;
    match pc
    case Matching(at) => if req.input.Signed? { MatchAuthenticates(w, now, db, req, at, ev, kid); }
    case Attesting(at) => hide ComponentSet, PicksAgent, PicksQueryByChallenge, NewAgent;
    case _ =>
  }

  lemma StaysAbsent(w: World, now: int, db: Db, th: Thread, ev: Event, kid: Bytes)
    requires UniqueKids(db.agents) && Dead(db, now, kid) && (th.pc.Done? || th.req.auth != Some(kid))
    ensures var th' := Advance(w, now, db, th, ev).1; th'.pc.Done? || th'.req.auth != Some(kid)
  {
    hide Dead, UniqueKids;
    if !ev.fault && !th.pc.Done? {
      NextAuthenticates(w, now, db, th.req, th.pc, ev, kid);
      hide Next;
    }
    hide IssueStep, MatchStep, AttestStep, DeliverStep, ReportStep, RegisterStep, OnStoreFault;
  }

  /** A request changes the holdings of no agent but the one it is authenticated as. */
  lemma HoldsOnlyItsOwn(w: World, now: int, db: Db, th: Thread, ev: Event)
    requires Faithful(w, th) && Remembers(db, th.pc)
    ensures var write := Advance(w, now, db, th, ev).0;
      write.Hold? ==>
        && write.holder < |db.agents| && th.req.auth == Some(db.agents[write.holder].kid) && !th.pc.Done?
        && OfComponent(db, write.held, write.component)
  {
    AdvanceRemembers(w, now, db, th, ev);
    hide Advance, AllGrounded, Counts, Coherent, Apply;
  }

  lemma BeliefKept(w: World, s: Sys, i: nat, ev: Event, kid: Bytes, a: nat)
    requires HoldingsSound(s) && AllFaithful(w, s) && i < |s.threads| && a < |s.db.agents|
    requires s.db.agents[a].kid == kid && (s.threads[i].pc.Done? || s.threads[i].req.auth != Some(kid))
    ensures Believed(Step(w, s, Run(i, ev)).db, a) == Believed(s.db, a)
  {
    hide Advance, Believed, Faithful, Apply, OneActive;
    var write := Advance(w, s.now, s.db, s.threads[i], ev).0;
    HoldsOnlyItsOwn(w, s.now, s.db, s.threads[i], ev);
    if write.Hold? { HoldReplaces(s.db, write, a); } else { OthersLeaveBeliefs(s.db, write, a); }
  }
}
