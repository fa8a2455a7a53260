/**
 What the rows a thread goes on without re-reading rest on: whoever is to be sent an Update has
 a stored key, stored keys have 32-byte thumbprints, and no manifest is stored where there is
 no signing key.
 */
module Footing {
  import opened Wrappers
  import opened Tables
  import opened Protocol
  import opened Machine
  import opened RequestFacts
  import opened Revocation
  import opened Delivery

  /** The thumbprint is stored, or can never be. */
  ghost predicate Settled(agents: seq<AgentRow>, kid: Bytes)
  {
    KnownAgent(agents, kid) || |kid| != 32
  }

  function Recipient(pc: Pc): Option<Bytes>
  {
    match pc
    case Issuing(DrawToken(Deliver(kid, _))) => Some(kid)
    case Issuing(AddToken(_, Deliver(kid, _))) => Some(kid)
    case Delivering(at) => Some(at.kid)
    case _ => None
  }

  predicate PastKeyLookup(pc: Pc)
  {
    pc.Administering? && (pc.admin.RegisterLatest? || pc.admin.RegisterInsert?)
  }

  ghost predicate Footed(db: Db, req: Request, pc: Pc)
  {
    && (req.auth.Some? ==> KnownAgent(db.agents, req.auth.value))
    && (Recipient(pc).Some? ==> Settled(db.agents, Recipient(pc).value))
    && (PastKeyLookup(pc) ==> db.signingKeys != [])
  }

  ghost predicate FootedTables(db: Db)
  {
    && (forall a :: 0 <= a < |db.agents| ==> |db.agents[a].kid| == 32)
    && (db.manifests != [] ==> db.signingKeys != [])
  }

  ghost predicate FootingSound(s: Sys)
  {
    && FootedTables(s.db)
    && forall i :: 0 <= i < |s.threads| ==> Footed(s.db, s.threads[i].req, s.threads[i].pc)
  }

  // ---- one step ----

  lemma KnownStill(db: Db, db': Db, kid: Bytes)
    requires Extends(db, db') && KnownAgent(db.agents, kid)
    ensures KnownAgent(db'.agents, kid)
  {
    var a :| 0 <= a < |db.agents| && db.agents[a].kid == kid;
    assert db'.agents[a].kid == kid;
  }

  lemma FootedStill(db: Db, db': Db, req: Request, pc: Pc)
    requires Extends(db, db') && Footed(db, req, pc)
    ensures Footed(db', req, pc)
  {
    hide KnownAgent, Recipient;
    if req.auth.Some? { KnownStill(db, db', req.auth.value); }
    if Recipient(pc).Some? && KnownAgent(db.agents, Recipient(pc).value) { KnownStill(db, db', Recipient(pc).value); }
  }

  lemma DispatchFooted(db: Db, req: Request)
    requires req.input.Signed? && (req.auth.Some? ==> KnownAgent(db.agents, req.auth.value))
    ensures Footed(db, req, Dispatch(req)) && Footed(db, req, AfterAuthentication(req))
  {
    hide ComponentSet, NextCounted;
  }

  lemma MatchFooted(w: World, now: int, db: Db, req: Request, pc: MatchPc, ev: Event)
    requires req.input.Signed? && Footed(db, req, Matching(pc))
    ensures var (write, req', pc') := MatchStep(w, now, db, req, pc, ev); Footed(db, req', pc')
  {
    hide ComponentSet, Envelopes, PicksUpdate, PicksQueryByToken, Dispatch, AfterAuthentication;
    var (write, req', pc') := MatchStep(w, now, db, req, pc, ev);
    assert req'.auth.Some? ==> KnownAgent(db.agents, req'.auth.value);
    DispatchFooted(db, req);
    DispatchFooted(db, req');
  }

  lemma AttestFooted(w: World, now: int, db: Db, req: Request, pc: AttestPc, log: seq<Write>, ev: Event)
    requires Footed(db, req, Attesting(pc)) && AtAttesting(w, req, pc, log)
    ensures var (write, req', pc') := AttestStep(w, now, db, req, pc, ev);
      && Footed(Apply(db, write), req', pc')
      && (write.PutAgent? ==> |write.agent.kid| == 32) && !write.PutManifest?
  {
    hide ComponentSet, PicksQueryByChallenge;
    var (write, req', pc') := AttestStep(w, now, db, req, pc, ev);
    if write.PutAgent? {
      assert Apply(db, write).agents[|db.agents|].kid == pc.kid;
    }
    if req.auth.Some? { ApplyExtends(db, write); KnownStill(db, Apply(db, write), req.auth.value); }
  }

  lemma RestFooted(w: World, now: int, db: Db, req: Request, pc: Pc, ev: Event)
    requires Footed(db, req, pc) && !pc.Matching? && !pc.Attesting?
    ensures var (write, req', pc') := Next(w, now, db, req, pc, ev);
      && Footed(db, req', pc') && !write.PutAgent? && (write.PutManifest? ==> db.signingKeys != [])
  {
    hide ComponentSet, NextCounted, LinkedManifests, PicksLatest, PicksAgent, DigestKey, HoldCollides, Envelopes,
         PicksManifestByDigest, KnownAgent;
  }

  lemma AdvanceFooted(w: World, now: int, db: Db, th: Thread, ev: Event)
    requires Faithful(w, th) && Footed(db, th.req, th.pc)
    ensures var (write, th') := Advance(w, now, db, th, ev);
      && Footed(Apply(db, write), th'.req, th'.pc)
      && (write.PutAgent? ==> |write.agent.kid| == 32) && (write.PutManifest? ==> db.signingKeys != [])
  {
    var (write, th') := Advance(w, now, db, th, ev);
    ApplyNothing(db);
    ApplyExtends(db, write);
    if ev.fault {
      hide ComponentSet, NextCounted, Extends;
      if th.pc.Matching? { DispatchFooted(db, th.req); }
    } else {
      hide IssueStep, MatchStep, AttestStep, DeliverStep, ReportStep, RegisterStep, Footed, Apply, Extends, AtAttesting,
           AllGrounded, Counts, Coherent, OnStoreFault;
      match th.pc
      case Matching(at) =>
        if th.req.input.Signed? {
          MatchFooted(w, now, db, th.req, at, ev);
          MatchWritesNoRows(w, now, db, th.req, at, ev);
          FootedStill(db, Apply(db, write), th'.req, th'.pc);
        }
      case Attesting(at) => AttestFooted(w, now, db, th.req, at, th.log, ev);
      case _ =>
        RestFooted(w, now, db, th.req, th.pc, ev);
        FootedStill(db, Apply(db, write), th'.req, th'.pc);
    }
  }

  lemma MatchWritesNoRows(w: World, now: int, db: Db, req: Request, pc: MatchPc, ev: Event)
    requires req.input.Signed?
    ensures var write := MatchStep(w, now, db, req, pc, ev).0; !write.PutAgent? && !write.PutManifest?
  {
    hide ComponentSet, Envelopes, PicksUpdate, PicksQueryByToken, PicksAgent, Dispatch, AfterAuthentication;
  }

  lemma TablesStillFooted(db: Db, write: Write)
    requires FootedTables(db)
    requires (write.PutAgent? ==> |write.agent.kid| == 32) && (write.PutManifest? ==> db.signingKeys != [])
    ensures FootedTables(Apply(db, write))
  {
  }

  // ---- every run ----

  lemma RunFooted(w: World, s: Sys, i: nat, ev: Event)
    requires i < |s.threads| && AllFaithful(w, s) && FootingSound(s)
    ensures FootingSound(Step(w, s, Run(i, ev)))
  {
    hide Advance, Apply, Faithful, Footed, FootedTables, Extends;
    var (write, th') := Advance(w, s.now, s.db, s.threads[i], ev);
    AdvanceFooted(w, s.now, s.db, s.threads[i], ev);
    TablesStillFooted(s.db, write);
    ApplyExtends(s.db, write);
    forall j | 0 <= j < |s.threads| && j != i ensures Footed(Apply(s.db, write), s.threads[j].req, s.threads[j].pc) {
      FootedStill(s.db, Apply(s.db, write), s.threads[j].req, s.threads[j].pc);
    }
  }

  lemma LaunchFooted(db: Db, input: Input)
    ensures Footed(db, Launch(input).req, Launch(input).pc)
  {
    hide ComponentSet, NextCounted;
  }

  lemma StepFooted(w: World, s: Sys, action: Action)
    requires AllFaithful(w, s) && FootingSound(s)
    ensures FootingSound(Step(w, s, action))
  {
    hide AllFaithful, Footed, FootedTables, Advance, Apply, Launch;
    match action
    case Arrive(input) => LaunchFooted(s.db, input);
    case Tick(_) =>
    case Run(i, ev) => if i < |s.threads| { RunFooted(w, s, i, ev); }
  }

  /** All that is known of reached states, with their footing. */
  ghost predicate Grounding(w: World, s: Sys)
  {
    Sound(w, s) && FootingSound(s)
  }

  lemma StepGrounding(w: World, s: Sys, action: Action)
    requires Grounding(w, s)
    ensures Grounding(w, Step(w, s, action))
  {
    hide Step, FootingSound;
    StepIsSound(w, s, action);
    assert AllFaithful(w, s);
    hide Sound;
    StepFooted(w, s, action);
  }

  lemma {:induction false} ExecuteGrounding(w: World, s: Sys, actions: seq<Action>)
    requires Grounding(w, s)
    ensures Grounding(w, Execute(w, s, actions))
    decreases |actions|
  {
    hide Grounding, Step;
    if actions != [] {
      ExecuteGrounding(w, s, actions[..|actions| - 1]);
      StepGrounding(w, Execute(w, s, actions[..|actions| - 1]), actions[|actions| - 1]);
    }
  }

  lemma ReachedGrounding(w: World, now: int, signingKeys: seq<SigningKeyRow>, devices: seq<Bytes>, actions: seq<Action>)
    ensures Grounding(w, Reached(w, now, signingKeys, devices, actions))
  {
    var s0 := Initial(now, signingKeys, devices);
    ReachedIsSound(w, now, signingKeys, devices, []);
    assert Execute(w, s0, []) == s0 && FootingSound(s0);
    hide Sound, Execute, FootingSound;
    ExecuteGrounding(w, s0, actions);
  }
}
