/**
 What the TAM believes each agent holds: in every interleaving at most one manifest per
 agent and component is in force, the insertion never collides on the partial unique index,
 and a Success list acts on the belief as a left fold over its reports.
 */
module Holdings {
  import opened Tables
  import opened Protocol
  import opened Machine
  import opened Delivery

  predicate OfKid(db: Db, agent: nat, kid: Bytes)
  {
    agent < |db.agents| && db.agents[agent].kid == kid
  }

  predicate OfComponent(db: Db, manifest: nat, component: Bytes)
  {
    manifest < |db.manifests| && db.manifests[manifest].component == component
  }

  /** The rows a thread has read and is about to use are still what it read. */
  predicate Remembers(db: Db, pc: Pc)
  {
    match pc
    case Delivering(CheckToken(kid, _, _, agent)) => OfKid(db, agent, kid)
    case Delivering(AddUpdate(kid, _, _, agent, _)) => OfKid(db, agent, kid)
    case Reporting(Reflect(kid, _, agent, manifest, component)) =>
      OfKid(db, agent, kid) && OfComponent(db, manifest, component)
    case Reporting(AddFailure(kid, _, agent, _)) => OfKid(db, agent, kid)
    case _ => true
  }

  predicate InForce(db: Db, h: nat)
  {
    h < |db.holdings| && !db.holdings[h].deleted
  }

  ghost predicate HoldingRowsKnown(db: Db)
  {
    forall h :: 0 <= h < |db.holdings| ==>
      db.holdings[h].agent < |db.agents| && db.holdings[h].manifest < |db.manifests|
  }

  function ComponentOf(db: Db, h: nat): Bytes
    requires h < |db.holdings| && db.holdings[h].manifest < |db.manifests|
  {
    db.manifests[db.holdings[h].manifest].component
  }

  /** At most one holding in force per agent and component. */
  ghost predicate OneActive(db: Db)
  {
    && HoldingRowsKnown(db)
    && forall h: nat, k: nat ::
         h < k && InForce(db, h) && InForce(db, k) && db.holdings[h].agent == db.holdings[k].agent ==>
           ComponentOf(db, h) != ComponentOf(db, k)
  }

  ghost predicate HoldingsSound(s: Sys)
  {
    OneActive(s.db) && forall i :: 0 <= i < |s.threads| ==> Remembers(s.db, s.threads[i].pc)
  }

  // ---- one write ----

  lemma RemembersKept(db: Db, db': Db, pc: Pc)
    requires Extends(db, db') && Remembers(db, pc)
    ensures Remembers(db', pc)
  {
  }

  /** The retirement makes room: no row in force is left to collide with. */
  lemma HoldNeverCollides(db: Db, agent: nat, manifest: nat, component: Bytes)
    requires OfComponent(db, manifest, component)
    ensures !HoldCollides(db, agent, manifest, component)
  {
    var retired := Retired(db, agent, component);
    if h: nat :| h < |retired| && !retired[h].deleted && retired[h].agent == agent && retired[h].manifest == manifest {
      assert ActiveFor(db, h, agent, component);
    }
  }

  lemma HoldKeepsOneActive(db: Db, write: Write)
    requires OneActive(db) && write.Hold? && write.holder < |db.agents| && OfComponent(db, write.held, write.component)
    ensures OneActive(Apply(db, write))
  {
    var db' := Apply(db, write);
    var n := |db.holdings|;
    forall h: nat, k: nat |
      h < k && InForce(db', h) && InForce(db', k) && db'.holdings[h].agent == db'.holdings[k].agent
      ensures ComponentOf(db', h) != ComponentOf(db', k)
    {
      assert InForce(db, h) && !ActiveFor(db, h, write.holder, write.component);
      assert k < n ==> InForce(db, k);
    }
  }

  lemma OthersKeepOneActive(db: Db, write: Write)
    requires OneActive(db) && !write.Hold?
    ensures OneActive(Apply(db, write))
  {
    var db' := Apply(db, write);
    ApplyExtends(db, write);
    assert db'.holdings == db.holdings;
    hide Apply;
    forall h: nat, k: nat |
      h < k && InForce(db', h) && InForce(db', k) && db'.holdings[h].agent == db'.holdings[k].agent
      ensures ComponentOf(db', h) != ComponentOf(db', k)
    {
      assert InForce(db, h) && InForce(db, k);
    }
  }

  // ---- one step ----

  /** Holdings are written only by the thread that read the rows, and never collide. */
  ghost predicate HoldsAsRead(db: Db, pc: Pc, write: Write, pc': Pc)
  {
    && Remembers(Apply(db, write), pc')
    && (write.Hold? ==>
          && pc.Reporting? && pc.report.Reflect? && write.holder == pc.report.agent
          && write.held == pc.report.manifest && write.component == pc.report.component)
  }

  /** Positions that remember no rows. */
  predicate Forgetful(pc: Pc)
  {
    match pc
    case Delivering(at) => !at.CheckToken? && !at.AddUpdate?
    case Reporting(at) => at.FindReport? || at.FindFailure?
    case _ => true
  }

  lemma ForgetfulRemembers(db: Db, pc: Pc)
    requires Forgetful(pc)
    ensures Remembers(db, pc)
  {
  }

  lemma EarlyForgetful(w: World, now: int, db: Db, req: Request, pc: Pc, ev: Event)
    requires !pc.Delivering? && !pc.Reporting?
    ensures var (write, req', pc') := Next(w, now, db, req, pc, ev); Forgetful(pc') && !write.Hold?
  {
    hide ComponentSet, NextCounted, LinkedManifests, PicksLatest, PicksAgent, Envelopes;
  }

  lemma DeliverRemembers(now: int, db: Db, pc: DeliverPc, ev: Event)
    requires Remembers(db, Delivering(pc))
    ensures var (write, pc') := DeliverStep(now, db, pc, ev); HoldsAsRead(db, Delivering(pc), write, pc')
  {
    hide Envelopes, PicksLatest;
  }

  lemma ReportRemembers(now: int, db: Db, reports: seq<ReportItem>, pc: ReportPc, ev: Event)
    requires pc.n < |reports| && Counted(reports[pc.n])
    requires Remembers(db, Reporting(pc))
    ensures var (write, pc') := ReportStep(now, db, reports, pc, ev); HoldsAsRead(db, Reporting(pc), write, pc')
    ensures pc.Reflect? ==> ReportStep(now, db, reports, pc, ev).0.Hold?
  {
    hide NextCounted, DigestKey;
    if pc.Reflect? { HoldNeverCollides(db, pc.agent, pc.manifest, pc.component); }
    hide HoldCollides;
  }

  lemma AdvanceRemembers(w: World, now: int, db: Db, th: Thread, ev: Event)
    requires Remembers(db, th.pc)
    ensures var (write, th') := Advance(w, now, db, th, ev); HoldsAsRead(db, th.pc, write, th'.pc)
  {
    ApplyNothing(db);
    if ev.fault {
      hide ComponentSet, NextCounted;
      assert Forgetful(OnStoreFault(th.req, th.pc)) || th.pc == OnStoreFault(th.req, th.pc);
    } else {
      hide IssueStep, MatchStep, AttestStep, DeliverStep, ReportStep, RegisterStep, Apply;
      match th.pc
      case Delivering(at) => DeliverRemembers(now, db, at, ev);
      case Reporting(at) =>
        if th.req.input.Signed? && at.n < |th.req.input.message.reports|
           && Counted(th.req.input.message.reports[at.n])
        {
          ReportRemembers(now, db, th.req.input.message.reports, at, ev);
        }
      case _ =>
        EarlyForgetful(w, now, db, th.req, th.pc, ev);
        ForgetfulRemembers(Apply(db, Next(w, now, db, th.req, th.pc, ev).0), Next(w, now, db, th.req, th.pc, ev).2);
    }
  }

  // ---- every run ----

  lemma RunHoldings(w: World, s: Sys, i: nat, ev: Event)
    requires i < |s.threads| && HoldingsSound(s)
    ensures HoldingsSound(Step(w, s, Run(i, ev)))
  {
    var (write, th') := Advance(w, s.now, s.db, s.threads[i], ev);
    AdvanceRemembers(w, s.now, s.db, s.threads[i], ev);
    ApplyExtends(s.db, write);
    if write.Hold? { HoldKeepsOneActive(s.db, write); } else { OthersKeepOneActive(s.db, write); }
    hide Advance, Apply, OneActive, Remembers, Extends;
    forall j | 0 <= j < |s.threads| && j != i ensures Remembers(Apply(s.db, write), s.threads[j].pc) {
      RemembersKept(s.db, Apply(s.db, write), s.threads[j].pc);
    }
  }

  lemma StepHoldings(w: World, s: Sys, action: Action)
    requires HoldingsSound(s)
    ensures HoldingsSound(Step(w, s, action))
  {
    hide Advance, Apply, OneActive, Remembers;
    match action
    case Arrive(input) => LaunchForgetful(input); ForgetfulRemembers(s.db, Launch(input).pc); hide Launch;
    case Tick(_) =>
    case Run(i, ev) => if i < |s.threads| { RunHoldings(w, s, i, ev); }
  }

  lemma LaunchForgetful(input: Input)
    ensures Forgetful(Launch(input).pc)
  {
    hide ComponentSet, NextCounted;
  }

  lemma {:induction false} ExecuteHoldings(w: World, s: Sys, actions: seq<Action>)
    requires HoldingsSound(s)
    ensures HoldingsSound(Execute(w, s, actions))
    decreases |actions|
  {
    hide HoldingsSound, Step;
    if actions != [] {
      ExecuteHoldings(w, s, actions[..|actions| - 1]);
      StepHoldings(w, Execute(w, s, actions[..|actions| - 1]), actions[|actions| - 1]);
    }
  }

  /** In every interleaving, an agent has at most one manifest in force per component, and a
      thread about to record one never meets the unique index. */
  lemma OneManifestPerComponent(w: World, now: int, signingKeys: seq<SigningKeyRow>,
                                devices: seq<Bytes>, actions: seq<Action>)
    ensures var s := Reached(w, now, signingKeys, devices, actions);
      && HoldingsSound(s)
      && forall i :: 0 <= i < |s.threads| && s.threads[i].pc.Reporting? && s.threads[i].pc.report.Reflect? ==>
           var at := s.threads[i].pc.report; !HoldCollides(s.db, at.agent, at.manifest, at.component)
  {
    var s := Reached(w, now, signingKeys, devices, actions);
    ExecuteHoldings(w, Initial(now, signingKeys, devices), actions);
    hide Reached, HoldCollides, OneActive;
    forall i | 0 <= i < |s.threads| && s.threads[i].pc.Reporting? && s.threads[i].pc.report.Reflect?
      ensures var at := s.threads[i].pc.report; !HoldCollides(s.db, at.agent, at.manifest, at.component)
    {
      var at := s.threads[i].pc.report;
      assert Remembers(s.db, s.threads[i].pc);
      HoldNeverCollides(s.db, at.agent, at.manifest, at.component);
    }
  }
}
