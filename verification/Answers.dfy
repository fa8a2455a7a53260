/**
 What an Update carries when requests interleave: for each listed component, in order, what the
 lookup of its latest manifest answered at some moment while the request was being handled.
 */
module Answers {
  import opened Wrappers
  import opened Tables
  import opened Protocol
  import opened Machine
  import opened RequestFacts
  import opened Handles
  import opened Delivery
  import opened Selection

  /** The rows answered, in order. */
  function Somes(answers: seq<Option<nat>>): seq<nat>
  {
    if answers == [] then []
    else
      var last := answers[|answers| - 1];
      Somes(answers[..|answers| - 1]) + (if last.Some? then [last.value] else [])
  }

  lemma SomesOneMore(answers: seq<Option<nat>>, last: Option<nat>)
    ensures Somes(answers + [last]) == Somes(answers) + (if last.Some? then [last.value] else [])
  {
    assert (answers + [last])[..|answers|] == answers;
  }

  /** At some moment of the run at which request i was there, the lookup of the component may
      have answered this. */
  ghost predicate AnsweredAt(w: World, s0: Sys, actions: seq<Action>, i: nat, component: Bytes, answer: Option<nat>)
  {
    exists k: nat :: k <= |actions| && AnswersNow(Execute(w, s0, actions[..k]), i, component, answer)
  }

  ghost predicate AnswersNow(s: Sys, i: nat, component: Bytes, answer: Option<nat>)
  {
    i < |s.threads| && PicksLatest(s.db.manifests, component, answer)
  }

  ghost predicate AllAnswered(w: World, s0: Sys, actions: seq<Action>, i: nat, components: seq<Bytes>,
                              answers: seq<Option<nat>>)
  {
    |answers| == |components|
    && forall c :: 0 <= c < |components| ==> AnsweredAt(w, s0, actions, i, components[c], answers[c])
  }

  ghost predicate Gathered(w: World, s0: Sys, actions: seq<Action>, i: nat, components: seq<Bytes>, picked: seq<nat>)
  {
    exists answers: seq<Option<nat>> :: AllAnswered(w, s0, actions, i, components, answers) && picked == Somes(answers)
  }

  ghost predicate Carries(w: World, s0: Sys, actions: seq<Action>, i: nat, components: seq<Bytes>, db: Db,
                          manifests: seq<Bytes>)
  {
    exists picked: seq<nat> ::
      && Gathered(w, s0, actions, i, components, picked) && InRange(picked, |db.manifests|)
      && manifests == Envelopes(db, picked)
  }

  function Wanted(req: Request): seq<Bytes>
  {
    if req.input.Signed? then ComponentSet(req.input.message) else []
  }

  /** How much of an Update a thread has gathered, and from what. */
  ghost predicate Supplied(w: World, s0: Sys, actions: seq<Action>, db: Db, i: nat, req: Request, pc: Pc)
  {
    match pc
    case Issuing(DrawToken(Deliver(_, components))) => components == Wanted(req)
    case Issuing(AddToken(_, Deliver(_, components))) => components == Wanted(req)
    case Delivering(PickLatest(_, _, components, picked)) =>
      && |components| <= |Wanted(req)| && components == Wanted(req)[|Wanted(req)| - |components|..]
      && Gathered(w, s0, actions, i, Wanted(req)[..|Wanted(req)| - |components|], picked)
    case Delivering(at) => Gathered(w, s0, actions, i, Wanted(req), at.picked)
    case Done(UpdateSent(_, _, manifests)) => Carries(w, s0, actions, i, Wanted(req), db, manifests)
    case Done(NoContent) => IsQueryResponse(req) ==> Gathered(w, s0, actions, i, Wanted(req), [])
    case _ => true
  }

  ghost predicate AllSupplied(w: World, s0: Sys, actions: seq<Action>, s: Sys)
  {
    forall i :: 0 <= i < |s.threads| ==> Supplied(w, s0, actions, s.db, i, s.threads[i].req, s.threads[i].pc)
  }

  // ---- moments ----

  lemma AnsweredStill(w: World, s0: Sys, actions: seq<Action>, last: Action, i: nat, component: Bytes,
                      answer: Option<nat>)
    ensures AnsweredAt(w, s0, actions, i, component, answer) ==>
      AnsweredAt(w, s0, actions + [last], i, component, answer)
    ensures AnswersNow(Execute(w, s0, actions), i, component, answer) ==>
      AnsweredAt(w, s0, actions + [last], i, component, answer)
  {
    hide AnswersNow, Execute;
    assert (actions + [last])[..|actions|] == actions && actions[..|actions|] == actions;
    if AnsweredAt(w, s0, actions, i, component, answer) {
      var k: nat :| k <= |actions| && AnswersNow(Execute(w, s0, actions[..k]), i, component, answer);
      assert (actions + [last])[..k] == actions[..k];
    }
  }

  lemma GatheredStill(w: World, s0: Sys, actions: seq<Action>, last: Action, i: nat, components: seq<Bytes>,
                      picked: seq<nat>)
    requires Gathered(w, s0, actions, i, components, picked)
    ensures Gathered(w, s0, actions + [last], i, components, picked)
  {
    var answers: seq<Option<nat>> :| AllAnswered(w, s0, actions, i, components, answers) && picked == Somes(answers);
    hide AnsweredAt, Somes;
    forall c | 0 <= c < |components| ensures AnsweredAt(w, s0, actions + [last], i, components[c], answers[c]) {
      AnsweredStill(w, s0, actions, last, i, components[c], answers[c]);
    }
    assert AllAnswered(w, s0, actions + [last], i, components, answers);
  }

  lemma AllAnsweredOneMore(w: World, s0: Sys, actions: seq<Action>, last: Action, i: nat, components: seq<Bytes>,
                           answers: seq<Option<nat>>, component: Bytes, answer: Option<nat>)
    requires AllAnswered(w, s0, actions, i, components, answers)
    requires AnsweredAt(w, s0, actions + [last], i, component, answer)
    ensures AllAnswered(w, s0, actions + [last], i, components + [component], answers + [answer])
  {
    hide AnsweredAt;
    var components', answers' := components + [component], answers + [answer];
    forall c | 0 <= c < |components'| ensures AnsweredAt(w, s0, actions + [last], i, components'[c], answers'[c]) {
      if c < |components| { AnsweredStill(w, s0, actions, last, i, components[c], answers[c]); }
    }
  }

  lemma GatheredOneMore(w: World, s0: Sys, actions: seq<Action>, last: Action, i: nat, components: seq<Bytes>,
                        picked: seq<nat>, component: Bytes, answer: Option<nat>)
    requires Gathered(w, s0, actions, i, components, picked)
    requires AnswersNow(Execute(w, s0, actions), i, component, answer)
    ensures Gathered(w, s0, actions + [last], i, components + [component],
                     if answer.None? then picked else picked + [answer.value])
  {
    hide AnsweredAt, Somes, AnswersNow, Execute, AllAnswered;
    var answers: seq<Option<nat>> :| AllAnswered(w, s0, actions, i, components, answers) && picked == Somes(answers);
    SomesOneMore(answers, answer);
    AnsweredStill(w, s0, actions, last, i, component, answer);
    AllAnsweredOneMore(w, s0, actions, last, i, components, answers, component, answer);
  }

  lemma NothingGathered(w: World, s0: Sys, actions: seq<Action>, i: nat)
    ensures Gathered(w, s0, actions, i, [], [])
  {
    assert AllAnswered(w, s0, actions, i, [], []) && Somes([]) == [];
  }

  lemma CarriesStill(w: World, s0: Sys, actions: seq<Action>, last: Action, i: nat, components: seq<Bytes>,
                     db: Db, write: Write, manifests: seq<Bytes>)
    requires Carries(w, s0, actions, i, components, db, manifests)
    ensures Carries(w, s0, actions + [last], i, components, Apply(db, write), manifests)
  {
    var picked: seq<nat> :|
      && Gathered(w, s0, actions, i, components, picked) && InRange(picked, |db.manifests|)
      && manifests == Envelopes(db, picked);
    hide Apply, InRange, Envelopes, Gathered;
    GatheredStill(w, s0, actions, last, i, components, picked);
    EnvelopesKept(db, write, picked);
  }

  /** A thread that stands still keeps what it gathered. */
  lemma SuppliedStill(w: World, s0: Sys, actions: seq<Action>, last: Action, db: Db, write: Write, i: nat,
                      req: Request, pc: Pc)
    requires Supplied(w, s0, actions, db, i, req, pc)
    ensures Supplied(w, s0, actions + [last], Apply(db, write), i, req, pc)
  {
    hide Apply, Gathered, Carries, Wanted;
    match pc
    case Delivering(at) =>
      if at.PickLatest? {
        GatheredStill(w, s0, actions, last, i, Wanted(req)[..|Wanted(req)| - |at.components|], at.picked);
      } else {
        GatheredStill(w, s0, actions, last, i, Wanted(req), at.picked);
      }
    case Done(UpdateSent(_, _, manifests)) => CarriesStill(w, s0, actions, last, i, Wanted(req), db, write, manifests);
    case Done(NoContent) => if IsQueryResponse(req) { GatheredStill(w, s0, actions, last, i, Wanted(req), []); }
    case _ =>
  }

  // ---- one step ----

  /** Positions at which nothing has been gathered yet. */
  predicate Ungathered(req: Request, pc: Pc)
  {
    match pc
    case Issuing(DrawToken(Deliver(_, components))) => components == Wanted(req)
    case Issuing(AddToken(_, Deliver(_, components))) => components == Wanted(req)
    case Delivering(_) => false
    case Done(outcome) => !outcome.UpdateSent? && (outcome.NoContent? ==> !IsQueryResponse(req))
    case _ => true
  }

  lemma UngatheredIsSupplied(w: World, s0: Sys, actions: seq<Action>, db: Db, i: nat, req: Request, pc: Pc)
    requires Ungathered(req, pc)
    ensures Supplied(w, s0, actions, db, i, req, pc)
  {
  }

  lemma DispatchUngathered(req: Request)
    requires req.input.Signed?
    ensures Ungathered(req, Dispatch(req)) && Ungathered(req, AfterAuthentication(req))
  {
    hide ComponentSet, NextCounted;
  }

  lemma MatchUngathered(w: World, now: int, db: Db, req: Request, pc: MatchPc, ev: Event)
    requires req.input.Signed?
    ensures var (write, req', pc') := MatchStep(w, now, db, req, pc, ev); Ungathered(req', pc')
  {
    hide ComponentSet, Envelopes, PicksUpdate, PicksQueryByToken, PicksAgent, Dispatch, AfterAuthentication;
    var (write, req', pc') := MatchStep(w, now, db, req, pc, ev);
    DispatchUngathered(req);
    DispatchUngathered(req');
    DispatchUngathered(req.(auth := req.input.kid));
    hide Ungathered;
    if pc' == Matching(FindQuery) || pc' == Matching(FindUpdate) || pc' == Matching(pc) || pc'.Done? {
      MatchingUngathered(req', pc');
    }
  }

  lemma MatchingUngathered(req: Request, pc: Pc)
    ensures pc.Matching? || (pc.Done? && pc.outcome.Refused?) ==> Ungathered(req, pc)
  {
  }

  lemma AttestUngathered(w: World, now: int, db: Db, req: Request, pc: AttestPc, ev: Event)
    requires req.input.Signed? && req.input.verdict.Affirming?
    ensures var (write, req', pc') := AttestStep(w, now, db, req, pc, ev); Ungathered(req', pc')
  {
    hide ComponentSet, PicksAgent, PicksQueryByChallenge, NewAgent;
  }

  lemma RestUngathered(w: World, now: int, db: Db, req: Request, pc: Pc, ev: Event)
    requires pc.Reporting? || pc.Administering?
    requires pc.Reporting? ==> AtReporting(req, pc.report)
    ensures var (write, req', pc') := Next(w, now, db, req, pc, ev); Ungathered(req', pc')
  {
    hide DigestKey, HoldCollides, PicksLatest, PicksAgent, PicksManifestByDigest, NextCounted;
  }

  lemma FaultUngathered(w: World, req: Request, pc: Pc, log: seq<Write>)
    requires AtPc(w, req, pc, log) && !pc.Done?
    ensures Ungathered(req, OnStoreFault(req, pc))
  {
    hide ComponentSet, NextCounted;
  }

  lemma IssueSupplies(w: World, s0: Sys, actions: seq<Action>, db: Db, i: nat, req: Request, pc: IssuePc, ev: Event,
                      last: Action)
    requires Supplied(w, s0, actions, db, i, req, Issuing(pc))
    ensures var (write, pc') := IssueStep(db, pc, ev);
      Supplied(w, s0, actions + [last], Apply(db, write), i, req, pc')
  {
    hide Wanted, Gathered, Carries, Apply;
    NothingGathered(w, s0, actions + [last], i);
    if pc.AddToken? && pc.goal.Deliver? {
      assert Wanted(req)[|Wanted(req)| - |Wanted(req)|..] == Wanted(req);
      assert Wanted(req)[..|Wanted(req)| - |Wanted(req)|] == [];
    }
  }

  lemma AfterPickSupplies(w: World, s0: Sys, actions: seq<Action>, db: Db, i: nat, req: Request, kid: Bytes,
                          token: Bytes, n: nat, picked: seq<nat>)
    requires n <= |Wanted(req)| && Gathered(w, s0, actions, i, Wanted(req)[..n], picked)
    ensures Supplied(w, s0, actions, db, i, req, AfterPick(kid, token, Wanted(req)[n..], picked))
  {
    hide Gathered, Wanted, Carries;
    var wanted := Wanted(req);
    if n < |wanted| {
      assert |wanted| - |wanted[n..]| == n;
    } else {
      assert wanted[..n] == wanted && wanted[n..] == [];
    }
  }

  lemma PickSupplies(w: World, s0: Sys, actions: seq<Action>, i: nat, req: Request, pc: DeliverPc, ev: Event,
                     last: Action)
    requires var s := Execute(w, s0, actions);
      i < |s.threads| && pc.PickLatest? && Supplied(w, s0, actions, s.db, i, req, Delivering(pc))
    ensures var db := Execute(w, s0, actions).db;
      var (write, pc') := DeliverStep(0, db, pc, ev);
      write.Nothing? && Supplied(w, s0, actions + [last], db, i, req, pc')
  {
    hide Execute, Gathered, Carries, Wanted, PicksLatest, Supplied, AfterPick;
    var s := Execute(w, s0, actions);
    if pc.components != [] && PicksLatest(s.db.manifests, pc.components[0], ev.pick) {
      PickedSupplies(w, s0, actions, s, i, req, pc, ev.pick, last);
    } else {
      ApplyNothing(s.db);
      SuppliedStill(w, s0, actions, last, s.db, Nothing, i, req, Delivering(pc));
    }
  }

  /** Moving one component from those ahead to those behind. */
  lemma SliceOn(wanted: seq<Bytes>, ahead: seq<Bytes>, n: nat)
    requires n <= |wanted| && ahead == wanted[n..] && ahead != []
    ensures n + 1 <= |wanted| && wanted[..n] + [ahead[0]] == wanted[..n + 1] && ahead[1..] == wanted[n + 1..]
  {
  }

  lemma GatheredSoFar(w: World, s0: Sys, actions: seq<Action>, db: Db, i: nat, req: Request, pc: DeliverPc)
    returns (n: nat)
    requires pc.PickLatest? && Supplied(w, s0, actions, db, i, req, Delivering(pc))
    ensures n <= |Wanted(req)| && pc.components == Wanted(req)[n..]
    ensures Gathered(w, s0, actions, i, Wanted(req)[..n], pc.picked)
  {
    hide Gathered, Wanted;
    n := |Wanted(req)| - |pc.components|;
  }

  lemma PickedSupplies(w: World, s0: Sys, actions: seq<Action>, s: Sys, i: nat, req: Request, pc: DeliverPc,
                       pick: Option<nat>, last: Action)
    requires s == Execute(w, s0, actions) && i < |s.threads|
    requires pc.PickLatest? && pc.components != [] && Supplied(w, s0, actions, s.db, i, req, Delivering(pc))
    requires PicksLatest(s.db.manifests, pc.components[0], pick)
    ensures Supplied(w, s0, actions + [last], s.db, i, req,
      AfterPick(pc.kid, pc.token, pc.components[1..], if pick.None? then pc.picked else pc.picked + [pick.value]))
  {
    hide Execute, Gathered, Wanted, PicksLatest, Supplied, AfterPick;
    var wanted := Wanted(req);
    var n := GatheredSoFar(w, s0, actions, s.db, i, req, pc);
    SliceOn(wanted, pc.components, n);
    GatheredOneMore(w, s0, actions, last, i, wanted[..n], pc.picked, pc.components[0], pick);
    AfterPickSupplies(w, s0, actions + [last], s.db, i, req, pc.kid, pc.token, n + 1,
                      if pick.None? then pc.picked else pc.picked + [pick.value]);
  }

  lemma DeliverSupplies(w: World, s0: Sys, actions: seq<Action>, now: int, db: Db, i: nat, req: Request,
                        pc: DeliverPc, ev: Event, last: Action)
    requires !pc.PickLatest? && Supplied(w, s0, actions, db, i, req, Delivering(pc))
    requires InRange(pc.picked, |db.manifests|)
    ensures var (write, pc') := DeliverStep(now, db, pc, ev);
      Supplied(w, s0, actions + [last], Apply(db, write), i, req, pc')
  {
    var (write, pc') := DeliverStep(now, db, pc, ev);
    hide Gathered, Wanted, Apply, Envelopes;
    GatheredStill(w, s0, actions, last, i, Wanted(req), pc.picked);
    EnvelopesKept(db, write, pc.picked);
    hide InRange;
  }

  lemma PickIgnoresTime(now: int, db: Db, pc: DeliverPc, ev: Event)
    requires pc.PickLatest?
    ensures DeliverStep(now, db, pc, ev) == DeliverStep(0, db, pc, ev)
  {
  }

  lemma RunSupplies(w: World, s0: Sys, actions: seq<Action>, i: nat, ev: Event)
    requires var s := Execute(w, s0, actions);
      && i < |s.threads| && Faithful(w, s.threads[i]) && Recorded(s.db, s.threads[i].pc)
      && Supplied(w, s0, actions, s.db, i, s.threads[i].req, s.threads[i].pc)
    ensures var s := Execute(w, s0, actions);
      var (write, th') := Advance(w, s.now, s.db, s.threads[i], ev);
      Supplied(w, s0, actions + [Run(i, ev)], Apply(s.db, write), i, th'.req, th'.pc)
  {
    var s := Execute(w, s0, actions);
    var th := s.threads[i];
    var (write, th') := Advance(w, s.now, s.db, th, ev);
    var last := Run(i, ev);
    ApplyNothing(s.db);
    hide Execute, Supplied, Ungathered, IssueStep, MatchStep, AttestStep, DeliverStep, ReportStep, RegisterStep,
         OnStoreFault, AllGrounded, Counts, Coherent, AtReporting, AtDelivering;
    if th.pc.Done? {
      SuppliedStill(w, s0, actions, last, s.db, Nothing, i, th.req, th.pc);
      DoneStays(w, s.now, s.db, th, ev);
    } else if ev.fault {
      FaultUngathered(w, th.req, th.pc, th.log);
      UngatheredIsSupplied(w, s0, actions + [last], s.db, i, th'.req, th'.pc);
    } else {
      match th.pc
      case Issuing(at) => IssueSupplies(w, s0, actions, s.db, i, th.req, at, ev, last);
      case Matching(at) =>
        MatchUngathered(w, s.now, s.db, th.req, at, ev);
        UngatheredIsSupplied(w, s0, actions + [last], Apply(s.db, write), i, th'.req, th'.pc);
      case Attesting(at) =>
        AttestUngathered(w, s.now, s.db, th.req, at, ev);
        UngatheredIsSupplied(w, s0, actions + [last], Apply(s.db, write), i, th'.req, th'.pc);
      case Delivering(at) =>
        if at.PickLatest? {
          PickIgnoresTime(s.now, s.db, at, ev);
          PickSupplies(w, s0, actions, i, th.req, at, ev, last);
        } else {
          DeliverSupplies(w, s0, actions, s.now, s.db, i, th.req, at, ev, last);
        }
      case _ =>
        RestUngathered(w, s.now, s.db, th.req, th.pc, ev);
        UngatheredIsSupplied(w, s0, actions + [last], Apply(s.db, write), i, th'.req, th'.pc);
    }
  }

  lemma DoneStays(w: World, now: int, db: Db, th: Thread, ev: Event)
    requires th.pc.Done?
    ensures var (write, th') := Advance(w, now, db, th, ev); write.Nothing? && th'.req == th.req && th'.pc == th.pc
  {
  }

  // ---- every run ----

  lemma LaunchUngathered(input: Input)
    ensures Ungathered(Launch(input).req, Launch(input).pc)
  {
    hide ComponentSet, NextCounted;
  }

  lemma StepSupplies(w: World, s0: Sys, actions: seq<Action>, last: Action)
    requires var s := Execute(w, s0, actions);
      HandlesSound(s) && AllFaithful(w, s) && DeliverySound(s) && AllSupplied(w, s0, actions, s)
    ensures AllSupplied(w, s0, actions + [last], Step(w, Execute(w, s0, actions), last))
  {
    var s := Execute(w, s0, actions);
    hide Execute, Supplied, HandlesSound, Faithful, Advance, Apply, Launch, Recorded, RecoveredRecorded, Sending,
         Ungathered;
    ApplyNothing(s.db);
    var runs := last.Run? && last.thread < |s.threads|;
    var write := if runs then Advance(w, s.now, s.db, s.threads[last.thread], last.event).0 else Nothing;
    forall j | 0 <= j < |s.threads|
      ensures Supplied(w, s0, actions + [last], Apply(s.db, write), j, s.threads[j].req, s.threads[j].pc)
    {
      SuppliedStill(w, s0, actions, last, s.db, write, j, s.threads[j].req, s.threads[j].pc);
    }
    match last
    case Arrive(input) =>
      LaunchUngathered(input);
      UngatheredIsSupplied(w, s0, actions + [last], s.db, |s.threads|, Launch(input).req, Launch(input).pc);
    case Tick(_) =>
    case Run(i, ev) => if i < |s.threads| { RunSupplies(w, s0, actions, i, ev); }
  }

  lemma {:induction false} ExecuteSupplies(w: World, s0: Sys, actions: seq<Action>)
    requires HandlesSound(s0) && AllFaithful(w, s0) && DeliverySound(s0) && s0.threads == []
    ensures AllSupplied(w, s0, actions, Execute(w, s0, actions))
    decreases |actions|
  {
    hide HandlesSound, AllFaithful, DeliverySound, AllSupplied, Step;
    if actions == [] {
      NoThreadsSupplied(w, s0);
    } else {
      var before := actions[..|actions| - 1];
      ExecuteSupplies(w, s0, before);
      ExecuteSound(w, s0, before);
      RunFaithful(w, s0, before);
      ExecuteDelivers(w, s0, before);
      assert before + [actions[|actions| - 1]] == actions;
      StepSupplies(w, s0, before, actions[|actions| - 1]);
    }
  }

  lemma NoThreadsSupplied(w: World, s0: Sys)
    requires s0.threads == []
    ensures AllSupplied(w, s0, [], s0)
  {
  }

  lemma LatestIsKnown(manifests: seq<ManifestRow>, component: Bytes, m: nat)
    requires PicksLatest(manifests, component, Some(m))
    ensures m < |manifests| && manifests[m].component == component
  {
  }

  lemma ManifestStays(db: Db, db': Db, m: nat)
    requires Extends(db, db') && m < |db.manifests|
    ensures m < |db'.manifests| && db'.manifests[m] == db.manifests[m]
  {
  }

  /** The row was answered for the component, and is of the component. */
  lemma AnswersAreOfTheirComponent(w: World, s0: Sys, actions: seq<Action>, i: nat, component: Bytes,
                                   answer: Option<nat>)
    requires AnsweredAt(w, s0, actions, i, component, answer) && answer.Some?
    ensures var manifests := Execute(w, s0, actions).db.manifests;
      answer.value < |manifests| && manifests[answer.value].component == component
  {
    hide Execute, Extends, PicksLatest;
    var k: nat :| k <= |actions| && AnswersNow(Execute(w, s0, actions[..k]), i, component, answer);
    hide AnsweredAt;
    var earlier := Execute(w, s0, actions[..k]);
    LatestIsKnown(earlier.db.manifests, component, answer.value);
    ExecuteAppended(w, s0, actions[..k], actions[k..]);
    assert actions[..k] + actions[k..] == actions;
    RunExtends(w, earlier, actions[k..]);
    ManifestStays(earlier.db, Execute(w, s0, actions).db, answer.value);
  }

  /** In every interleaving an answered Update carries, for the components its request listed,
      each once and in order of first occurrence, the manifests that were the latest of their
      component at some moment while the request was being handled, leaving out those of which
      no manifest was known at such a moment; and a QueryResponse is answered with nothing only
      if each of them was unknown at such a moment. */
  lemma InterleavedUpdateContents(w: World, now: int, signingKeys: seq<SigningKeyRow>, devices: seq<Bytes>,
                                  actions: seq<Action>, i: nat)
    requires var s := Reached(w, now, signingKeys, devices, actions);
      i < |s.threads| && s.threads[i].pc.Done? && IsQueryResponse(s.threads[i].req)
      && (s.threads[i].pc.outcome.UpdateSent? || s.threads[i].pc.outcome.NoContent?)
    ensures var s := Reached(w, now, signingKeys, devices, actions);
      var message := s.threads[i].req.input.message;
      Deduplicates(ComponentSet(message), Listed(message.requested) + Listed(message.tcList))
    ensures var s := Reached(w, now, signingKeys, devices, actions);
      var components := ComponentSet(s.threads[i].req.input.message);
      exists answers: seq<Option<nat>> ::
        && AllAnswered(w, Initial(now, signingKeys, devices), actions, i, components, answers)
        && (forall c :: 0 <= c < |components| && answers[c].Some? ==>
              answers[c].value < |s.db.manifests| && s.db.manifests[answers[c].value].component == components[c])
        && (if s.threads[i].pc.outcome.UpdateSent? then
              s.threads[i].pc.outcome.manifests == Envelopes(s.db, Somes(answers))
            else Somes(answers) == [])
  {
    hide Reached, Execute, Deduplicates, ComponentSet, Envelopes, AnsweredAt, Somes, Supplied, AllSupplied;
    var s0 := Initial(now, signingKeys, devices);
    var s := Reached(w, now, signingKeys, devices, actions);
    ReachedSupplied(w, now, signingKeys, devices, actions, i);
    var message := s.threads[i].req.input.message;
    ComponentSetDeduplicates(message);
    var answers := AnsweredFrom(w, s0, actions, s.db, i, s.threads[i].req, s.threads[i].pc.outcome);
    forall c | 0 <= c < |answers| && answers[c].Some?
      ensures answers[c].value < |s.db.manifests|
      ensures s.db.manifests[answers[c].value].component == ComponentSet(message)[c]
    {
      assert Execute(w, s0, actions) == s by { ReachedIsExecuted(w, now, signingKeys, devices, actions); }
      AnswersAreOfTheirComponent(w, s0, actions, i, ComponentSet(message)[c], answers[c]);
    }
  }

  lemma ReachedIsExecuted(w: World, now: int, signingKeys: seq<SigningKeyRow>, devices: seq<Bytes>,
                          actions: seq<Action>)
    ensures Reached(w, now, signingKeys, devices, actions) == Execute(w, Initial(now, signingKeys, devices), actions)
  {
    hide Execute;
  }

  lemma ReachedSupplied(w: World, now: int, signingKeys: seq<SigningKeyRow>, devices: seq<Bytes>,
                        actions: seq<Action>, i: nat)
    requires i < |Reached(w, now, signingKeys, devices, actions).threads|
    ensures var s := Reached(w, now, signingKeys, devices, actions);
      Supplied(w, Initial(now, signingKeys, devices), actions, s.db, i, s.threads[i].req, s.threads[i].pc)
  {
    hide Execute, Supplied;
    InitialSound(now, signingKeys, devices);
    ExecuteSupplies(w, Initial(now, signingKeys, devices), actions);
  }

  lemma AnsweredFrom(w: World, s0: Sys, actions: seq<Action>, db: Db, i: nat, req: Request, outcome: Outcome)
    returns (answers: seq<Option<nat>>)
    requires Supplied(w, s0, actions, db, i, req, Done(outcome)) && IsQueryResponse(req)
    requires outcome.UpdateSent? || outcome.NoContent?
    ensures AllAnswered(w, s0, actions, i, ComponentSet(req.input.message), answers)
    ensures if outcome.UpdateSent? then outcome.manifests == Envelopes(db, Somes(answers)) else Somes(answers) == []
  {
    hide AllAnswered, Somes, Envelopes, InRange, ComponentSet;
    var components := ComponentSet(req.input.message);
    var picked: seq<nat> :| Gathered(w, s0, actions, i, components, picked)
      && (if outcome.UpdateSent? then outcome.manifests == Envelopes(db, picked) else picked == []);
    answers :| AllAnswered(w, s0, actions, i, components, answers) && picked == Somes(answers);
  }
}
