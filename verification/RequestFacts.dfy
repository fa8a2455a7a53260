/**
 What a single request's history can look like, whatever the others do: which writes it may
 have made, on what grounds, and how often.  Nothing here depends on the store's contents,
 so no other thread can disturb it.
 */
module RequestFacts {
  import opened Wrappers
  import opened Tables
  import opened Protocol
  import opened Machine

  // ---- grounds ----

  /** The request proved possession of the attested key with this thumbprint: the verifier
      affirmed, the attested nonce is a challenge this request consumed and found a sent
      QueryRequest for, and the live message verifies under the attested key. */
  ghost predicate Introduces(w: World, req: Request, kid: Bytes)
  {
    && AttestedByChallenge(req)
    && req.recovered.Some?
    && !req.input.message.format.OtherFormat?
    && req.input.verdict.key.Some?
    && w.verifies(req.input.body, req.input.verdict.key.value)
    && w.thumbprint(req.input.verdict.key.value) == Some(kid)
  }

  predicate IsQueryResponse(req: Request)
  {
    req.input.Signed? && req.input.message.kind.KindQueryResponse?
  }

  /** The verifier affirmed and the attested nonce is the challenge this request consumed. */
  predicate AttestedByChallenge(req: Request)
  {
    IsQueryResponse(req) && req.input.verdict.Affirming?
    && req.challenge.Some? && req.input.verdict.nonce == req.challenge
  }

  /** The request may be answered as coming from kid: it verified under the stored live key
      of that kid, or it introduced that key itself. */
  ghost predicate Entitled(w: World, req: Request, kid: Bytes)
  {
    req.auth == Some(kid) || (req.auth.None? && Introduces(w, req, kid))
  }

  ghost predicate MayDeliver(w: World, req: Request, kid: Bytes)
  {
    IsQueryResponse(req) && req.recovered.Some? && Entitled(w, req, kid)
  }

  predicate MayChallenge(req: Request)
  {
    IsQueryResponse(req) && req.auth.None? && req.recovered.Some? && req.token.Some?
  }

  predicate MayReport(req: Request, kid: Bytes)
  {
    req.input.Signed? && req.auth == Some(kid) && req.token.Some? && req.recovered.Some?
  }

  predicate MayAsk(req: Request, handle: Handle)
  {
    if handle.TokenHandle? then req.input.EmptyBody? else MayChallenge(req)
  }

  ghost predicate MayDraw(w: World, req: Request, goal: Goal)
  {
    if goal.AskTcList? then req.input.EmptyBody? else MayDeliver(w, req, goal.kid)
  }

  /** The grounds on which a request may make a write. */
  ghost predicate Grounded(w: World, req: Request, write: Write)
  {
    match write
    case Nothing => false
    case PutToken(b) => |b| == 32 && (req.input.EmptyBody? || (IsQueryResponse(req) && req.recovered.Some?))
    case UseToken(b) => req.input.Signed? && req.input.message.token == Some(b) && req.token == Some(b)
    case PutChallenge(b) => |b| == 32 && MayChallenge(req)
    case UseChallenge(b) => AttestedByChallenge(req) && req.challenge == Some(b)
    case PutQuery(row) => if row.token.Some? then req.input.EmptyBody? else MayChallenge(req)
    case PutUpdate(_) => IsQueryResponse(req) && req.recovered.Some?
    case PutLink(_) => IsQueryResponse(req) && req.recovered.Some?
    case PutAgent(row) => Introduces(w, req, row.kid) && |row.kid| == 32 && req.auth.None?
                          && row.publicKey == req.input.verdict.key.value
    case RevokeAgent(kid, _) => req.input == Revocation(kid)
    case PutManifest(row) => req.input.Registration? && req.input.envelope == Some(row.envelope)
                             && row.digest == req.input.digest && row.component == req.input.component
                             && row.sequenceNumber == Signed64(req.input.sequenceNumber)
    case Hold(_, _, _, _, _) => req.input.Signed? && req.input.message.kind.KindSuccess?
                                && req.auth.Some? && req.token.Some? && req.recovered.Some?
    case PutReport(row) => req.input.Signed? && req.input.message.kind.KindError? && !row.resolved
                           && req.auth.Some? && req.token.Some? && req.recovered.Some?
  }

  // ---- where a thread can be ----

  /** So far the request has at most consumed the token it presented. */
  predicate OnlyConsumedToken(req: Request, log: seq<Write>)
  {
    log == [] || (req.input.Signed? && req.token.Some? && req.token == req.input.message.token
                  && log == [UseToken(req.token.value)])
  }

  predicate Unmatched(req: Request)
  {
    req.input.Signed? && req.recovered.None? && req.challenge.None?
  }

  ghost predicate AtIssuing(w: World, req: Request, pc: IssuePc)
  {
    match pc
    case DrawToken(goal) => MayDraw(w, req, goal)
    case AddToken(b, goal) => |b| == 32 && MayDraw(w, req, goal)
    case DrawChallenge => MayChallenge(req)
    case AddChallenge(b) => |b| == 32 && MayChallenge(req)
    case CheckQuery(handle) => MayAsk(req, handle)
    case AddQuery(handle, _) => MayAsk(req, handle)
  }

  predicate AtMatching(req: Request, pc: MatchPc, log: seq<Write>)
  {
    && Unmatched(req) && OnlyConsumedToken(req, log)
    && match pc
       case Authenticate => log == [] && req.auth.None? && req.token.None? && req.input.kid.Some?
       case ConsumeToken => log == [] && req.token.None? && req.input.message.token.Some?
       case _ => req.token.Some?
  }

  ghost predicate AtAttesting(w: World, req: Request, pc: AttestPc, log: seq<Write>)
  {
    && IsQueryResponse(req) && req.input.verdict.Affirming?
    && match pc
       case ConsumeChallenge => Unmatched(req) && OnlyConsumedToken(req, log) && req.input.verdict.nonce.Some?
       case FindByChallenge => AttestedByChallenge(req) && req.recovered.None?
       case _ =>
         && Introduces(w, req, pc.kid) && |pc.kid| == 32 && req.auth.None?
         && (pc.FindDevice? ==> req.input.verdict.ueid.Some?)
  }

  ghost predicate AtDelivering(w: World, req: Request, pc: DeliverPc)
  {
    && MayDeliver(w, req, pc.kid)
    && (if pc.PickLatest? then pc.components != [] else pc.picked != [])
    && (pc.FindManifest? || pc.AddLink? ==> pc.linked < |pc.picked|)
  }

  predicate AtReporting(req: Request, pc: ReportPc)
  {
    && MayReport(req, pc.kid)
    && (if pc.FindReport? || pc.Reflect? then req.input.message.kind.KindSuccess?
        else req.input.message.kind.KindError?)
    && pc.n < |req.input.message.reports| && Counted(req.input.message.reports[pc.n])
  }

  predicate AtAdministering(req: Request, pc: AdminPc)
  {
    if pc.Revoke? then req.input.Revocation?
    else req.input.Registration? && req.input.envelope.Some?
         && (pc.RegisterInsert? ==> req.input.sequenceNumber < MAX_INT64)
  }

  ghost predicate AtDone(w: World, req: Request, outcome: Outcome, log: seq<Write>)
  {
    match outcome
    case QuerySent(handle, _, _) => MayAsk(req, handle)
    case UpdateSent(kid, _, manifests) => MayDeliver(w, req, kid) && manifests != []
    case NoContent => req.input.Signed? && req.recovered.Some?
    case Registered => req.input.Registration?
    case RevokedNow => req.input.Revocation?
    case Refused(e) => e.AttestationFailed? ==> OnlyConsumedToken(req, log)
    case Panicked => true
  }

  ghost predicate AtPc(w: World, req: Request, pc: Pc, log: seq<Write>)
  {
    match pc
    case Issuing(at) => AtIssuing(w, req, at)
    case Matching(at) => AtMatching(req, at, log)
    case Attesting(at) => AtAttesting(w, req, at, log)
    case Delivering(at) => AtDelivering(w, req, at)
    case Reporting(at) => AtReporting(req, at)
    case Administering(at) => AtAdministering(req, at)
    case Done(outcome) => AtDone(w, req, outcome, log)
  }

  /** The achievements agree with the input and with each other. */
  predicate Coherent(req: Request)
  {
    && (req.auth.Some? ==> req.input.Signed? && req.auth == req.input.kid)
    && (req.token.Some? ==> req.input.Signed? && req.token == req.input.message.token)
    && (req.challenge.Some? ==> AttestedByChallenge(req))
    && match req.recovered
       case None => true
       case Some(SentQuery(TokenHandle(b), _, _)) => req.token == Some(b) && req.challenge.None?
       case Some(SentQuery(ChallengeHandle(b), _, _)) => req.challenge == Some(b)
       case Some(SentUpdate(b, _)) => req.token == Some(b) && req.challenge.None?
  }

  // ---- how often ----

  predicate Binding(write: Write) { write.PutQuery? || write.PutUpdate? }

  /** How many messages the writes record as sent. */
  function Bindings(log: seq<Write>): nat
  {
    if log == [] then 0 else Bindings(log[..|log| - 1]) + (if Binding(log[|log| - 1]) then 1 else 0)
  }

  function AgentsAdded(log: seq<Write>): nat
  {
    if log == [] then 0 else AgentsAdded(log[..|log| - 1]) + (if log[|log| - 1].PutAgent? then 1 else 0)
  }

  /** No message has been recorded as sent yet. */
  predicate BeforeBinding(pc: Pc)
  {
    match pc
    case Delivering(at) => !at.FindManifest? && !at.AddLink?
    case Done(_) => false
    case _ => true
  }

  predicate BeforeAgent(pc: Pc)
  {
    pc.Matching? || pc.Attesting?
  }

  predicate Counts(pc: Pc, log: seq<Write>)
  {
    && Bindings(log) <= (if BeforeBinding(pc) then 0 else 1)
    && AgentsAdded(log) <= (if BeforeAgent(pc) then 0 else 1)
  }

  ghost predicate AllGrounded(w: World, req: Request, log: seq<Write>)
  {
    forall i :: 0 <= i < |log| ==> Grounded(w, req, log[i])
  }

  /** Everything known of one thread from its own steps alone. */
  ghost predicate Faithful(w: World, th: Thread)
  {
    Coherent(th.req) && AllGrounded(w, th.req, th.log) && Counts(th.pc, th.log) && AtPc(w, th.req, th.pc, th.log)
  }

  // ---- every step keeps it ----

  /** Achievements are never taken back, and the key a request authenticated under is
      settled before its first write. */
  predicate Achieves(req: Request, req': Request, log: seq<Write>)
  {
    && req'.input == req.input
    && (req'.auth == req.auth || log == [])
    && (req.token.Some? ==> req'.token == req.token)
    && (req.challenge.Some? ==> req'.challenge == req.challenge)
    && (req.recovered.Some? ==> req'.recovered == req.recovered)
  }

  /** The phases of a request follow one another, each recording at most once. */
  predicate Ordered(pc: Pc, write: Write, pc': Pc)
  {
    && (BeforeBinding(pc') ==> BeforeBinding(pc))
    && (BeforeAgent(pc') ==> BeforeAgent(pc))
    && (Binding(write) ==> BeforeBinding(pc) && !BeforeBinding(pc'))
    && (write.PutAgent? ==> BeforeAgent(pc) && !BeforeAgent(pc'))
  }

  lemma DispatchAt(w: World, req: Request, log: seq<Write>)
    requires req.input.Signed? && req.challenge.None? && OnlyConsumedToken(req, log)
    requires req.recovered.Some? ==> req.token.Some?
    ensures AtPc(w, req, Dispatch(req), log)
  {
  }

  lemma IssueStepKeeps(w: World, db: Db, req: Request, pc: IssuePc, log: seq<Write>, ev: Event)
    requires AtIssuing(w, req, pc)
    ensures var (write, pc') := IssueStep(db, pc, ev);
      && Ordered(Issuing(pc), write, pc') && AtPc(w, req, pc', Logged(log, write))
      && (write.Nothing? || Grounded(w, req, write))
  {
  }

  lemma RespondAt(w: World, req: Request, kid: Bytes, log: seq<Write>)
    requires MayDeliver(w, req, kid)
    ensures AtPc(w, req, Respond(req, kid), log) && !BeforeAgent(Respond(req, kid))
  {
  }

  lemma MatchStepKeeps(w: World, now: int, db: Db, req: Request, pc: MatchPc, log: seq<Write>, ev: Event)
    requires Coherent(req) && AtMatching(req, pc, log)
    ensures var (write, req', pc') := MatchStep(w, now, db, req, pc, ev);
      && Achieves(req, req', log) && Coherent(req')
      && Ordered(Matching(pc), write, pc') && AtPc(w, req', pc', Logged(log, write))
      && (write.Nothing? || Grounded(w, req', write))
  {
    hide ComponentSet, Envelopes, PicksUpdate, PicksQueryByToken, NextCounted;
    var (write, req', pc') := MatchStep(w, now, db, req, pc, ev);
    if pc' == Dispatch(req') {
      DispatchAt(w, req', log);
    }
  }

  lemma AttestStepKeeps(w: World, now: int, db: Db, req: Request, pc: AttestPc, log: seq<Write>, ev: Event)
    requires Coherent(req) && AtAttesting(w, req, pc, log)
    ensures var (write, req', pc') := AttestStep(w, now, db, req, pc, ev);
      && Achieves(req, req', log) && Coherent(req')
      && Ordered(Attesting(pc), write, pc') && AtPc(w, req', pc', Logged(log, write))
      && (write.Nothing? || Grounded(w, req', write))
  {
    var (write, req', pc') := AttestStep(w, now, db, req, pc, ev);
    if pc.FindByChallenge? && ev.pick.Some? && req' != req {
      if req'.auth.Some? { RespondAt(w, req', req'.auth.value, Logged(log, write)); }
    }
  }

  lemma DeliverStepKeeps(w: World, now: int, db: Db, req: Request, pc: DeliverPc, log: seq<Write>, ev: Event)
    requires AtDelivering(w, req, pc)
    ensures var (write, pc') := DeliverStep(now, db, pc, ev);
      && Ordered(Delivering(pc), write, pc') && AtPc(w, req, pc', Logged(log, write))
      && (write.Nothing? || Grounded(w, req, write))
  {
  }

  lemma ReportStepKeeps(w: World, now: int, db: Db, req: Request, pc: ReportPc, log: seq<Write>, ev: Event)
    requires AtReporting(req, pc)
    ensures var (write, pc') := ReportStep(now, db, req.input.message.reports, pc, ev);
      && Ordered(Reporting(pc), write, pc') && AtPc(w, req, pc', Logged(log, write))
      && (write.Nothing? || Grounded(w, req, write))
  {
  }

  lemma AdminStepKeeps(w: World, now: int, db: Db, req: Request, pc: AdminPc, log: seq<Write>, ev: Event)
    requires AtAdministering(req, pc)
    ensures var (write, req', pc') := Next(w, now, db, req, Administering(pc), ev);
      && req' == req
      && Ordered(Administering(pc), write, pc') && AtPc(w, req, pc', Logged(log, write))
      && (write.Nothing? || Grounded(w, req, write))
  {
  }

  lemma FaultKeeps(w: World, req: Request, pc: Pc, log: seq<Write>)
    requires Coherent(req) && AtPc(w, req, pc, log)
    ensures AtPc(w, req, OnStoreFault(req, pc), log) && Ordered(pc, Nothing, OnStoreFault(req, pc))
  {
    if pc.Matching? {
      DispatchAt(w, req, log);
    }
  }

  /** The steps of every phase, in one statement. */
  lemma NextKeeps(w: World, now: int, db: Db, req: Request, pc: Pc, log: seq<Write>, ev: Event)
    requires Coherent(req) && AtPc(w, req, pc, log)
    ensures var (write, req', pc') := Next(w, now, db, req, pc, ev);
      && Achieves(req, req', log) && Coherent(req')
      && Ordered(pc, write, pc') && AtPc(w, req', pc', Logged(log, write))
      && (write.Nothing? || Grounded(w, req', write))
  {
    match pc
    case Issuing(at) => IssueStepKeeps(w, db, req, at, log, ev);
    case Matching(at) => MatchStepKeeps(w, now, db, req, at, log, ev);
    case Attesting(at) => AttestStepKeeps(w, now, db, req, at, log, ev);
    case Delivering(at) => DeliverStepKeeps(w, now, db, req, at, log, ev);
    case Reporting(at) => ReportStepKeeps(w, now, db, req, at, log, ev);
    case Administering(at) => AdminStepKeeps(w, now, db, req, at, log, ev);
    case Done(_) =>
  }

  lemma LogGrows(log: seq<Write>, write: Write)
    ensures Bindings(log + [write]) == Bindings(log) + (if Binding(write) then 1 else 0)
    ensures AgentsAdded(log + [write]) == AgentsAdded(log) + (if write.PutAgent? then 1 else 0)
  {
    assert (log + [write])[..|log|] == log;
  }

  lemma GroundsKept(w: World, req: Request, req': Request, log: seq<Write>, write: Write)
    requires Achieves(req, req', log) && log != []
    requires Grounded(w, req, write)
    ensures Grounded(w, req', write)
  {
  }

  lemma AllGroundedKept(w: World, req: Request, req': Request, log: seq<Write>, write: Write)
    requires Achieves(req, req', log) && AllGrounded(w, req, log)
    requires write.Nothing? || Grounded(w, req', write)
    ensures AllGrounded(w, req', Logged(log, write))
  {
    hide Grounded;
    forall i | 0 <= i < |log| ensures Grounded(w, req', log[i]) {
      GroundsKept(w, req, req', log, log[i]);
    }
  }

  lemma LaunchFaithful(w: World, input: Input)
    ensures Faithful(w, Launch(input))
  {
    var req := Launch(input).req;
    if input.Signed? {
      DispatchAt(w, req, []);
    }
  }

  lemma AdvanceFaithful(w: World, now: int, db: Db, th: Thread, ev: Event)
    requires Faithful(w, th)
    ensures Faithful(w, Advance(w, now, db, th, ev).1)
  {
    hide AtPc, Grounded, Next, OnStoreFault;
    if ev.fault {
      FaultKeeps(w, th.req, th.pc, th.log);
    } else {
      var (write, req', pc') := Next(w, now, db, th.req, th.pc, ev);
      NextKeeps(w, now, db, th.req, th.pc, th.log, ev);
      LogGrows(th.log, write);
      AllGroundedKept(w, th.req, req', th.log, write);
    }
  }

  /** In every run, every thread's history is grounded. */
  ghost predicate AllFaithful(w: World, s: Sys)
  {
    forall i :: 0 <= i < |s.threads| ==> Faithful(w, s.threads[i])
  }

  lemma StepFaithful(w: World, s: Sys, action: Action)
    requires AllFaithful(w, s)
    ensures AllFaithful(w, Step(w, s, action))
  {
    hide Faithful, Advance, Launch;
    match action
    case Arrive(input) => LaunchFaithful(w, input);
    case Tick(_) =>
    case Run(i, ev) =>
      if i < |s.threads| {
        AdvanceFaithful(w, s.now, s.db, s.threads[i], ev);
      }
  }

  lemma {:induction false} RunFaithful(w: World, s: Sys, actions: seq<Action>)
    requires AllFaithful(w, s)
    ensures AllFaithful(w, Execute(w, s, actions))
  {
    if actions != [] {
      RunFaithful(w, s, actions[..|actions| - 1]);
      StepFaithful(w, Execute(w, s, actions[..|actions| - 1]), actions[|actions| - 1]);
    }
  }
}
