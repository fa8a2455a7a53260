/**
 What revoking or letting a key expire achieves for holdings: from then on nothing is recorded
 as held by its agent, unless a Success it sent before is still on its way to a report; and
 which those are can be told beforehand.
 */
module LateReports {
  import opened Wrappers
  import opened Tables
  import opened Protocol
  import opened Machine
  import opened RequestFacts
  import opened Handles
  import opened Delivery
  import opened Holdings
  import opened Beliefs
  import opened Revocation
  import opened Footing

  // ---- which requests may still report ----

  /** Some message was sent under the token. */
  ghost predicate HasMessage(db: Db, token: Bytes)
  {
    (exists q: nat :: QueryUsesToken(db, q, token)) || UpdateRecorded(db, token)
  }

  ghost predicate Standing(db: Db, now: int, kid: Bytes)
  {
    exists a :: 0 <= a < |db.agents| && db.agents[a].kid == kid && Live(db.agents[a], now)
  }

  /** The thread has issued the token and can still record a message under it. */
  ghost predicate MayBind(db: Db, now: int, pc: Pc, token: Bytes)
  {
    && Owns(pc) == Some(TokenHandle(token))
    && match pc
       case Delivering(PickLatest(kid, _, _, _)) => Standing(db, now, kid) && db.signingKeys != []
       case Delivering(CheckAgent(kid, _, _)) => Standing(db, now, kid)
       case _ => true
  }

  predicate AboutToBindQuery(pc: Pc, token: Bytes)
  {
    pc.Issuing? && pc.issue.AddQuery? && pc.issue.handle == TokenHandle(token)
  }

  predicate AboutToBindUpdate(pc: Pc, token: Bytes)
  {
    pc.Delivering? && pc.deliver.AddUpdate? && pc.deliver.token == token
  }

  /** Whoever presents the token now may find a message: one is or may yet be sent under it
      while it is unconsumed, be the token still to be issued. */
  ghost predicate TokenOpen(s: Sys, token: Bytes)
  {
    || (|token| == 32 && !Issued(s.db.tokens, token))
    || (Unconsumed(s.db.tokens, token)
        && (HasMessage(s.db, token)
            || exists j :: 0 <= j < |s.threads| && MayBind(s.db, s.now, s.threads[j].pc, token)))
  }

  /** The lookup under way will find a message, or may once a binding under way is made. */
  ghost predicate WillMatch(s: Sys, req: Request, pc: MatchPc)
  {
    match pc
    case Authenticate => false
    case ConsumeToken =>
      req.input.Signed? && req.input.message.token.Some? && TokenOpen(s, req.input.message.token.value)
    case FindQuery => req.token.Some? && QueryAhead(s, req.token.value)
    case FindUpdate => req.token.Some? && UpdateAhead(s, req.token.value)
  }

  ghost predicate QueryAhead(s: Sys, token: Bytes)
  {
    || HasMessage(s.db, token)
    || exists j ::
         && 0 <= j < |s.threads|
         && (AboutToBindQuery(s.threads[j].pc, token) || AboutToBindUpdate(s.threads[j].pc, token))
  }

  ghost predicate UpdateAhead(s: Sys, token: Bytes)
  {
    UpdateRecorded(s.db, token) || exists j :: 0 <= j < |s.threads| && AboutToBindUpdate(s.threads[j].pc, token)
  }

  predicate HasCounted(reports: seq<ReportItem>)
  {
    NextCounted(reports, 0) < |reports|
  }

  /** The thread handles a Success authenticated as kid and may still record a holding: it has
      read the rows of a report; or it is to look up a report, whose digest any signing key
      lets be registered if it is not known yet; or it is to find the message it answers, will
      find one, and has a report to act on. */
  ghost predicate MayStillReport(s: Sys, th: Thread, kid: Bytes)
  {
    && th.req.input.Signed? && th.req.input.message.kind.KindSuccess? && th.req.auth == Some(kid)
    && match th.pc
       case Reporting(at) => at.Reflect? || (at.FindReport? && s.db.signingKeys != [])
       case Matching(at) =>
         s.db.signingKeys != [] && HasCounted(th.req.input.message.reports) && WillMatch(s, th.req, at)
       case _ => false
  }

  ghost predicate Closed(s: Sys, kid: Bytes)
  {
    forall i :: 0 <= i < |s.threads| ==> !MayStillReport(s, s.threads[i], kid)
  }

  // ---- nothing opens again ----

  /** A key that stands later stood before. */
  lemma StoodBefore(db: Db, now: int, db': Db, now': int, kid: Bytes)
    requires Extends(db, db') && now <= now' && UniqueKids(db'.agents) && FootedTables(db')
    requires Settled(db.agents, kid) && Standing(db', now', kid)
    ensures Standing(db, now, kid)
  {
    var a :| 0 <= a < |db'.agents| && db'.agents[a].kid == kid && Live(db'.agents[a], now');
    assert KnownAgent(db.agents, kid);
    var b :| 0 <= b < |db.agents| && db.agents[b].kid == kid;
    assert db'.agents[b].kid == kid;
    assert a == b;
    assert db.agents[a].kid == kid && Live(db.agents[a], now);
  }

  lemma MayBindBefore(db: Db, now: int, db': Db, now': int, req: Request, pc: Pc, token: Bytes)
    requires Extends(db, db') && now <= now' && UniqueKids(db'.agents) && FootedTables(db')
    requires Footed(db, req, pc) && MayBind(db', now', pc, token)
    ensures MayBind(db, now, pc, token)
  {
    hide Standing, Settled, FootedTables;
    if pc.Delivering? && Standing(db', now', pc.deliver.kid) {
      StoodBefore(db, now, db', now', pc.deliver.kid);
    }
  }

  /** A message newly recorded under the token was recorded by whoever owned it. */
  lemma MessageBefore(db: Db, req: Request, pc: Pc, write: Write, req': Request, pc': Pc, token: Bytes)
    requires TablesSound(db) && Custody(db, req, pc) && Proper(db, req, pc, write, req', pc')
    ensures HasMessage(Apply(db, write), token) ==>
      HasMessage(db, token) || AboutToBindQuery(pc, token) || AboutToBindUpdate(pc, token)
    ensures UpdateRecorded(Apply(db, write), token) ==> UpdateRecorded(db, token) || AboutToBindUpdate(pc, token)
  {
    BindsOnlyOwn(db, req, pc, write, req', pc');
    var db' := Apply(db, write);
    hide Custody, UniqueBytes, WellBound, TablesSound;
    if q: nat :| QueryUsesToken(db', q, token) {
      QueryBefore(db, pc, write, q, token);
    }
    if u: nat :| UpdateUsesToken(db', u, token) {
      UpdateBefore(db, pc, write, u, token);
    }
  }

  lemma QueryBefore(db: Db, pc: Pc, write: Write, q: nat, token: Bytes)
    requires QueryUsesToken(Apply(db, write), q, token)
    requires write.PutQuery? ==>
      && pc.Issuing? && pc.issue.AddQuery? && write.query == QueryRowFor(pc.issue.handle, pc.issue.id)
      && (write.query.token.Some? ==> HasRow(db.tokens, write.query.token.value, pc.issue.handle.bytes))
    requires forall p :: 0 <= p < |db.queries| && db.queries[p].token.Some? ==> db.queries[p].token.value < |db.tokens|
    ensures (exists p: nat :: QueryUsesToken(db, p, token)) || AboutToBindQuery(pc, token)
  {
    ApplyExtends(db, write);
    if q < |db.queries| {
      assert QueryUsesToken(db, q, token);
    }
  }

  lemma UpdateBefore(db: Db, pc: Pc, write: Write, u: nat, token: Bytes)
    requires UpdateUsesToken(Apply(db, write), u, token)
    requires write.PutUpdate? ==>
      pc.Delivering? && pc.deliver.AddUpdate? && HasRow(db.tokens, write.update.token, pc.deliver.token)
    requires forall p :: 0 <= p < |db.updates| ==> db.updates[p].token < |db.tokens|
    ensures UpdateRecorded(db, token) || AboutToBindUpdate(pc, token)
  {
    ApplyExtends(db, write);
    if u < |db.updates| {
      assert UpdateUsesToken(db, u, token);
    }
  }

  lemma ThreadFacts(w: World, s: Sys, j: nat)
    requires Grounding(w, s) && j < |s.threads|
    ensures TablesSound(s.db) && Custody(s.db, s.threads[j].req, s.threads[j].pc) && Recorded(s.db, s.threads[j].pc)
    ensures Faithful(w, s.threads[j]) && Footed(s.db, s.threads[j].req, s.threads[j].pc) && FootedTables(s.db)
    ensures Remembers(s.db, s.threads[j].pc) && UniqueKids(s.db.agents)
  {
    hide Footed, Faithful, Custody, Recorded, Remembers, UniqueKids, UniqueBytes, WellBound, FootedTables;
  }

  /** Whether a thread that stands still may bind the token does not come back. */
  lemma StandingBindBefore(w: World, s: Sys, i: nat, ev: Event, j: nat, token: Bytes)
    requires Grounding(w, s) && Grounding(w, Step(w, s, Run(i, ev))) && i < |s.threads| && j < |s.threads|
    requires var s' := Step(w, s, Run(i, ev)); MayBind(s'.db, s'.now, s.threads[j].pc, token)
    ensures MayBind(s.db, s.now, s.threads[j].pc, token)
  {
    var s' := Step(w, s, Run(i, ev));
    StepExtends(w, s, Run(i, ev));
    ThreadFacts(w, s, j);
    ThreadFacts(w, s', j);
    hide Grounding, Step, MayBind, Footed, FootedTables, UniqueKids, Faithful, Custody, Recorded, Remembers, Extends;
    MayBindBefore(s.db, s.now, s'.db, s'.now, s.threads[j].req, s.threads[j].pc, token);
  }

  lemma DeliverBindBefore(now: int, db: Db, pc: DeliverPc, ev: Event, token: Bytes)
    requires FootedTables(db) && InRange(pc.picked, |db.manifests|)
    requires Owns(Delivering(pc)) == Some(TokenHandle(token))
    requires pc.PickLatest? || pc.CheckAgent? ==>
      var pc' := DeliverStep(now, db, pc, ev).1; MayBind(db, now, pc', token)
    ensures MayBind(db, now, Delivering(pc), token)
  {
    hide Envelopes;
    if pc.PickLatest? {
      assert pc.picked != [] ==> pc.picked[0] < |db.manifests|;
      if pc.components != [] && PicksLatest(db.manifests, pc.components[0], ev.pick) && ev.pick.Some? {
        assert db.manifests != [];
      }
    }
  }

  /** Whether the moving thread may bind the token does not come back either. */
  lemma MovingBindBefore(w: World, s: Sys, i: nat, ev: Event, token: Bytes)
    requires Grounding(w, s) && Grounding(w, Step(w, s, Run(i, ev))) && i < |s.threads| && Issued(s.db.tokens, token)
    requires var s' := Step(w, s, Run(i, ev)); MayBind(s'.db, s'.now, s'.threads[i].pc, token)
    ensures MayBind(s.db, s.now, s.threads[i].pc, token)
  {
    var th := s.threads[i];
    var (write, th') := Advance(w, s.now, s.db, th, ev);
    ThreadFacts(w, s, i);
    AdvanceProper(w, s.now, s.db, th, ev);
    assert Owns(th.pc) == Some(TokenHandle(token)) by { OwnedBefore(s.db, th, write, th', token); }
    if th.pc.Delivering? && (th.pc.deliver.PickLatest? || th.pc.deliver.CheckAgent?) {
      DeliverWritesNothing(w, s.now, s.db, th, ev);
      ApplyNothing(s.db);
      hide Grounding, Faithful, Custody, Footed, Remembers, UniqueKids, Proper, FootedTables, Standing;
      DeliverBindBefore(s.now, s.db, th.pc.deliver, ev, token);
    } else {
      hide Grounding, Advance, Faithful, Custody, Footed, Remembers, UniqueKids, Proper, Recorded, Standing;
    }
  }

  lemma OwnedBefore(db: Db, th: Thread, write: Write, th': Thread, token: Bytes)
    requires Issued(db.tokens, token) && Owns(th'.pc) == Some(TokenHandle(token))
    requires Proper(db, th.req, th.pc, write, th'.req, th'.pc) || (write == Nothing && th' == th)
    ensures Owns(th.pc) == Some(TokenHandle(token))
  {
    hide Issued;
  }

  lemma DeliverWritesNothing(w: World, now: int, db: Db, th: Thread, ev: Event)
    requires th.pc.Delivering? && (th.pc.deliver.PickLatest? || th.pc.deliver.CheckAgent?)
    ensures var (write, th') := Advance(w, now, db, th, ev);
      && write.Nothing?
      && (Owns(th'.pc).Some? ==> th'.pc == DeliverStep(now, db, th.pc.deliver, ev).1)
  {
  }

  /** A token not issued yet is open if it is unconsumed, or can be issued, after a step. */
  lemma UnissuedIsOpen(w: World, s: Sys, i: nat, ev: Event, token: Bytes)
    requires Grounding(w, s) && i < |s.threads| && !Issued(s.db.tokens, token)
    requires var s' := Step(w, s, Run(i, ev));
      Unconsumed(s'.db.tokens, token) || (|token| == 32 && !Issued(s'.db.tokens, token))
    ensures TokenOpen(s, token)
  {
    hide Grounding, Advance, Apply, Faithful, Custody, Footed, FootedTables, Remembers, UniqueKids, Recorded, Issued,
         Unconsumed, TablesSound, HasMessage, MayBind;
    ThreadFacts(w, s, i);
    TokenWrites(w, s.now, s.db, s.threads[i], ev);
    IssuedBefore(s.db, Advance(w, s.now, s.db, s.threads[i], ev).0, token);
  }

  /** A token issued and unconsumed after a step was so before, if it was issued at all. */
  lemma IssuedWasUnconsumed(w: World, s: Sys, i: nat, ev: Event, token: Bytes)
    requires Grounding(w, s) && i < |s.threads| && Issued(s.db.tokens, token)
    ensures Issued(Step(w, s, Run(i, ev)).db.tokens, token)
    ensures Unconsumed(Step(w, s, Run(i, ev)).db.tokens, token) ==> Unconsumed(s.db.tokens, token)
  {
    hide Grounding, Advance, Apply, Faithful, Custody, Footed, FootedTables, Remembers, UniqueKids, Recorded, Issued,
         Unconsumed, TablesSound, Proper;
    var th := s.threads[i];
    var (write, th') := Advance(w, s.now, s.db, th, ev);
    ThreadFacts(w, s, i);
    AdvanceProper(w, s.now, s.db, th, ev);
    IssuedStays(s.db, write, token);
    if Unconsumed(Apply(s.db, write).tokens, token) { UnconsumedBefore(s.db, th, write, th', token); }
  }

  /** A token that is closed to whoever presents it stays closed. */
  lemma TokenStaysClosed(w: World, s: Sys, i: nat, ev: Event, token: Bytes)
    requires Grounding(w, s) && Grounding(w, Step(w, s, Run(i, ev))) && i < |s.threads|
    requires TokenOpen(Step(w, s, Run(i, ev)), token)
    ensures TokenOpen(s, token)
  {
    hide Grounding, Step, HasMessage, MayBind, Issued, Unconsumed;
    var s' := Step(w, s, Run(i, ev));
    OthersStand(w, s, i, ev);
    if !Issued(s.db.tokens, token) {
      UnissuedIsOpen(w, s, i, ev, token);
    } else {
      IssuedWasUnconsumed(w, s, i, ev, token);
      if HasMessage(s'.db, token) {
        BoundByMover(w, s, i, ev, token);
      } else {
        var j :| 0 <= j < |s'.threads| && MayBind(s'.db, s'.now, s'.threads[j].pc, token);
        if j == i {
          MovingBindBefore(w, s, i, ev, token);
        } else {
          StandingBindBefore(w, s, i, ev, j, token);
        }
        assert MayBind(s.db, s.now, s.threads[j].pc, token);
      }
    }
  }

  lemma IssuedStays(db: Db, write: Write, token: Bytes)
    ensures Issued(db.tokens, token) ==> Issued(Apply(db, write).tokens, token)
  {
    if Issued(db.tokens, token) { IssuedKept(db, write, token); }
  }

  /** Only 32-byte tokens are ever issued. */
  lemma TokenWrites(w: World, now: int, db: Db, th: Thread, ev: Event)
    requires Faithful(w, th)
    ensures var write := Advance(w, now, db, th, ev).0; write.PutToken? ==> |write.bytes| == 32
  {
    hide AtPc, Grounded, Next, OnStoreFault, AllGrounded, Counts;
    if !ev.fault {
      NextKeeps(w, now, db, th.req, th.pc, th.log, ev);
      var (write, req', pc') := Next(w, now, db, th.req, th.pc, ev);
      if write.PutToken? { TokenIsGrounded(w, req', write); }
    }
  }

  lemma TokenIsGrounded(w: World, req: Request, write: Write)
    requires write.PutToken? && Grounded(w, req, write)
    ensures |write.bytes| == 32
  {
  }

  lemma IssuedBefore(db: Db, write: Write, token: Bytes)
    requires !Issued(db.tokens, token) && (write.PutToken? ==> |write.bytes| == 32)
    ensures Unconsumed(Apply(db, write).tokens, token) ==> |token| == 32
  {
    var rows := Apply(db, write).tokens;
    if i :| 0 <= i < |rows| && rows[i].bytes == token {
      assert i == |db.tokens|;
    }
  }

  lemma UnconsumedBefore(db: Db, th: Thread, write: Write, th': Thread, token: Bytes)
    requires Proper(db, th.req, th.pc, write, th'.req, th'.pc) || (write == Nothing && th' == th)
    requires Issued(db.tokens, token) && Unconsumed(Apply(db, write).tokens, token)
    ensures Unconsumed(db.tokens, token)
  {
    if write == Nothing {
      ApplyNothing(db);
    } else {
      ConsumedForGood(db, th.req, th.pc, write, th'.req, th'.pc, token);
    }
  }

  /** If the step recorded a message under the token, its thread could bind it. */
  lemma BoundByMover(w: World, s: Sys, i: nat, ev: Event, token: Bytes)
    requires Grounding(w, s) && i < |s.threads| && HasMessage(Step(w, s, Run(i, ev)).db, token)
    ensures
      || HasMessage(s.db, token)
      || AboutToBindQuery(s.threads[i].pc, token) || AboutToBindUpdate(s.threads[i].pc, token)
    ensures HasMessage(s.db, token) || MayBind(s.db, s.now, s.threads[i].pc, token)
  {
    var th := s.threads[i];
    var (write, th') := Advance(w, s.now, s.db, th, ev);
    ThreadFacts(w, s, i);
    AdvanceProper(w, s.now, s.db, th, ev);
    hide Grounding, Advance, Faithful, Custody, Footed, FootedTables, Remembers, UniqueKids, Recorded, HasMessage,
         TablesSound;
    if write == Nothing {
      ApplyNothing(s.db);
    } else {
      MessageBefore(s.db, th.req, th.pc, write, th'.req, th'.pc, token);
    }
    hide Proper, Apply;
  }

  /** Nobody comes to be about to bind a token that is spent. */
  lemma SpentIsNotBound(now: int, db: Db, th: Thread, ev: Event, w: World, token: Bytes)
    requires UniqueBytes(db.tokens) && Spent(db.tokens, token)
    ensures var th' := Advance(w, now, db, th, ev).1;
      && (AboutToBindQuery(th'.pc, token) ==> AboutToBindQuery(th.pc, token))
      && (AboutToBindUpdate(th'.pc, token) ==> AboutToBindUpdate(th.pc, token))
  {
    if th.pc.Issuing? || th.pc.Delivering? {
      hide Envelopes, PicksLatest, PicksAgent;
    } else {
      EarlyBindsNothing(now, db, th, ev, w);
      hide Advance, Spent, UniqueBytes;
    }
  }

  /** The next statement records a sent message. */
  predicate AboutToBind(pc: Pc)
  {
    (pc.Issuing? && pc.issue.AddQuery?) || (pc.Delivering? && pc.deliver.AddUpdate?)
  }

  lemma DispatchBindsNothing(w: World, req: Request)
    requires req.input.Signed?
    ensures !AboutToBind(Dispatch(req)) && !AboutToBind(AfterAuthentication(req))
    ensures req.input.verdict.Affirming? && req.recovered.Some? ==> !AboutToBind(AfterChallenge(w, req))
  {
    hide ComponentSet, NextCounted;
  }

  lemma RespondBindsNothing(req: Request, kid: Bytes)
    requires req.input.Signed? && req.recovered.Some?
    ensures !AboutToBind(Respond(req, kid))
  {
    hide ComponentSet;
  }

  lemma MatchBindsNothing(w: World, now: int, db: Db, req: Request, pc: MatchPc, ev: Event)
    requires req.input.Signed?
    ensures !AboutToBind(MatchStep(w, now, db, req, pc, ev).2)
  {
    var req' := MatchStep(w, now, db, req, pc, ev).1;
    DispatchBindsNothing(w, req);
    DispatchBindsNothing(w, req');
    hide Dispatch, AfterAuthentication, Envelopes, PicksUpdate, PicksQueryByToken, PicksAgent;
  }

  lemma AttestBindsNothing(w: World, now: int, db: Db, req: Request, pc: AttestPc, ev: Event)
    requires req.input.Signed? && req.input.verdict.Affirming?
    ensures !AboutToBind(AttestStep(w, now, db, req, pc, ev).2)
  {
    var req' := AttestStep(w, now, db, req, pc, ev).1;
    if req'.recovered.Some? { DispatchBindsNothing(w, req'); }
    if req.recovered.Some? && (pc.FindKey? || pc.AddAgent?) { RespondBindsNothing(req, pc.kid); }
    hide AfterChallenge, Respond, PicksQueryByChallenge, PicksAgent, PicksDevice, KnownAgent;
  }

  lemma EarlyBindsNothing(now: int, db: Db, th: Thread, ev: Event, w: World)
    requires !th.pc.Issuing? && !th.pc.Delivering?
    ensures !AboutToBind(Advance(w, now, db, th, ev).1.pc)
  {
    if ev.fault {
      hide ComponentSet, NextCounted, Dispatch, AfterAuthentication;
      if th.pc.Matching? && th.req.input.Signed? { DispatchBindsNothing(w, th.req); }
    } else if th.pc.Matching? && th.req.input.Signed? {
      MatchBindsNothing(w, now, db, th.req, th.pc.lookup, ev);
      hide MatchStep;
    } else if th.pc.Attesting? && th.req.input.Signed? && th.req.input.verdict.Affirming? {
      AttestBindsNothing(w, now, db, th.req, th.pc.attest, ev);
      hide AttestStep;
    } else {
      hide NextCounted, PicksAgent, DigestKey, HoldCollides, PicksManifestByDigest, MatchStep, AttestStep;
    }
  }

  /** The moving thread does not come to bind the spent token either. */
  lemma MoverBindsNothing(w: World, s: Sys, i: nat, ev: Event, token: Bytes)
    requires Grounding(w, s) && i < |s.threads| && Spent(s.db.tokens, token)
    ensures var pc' := Step(w, s, Run(i, ev)).threads[i].pc;
      && (AboutToBindQuery(pc', token) ==> AboutToBindQuery(s.threads[i].pc, token))
      && (AboutToBindUpdate(pc', token) ==> AboutToBindUpdate(s.threads[i].pc, token))
  {
    hide Grounding, Advance, Apply, Faithful, Custody, Footed, FootedTables, Remembers, UniqueKids, Recorded,
         AboutToBindQuery, AboutToBindUpdate, Spent;
    ThreadFacts(w, s, i);
    SpentIsNotBound(s.now, s.db, s.threads[i], ev, w, token);
  }

  lemma AheadStaysClosed(w: World, s: Sys, i: nat, ev: Event, token: Bytes)
    requires Grounding(w, s) && i < |s.threads| && Spent(s.db.tokens, token)
    ensures QueryAhead(Step(w, s, Run(i, ev)), token) ==> QueryAhead(s, token)
    ensures UpdateAhead(Step(w, s, Run(i, ev)), token) ==> UpdateAhead(s, token)
  {
    hide Grounding, Step, HasMessage, UpdateRecorded, AboutToBindQuery, AboutToBindUpdate, Spent, MayBind;
    var s' := Step(w, s, Run(i, ev));
    OthersStand(w, s, i, ev);
    MoverBindsNothing(w, s, i, ev, token);
    if HasMessage(s'.db, token) { BoundByMover(w, s, i, ev, token); }
    if UpdateRecorded(s'.db, token) { UpdatedByMover(w, s, i, ev, token); }
  }

  lemma UpdatedByMover(w: World, s: Sys, i: nat, ev: Event, token: Bytes)
    requires Grounding(w, s) && i < |s.threads| && UpdateRecorded(Step(w, s, Run(i, ev)).db, token)
    ensures UpdateRecorded(s.db, token) || AboutToBindUpdate(s.threads[i].pc, token)
  {
    var th := s.threads[i];
    var (write, th') := Advance(w, s.now, s.db, th, ev);
    ThreadFacts(w, s, i);
    AdvanceProper(w, s.now, s.db, th, ev);
    hide Grounding, Advance, Faithful, Custody, Footed, FootedTables, Remembers, UniqueKids, Recorded, UpdateRecorded,
         TablesSound;
    if write == Nothing {
      ApplyNothing(s.db);
    } else {
      MessageBefore(s.db, th.req, th.pc, write, th'.req, th'.pc, token);
    }
    hide Proper, Apply;
  }

  /** A lookup under way that will not match will not match after a step of another. */
  lemma MatchStaysClosed(w: World, s: Sys, i: nat, ev: Event, req: Request, pc: MatchPc)
    requires Grounding(w, s) && Grounding(w, Step(w, s, Run(i, ev))) && i < |s.threads|
    requires req.token.Some? ==> Spent(s.db.tokens, req.token.value)
    requires WillMatch(Step(w, s, Run(i, ev)), req, pc)
    ensures WillMatch(s, req, pc)
  {
    hide Grounding, Step, TokenOpen, QueryAhead, UpdateAhead, Spent;
    match pc
    case Authenticate =>
    case ConsumeToken => TokenStaysClosed(w, s, i, ev, req.input.message.token.value);
    case FindQuery => AheadStaysClosed(w, s, i, ev, req.token.value);
    case FindUpdate => AheadStaysClosed(w, s, i, ev, req.token.value);
  }

  lemma OthersStayClosed(w: World, s: Sys, i: nat, ev: Event, j: nat, kid: Bytes)
    requires Grounding(w, s) && Grounding(w, Step(w, s, Run(i, ev))) && i < |s.threads| && j < |s.threads| && j != i
    requires MayStillReport(Step(w, s, Run(i, ev)), s.threads[j], kid)
    ensures MayStillReport(s, s.threads[j], kid)
  {
    StepExtends(w, s, Run(i, ev));
    ThreadFacts(w, s, j);
    var th := s.threads[j];
    hide Grounding, Step, WillMatch, Faithful, Footed, FootedTables, Remembers, UniqueKids, Recorded, Spent,
         TablesSound, HasCounted;
    if th.pc.Matching? {
      MatchStaysClosed(w, s, i, ev, th.req, th.pc.lookup);
    }
  }

  // ---- the moving thread ----

  /** From where a thread comes to a position from which it may still report. */
  ghost predicate CameFrom(db: Db, req: Request, pc: Pc, req': Request, pc': Pc)
  {
    && (pc'.Reporting? && pc'.report.Reflect? ==>
          pc.Reporting? && (pc.report.Reflect? || (pc.report.FindReport? && db.manifests != [])))
    && (pc'.Reporting? && pc'.report.FindReport? && req'.input.Signed? ==>
          || (pc.Reporting? && (pc.report.FindReport? || pc.report.Reflect?))
          || (pc.Matching? && HasCounted(req'.input.message.reports) && req.token.Some?
              && ((pc.lookup.FindQuery? && HasMessage(db, req.token.value))
                  || (pc.lookup.FindUpdate? && UpdateRecorded(db, req.token.value)))))
    && (pc'.Matching? ==> pc.Matching? && req'.input == req.input && match pc'.lookup
          case Authenticate => true
          case ConsumeToken => (pc.lookup.ConsumeToken? && req' == req) || pc.lookup.Authenticate?
          case FindQuery =>
            || (pc.lookup.FindQuery? && req' == req)
            || (pc.lookup.ConsumeToken? && req'.token.Some? && req.input.Signed?
                && req.input.message.token == req'.token && Unconsumed(db.tokens, req'.token.value))
          case FindUpdate => (pc.lookup.FindUpdate? || pc.lookup.FindQuery?) && req' == req)
  }

  lemma DispatchComesFrom(req: Request)
    requires req.input.Signed?
    ensures Dispatch(req).Reporting? && Dispatch(req).report.FindReport? ==>
      HasCounted(req.input.message.reports) && req.recovered.Some?
    ensures Dispatch(req).Reporting? ==> !Dispatch(req).report.Reflect?
    ensures !Dispatch(req).Matching?
    ensures AfterAuthentication(req) == Dispatch(req) || AfterAuthentication(req) == Matching(ConsumeToken)
  {
    hide ComponentSet;
  }

  lemma MatchComesFrom(w: World, now: int, db: Db, req: Request, pc: MatchPc, log: seq<Write>, ev: Event)
    requires AtMatching(req, pc, log)
    ensures var (write, req', pc') := MatchStep(w, now, db, req, pc, ev); CameFrom(db, req, Matching(pc), req', pc')
  {
    var (write, req', pc') := MatchStep(w, now, db, req, pc, ev);
    DispatchComesFrom(req);
    DispatchComesFrom(req');
    DispatchComesFrom(req.(auth := req.input.kid));
    if pc.FindQuery? && req' != req {
      assert QueryUsesToken(db, ev.pick.value, req.token.value);
    }
    hide Dispatch, AfterAuthentication, Envelopes, LinkedManifests, PicksAgent, HasCounted, Unconsumed;
  }

  lemma RestComesFrom(w: World, now: int, db: Db, req: Request, pc: Pc, ev: Event)
    requires !pc.Matching?
    ensures var (write, req', pc') := Next(w, now, db, req, pc, ev);
      && !pc'.Matching?
      && (pc'.Reporting? && (pc'.report.FindReport? || pc'.report.Reflect?) ==>
            pc.Reporting? && (pc.report.FindReport? || pc.report.Reflect?)
            && (pc'.report.Reflect? && pc.report.FindReport? ==> db.manifests != []))
  {
    hide ComponentSet, NextCounted, LinkedManifests, PicksLatest, PicksAgent, DigestKey, HoldCollides, Envelopes;
  }

  lemma AdvanceComesFrom(w: World, now: int, db: Db, th: Thread, ev: Event)
    requires Faithful(w, th)
    ensures var th' := Advance(w, now, db, th, ev).1; CameFrom(db, th.req, th.pc, th'.req, th'.pc)
  {
    if ev.fault {
      hide ComponentSet, AllGrounded, Counts, Coherent, HasMessage;
      if th.pc.Matching? { DispatchComesFrom(th.req); hide Dispatch, AfterAuthentication; }
    } else if th.pc.Matching? {
      MatchComesFrom(w, now, db, th.req, th.pc.lookup, th.log, ev);
      hide CameFrom, MatchStep, AllGrounded, Counts, Coherent;
    } else {
      RestComesFrom(w, now, db, th.req, th.pc, ev);
      hide Next, AllGrounded, Counts, Coherent;
    }
  }

  /** The moving thread's lookup matches after the step only if it would have before. */
  lemma OwnMatchStaysClosed(w: World, s: Sys, i: nat, ev: Event)
    requires Grounding(w, s) && Grounding(w, Step(w, s, Run(i, ev))) && i < |s.threads|
    requires var s' := Step(w, s, Run(i, ev));
      && s.threads[i].pc.Matching? && s'.threads[i].pc.Matching? && !s.threads[i].pc.lookup.Authenticate?
      && CameFrom(s.db, s.threads[i].req, s.threads[i].pc, s'.threads[i].req, s'.threads[i].pc)
      && WillMatch(s', s'.threads[i].req, s'.threads[i].pc.lookup)
    ensures WillMatch(s, s.threads[i].req, s.threads[i].pc.lookup)
  {
    hide Grounding, Step, Footed, FootedTables, Remembers, UniqueKids, Recorded, TablesSound, TokenOpen, QueryAhead,
         UpdateAhead, Spent, Unconsumed, HasMessage, HasCounted, UpdateRecorded, Faithful;
    OthersStand(w, s, i, ev);
    var s' := Step(w, s, Run(i, ev));
    var th, th' := s.threads[i], s'.threads[i];
    ThreadFacts(w, s, i);
    match th'.pc.lookup
    case ConsumeToken => MatchStaysClosed(w, s, i, ev, th.req, th.pc.lookup);
    case FindQuery =>
      if th.pc.lookup.FindQuery? {
        MatchStaysClosed(w, s, i, ev, th.req, th.pc.lookup);
      } else {
        ConsumingWasOpen(w, s, i, ev, th'.req.token.value);
      }
    case FindUpdate =>
      AheadStaysClosed(w, s, i, ev, th.req.token.value);
      UpdateAheadIsAhead(s, th.req.token.value);
    case Authenticate =>
  }

  lemma UpdateAheadIsAhead(s: Sys, token: Bytes)
    ensures UpdateAhead(s, token) ==> QueryAhead(s, token)
  {
  }

  lemma AboutToBindMayBind(db: Db, now: int, pc: Pc, token: Bytes)
    ensures AboutToBindQuery(pc, token) || AboutToBindUpdate(pc, token) ==> MayBind(db, now, pc, token)
  {
  }

  lemma OthersStand(w: World, s: Sys, i: nat, ev: Event)
    requires i < |s.threads|
    ensures var s' := Step(w, s, Run(i, ev));
      |s'.threads| == |s.threads| && forall j :: 0 <= j < |s.threads| && j != i ==> s'.threads[j] == s.threads[j]
  {
    hide Advance, Apply;
  }

  /** A token consumed with a message ahead was open. */
  lemma ConsumingWasOpen(w: World, s: Sys, i: nat, ev: Event, token: Bytes)
    requires Grounding(w, s) && Grounding(w, Step(w, s, Run(i, ev))) && i < |s.threads|
    requires s.threads[i].pc == Matching(ConsumeToken) && Step(w, s, Run(i, ev)).threads[i].pc == Matching(FindQuery)
    requires Unconsumed(s.db.tokens, token) && QueryAhead(Step(w, s, Run(i, ev)), token)
    ensures TokenOpen(s, token)
  {
    hide Grounding, Step, MayBind, HasMessage, Unconsumed;
    var s' := Step(w, s, Run(i, ev));
    OthersStand(w, s, i, ev);
    if HasMessage(s'.db, token) {
      BoundByMover(w, s, i, ev, token);
    } else {
      var j :| 0 <= j < |s'.threads|
        && (AboutToBindQuery(s'.threads[j].pc, token) || AboutToBindUpdate(s'.threads[j].pc, token));
      assert s.threads[j] == s'.threads[j];
      AboutToBindMayBind(s.db, s.now, s.threads[j].pc, token);
    }
  }

  /** A thread that may still report after its step, at a report, might have before. */
  lemma ReporterMightBefore(s: Sys, th: Thread, s': Sys, th': Thread, kid: Bytes)
    requires CameFrom(s.db, th.req, th.pc, th'.req, th'.pc) && th'.req.input == th.req.input && th.req.auth == Some(kid)
    requires s'.db.signingKeys == s.db.signingKeys && FootedTables(s.db)
    requires MayStillReport(s', th', kid) && th'.pc.Reporting?
    ensures MayStillReport(s, th, kid)
  {
    hide WillMatch, HasCounted, HasMessage, UpdateRecorded;
    if th.pc.Matching? { FoundMatches(s, th.req, th.pc.lookup); }
  }

  lemma MatcherMightBefore(w: World, s: Sys, i: nat, ev: Event, kid: Bytes)
    requires Grounding(w, s) && Grounding(w, Step(w, s, Run(i, ev))) && i < |s.threads|
    requires var s' := Step(w, s, Run(i, ev));
      && CameFrom(s.db, s.threads[i].req, s.threads[i].pc, s'.threads[i].req, s'.threads[i].pc)
      && s'.threads[i].req.input == s.threads[i].req.input && s.threads[i].req.auth == Some(kid)
      && s'.db.signingKeys == s.db.signingKeys && s.threads[i].pc != Matching(Authenticate)
      && MayStillReport(s', s'.threads[i], kid) && s'.threads[i].pc.Matching?
    ensures MayStillReport(s, s.threads[i], kid)
  {
    hide Grounding, Step, WillMatch, HasCounted;
    OwnMatchStaysClosed(w, s, i, ev);
  }

  lemma MoverStaysClosed(w: World, s: Sys, i: nat, ev: Event, kid: Bytes)
    requires Grounding(w, s) && Grounding(w, Step(w, s, Run(i, ev))) && i < |s.threads| && Dead(s.db, s.now, kid)
    requires MayStillReport(Step(w, s, Run(i, ev)), Step(w, s, Run(i, ev)).threads[i], kid)
    ensures MayStillReport(s, s.threads[i], kid)
  {
    hide Grounding, Advance, Apply, Faithful, Custody, Footed, FootedTables, Remembers, UniqueKids, Recorded,
         TablesSound, Dead, WillMatch, HasCounted, CameFrom;
    var s' := Step(w, s, Run(i, ev));
    var th, th' := s.threads[i], s'.threads[i];
    ThreadFacts(w, s, i);
    SameKeys(w, s, i, ev);
    AdvanceComesFrom(w, s.now, s.db, th, ev);
    AdvanceKeeps(w, s.now, s.db, th, ev);
    if th.pc.Done? || th.req.auth != Some(kid) { StaysAbsent(w, s.now, s.db, th, ev, kid); }
    AuthenticateIsAnonymous(w, th);
    hide Step;
    if th'.pc.Matching? {
      MatcherMightBefore(w, s, i, ev, kid);
    } else {
      ReporterMightBefore(s, th, s', th', kid);
    }
  }

  lemma FoundMatches(s: Sys, req: Request, pc: MatchPc)
    ensures pc.FindQuery? && req.token.Some? && HasMessage(s.db, req.token.value) ==> WillMatch(s, req, pc)
    ensures pc.FindUpdate? && req.token.Some? && UpdateRecorded(s.db, req.token.value) ==> WillMatch(s, req, pc)
  {
  }

  lemma SameKeys(w: World, s: Sys, i: nat, ev: Event)
    ensures Step(w, s, Run(i, ev)).db.signingKeys == s.db.signingKeys
  {
    StepExtends(w, s, Run(i, ev));
  }

  lemma AuthenticateIsAnonymous(w: World, th: Thread)
    requires Faithful(w, th)
    ensures th.pc == Matching(Authenticate) ==> th.req.auth.None?
  {
  }

  lemma AdvanceKeeps(w: World, now: int, db: Db, th: Thread, ev: Event)
    requires Faithful(w, th)
    ensures var th' := Advance(w, now, db, th, ev).1;
      th'.req.input == th.req.input && (th.pc.Done? ==> th'.pc == th.pc)
  {
    hide AtPc, Next, OnStoreFault, AllGrounded, Counts;
    if !ev.fault { NextKeeps(w, now, db, th.req, th.pc, th.log, ev); }
    if th.pc.Done? { DoneStands(w, now, db, th, ev); }
  }

  lemma DoneStands(w: World, now: int, db: Db, th: Thread, ev: Event)
    requires th.pc.Done?
    ensures Advance(w, now, db, th, ev).1.pc == th.pc
  {
  }

  // ---- every continuation ----

  /** No holding of the agent has been recorded since s0. */
  ghost predicate NothingHeldSince(s0: Sys, s: Sys, a: nat)
  {
    forall h :: |s0.db.holdings| <= h < |s.db.holdings| ==> s.db.holdings[h].agent != a
  }

  ghost predicate Quiet(s0: Sys, s: Sys, kid: Bytes, a: nat)
  {
    && Dead(s.db, s.now, kid) && Closed(s, kid)
    && a < |s.db.agents| && s.db.agents[a].kid == kid
    && |s0.db.holdings| <= |s.db.holdings| && NothingHeldSince(s0, s, a)
    && Believed(s.db, a) == Believed(s0.db, a)
  }

  lemma ClosedStaysClosed(w: World, s: Sys, i: nat, ev: Event, kid: Bytes)
    requires Grounding(w, s) && Grounding(w, Step(w, s, Run(i, ev))) && i < |s.threads| && Dead(s.db, s.now, kid)
    requires Closed(s, kid)
    ensures Closed(Step(w, s, Run(i, ev)), kid)
  {
    hide Grounding, Step, MayStillReport, Dead;
    var s' := Step(w, s, Run(i, ev));
    OthersStand(w, s, i, ev);
    forall j | 0 <= j < |s'.threads| ensures !MayStillReport(s', s'.threads[j], kid) {
      if MayStillReport(s', s'.threads[j], kid) {
        if j == i { MoverStaysClosed(w, s, i, ev, kid); } else { OthersStayClosed(w, s, i, ev, j, kid); }
      }
    }
  }

  /** A thread that may not still report records nothing of the agent. */
  lemma ClosedHoldsNothing(w: World, s: Sys, i: nat, ev: Event, kid: Bytes, a: nat)
    requires Grounding(w, s) && i < |s.threads| && a < |s.db.agents| && s.db.agents[a].kid == kid
    requires !MayStillReport(s, s.threads[i], kid)
    ensures Believed(Step(w, s, Run(i, ev)).db, a) == Believed(s.db, a)
    ensures |s.db.holdings| <= |Step(w, s, Run(i, ev)).db.holdings| && NothingHeldSince(s, Step(w, s, Run(i, ev)), a)
  {
    hide Advance, Believed, Grounding, OneActive, Custody, Recorded, TablesSound, Footed, FootedTables, UniqueKids,
         Faithful, Remembers, Apply, MayStillReport;
    var write := Advance(w, s.now, s.db, s.threads[i], ev).0;
    ThreadFacts(w, s, i);
    AdvanceRemembers(w, s.now, s.db, s.threads[i], ev);
    OneActiveNow(w, s);
    if write.Hold? {
      ReflectsOther(w, s, i, kid);
      HoldReplaces(s.db, write, a);
      HoldAppends(s.db, write);
    } else {
      OthersLeaveBeliefs(s.db, write, a);
      OthersHoldNothing(s.db, write);
    }
  }

  lemma OneActiveNow(w: World, s: Sys)
    requires Grounding(w, s)
    ensures OneActive(s.db)
  {
    hide OneActive;
  }

  lemma ReflectsOther(w: World, s: Sys, i: nat, kid: Bytes)
    requires i < |s.threads| && Faithful(w, s.threads[i]) && Remembers(s.db, s.threads[i].pc)
    requires s.threads[i].pc.Reporting? && s.threads[i].pc.report.Reflect? && !MayStillReport(s, s.threads[i], kid)
    ensures var at := s.threads[i].pc.report;
      && at.agent < |s.db.agents| && s.db.agents[at.agent].kid != kid
      && OfComponent(s.db, at.manifest, at.component)
  {
  }

  lemma HoldAppends(db: Db, write: Write)
    requires write.Hold?
    ensures |Apply(db, write).holdings| == |db.holdings| + 1
    ensures Apply(db, write).holdings[|db.holdings|].agent == write.holder
  {
  }

  lemma OthersHoldNothing(db: Db, write: Write)
    requires !write.Hold?
    ensures Apply(db, write).holdings == db.holdings
  {
  }

  lemma AgentStays(db: Db, db': Db, a: nat)
    requires Extends(db, db') && a < |db.agents|
    ensures a < |db'.agents| && db'.agents[a].kid == db.agents[a].kid
  {
  }

  lemma RunStaysQuiet(w: World, s0: Sys, s: Sys, i: nat, ev: Event, kid: Bytes, a: nat)
    requires Grounding(w, s) && Grounding(w, Step(w, s, Run(i, ev))) && i < |s.threads| && Quiet(s0, s, kid, a)
    ensures Quiet(s0, Step(w, s, Run(i, ev)), kid, a)
  {
    hide Grounding, Step, MayStillReport, Dead, Believed, Extends;
    var s' := Step(w, s, Run(i, ev));
    ClosedStaysClosed(w, s, i, ev, kid);
    ClosedHoldsNothing(w, s, i, ev, kid, a);
    StepExtends(w, s, Run(i, ev));
    DeadForGood(s.db, s.now, s'.db, s'.now, kid);
    AgentStays(s.db, s'.db, a);
    OldHoldingsStay(s.db, s'.db);
    hide Closed;
  }

  lemma OldHoldingsStay(db: Db, db': Db)
    requires Extends(db, db')
    ensures |db.holdings| <= |db'.holdings|
    ensures forall h :: 0 <= h < |db.holdings| ==> db'.holdings[h].agent == db.holdings[h].agent
  {
  }

  lemma StepStaysQuiet(w: World, s0: Sys, s: Sys, action: Action, kid: Bytes, a: nat)
    requires Grounding(w, s) && Quiet(s0, s, kid, a)
    ensures Quiet(s0, Step(w, s, action), kid, a)
  {
    hide Grounding, Quiet, Advance, Apply, Launch;
    StepGrounding(w, s, action);
    match action
    case Run(i, ev) => if i < |s.threads| { RunStaysQuiet(w, s0, s, i, ev, kid, a); }
    case Arrive(input) => ArrivalStaysQuiet(s0, s, input, kid, a);
    case Tick(elapsed) => TickStaysQuiet(w, s0, s, elapsed, kid, a);
  }

  lemma LaunchReportsNothing(s: Sys, input: Input, kid: Bytes)
    ensures !MayStillReport(s, Launch(input), kid)
  {
    assert Launch(input).req.auth.None?;
  }

  lemma ArrivalStaysQuiet(s0: Sys, s: Sys, input: Input, kid: Bytes, a: nat)
    requires Quiet(s0, s, kid, a)
    ensures Quiet(s0, s.(threads := s.threads + [Launch(input)]), kid, a)
  {
    var s' := s.(threads := s.threads + [Launch(input)]);
    hide Dead, Believed, Launch;
    forall j | 0 <= j < |s'.threads| ensures !MayStillReport(s', s'.threads[j], kid) {
      if j < |s.threads| {
        if MayStillReport(s', s.threads[j], kid) { ArrivalMatchesNothing(s, input, s.threads[j], kid); }
      } else {
        LaunchReportsNothing(s', input, kid);
      }
    }
  }

  /** A request that has just arrived has issued nothing. */
  lemma ArrivalMatchesNothing(s: Sys, input: Input, th: Thread, kid: Bytes)
    requires MayStillReport(s.(threads := s.threads + [Launch(input)]), th, kid)
    ensures MayStillReport(s, th, kid)
  {
    hide Launch, TokenOpen, QueryAhead, UpdateAhead, HasCounted;
    if th.pc.Matching? {
      match th.pc.lookup
      case Authenticate =>
      case ConsumeToken => ArrivalOpensNothing(s, input, th.req.input.message.token.value);
      case FindQuery => ArrivalBindsNothing(s, input, th.req.token.value);
      case FindUpdate => ArrivalBindsNothing(s, input, th.req.token.value);
    }
  }

  lemma ArrivalOpensNothing(s: Sys, input: Input, token: Bytes)
    requires TokenOpen(s.(threads := s.threads + [Launch(input)]), token)
    ensures TokenOpen(s, token)
  {
    var s' := s.(threads := s.threads + [Launch(input)]);
    LaunchOwnsNothing(input);
    hide Launch, HasMessage, Unconsumed, Issued, Standing;
    if j :| 0 <= j < |s'.threads| && MayBind(s'.db, s'.now, s'.threads[j].pc, token) {
      assert j < |s.threads| && s.threads[j] == s'.threads[j];
    }
  }

  lemma ArrivalBindsNothing(s: Sys, input: Input, token: Bytes)
    ensures QueryAhead(s.(threads := s.threads + [Launch(input)]), token) ==> QueryAhead(s, token)
    ensures UpdateAhead(s.(threads := s.threads + [Launch(input)]), token) ==> UpdateAhead(s, token)
  {
    var s' := s.(threads := s.threads + [Launch(input)]);
    LaunchOwnsNothing(input);
    hide Launch, HasMessage, UpdateRecorded, AboutToBindQuery, AboutToBindUpdate;
    assert forall j :: 0 <= j < |s.threads| ==> s'.threads[j] == s.threads[j];
  }

  lemma LaunchOwnsNothing(input: Input)
    ensures Owns(Launch(input).pc).None?
    ensures forall token :: !AboutToBindQuery(Launch(input).pc, token) && !AboutToBindUpdate(Launch(input).pc, token)
  {
    hide ComponentSet, NextCounted;
  }

  /** Time only takes standing away. */
  lemma TickStaysQuiet(w: World, s0: Sys, s: Sys, elapsed: nat, kid: Bytes, a: nat)
    requires Quiet(s0, s, kid, a)
    ensures Quiet(s0, s.(now := s.now + elapsed), kid, a)
  {
    var s' := s.(now := s.now + elapsed);
    ApplyExtends(s.db, Nothing);
    ApplyNothing(s.db);
    DeadForGood(s.db, s.now, s.db, s'.now, kid);
    hide Dead, Believed, Extends;
    forall j | 0 <= j < |s.threads| ensures !MayStillReport(s', s.threads[j], kid) {
      if MayStillReport(s', s.threads[j], kid) { TickMatchesNothing(s, elapsed, s.threads[j], kid); }
    }
  }

  lemma TickMatchesNothing(s: Sys, elapsed: nat, th: Thread, kid: Bytes)
    requires MayStillReport(s.(now := s.now + elapsed), th, kid)
    ensures MayStillReport(s, th, kid)
  {
    hide TokenOpen, HasCounted, HasMessage, UpdateRecorded;
    if th.pc.Matching? && th.pc.lookup.ConsumeToken? {
      TickOpensNothing(s, elapsed, th.req.input.message.token.value);
    }
  }

  lemma TickOpensNothing(s: Sys, elapsed: nat, token: Bytes)
    requires TokenOpen(s.(now := s.now + elapsed), token)
    ensures TokenOpen(s, token)
  {
    var s' := s.(now := s.now + elapsed);
    hide HasMessage, Unconsumed, Issued;
    if j :| 0 <= j < |s'.threads| && MayBind(s'.db, s'.now, s'.threads[j].pc, token) {
      if s.threads[j].pc.Delivering? && Standing(s.db, s'.now, s.threads[j].pc.deliver.kid) {
        StandsEarlier(s.db, s.now, s'.now, s.threads[j].pc.deliver.kid);
      }
    }
  }

  lemma StandsEarlier(db: Db, now: int, now': int, kid: Bytes)
    requires now <= now' && Standing(db, now', kid)
    ensures Standing(db, now, kid)
  {
    var a :| 0 <= a < |db.agents| && db.agents[a].kid == kid && Live(db.agents[a], now');
    assert Live(db.agents[a], now);
  }

  lemma {:induction false} ExecuteStaysQuiet(w: World, s: Sys, actions: seq<Action>, kid: Bytes, a: nat)
    requires Grounding(w, s) && Quiet(s, s, kid, a)
    ensures Quiet(s, Execute(w, s, actions), kid, a)
    decreases |actions|
  {
    hide Grounding, Quiet, Step;
    if actions != [] {
      var before := actions[..|actions| - 1];
      ExecuteStaysQuiet(w, s, before, kid, a);
      ExecuteGrounding(w, s, before);
      StepStaysQuiet(w, s, Execute(w, s, before), actions[|actions| - 1], kid, a);
    }
  }
}
