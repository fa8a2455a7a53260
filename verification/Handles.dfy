/**
 One-time handles: in every interleaving, handle bytes stay unique, each handle is bound to
 at most one sent message, and each handle is consumed by at most one request.
 */
module Handles {
  import opened Wrappers
  import opened Tables
  import opened Protocol
  import opened Machine
  import opened RequestFacts

  ghost predicate UniqueBytes(rows: seq<HandleRow>)
  {
    forall i, j :: 0 <= i < j < |rows| ==> rows[i].bytes != rows[j].bytes
  }

  /** Every sent QueryRequest has exactly one of token and challenge, and no handle is
      referenced twice, not even across the two tables of sent messages. */
  ghost predicate WellBound(db: Db)
  {
    && (forall q :: 0 <= q < |db.queries| ==>
          && db.queries[q].token.Some? != db.queries[q].challenge.Some?
          && (db.queries[q].token.Some? ==> db.queries[q].token.value < |db.tokens|)
          && (db.queries[q].challenge.Some? ==> db.queries[q].challenge.value < |db.challenges|))
    && (forall u :: 0 <= u < |db.updates| ==> db.updates[u].token < |db.tokens|)
    && (forall p, q :: 0 <= p < q < |db.queries| && db.queries[p].token.Some? ==>
          db.queries[p].token != db.queries[q].token)
    && (forall p, q :: 0 <= p < q < |db.queries| && db.queries[p].challenge.Some? ==>
          db.queries[p].challenge != db.queries[q].challenge)
    && (forall q, u :: 0 <= q < |db.queries| && 0 <= u < |db.updates| ==>
          db.queries[q].token != Some(db.updates[u].token))
    && (forall t, u :: 0 <= t < u < |db.updates| ==> db.updates[t].token != db.updates[u].token)
  }

  ghost predicate TokenBound(db: Db, id: nat)
  {
    || (exists q :: 0 <= q < |db.queries| && db.queries[q].token == Some(id))
    || (exists u :: 0 <= u < |db.updates| && db.updates[u].token == id)
  }

  ghost predicate ChallengeBound(db: Db, id: nat)
  {
    exists q :: 0 <= q < |db.queries| && db.queries[q].challenge == Some(id)
  }

  /** The handle is issued and bound to no sent message. */
  ghost predicate Free(db: Db, handle: Handle)
  {
    match handle
    case TokenHandle(b) => exists id: nat :: id < |db.tokens| && db.tokens[id].bytes == b && !TokenBound(db, id)
    case ChallengeHandle(b) =>
      exists id: nat :: id < |db.challenges| && db.challenges[id].bytes == b && !ChallengeBound(db, id)
  }

  /** The handle a thread has issued and not yet bound. */
  function Owns(pc: Pc): Option<Handle>
  {
    match pc
    case Issuing(CheckQuery(handle)) => Some(handle)
    case Issuing(AddQuery(handle, _)) => Some(handle)
    case Delivering(PickLatest(_, token, _, _)) => Some(TokenHandle(token))
    case Delivering(CheckAgent(_, token, _)) => Some(TokenHandle(token))
    case Delivering(CheckToken(_, token, _, _)) => Some(TokenHandle(token))
    case Delivering(AddUpdate(_, token, _, _, _)) => Some(TokenHandle(token))
    case _ => None
  }

  predicate HasRow(rows: seq<HandleRow>, id: nat, bytes: Bytes)
  {
    id < |rows| && rows[id].bytes == bytes
  }

  /** What a thread relies on in the store. */
  ghost predicate Custody(db: Db, req: Request, pc: Pc)
  {
    && (Owns(pc).Some? ==> Free(db, Owns(pc).value))
    && (match pc
        case Issuing(AddQuery(TokenHandle(b), id)) => HasRow(db.tokens, id, b)
        case Issuing(AddQuery(ChallengeHandle(b), id)) => HasRow(db.challenges, id, b)
        case Delivering(AddUpdate(_, b, _, _, id)) => HasRow(db.tokens, id, b)
        case _ => true)
    && (req.token.Some? ==> Spent(db.tokens, req.token.value))
    && (req.challenge.Some? ==> Spent(db.challenges, req.challenge.value))
  }

  predicate Apart<T(==)>(a: Option<T>, b: Option<T>)
  {
    a.Some? ==> a != b
  }

  predicate Disjoint(th: Thread, other: Thread)
  {
    Apart(Owns(th.pc), Owns(other.pc)) && Apart(th.req.token, other.req.token)
    && Apart(th.req.challenge, other.req.challenge)
  }

  ghost predicate HandlesSound(s: Sys)
  {
    && UniqueBytes(s.db.tokens) && UniqueBytes(s.db.challenges) && WellBound(s.db)
    && (forall i :: 0 <= i < |s.threads| ==> Custody(s.db, s.threads[i].req, s.threads[i].pc))
    && (forall i, j :: 0 <= i < |s.threads| && 0 <= j < |s.threads| && i != j ==> Disjoint(s.threads[i], s.threads[j]))
  }

  // ---- one step ----

  /** What a write needs of the store and of the thread making it. */
  ghost predicate Proper(db: Db, req: Request, pc: Pc, write: Write, req': Request, pc': Pc)
  {
    && (match write
        case PutToken(b) =>
          !Issued(db.tokens, b) && (Owns(pc') == Some(TokenHandle(b)) || Owns(pc').None?) && Owns(pc).None?
        case PutChallenge(b) => !Issued(db.challenges, b) && Owns(pc') == Some(ChallengeHandle(b)) && Owns(pc).None?
        case UseToken(b) => Unconsumed(db.tokens, b) && req'.token == Some(b) && Owns(pc').None?
        case UseChallenge(b) => Unconsumed(db.challenges, b) && req'.challenge == Some(b) && Owns(pc').None?
        case PutQuery(row) =>
          pc.Issuing? && pc.issue.AddQuery? && row == QueryRowFor(pc.issue.handle, pc.issue.id) && Owns(pc').None?
        case PutUpdate(row) => pc.Delivering? && pc.deliver.AddUpdate? && row.token == pc.deliver.id && Owns(pc').None?
        case _ => Owns(pc') == Owns(pc) || Owns(pc').None?)
    && (write.UseToken? || req'.token == req.token)
    && (write.UseChallenge? || req'.challenge == req.challenge)
    && (match pc'
        case Issuing(AddQuery(TokenHandle(b), id)) => HasRow(db.tokens, id, b)
        case Issuing(AddQuery(ChallengeHandle(b), id)) => HasRow(db.challenges, id, b)
        case Delivering(AddUpdate(_, b, _, _, id)) => HasRow(db.tokens, id, b)
        case _ => true)
  }

  lemma IssueProper(db: Db, req: Request, pc: IssuePc, ev: Event)
    ensures var (write, pc') := IssueStep(db, pc, ev); Proper(db, req, Issuing(pc), write, req, pc')
  {
  }

  lemma MatchProper(w: World, now: int, db: Db, req: Request, pc: MatchPc, ev: Event)
    requires req.input.Signed?
    ensures var (write, req', pc') := MatchStep(w, now, db, req, pc, ev);
      Proper(db, req, Matching(pc), write, req', pc')
  {
    hide PicksUpdate, PicksQueryByToken, PicksAgent, Envelopes, ComponentSet;
  }

  lemma AttestProper(w: World, now: int, db: Db, req: Request, pc: AttestPc, ev: Event)
    requires req.input.Signed? && req.input.verdict.Affirming?
    ensures var (write, req', pc') := AttestStep(w, now, db, req, pc, ev);
      Proper(db, req, Attesting(pc), write, req', pc')
  {
    hide PicksQueryByChallenge, PicksAgent, ComponentSet, NewAgent;
  }

  lemma DeliverProper(now: int, db: Db, req: Request, pc: DeliverPc, ev: Event)
    ensures var (write, pc') := DeliverStep(now, db, pc, ev); Proper(db, req, Delivering(pc), write, req, pc')
  {
  }

  lemma RestProper(w: World, now: int, db: Db, req: Request, pc: Pc, ev: Event)
    requires pc.Reporting? || pc.Administering? || pc.Done?
    ensures var (write, req', pc') := Next(w, now, db, req, pc, ev); Proper(db, req, pc, write, req', pc')
  {
    hide DigestKey, HoldCollides, PicksLatest;
  }

  lemma NextProper(w: World, now: int, db: Db, req: Request, pc: Pc, ev: Event)
    ensures var (write, req', pc') := Next(w, now, db, req, pc, ev);
      Proper(db, req, pc, write, req', pc') || (write, req', pc') == (Nothing, req, pc)
  {
    match pc
    case Issuing(at) => IssueProper(db, req, at, ev);
    case Matching(at) => if req.input.Signed? { MatchProper(w, now, db, req, at, ev); }
    case Attesting(at) =>
      if req.input.Signed? && req.input.verdict.Affirming? { AttestProper(w, now, db, req, at, ev); }
    case Delivering(at) => DeliverProper(now, db, req, at, ev);
    case _ => RestProper(w, now, db, req, pc, ev);
  }

  ghost predicate TablesSound(db: Db)
  {
    UniqueBytes(db.tokens) && UniqueBytes(db.challenges) && WellBound(db)
  }

  lemma TablesKeep(db: Db, req: Request, pc: Pc, write: Write, req': Request, pc': Pc)
    requires TablesSound(db) && Custody(db, req, pc) && Proper(db, req, pc, write, req', pc')
    ensures TablesSound(Apply(db, write))
  {
    var db' := Apply(db, write);
    match write
    case PutToken(b) => assert forall i :: 0 <= i < |db.tokens| ==> db.tokens[i].bytes != b;
    case PutChallenge(b) => assert forall i :: 0 <= i < |db.challenges| ==> db.challenges[i].bytes != b;
    case PutQuery(row) => QueryKeeps(db, pc.issue.handle, pc.issue.id);
    case PutUpdate(row) => UpdateKeeps(db, pc.deliver.token, row);
    case _ =>
  }

  lemma FreeMeansUnbound(db: Db, handle: Handle, id: nat)
    requires TablesSound(db) && Free(db, handle)
    requires HasRow(if handle.TokenHandle? then db.tokens else db.challenges, id, handle.bytes)
    ensures if handle.TokenHandle? then !TokenBound(db, id) else !ChallengeBound(db, id)
  {
  }

  lemma QueryKeeps(db: Db, handle: Handle, id: nat)
    requires TablesSound(db) && Free(db, handle)
    requires HasRow(if handle.TokenHandle? then db.tokens else db.challenges, id, handle.bytes)
    ensures TablesSound(Apply(db, PutQuery(QueryRowFor(handle, id))))
  {
    FreeMeansUnbound(db, handle, id);
  }

  lemma UpdateKeeps(db: Db, token: Bytes, row: UpdateRow)
    requires TablesSound(db) && Free(db, TokenHandle(token)) && HasRow(db.tokens, row.token, token)
    ensures TablesSound(Apply(db, PutUpdate(row)))
  {
    FreeMeansUnbound(db, TokenHandle(token), row.token);
  }

  /** What a write binds was owned by its thread: no other handle loses its freedom. */
  lemma BindsOnlyOwn(db: Db, req: Request, pc: Pc, write: Write, req': Request, pc': Pc)
    requires Custody(db, req, pc) && Proper(db, req, pc, write, req', pc')
    ensures match write
      case PutQuery(row) =>
        && Owns(pc).Some?
        && (row.token.Some? ==> Owns(pc).value.TokenHandle? && HasRow(db.tokens, row.token.value, Owns(pc).value.bytes))
        && (row.challenge.Some? ==>
              Owns(pc).value.ChallengeHandle? && HasRow(db.challenges, row.challenge.value, Owns(pc).value.bytes))
      case PutUpdate(row) =>
        Owns(pc).Some? && Owns(pc).value.TokenHandle? && HasRow(db.tokens, row.token, Owns(pc).value.bytes)
      case _ => true
  {
    hide Free, Spent;
  }

  lemma TokenFreeKept(db: Db, write: Write, token: Bytes)
    requires Free(db, TokenHandle(token))
    requires match write
      case PutQuery(row) =>
        row.token.Some? ==> row.token.value < |db.tokens| && db.tokens[row.token.value].bytes != token
      case PutUpdate(row) => row.token < |db.tokens| && db.tokens[row.token].bytes != token
      case _ => true
    ensures Free(Apply(db, write), TokenHandle(token))
  {
    var db' := Apply(db, write);
    var id: nat :| id < |db.tokens| && db.tokens[id].bytes == token && !TokenBound(db, id);
    assert id < |db'.tokens| && db'.tokens[id].bytes == token && !TokenBound(db', id);
  }

  lemma ChallengeFreeKept(db: Db, write: Write, challenge: Bytes)
    requires Free(db, ChallengeHandle(challenge))
    requires write.PutQuery? && write.query.challenge.Some? ==>
      write.query.challenge.value < |db.challenges| && db.challenges[write.query.challenge.value].bytes != challenge
    ensures Free(Apply(db, write), ChallengeHandle(challenge))
  {
    var db' := Apply(db, write);
    var id: nat :| id < |db.challenges| && db.challenges[id].bytes == challenge && !ChallengeBound(db, id);
    assert id < |db'.challenges| && db'.challenges[id].bytes == challenge && !ChallengeBound(db', id);
  }

  /** A free handle other than the one being bound stays free. */
  lemma FreeKept(db: Db, req: Request, pc: Pc, write: Write, req': Request, pc': Pc, handle: Handle)
    requires TablesSound(db) && Custody(db, req, pc) && Proper(db, req, pc, write, req', pc')
    requires Free(db, handle) && Owns(pc) != Some(handle)
    ensures Free(Apply(db, write), handle)
  {
    hide Free, Apply, TablesSound, Custody, Proper, Owns;
    BindsOnlyOwn(db, req, pc, write, req', pc');
    match handle
    case TokenHandle(b) => TokenFreeKept(db, write, b);
    case ChallengeHandle(b) => ChallengeFreeKept(db, write, b);
  }

  lemma SpentKept(rows: seq<HandleRow>, rows': seq<HandleRow>, bytes: Bytes)
    requires HandlesExtend(rows, rows') && Spent(rows, bytes)
    ensures Spent(rows', bytes)
  {
    var i :| 0 <= i < |rows| && rows[i].bytes == bytes && rows[i].consumed;
    assert rows'[i].bytes == bytes && rows'[i].consumed;
  }

  lemma {:induction false} CustodyKept(db: Db, req: Request, pc: Pc, write: Write, req': Request, pc': Pc,
                                       oreq: Request, opc: Pc)
    requires TablesSound(db) && Custody(db, req, pc) && Proper(db, req, pc, write, req', pc')
    requires Custody(db, oreq, opc) && Apart(Owns(opc), Owns(pc))
    ensures Custody(Apply(db, write), oreq, opc)
  {
    ApplyExtends(db, write);
    var db' := Apply(db, write);
    if Owns(opc).Some? { FreeKept(db, req, pc, write, req', pc', Owns(opc).value); }
    if oreq.token.Some? { SpentKept(db.tokens, db'.tokens, oreq.token.value); }
    if oreq.challenge.Some? { SpentKept(db.challenges, db'.challenges, oreq.challenge.value); }
  }

  lemma UsedIsSpent(rows: seq<HandleRow>, bytes: Bytes)
    requires Unconsumed(rows, bytes)
    ensures Spent(Consumed(rows, bytes), bytes)
  {
    var i :| 0 <= i < |rows| && rows[i].bytes == bytes && !rows[i].consumed;
    assert Consumed(rows, bytes)[i].consumed;
  }

  lemma OwnHandleFree(db: Db, req: Request, pc: Pc, write: Write, req': Request, pc': Pc)
    requires TablesSound(db) && Custody(db, req, pc) && Proper(db, req, pc, write, req', pc') && Owns(pc').Some?
    ensures Free(Apply(db, write), Owns(pc').value)
  {
    hide Spent;
    var db' := Apply(db, write);
    if write.PutToken? {
      assert db'.tokens[|db.tokens|].bytes == write.bytes;
    } else if write.PutChallenge? {
      assert db'.challenges[|db.challenges|].bytes == write.bytes;
    } else {
      hide Apply, Free, WellBound, UniqueBytes;
      assert Owns(pc') == Owns(pc);
      OwnFreeKept(db, write, Owns(pc').value);
    }
  }

  lemma OwnFreeKept(db: Db, write: Write, handle: Handle)
    requires Free(db, handle) && !write.PutQuery? && !write.PutUpdate?
    ensures Free(Apply(db, write), handle)
  {
    hide Free, Apply;
    match handle
    case TokenHandle(b) => TokenFreeKept(db, write, b);
    case ChallengeHandle(b) => ChallengeFreeKept(db, write, b);
  }

  lemma OwnHandlesSpent(db: Db, req: Request, pc: Pc, write: Write, req': Request, pc': Pc)
    requires Custody(db, req, pc) && Proper(db, req, pc, write, req', pc')
    ensures req'.token.Some? ==> Spent(Apply(db, write).tokens, req'.token.value)
    ensures req'.challenge.Some? ==> Spent(Apply(db, write).challenges, req'.challenge.value)
  {
    ApplyExtends(db, write);
    hide Free, Owns, Spent, Unconsumed;
    var db' := Apply(db, write);
    if write.UseToken? {
      UsedIsSpent(db.tokens, write.bytes);
    } else if req.token.Some? {
      SpentKept(db.tokens, db'.tokens, req.token.value);
    }
    if write.UseChallenge? {
      UsedIsSpent(db.challenges, write.bytes);
    } else if req.challenge.Some? {
      SpentKept(db.challenges, db'.challenges, req.challenge.value);
    }
  }

  lemma OwnCustody(db: Db, req: Request, pc: Pc, write: Write, req': Request, pc': Pc)
    requires TablesSound(db) && Custody(db, req, pc) && Proper(db, req, pc, write, req', pc')
    ensures Custody(Apply(db, write), req', pc')
  {
    if Owns(pc').Some? { OwnHandleFree(db, req, pc, write, req', pc'); }
    OwnHandlesSpent(db, req, pc, write, req', pc');
    OwnRowsKept(db, req, pc, write, req', pc');
    hide Free, Owns, Spent, Proper, Apply, TablesSound;
  }

  lemma OwnRowsKept(db: Db, req: Request, pc: Pc, write: Write, req': Request, pc': Pc)
    requires Proper(db, req, pc, write, req', pc')
    ensures match pc'
      case Issuing(AddQuery(TokenHandle(b), id)) => HasRow(Apply(db, write).tokens, id, b)
      case Issuing(AddQuery(ChallengeHandle(b), id)) => HasRow(Apply(db, write).challenges, id, b)
      case Delivering(AddUpdate(_, b, _, _, id)) => HasRow(Apply(db, write).tokens, id, b)
      case _ => true
  {
    ApplyExtends(db, write);
    hide Apply, Owns, Unconsumed, Issued;
  }

  lemma DisjointKept(db: Db, th: Thread, write: Write, th': Thread, other: Thread)
    requires TablesSound(db) && Custody(db, th.req, th.pc) && Proper(db, th.req, th.pc, write, th'.req, th'.pc)
    requires Custody(db, other.req, other.pc) && Disjoint(th, other) && Disjoint(other, th)
    ensures Disjoint(th', other) && Disjoint(other, th')
  {
  }

  // ---- every run ----

  lemma StepSound(w: World, s: Sys, action: Action)
    requires HandlesSound(s)
    ensures HandlesSound(Step(w, s, action))
  {
    hide TablesSound, UniqueBytes, WellBound, Custody, Advance, Apply, Launch;
    match action
    case Tick(_) =>
    case Arrive(input) => LaunchSound(s, input);
    case Run(i, ev) => if i < |s.threads| { RunSound(w, s, i, ev); }
  }

  lemma LaunchSound(s: Sys, input: Input)
    requires HandlesSound(s)
    ensures HandlesSound(s.(threads := s.threads + [Launch(input)]))
  {
    hide UniqueBytes, WellBound;
    var th := Launch(input);
    assert Owns(th.pc).None? && th.req.token.None? && th.req.challenge.None?;
    assert Custody(s.db, th.req, th.pc);
    hide Custody, Launch;
  }

  /** A thread that did not move, or moved properly. */
  lemma AdvanceProper(w: World, now: int, db: Db, th: Thread, ev: Event)
    requires Custody(db, th.req, th.pc)
    ensures var (write, th') := Advance(w, now, db, th, ev);
      Proper(db, th.req, th.pc, write, th'.req, th'.pc) || (write == Nothing && th' == th)
  {
    hide Next;
    if ev.fault {
      hide ComponentSet;
      assert Owns(OnStoreFault(th.req, th.pc)).None?;
    } else {
      hide Proper, OnStoreFault;
      NextProper(w, now, db, th.req, th.pc, ev);
    }
  }

  lemma RunSound(w: World, s: Sys, i: nat, ev: Event)
    requires HandlesSound(s) && i < |s.threads|
    ensures HandlesSound(Step(w, s, Run(i, ev)))
  {
    var th := s.threads[i];
    var (write, th') := Advance(w, s.now, s.db, th, ev);
    hide UniqueBytes, WellBound, Custody, Apply, Advance, Disjoint;
    AdvanceProper(w, s.now, s.db, th, ev);
    if write == Nothing && th' == th {
      ApplyNothing(s.db);
      assert Step(w, s, Run(i, ev)) == s;
    } else {
      hide Proper;
      TablesKeep(s.db, th.req, th.pc, write, th'.req, th'.pc);
      OwnCustody(s.db, th.req, th.pc, write, th'.req, th'.pc);
      forall j | 0 <= j < |s.threads| && j != i
        ensures Custody(Apply(s.db, write), s.threads[j].req, s.threads[j].pc)
        ensures Disjoint(th', s.threads[j]) && Disjoint(s.threads[j], th')
      {
        OthersSound(s, i, write, th', j);
      }
    }
  }

  lemma OthersSound(s: Sys, i: nat, write: Write, th': Thread, j: nat)
    requires HandlesSound(s) && i < |s.threads| && j < |s.threads| && i != j
    requires Proper(s.db, s.threads[i].req, s.threads[i].pc, write, th'.req, th'.pc)
    ensures Custody(Apply(s.db, write), s.threads[j].req, s.threads[j].pc)
    ensures Disjoint(th', s.threads[j]) && Disjoint(s.threads[j], th')
  {
    hide UniqueBytes, WellBound, Custody, Apply, Proper, Owns;
    var th, other := s.threads[i], s.threads[j];
    CustodyKept(s.db, th.req, th.pc, write, th'.req, th'.pc, other.req, other.pc);
    DisjointKept(s.db, th, write, th', other);
  }

  lemma {:induction false} ExecuteSound(w: World, s: Sys, actions: seq<Action>)
    requires HandlesSound(s)
    ensures HandlesSound(Execute(w, s, actions))
    decreases |actions|
  {
    hide HandlesSound, Step;
    if actions != [] {
      ExecuteSound(w, s, actions[..|actions| - 1]);
      StepSound(w, Execute(w, s, actions[..|actions| - 1]), actions[|actions| - 1]);
    }
  }

  lemma InitialSound(now: int, signingKeys: seq<SigningKeyRow>, devices: seq<Bytes>)
    ensures HandlesSound(Initial(now, signingKeys, devices))
  {
  }

  function SentHandle(sent: Sent): Handle
  {
    match sent
    case SentQuery(handle, _, _) => handle
    case SentUpdate(token, _) => TokenHandle(token)
  }

  /** A handle lets at most one request of the whole run obtain the message sent under it:
      finished requests stay in the list of threads, so two of them never share a handle. */
  lemma OneTimeHandles(w: World, now: int, signingKeys: seq<SigningKeyRow>, devices: seq<Bytes>,
                       actions: seq<Action>, i: nat, j: nat)
    requires i < j < |Execute(w, Initial(now, signingKeys, devices), actions).threads|
    ensures var s := Execute(w, Initial(now, signingKeys, devices), actions);
      var a, b := s.threads[i].req, s.threads[j].req;
      && (a.recovered.Some? && b.recovered.Some? ==> SentHandle(a.recovered.value) != SentHandle(b.recovered.value))
      && (a.token.Some? ==> a.token != b.token && Spent(s.db.tokens, a.token.value))
      && (a.challenge.Some? ==> a.challenge != b.challenge && Spent(s.db.challenges, a.challenge.value))
      && UniqueBytes(s.db.tokens) && UniqueBytes(s.db.challenges)
  {
    var s0 := Initial(now, signingKeys, devices);
    var s := Execute(w, s0, actions);
    InitialSound(now, signingKeys, devices);
    ExecuteSound(w, s0, actions);
    RunFaithful(w, s0, actions);
    hide Execute, AtPc, AllGrounded, Counts, UniqueBytes, WellBound, Spent;
    assert Disjoint(s.threads[i], s.threads[j]);
    assert Coherent(s.threads[i].req) && Coherent(s.threads[j].req) by {
      assert Faithful(w, s.threads[i]) && Faithful(w, s.threads[j]);
    }
  }

  /** Each lookup that stops at one row has at most one row to stop at, and a token found among
      the sent QueryRequests is not also among the sent Updates, so the order of the two
      searches does not matter. */
  lemma LookupsUnambiguous(db: Db, token: Bytes, challenge: Bytes, p: Option<nat>, q: Option<nat>)
    requires TablesSound(db)
    ensures PicksHandle(db.tokens, token, p) && PicksHandle(db.tokens, token, q) ==> p == q
    ensures PicksHandle(db.challenges, challenge, p) && PicksHandle(db.challenges, challenge, q) ==> p == q
    ensures PicksQueryByToken(db, token, p) && PicksQueryByToken(db, token, q) ==> p == q
    ensures PicksQueryByChallenge(db, challenge, p) && PicksQueryByChallenge(db, challenge, q) ==> p == q
    ensures PicksQueryByToken(db, token, p) && p.Some? ==> forall u: nat :: !UpdateUsesToken(db, u, token)
    ensures forall t: nat, u: nat :: UpdateUsesToken(db, t, token) && UpdateUsesToken(db, u, token) ==> t == u
  {
    if PicksQueryByToken(db, token, p) && PicksQueryByToken(db, token, q) && p.Some? && q.Some? {
      assert db.queries[p.value].token == db.queries[q.value].token;
    }
    if PicksQueryByChallenge(db, challenge, p) && PicksQueryByChallenge(db, challenge, q) && p.Some? && q.Some? {
      assert db.queries[p.value].challenge == db.queries[q.value].challenge;
    }
  }
}
