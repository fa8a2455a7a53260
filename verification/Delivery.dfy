/**
 Round trips through the store: what a lookup recovers under a handle is what was sent under
 it, and every row a delivery refers to exists.
 */
module Delivery {
  import opened Wrappers
  import opened Tables
  import opened Protocol
  import opened Machine
  import opened RequestFacts
  import opened Handles

  /** The token under which a thread is sending, or has sent, an Update. */
  function Sending(pc: Pc): Option<Bytes>
  {
    match pc
    case Delivering(at) => Some(at.token)
    case Done(UpdateSent(_, token, _)) => Some(token)
    case _ => None
  }

  ghost predicate InRange(ids: seq<nat>, bound: nat)
  {
    forall i :: 0 <= i < |ids| ==> ids[i] < bound
  }

  ghost predicate LinksInRange(db: Db)
  {
    forall l :: 0 <= l < |db.links| ==> db.links[l].update < |db.updates| && db.links[l].manifest < |db.manifests|
  }

  function Linked(db: Db, token: Bytes): seq<nat>
  {
    LinkedManifests(db, token, |db.links|)
  }

  predicate QueryUses(db: Db, q: nat, handle: Handle)
  {
    match handle
    case TokenHandle(b) => QueryUsesToken(db, q, b)
    case ChallengeHandle(b) => QueryUsesChallenge(db, q, b)
  }

  ghost predicate QueryRecorded(db: Db, handle: Handle, attestation: bool, tcList: bool)
  {
    exists q: nat :: QueryUses(db, q, handle)
      && db.queries[q].attestation == attestation && db.queries[q].tcList == tcList
  }

  ghost predicate UpdateRecorded(db: Db, token: Bytes)
  {
    exists u: nat :: UpdateUsesToken(db, u, token)
  }

  /** What a thread has put, or is putting, into the tables of sent messages. */
  ghost predicate Recorded(db: Db, pc: Pc)
  {
    match pc
    case Delivering(at) =>
      && Issued(db.tokens, at.token) && InRange(at.picked, |db.manifests|)
      && (at.FindManifest? || at.AddLink? ==>
            && at.linked < |at.picked| && UpdateUsesToken(db, at.update, at.token)
            && Linked(db, at.token) == at.picked[..at.linked])
    case Done(UpdateSent(_, token, manifests)) =>
      && Issued(db.tokens, token) && UpdateRecorded(db, token)
      && InRange(Linked(db, token), |db.manifests|) && Envelopes(db, Linked(db, token)) == manifests
    case Done(QuerySent(handle, attestation, tcList)) => QueryRecorded(db, handle, attestation, tcList)
    case Done(Panicked) => false
    case _ => true
  }

  /** What a request recovered is recorded. */
  ghost predicate RecoveredRecorded(db: Db, req: Request)
  {
    match req.recovered
    case None => true
    case Some(SentQuery(handle, attestation, tcList)) => QueryRecorded(db, handle, attestation, tcList)
    case Some(SentUpdate(token, _)) => UpdateRecorded(db, token)
  }

  ghost predicate DeliverySound(s: Sys)
  {
    && LinksInRange(s.db)
    && (forall i :: 0 <= i < |s.threads| ==>
          Recorded(s.db, s.threads[i].pc) && RecoveredRecorded(s.db, s.threads[i].req))
    && (forall i, j :: 0 <= i < |s.threads| && 0 <= j < |s.threads| && i != j ==>
          Apart(Sending(s.threads[i].pc), Sending(s.threads[j].pc)))
  }

  // ---- stability ----

  /** Writes that add nothing under a token leave its linked manifests alone. */
  predicate AddsNothingUnder(db: Db, write: Write, token: Bytes)
  {
    write.PutLink? ==> !UpdateUsesToken(db, write.link.update, token)
  }

  lemma {:induction false} LinkedStable(db: Db, write: Write, token: Bytes, n: nat)
    requires WellBound(db) && LinksInRange(db) && n <= |db.links|
    ensures n <= |Apply(db, write).links|
    ensures LinkedManifests(Apply(db, write), token, n) == LinkedManifests(db, token, n)
    decreases n
  {
    var db' := Apply(db, write);
    ApplyExtends(db, write);
    if n > 0 {
      LinkedStable(db, write, token, n - 1);
      var l := db.links[n - 1];
      assert db'.links[n - 1] == l && l.update < |db.updates|;
      assert db'.updates[l.update] == db.updates[l.update];
      assert UpdateUsesToken(db', l.update, token) == UpdateUsesToken(db, l.update, token);
    }
  }

  lemma LinkedKept(db: Db, write: Write, token: Bytes)
    requires WellBound(db) && LinksInRange(db) && AddsNothingUnder(db, write, token)
    requires write.PutLink? ==> write.link.update < |db.updates|
    ensures Linked(Apply(db, write), token) == Linked(db, token)
  {
    LinkedStable(db, write, token, |db.links|);
  }

  lemma LinkedGrows(db: Db, link: LinkRow, token: Bytes)
    requires WellBound(db) && LinksInRange(db) && UpdateUsesToken(db, link.update, token)
    ensures Linked(Apply(db, PutLink(link)), token) == Linked(db, token) + [link.manifest]
  {
    LinkedStable(db, PutLink(link), token, |db.links|);
  }

  /** Nothing is linked under a token without an update. */
  lemma {:induction false} NothingLinked(db: Db, token: Bytes, n: nat)
    requires n <= |db.links| && !UpdateRecorded(db, token)
    ensures LinkedManifests(db, token, n) == []
    decreases n
  {
    if n > 0 { NothingLinked(db, token, n - 1); }
  }

  lemma QueryRecordedKept(db: Db, write: Write, handle: Handle, attestation: bool, tcList: bool)
    requires QueryRecorded(db, handle, attestation, tcList)
    ensures QueryRecorded(Apply(db, write), handle, attestation, tcList)
  {
    ApplyExtends(db, write);
    var db' := Apply(db, write);
    var q: nat :|
      QueryUses(db, q, handle) && db.queries[q].attestation == attestation && db.queries[q].tcList == tcList;
    assert QueryUses(db', q, handle) && db'.queries[q] == db.queries[q];
  }

  lemma UpdateUsesTokenKept(db: Db, write: Write, u: nat, token: Bytes)
    requires UpdateUsesToken(db, u, token)
    ensures UpdateUsesToken(Apply(db, write), u, token)
  {
    ApplyExtends(db, write);
  }

  lemma UpdateRecordedKept(db: Db, write: Write, token: Bytes)
    requires UpdateRecorded(db, token)
    ensures UpdateRecorded(Apply(db, write), token)
  {
    var u: nat :| UpdateUsesToken(db, u, token);
    UpdateUsesTokenKept(db, write, u, token);
  }

  lemma RecoveredKept(db: Db, write: Write, req: Request)
    requires RecoveredRecorded(db, req)
    ensures RecoveredRecorded(Apply(db, write), req)
  {
    hide QueryRecorded, UpdateRecorded, Apply;
    match req.recovered
    case None =>
    case Some(SentQuery(handle, attestation, tcList)) => QueryRecordedKept(db, write, handle, attestation, tcList);
    case Some(SentUpdate(token, _)) => UpdateRecordedKept(db, write, token);
  }

  lemma EnvelopesKept(db: Db, write: Write, ids: seq<nat>)
    requires InRange(ids, |db.manifests|)
    ensures InRange(ids, |Apply(db, write).manifests|) && Envelopes(Apply(db, write), ids) == Envelopes(db, ids)
  {
    ApplyExtends(db, write);
  }

  lemma IssuedKept(db: Db, write: Write, token: Bytes)
    requires Issued(db.tokens, token)
    ensures Issued(Apply(db, write).tokens, token)
  {
    ApplyExtends(db, write);
    var i :| 0 <= i < |db.tokens| && db.tokens[i].bytes == token;
    assert Apply(db, write).tokens[i].bytes == token;
  }

  /** A thread's records survive the writes of others. */
  lemma RecordedKept(db: Db, write: Write, pc: Pc)
    requires WellBound(db) && LinksInRange(db) && Recorded(db, pc)
    requires Sending(pc).Some? ==> AddsNothingUnder(db, write, Sending(pc).value)
    requires write.PutLink? ==> write.link.update < |db.updates|
    ensures Recorded(Apply(db, write), pc)
  {
    hide WellBound, LinksInRange, Apply, Linked, InRange, Issued, UpdateRecorded, QueryRecorded, Envelopes;
    match pc
    case Delivering(at) =>
      IssuedKept(db, write, at.token);
      LinkedKept(db, write, at.token);
      EnvelopesKept(db, write, at.picked);
      if at.FindManifest? || at.AddLink? { UpdateUsesTokenKept(db, write, at.update, at.token); }
    case Done(UpdateSent(_, token, manifests)) =>
      IssuedKept(db, write, token);
      LinkedKept(db, write, token);
      UpdateRecordedKept(db, write, token);
      EnvelopesKept(db, write, Linked(db, token));
    case Done(QuerySent(handle, attestation, tcList)) => QueryRecordedKept(db, write, handle, attestation, tcList);
    case _ =>
  }

  // ---- one step ----

  /** Links are only added to the thread's own update, and a thread starts sending only under
      a token it issues itself. */
  ghost predicate SendsOwn(db: Db, pc: Pc, write: Write, pc': Pc)
  {
    && (write.PutLink? ==>
          && pc.Delivering? && pc.deliver.AddLink? && write.link.update == pc.deliver.update
          && pc.deliver.linked < |pc.deliver.picked| && write.link.manifest == pc.deliver.picked[pc.deliver.linked])
    && (Sending(pc').Some? ==>
          || Sending(pc') == Sending(pc)
          || (write == PutToken(Sending(pc').value) && !Issued(db.tokens, Sending(pc').value)))
  }

  ghost predicate OwnRecorded(db: Db, pc: Pc, write: Write, req': Request, pc': Pc)
  {
    && SendsOwn(db, pc, write, pc')
    && Recorded(Apply(db, write), pc') && RecoveredRecorded(Apply(db, write), req')
  }

  /** Positions from which nothing is recorded. */
  predicate Unrecorded(pc: Pc)
  {
    match pc
    case Delivering(_) => false
    case Done(outcome) => !outcome.QuerySent? && !outcome.UpdateSent? && !outcome.Panicked?
    case _ => true
  }

  lemma UnrecordedIsRecorded(db: Db, pc: Pc)
    requires Unrecorded(pc)
    ensures Recorded(db, pc) && Sending(pc).None?
  {
  }

  lemma IssueRecords(db: Db, req: Request, pc: IssuePc, ev: Event)
    requires Custody(db, req, Issuing(pc)) && RecoveredRecorded(db, req)
    ensures var (write, pc') := IssueStep(db, pc, ev); OwnRecorded(db, Issuing(pc), write, req, pc')
  {
    var (write, pc') := IssueStep(db, pc, ev);
    RecoveredKept(db, write, req);
    var db' := Apply(db, write);
    hide RecoveredRecorded;
    match pc
    case AddToken(b, _) => if write.PutToken? { assert db'.tokens[|db.tokens|].bytes == b; }
    case AddQuery(handle, _) =>
      assert QueryUses(db', |db.queries|, handle);
    case _ =>
  }

  lemma MatchedIsUnrecorded(req: Request)
    requires req.input.Signed?
    ensures Unrecorded(Dispatch(req)) && Unrecorded(AfterAuthentication(req))
  {
    hide ComponentSet, NextCounted;
  }

  lemma MatchRecords(w: World, now: int, db: Db, req: Request, pc: MatchPc, ev: Event)
    requires req.input.Signed? && RecoveredRecorded(db, req)
    ensures var (write, req', pc') := MatchStep(w, now, db, req, pc, ev);
      OwnRecorded(db, Matching(pc), write, req', pc')
  {
    var (write, req', pc') := MatchStep(w, now, db, req, pc, ev);
    RecoveredKept(db, write, req);
    ApplyNothing(db);
    hide LinkedManifests, Envelopes, PicksAgent, Dispatch, AfterAuthentication, Apply;
    MatchedIsUnrecorded(req);
    MatchedIsUnrecorded(req');
    assert Unrecorded(pc') by {
      if pc.Authenticate? { MatchedIsUnrecorded(req.(auth := req.input.kid)); }
    }
    UnrecordedIsRecorded(Apply(db, write), pc');
    hide Recorded, Unrecorded;
    if pc.FindQuery? && req' != req {
      assert QueryUses(db, ev.pick.value, TokenHandle(req.token.value));
    }
  }

  lemma AttestRecords(w: World, now: int, db: Db, req: Request, pc: AttestPc, ev: Event)
    requires req.input.Signed? && req.input.verdict.Affirming? && RecoveredRecorded(db, req)
    ensures var (write, req', pc') := AttestStep(w, now, db, req, pc, ev);
      OwnRecorded(db, Attesting(pc), write, req', pc')
  {
    var (write, req', pc') := AttestStep(w, now, db, req, pc, ev);
    RecoveredKept(db, write, req);
    hide ComponentSet, PicksAgent, NewAgent;
    assert Unrecorded(pc');
    UnrecordedIsRecorded(Apply(db, write), pc');
    hide Recorded;
    if pc.FindByChallenge? && req' != req {
      ApplyNothing(db);
      assert QueryUses(db, ev.pick.value, ChallengeHandle(req.challenge.value));
    }
  }

  lemma FreeIsUnrecorded(db: Db, token: Bytes)
    requires TablesSound(db) && Free(db, TokenHandle(token))
    ensures !UpdateRecorded(db, token)
  {
  }

  lemma AddUpdateRecords(db: Db, req: Request, pc: DeliverPc)
    requires pc.AddUpdate? && pc.picked != []
    requires TablesSound(db) && LinksInRange(db) && Custody(db, req, Delivering(pc)) && Recorded(db, Delivering(pc))
    ensures var (write, pc') := (PutUpdate(UpdateRow(pc.agent, pc.id)),
                                 Delivering(FindManifest(pc.kid, pc.token, pc.picked, |db.updates|, 0)));
      Recorded(Apply(db, write), pc')
  {
    var write := PutUpdate(UpdateRow(pc.agent, pc.id));
    FreeIsUnrecorded(db, pc.token);
    NothingLinked(db, pc.token, |db.links|);
    LinkedKept(db, write, pc.token);
    IssuedKept(db, write, pc.token);
    assert UpdateUsesToken(Apply(db, write), |db.updates|, pc.token);
    hide LinkedManifests, WellBound, UniqueBytes;
  }

  lemma AddLinkRecords(db: Db, pc: DeliverPc)
    requires pc.AddLink? && pc.linked < |pc.picked|
    requires WellBound(db) && LinksInRange(db) && Recorded(db, Delivering(pc))
    ensures var write := PutLink(LinkRow(pc.update, pc.picked[pc.linked]));
      && (pc.linked + 1 < |pc.picked| ==>
            Recorded(Apply(db, write), Delivering(FindManifest(pc.kid, pc.token, pc.picked, pc.update, pc.linked + 1))))
      && (pc.linked + 1 == |pc.picked| ==>
            Recorded(Apply(db, write), Done(UpdateSent(pc.kid, pc.token, Envelopes(db, pc.picked)))))
  {
    var link := LinkRow(pc.update, pc.picked[pc.linked]);
    var write := PutLink(link);
    LinkedGrows(db, link, pc.token);
    assert pc.picked[..pc.linked] + [pc.picked[pc.linked]] == pc.picked[..pc.linked + 1];
    assert pc.linked + 1 == |pc.picked| ==> pc.picked[..pc.linked + 1] == pc.picked;
    EnvelopesKept(db, write, pc.picked);
    IssuedKept(db, write, pc.token);
    UpdateUsesTokenKept(db, write, pc.update, pc.token);
    hide LinkedManifests, WellBound, Issued;
  }

  lemma DeliverRecords(w: World, now: int, db: Db, req: Request, pc: DeliverPc, ev: Event)
    requires AtDelivering(w, req, pc) && TablesSound(db) && LinksInRange(db)
    requires Custody(db, req, Delivering(pc)) && Recorded(db, Delivering(pc)) && RecoveredRecorded(db, req)
    ensures var (write, pc') := DeliverStep(now, db, pc, ev); OwnRecorded(db, Delivering(pc), write, req, pc')
  {
    var (write, pc') := DeliverStep(now, db, pc, ev);
    RecoveredKept(db, write, req);
    hide RecoveredRecorded, Linked, Issued, WellBound, UniqueBytes, Custody, LinksInRange, Envelopes;
    ApplyNothing(db);
    match pc
    case AddUpdate(_, _, _, _, _) => AddUpdateRecords(db, req, pc);
    case AddLink(_, _, _, _, _) => AddLinkRecords(db, pc);
    case _ =>
  }

  lemma RestRecords(w: World, now: int, db: Db, req: Request, pc: Pc, ev: Event)
    requires pc.Reporting? || pc.Administering? || pc.Done?
    requires Recorded(db, pc) && RecoveredRecorded(db, req)
    ensures var (write, req', pc') := Next(w, now, db, req, pc, ev); OwnRecorded(db, pc, write, req', pc')
  {
    hide DigestKey, HoldCollides, PicksLatest, PicksAgent, PicksManifestByDigest;
    var (write, req', pc') := Next(w, now, db, req, pc, ev);
    RecoveredKept(db, write, req);
    hide RecoveredRecorded;
    if pc.Done? {
      ApplyNothing(db);
    } else {
      assert Unrecorded(pc');
      UnrecordedIsRecorded(Apply(db, write), pc');
    }
  }

  lemma AdvanceRecords(w: World, now: int, db: Db, th: Thread, ev: Event)
    requires Faithful(w, th) && TablesSound(db) && LinksInRange(db)
    requires Custody(db, th.req, th.pc) && Recorded(db, th.pc) && RecoveredRecorded(db, th.req)
    ensures var (write, th') := Advance(w, now, db, th, ev); OwnRecorded(db, th.pc, write, th'.req, th'.pc)
  {
    if ev.fault {
      hide ComponentSet, NextCounted, AllGrounded, Counts, Coherent, TablesSound, LinksInRange, Custody,
           RecoveredRecorded;
      ApplyNothing(db);
      if !th.pc.Done? { UnrecordedIsRecorded(db, OnStoreFault(th.req, th.pc)); }
    } else {
      hide AllGrounded, Counts, Coherent, TablesSound, LinksInRange, Custody, RecoveredRecorded, Recorded, OwnRecorded,
           IssueStep, MatchStep, AttestStep, DeliverStep, AtDelivering;
      match th.pc
      case Issuing(at) => IssueRecords(db, th.req, at, ev);
      case Matching(at) => MatchRecords(w, now, db, th.req, at, ev);
      case Attesting(at) => AttestRecords(w, now, db, th.req, at, ev);
      case Delivering(at) => DeliverRecords(w, now, db, th.req, at, ev);
      case _ => RestRecords(w, now, db, th.req, th.pc, ev);
    }
  }

  // ---- every run ----

  lemma LinksKept(db: Db, req: Request, pc: Pc, write: Write, req': Request, pc': Pc)
    requires LinksInRange(db) && Recorded(db, pc) && OwnRecorded(db, pc, write, req', pc')
    ensures LinksInRange(Apply(db, write))
    ensures write.PutLink? ==>
      UpdateUsesToken(db, write.link.update, pc.deliver.token) && write.link.update < |db.updates|
  {
    ApplyExtends(db, write);
  }

  lemma OthersDeliver(s: Sys, i: nat, write: Write, th': Thread, j: nat)
    requires WellBound(s.db) && DeliverySound(s) && i < |s.threads| && j < |s.threads| && i != j
    requires OwnRecorded(s.db, s.threads[i].pc, write, th'.req, th'.pc)
    ensures Recorded(Apply(s.db, write), s.threads[j].pc) && RecoveredRecorded(Apply(s.db, write), s.threads[j].req)
    ensures Apart(Sending(th'.pc), Sending(s.threads[j].pc)) && Apart(Sending(s.threads[j].pc), Sending(th'.pc))
  {
    var th, other := s.threads[i], s.threads[j];
    LinksKept(s.db, th.req, th.pc, write, th'.req, th'.pc);
    RecoveredKept(s.db, write, other.req);
    assert Apart(Sending(th.pc), Sending(other.pc)) && Apart(Sending(other.pc), Sending(th.pc));
    assert Sending(other.pc).Some? ==> Issued(s.db.tokens, Sending(other.pc).value);
    hide WellBound, Apply, RecoveredRecorded;
    RecordedKept(s.db, write, other.pc);
  }

  lemma RunDelivers(w: World, s: Sys, i: nat, ev: Event)
    requires i < |s.threads| && HandlesSound(s) && Faithful(w, s.threads[i]) && DeliverySound(s)
    ensures DeliverySound(Step(w, s, Run(i, ev)))
  {
    hide Advance, Faithful, UniqueBytes, WellBound, Custody, Disjoint, Apply, LinksInRange, Recorded,
         RecoveredRecorded, Sending;
    var th := s.threads[i];
    var (write, th') := Advance(w, s.now, s.db, th, ev);
    AdvanceRecords(w, s.now, s.db, th, ev);
    LinksKept(s.db, th.req, th.pc, write, th'.req, th'.pc);
    forall j | 0 <= j < |s.threads| && j != i
      ensures Recorded(Apply(s.db, write), s.threads[j].pc) && RecoveredRecorded(Apply(s.db, write), s.threads[j].req)
      ensures Apart(Sending(th'.pc), Sending(s.threads[j].pc)) && Apart(Sending(s.threads[j].pc), Sending(th'.pc))
    {
      OthersDeliver(s, i, write, th', j);
    }
  }

  lemma LaunchDelivers(db: Db, input: Input)
    ensures var th := Launch(input); Recorded(db, th.pc) && RecoveredRecorded(db, th.req) && Sending(th.pc).None?
  {
    var th := Launch(input);
    if input.Signed? { MatchedIsUnrecorded(th.req); }
    hide Dispatch, AfterAuthentication;
    UnrecordedIsRecorded(db, th.pc);
  }

  lemma StepDelivers(w: World, s: Sys, action: Action)
    requires HandlesSound(s) && AllFaithful(w, s) && DeliverySound(s)
    ensures DeliverySound(Step(w, s, action))
  {
    hide HandlesSound, Faithful, Advance, Apply, Launch, LinksInRange, Recorded, RecoveredRecorded, Sending;
    match action
    case Arrive(input) => LaunchDelivers(s.db, input);
    case Tick(_) =>
    case Run(i, ev) => if i < |s.threads| { RunDelivers(w, s, i, ev); }
  }

  lemma {:induction false} ExecuteDelivers(w: World, s: Sys, actions: seq<Action>)
    requires HandlesSound(s) && AllFaithful(w, s) && DeliverySound(s)
    ensures DeliverySound(Execute(w, s, actions))
    decreases |actions|
  {
    hide HandlesSound, AllFaithful, DeliverySound, Step;
    if actions != [] {
      var before := actions[..|actions| - 1];
      ExecuteDelivers(w, s, before);
      ExecuteSound(w, s, before);
      RunFaithful(w, s, before);
      StepDelivers(w, Execute(w, s, before), actions[|actions| - 1]);
    }
  }

  /** The state reached from an empty store by the actions. */
  ghost function Reached(w: World, now: int, signingKeys: seq<SigningKeyRow>, devices: seq<Bytes>,
                         actions: seq<Action>): Sys
  {
    Execute(w, Initial(now, signingKeys, devices), actions)
  }

  /** All that holds in every reached state. */
  lemma ReachedSound(w: World, now: int, signingKeys: seq<SigningKeyRow>, devices: seq<Bytes>,
                     actions: seq<Action>)
    ensures var s := Reached(w, now, signingKeys, devices, actions);
      HandlesSound(s) && AllFaithful(w, s) && DeliverySound(s)
  {
    var s0 := Initial(now, signingKeys, devices);
    InitialSound(now, signingKeys, devices);
    ExecuteSound(w, s0, actions);
    RunFaithful(w, s0, actions);
    ExecuteDelivers(w, s0, actions);
  }

  /** Once an Update has been answered, the lookup of its token, in any reached state, finds no
      QueryRequest and recovers an Update whose manifests are those sent, up to their order,
      whatever was registered since. */
  lemma UpdateRoundTrip(w: World, now: int, signingKeys: seq<SigningKeyRow>, devices: seq<Bytes>,
                        actions: seq<Action>, i: nat, answer: Option<seq<nat>>, pick: Option<nat>)
    requires var s := Reached(w, now, signingKeys, devices, actions);
      && i < |s.threads| && s.threads[i].pc.Done? && s.threads[i].pc.outcome.UpdateSent?
      && PicksUpdate(s.db, s.threads[i].pc.outcome.token, answer)
      && PicksQueryByToken(s.db, s.threads[i].pc.outcome.token, pick)
    ensures var s := Reached(w, now, signingKeys, devices, actions);
      && pick.None? && answer.Some?
      && multiset(Envelopes(s.db, answer.value)) == multiset(s.threads[i].pc.outcome.manifests)
  {
    var s := Reached(w, now, signingKeys, devices, actions);
    ReachedSound(w, now, signingKeys, devices, actions);
    hide Reached, AllFaithful, Custody;
    var token := s.threads[i].pc.outcome.token;
    assert Recorded(s.db, s.threads[i].pc);
    assert TablesSound(s.db);
    LookupsUnambiguous(s.db, token, token, pick, pick);
    hide HandlesSound, DeliverySound, TablesSound, LinkedManifests;
    SamePermuted(s.db, answer.value, Linked(s.db, token));
  }

  function Without<T>(xs: seq<T>, k: nat): seq<T>
    requires k < |xs|
  {
    xs[..k] + xs[k + 1..]
  }

  lemma MultisetWithout<T>(xs: seq<T>, k: nat)
    requires k < |xs|
    ensures multiset(xs) == multiset(Without(xs, k)) + multiset{xs[k]}
  {
    assert xs == xs[..k] + ([xs[k]] + xs[k + 1..]);
  }

  /** Two sequences with an element in common are permutations exactly when the rests are. */
  lemma PermutedWithout<T>(xs: seq<T>, ys: seq<T>, k: nat)
    requires xs != [] && k < |ys| && ys[k] == xs[0]
    ensures multiset(xs) == multiset(ys) <==> multiset(Without(xs, 0)) == multiset(Without(ys, k))
  {
    MultisetWithout(xs, 0);
    MultisetWithout(ys, k);
    hide Without;
    assert multiset(Without(xs, 0)) == multiset(xs) - multiset{xs[0]};
    assert multiset(Without(ys, k)) == multiset(ys) - multiset{xs[0]};
  }

  lemma EnvelopesWithout(db: Db, ids: seq<nat>, k: nat)
    requires k < |ids|
    ensures Envelopes(db, Without(ids, k)) == Without(Envelopes(db, ids), k)
    ensures |Without(ids, k)| < |ids|
  {
  }

  /** The same rows in another order have the same contents in another order. */
  lemma {:induction false} SamePermuted(db: Db, ids: seq<nat>, others: seq<nat>)
    requires multiset(ids) == multiset(others)
    ensures multiset(Envelopes(db, ids)) == multiset(Envelopes(db, others))
    decreases |ids|
  {
    if ids == [] {
      assert |multiset(ids)| == |multiset(others)|;
    } else {
      assert ids[0] in multiset(others);
      var k: nat :| k < |others| && others[k] == ids[0];
      hide Without;
      PermutedWithout(ids, others, k);
      EnvelopesWithout(db, ids, 0);
      EnvelopesWithout(db, others, k);
      SamePermuted(db, Without(ids, 0), Without(others, k));
      PermutedWithout(Envelopes(db, ids), Envelopes(db, others), k);
    }
  }

  /** Once a QueryRequest has been answered, looking its handle up in any reached state finds a
      row with the very bits that were requested, and no Update. */
  lemma QueryRoundTrip(w: World, now: int, signingKeys: seq<SigningKeyRow>, devices: seq<Bytes>,
                       actions: seq<Action>, i: nat, pick: Option<nat>)
    requires var s := Reached(w, now, signingKeys, devices, actions);
      && i < |s.threads| && s.threads[i].pc.Done? && s.threads[i].pc.outcome.QuerySent?
      && (match s.threads[i].pc.outcome.handle
          case TokenHandle(b) => PicksQueryByToken(s.db, b, pick)
          case ChallengeHandle(b) => PicksQueryByChallenge(s.db, b, pick))
    ensures var s := Reached(w, now, signingKeys, devices, actions);
      && pick.Some? && pick.value < |s.db.queries|
      && s.db.queries[pick.value].attestation == s.threads[i].pc.outcome.attestation
      && s.db.queries[pick.value].tcList == s.threads[i].pc.outcome.tcList
  {
    var s := Reached(w, now, signingKeys, devices, actions);
    ReachedSound(w, now, signingKeys, devices, actions);
    hide Reached, AllFaithful, Custody;
    var o := s.threads[i].pc.outcome;
    assert Recorded(s.db, s.threads[i].pc);
    var q: nat :| QueryUses(s.db, q, o.handle)
      && s.db.queries[q].attestation == o.attestation && s.db.queries[q].tcList == o.tcList;
    assert TablesSound(s.db);
    LookupsUnambiguous(s.db, o.handle.bytes, o.handle.bytes, pick, Some(q));
  }

  /** No lookup by id ever dereferences a missing manifest. */
  lemma NeverPanics(w: World, now: int, signingKeys: seq<SigningKeyRow>, devices: seq<Bytes>,
                    actions: seq<Action>, i: nat)
    requires i < |Reached(w, now, signingKeys, devices, actions).threads|
    ensures Reached(w, now, signingKeys, devices, actions).threads[i].pc != Done(Panicked)
  {
    ReachedSound(w, now, signingKeys, devices, actions);
    hide Reached, AllFaithful, HandlesSound;
    var s := Reached(w, now, signingKeys, devices, actions);
    assert Recorded(s.db, s.threads[i].pc);
  }
}
