/**
 The TAM as an interleaved state machine: every request, registration and revocation is a
 thread, and one step of a thread executes one SQL statement (or one transaction) and the
 local code up to the next one.
 */
module Machine {
  import opened Wrappers
  import opened Tables
  import opened Protocol

  datatype Goal = AskTcList | Deliver(kid: Bytes, components: seq<Bytes>)

  // The statement a thread is about to execute, with the local values it still needs,
  // phase by phase.
  datatype IssuePc =
    | DrawToken(goal: Goal)
    | AddToken(bytes: Bytes, goal: Goal)
    | DrawChallenge
    | AddChallenge(bytes: Bytes)
    | CheckQuery(handle: Handle)
    | AddQuery(handle: Handle, id: nat)

  datatype MatchPc =
    | Authenticate
    | ConsumeToken
    | FindQuery
    | FindUpdate

  datatype AttestPc =
    | ConsumeChallenge
    | FindByChallenge
    | FindKey(kid: Bytes)
    | FindDevice(kid: Bytes)
    | AddAgent(kid: Bytes, device: Option<nat>)

  datatype DeliverPc =
    | PickLatest(kid: Bytes, token: Bytes, components: seq<Bytes>, picked: seq<nat>)
    | CheckAgent(kid: Bytes, token: Bytes, picked: seq<nat>)
    | CheckToken(kid: Bytes, token: Bytes, picked: seq<nat>, agent: nat)
    | AddUpdate(kid: Bytes, token: Bytes, picked: seq<nat>, agent: nat, id: nat)
    | FindManifest(kid: Bytes, token: Bytes, picked: seq<nat>, update: nat, linked: nat)
    | AddLink(kid: Bytes, token: Bytes, picked: seq<nat>, update: nat, linked: nat)

  datatype ReportPc =
    | FindReport(kid: Bytes, n: nat)
    | Reflect(kid: Bytes, n: nat, agent: nat, manifest: nat, component: Bytes)
    | FindFailure(kid: Bytes, n: nat)
    | AddFailure(kid: Bytes, n: nat, agent: nat, about: Option<nat>)

  datatype AdminPc =
    | RegisterKey
    | RegisterLatest(key: nat)
    | RegisterInsert(key: nat)
    | Revoke

  datatype Pc =
    | Issuing(issue: IssuePc)
    | Matching(lookup: MatchPc)
    | Attesting(attest: AttestPc)
    | Delivering(deliver: DeliverPc)
    | Reporting(report: ReportPc)
    | Administering(admin: AdminPc)
    | Done(outcome: Outcome)

  /** A request and what it has achieved: the key it authenticated under, the handles it
      consumed, the sent message it obtained. */
  datatype Request = Request(
    input: Input,
    auth: Option<Bytes>,
    token: Option<Bytes>,
    challenge: Option<Bytes>,
    recovered: Option<Sent>)

  /** A request being handled, with every write it has made so far. */
  datatype Thread = Thread(req: Request, pc: Pc, log: seq<Write>)

  /** The environment's choices for one step: the random bytes drawn, the rows answered by
      lookups that leave a choice, and whether the store fails. */
  datatype Event = Event(bytes: Bytes, pick: Option<nat>, pick2: Option<nat>, list: Option<seq<nat>>, fault: bool)

  function Refuse(error: TamError): Pc { Done(Refused(error)) }

  /** Nothing fails, and these rows are picked. */
  function Choose(pick: Option<nat>, pick2: Option<nat>): Event
  {
    Event([], pick, pick2, None, false)
  }

  // ---- local code between statements ----

  function Launch(input: Input): Thread
  {
    var req := Request(input, None, None, None, None);
    Thread(req, FirstPc(req), [])
  }

  function FirstPc(req: Request): Pc
  {
    match req.input
    case EmptyBody => Issuing(DrawToken(AskTcList))
    case Unparsable(e) => Refuse(e)
    case Signed(_, message, kid, _) =>
      if kid.None? || kid.value == [] then Refuse(KidMissing)
      else if |kid.value| != 32 then AfterAuthentication(req)
      else Matching(Authenticate)
    case Registration(envelope, _, _, _, _) =>
      if envelope.None? then Refuse(ManifestMissing) else Administering(RegisterKey)
    case Revocation(kid) =>
      if |kid| != 32 then Refuse(InvalidLength) else Administering(Revoke)
  }

  function AfterAuthentication(req: Request): Pc
    requires req.input.Signed?
  {
    if req.input.message.token.None? then Dispatch(req) else Matching(ConsumeToken)
  }

  /** The switch on the message type, once the sent message (or its absence) is known. */
  function Dispatch(req: Request): Pc
    requires req.input.Signed?
  {
    match req.input.message.kind
    case KindQueryResponse =>
      if req.recovered.Some? then
        if req.auth.None? then Issuing(DrawChallenge) else Respond(req, req.auth.value)
      else Attest(req)
    case KindSuccess =>
      if req.auth.None? then Refuse(NotAuthenticated)
      else if req.recovered.None? then Refuse(NotAResponse)
      else SuccessFrom(req.auth.value, req.input.message.reports, 0)
    case KindError =>
      if req.auth.None? then Refuse(NotAuthenticated)
      else if req.recovered.None? then Refuse(NotAResponse)
      else FailureFrom(req.auth.value, req.input.message.reports, 0)
    case _ => Refuse(NotSupported)
  }

  function Attest(req: Request): Pc
    requires req.input.Signed?
  {
    if req.input.message.payload.None? then Refuse(PayloadNotFound) else
    match req.input.verdict
    case SubmitFailed(e) => Refuse(e)
    case NotAffirming => Refuse(AttestationFailed)
    case ClaimsUnreadable(e) => Refuse(e)
    case Affirming(nonce, _, _) => if nonce.None? then Refuse(NotAuthenticated) else Attesting(ConsumeChallenge)
  }

  /** The attested challenge matched a sent message: decide under which key to go on. */
  function AfterChallenge(w: World, req: Request): Pc
    requires req.input.Signed? && req.input.verdict.Affirming?
    requires req.recovered.Some?
  {
    var key := req.input.verdict.key;
    if req.auth.Some? then Respond(req, req.auth.value)
    else if req.input.message.format.OtherFormat? then Refuse(NotAuthenticated)
    else if key.None? then Refuse(NotAuthenticated)
    else if !w.usable(key.value) || !w.verifies(req.input.body, key.value) then Refuse(NotAuthenticated)
    else match w.thumbprint(key.value)
      case None => Refuse(NotAuthenticated)
      case Some(kid) => if |kid| != 32 then Respond(req, kid) else Attesting(FindKey(kid))
  }

  function Respond(req: Request, kid: Bytes): Pc
    requires req.input.Signed? && req.recovered.Some?
  {
    if BytesOf(req.input.message.token) != SentToken(req.recovered.value) then Refuse(Fatal)
    else Issuing(DrawToken(Deliver(kid, ComponentSet(req.input.message))))
  }

  function AfterToken(token: Bytes, goal: Goal): Pc
  {
    match goal
    case AskTcList => Issuing(CheckQuery(TokenHandle(token)))
    case Deliver(kid, components) =>
      if components == [] then Done(NoContent) else Delivering(PickLatest(kid, token, components, []))
  }

  function AfterPick(kid: Bytes, token: Bytes, components: seq<Bytes>, picked: seq<nat>): Pc
  {
    if components != [] then Delivering(PickLatest(kid, token, components, picked))
    else if picked == [] then Done(NoContent)
    else Delivering(CheckAgent(kid, token, picked))
  }

  function NextCounted(reports: seq<ReportItem>, n: nat): (r: nat)
    ensures n <= r
    ensures r < |reports| ==> Counted(reports[r])
    ensures forall i :: n <= i < r && i < |reports| ==> !Counted(reports[i])
    decreases |reports| - n
  {
    if n >= |reports| || Counted(reports[n]) then n else NextCounted(reports, n + 1)
  }

  function SuccessFrom(kid: Bytes, reports: seq<ReportItem>, n: nat): Pc
  {
    var m := NextCounted(reports, n);
    if m < |reports| then Reporting(FindReport(kid, m)) else Done(NoContent)
  }

  function FailureFrom(kid: Bytes, reports: seq<ReportItem>, n: nat): Pc
  {
    var m := NextCounted(reports, n);
    if m < |reports| then Reporting(FindFailure(kid, m)) else Done(NoContent)
  }

  function QueryRowFor(handle: Handle, id: nat): QueryRow
  {
    match handle
    case TokenHandle(_) => QueryRow(false, true, Some(id), None)
    case ChallengeHandle(_) => QueryRow(true, false, None, Some(id))
  }

  function NewAgent(kid: Bytes, device: Option<nat>, key: Key, now: int): AgentRow
  {
    var created := WholeSeconds(now);
    AgentRow(kid, device, key, created, created + KEY_LIFETIME, None)
  }

  function Envelopes(db: Db, ids: seq<nat>): (r: seq<Bytes>)
    ensures |r| == |ids|
  {
    seq(|ids|, i requires 0 <= i < |ids| =>
      if ids[i] < |db.manifests| then db.manifests[ids[i]].envelope else [])
  }

  const MAX_INT64: int := 0x7FFF_FFFF_FFFF_FFFF

  // ---- one statement ----

  // What executing the pending statement does; a choice of rows the lookup could not have
  // answered leaves everything as it is.

  /** Issuing handles and recording a sent QueryRequest. */
  ghost function IssueStep(db: Db, pc: IssuePc, ev: Event): (Write, Pc)
  {
    match pc
    case DrawToken(goal) =>
      if |ev.bytes| != 32 || Issued(db.tokens, ev.bytes) then (Nothing, Issuing(pc))
      else (Nothing, Issuing(AddToken(ev.bytes, goal)))
    case AddToken(b, goal) =>
      if Issued(db.tokens, b) then (Nothing, Refuse(Fatal))
      else (PutToken(b), AfterToken(b, goal))
    case DrawChallenge =>
      if |ev.bytes| != 32 || Issued(db.challenges, ev.bytes) then (Nothing, Issuing(pc))
      else (Nothing, Issuing(AddChallenge(ev.bytes)))
    case AddChallenge(b) =>
      if Issued(db.challenges, b) then (Nothing, Refuse(Fatal))
      else (PutChallenge(b), Issuing(CheckQuery(ChallengeHandle(b))))
    case CheckQuery(handle) =>
      var rows := if handle.TokenHandle? then db.tokens else db.challenges;
      if !PicksHandle(rows, handle.bytes, ev.pick) then (Nothing, Issuing(pc))
      else if ev.pick.None? || rows[ev.pick.value].consumed then (Nothing, Refuse(Fatal))
      else (Nothing, Issuing(AddQuery(handle, ev.pick.value)))
    case AddQuery(handle, id) =>
      var row := QueryRowFor(handle, id);
      (PutQuery(row), Done(QuerySent(handle, row.attestation, row.tcList)))
  }

  /** Authenticating the message and finding the sent message it answers. */
  ghost function MatchStep(w: World, now: int, db: Db, req: Request, pc: MatchPc, ev: Event): (Write, Request, Pc)
    requires req.input.Signed?
  {
    var stay := (Nothing, req, Matching(pc));
    match pc
    case Authenticate =>
      if req.input.kid.None? || !PicksAgent(db.agents, req.input.kid.value, ev.pick) then stay
      else if ev.pick.None? || !Live(db.agents[ev.pick.value], now) then (Nothing, req, AfterAuthentication(req))
      else
        var key := db.agents[ev.pick.value].publicKey;
        if !w.usable(key) then (Nothing, req, Refuse(Fatal))
        else if !w.verifies(req.input.body, key) then (Nothing, req, AfterAuthentication(req))
        else
          var known := req.(auth := req.input.kid);
          (Nothing, known, AfterAuthentication(known))
    case ConsumeToken =>
      if req.input.message.token.None? then stay
      else
        var b := req.input.message.token.value;
        if Unconsumed(db.tokens, b) then (UseToken(b), req.(token := Some(b)), Matching(FindQuery))
        else (Nothing, req, Dispatch(req))
    case FindQuery =>
      if req.token.None? || !PicksQueryByToken(db, req.token.value, ev.pick) then stay
      else if ev.pick.None? then (Nothing, req, Matching(FindUpdate))
      else
        var q := db.queries[ev.pick.value];
        var found := req.(recovered := Some(SentQuery(TokenHandle(req.token.value), q.attestation, q.tcList)));
        (Nothing, found, Dispatch(found))
    case FindUpdate =>
      if req.token.None? || !PicksUpdate(db, req.token.value, ev.list) then stay
      else if ev.list.None? then (Nothing, req, Dispatch(req))
      else
        var found := req.(recovered := Some(SentUpdate(req.token.value, Envelopes(db, ev.list.value))));
        (Nothing, found, Dispatch(found))
  }

  /** Matching the attested challenge and storing the attested key. */
  ghost function AttestStep(w: World, now: int, db: Db, req: Request, pc: AttestPc, ev: Event): (Write, Request, Pc)
    requires req.input.Signed? && req.input.verdict.Affirming?
  {
    var stay := (Nothing, req, Attesting(pc));
    match pc
    case ConsumeChallenge =>
      if req.input.verdict.nonce.None? then stay
      else
        var b := req.input.verdict.nonce.value;
        if Unconsumed(db.challenges, b) then (UseChallenge(b), req.(challenge := Some(b)), Attesting(FindByChallenge))
        else (Nothing, req, Refuse(NotAuthenticated))
    case FindByChallenge =>
      if req.challenge.None? || !PicksQueryByChallenge(db, req.challenge.value, ev.pick) then stay
      else if ev.pick.None? then (Nothing, req, Refuse(NotAuthenticated))
      else
        var q := db.queries[ev.pick.value];
        var found := req.(recovered := Some(SentQuery(ChallengeHandle(req.challenge.value), q.attestation, q.tcList)));
        (Nothing, found, AfterChallenge(w, found))
    case FindKey(kid) =>
      if req.recovered.None? || !PicksAgent(db.agents, kid, ev.pick) then stay
      else if ev.pick.Some? then
        (Nothing, req, if db.agents[ev.pick.value].expiredAt < now then Refuse(Fatal) else Respond(req, kid))
      else (Nothing, req, Attesting(if req.input.verdict.ueid.None? then AddAgent(kid, None) else FindDevice(kid)))
    case FindDevice(kid) =>
      if req.input.verdict.ueid.None? || !PicksDevice(db.devices, req.input.verdict.ueid.value, ev.pick) then stay
      else (Nothing, req, Attesting(AddAgent(kid, ev.pick)))
    case AddAgent(kid, device) =>
      if req.input.verdict.key.None? || req.recovered.None? then stay
      else if KnownAgent(db.agents, kid) then (Nothing, req, Refuse(Fatal))
      else (PutAgent(NewAgent(kid, device, req.input.verdict.key.value, now)), req, Respond(req, kid))
  }

  /** Choosing manifests and recording a sent Update. */
  ghost function DeliverStep(now: int, db: Db, pc: DeliverPc, ev: Event): (Write, Pc)
  {
    var stay := (Nothing, Delivering(pc));
    match pc
    case PickLatest(kid, token, components, picked) =>
      if components == [] || !PicksLatest(db.manifests, components[0], ev.pick) then stay
      else (Nothing, AfterPick(kid, token, components[1..], if ev.pick.None? then picked else picked + [ev.pick.value]))
    case CheckAgent(kid, token, picked) =>
      if !PicksAgent(db.agents, kid, ev.pick) then stay
      else if ev.pick.None? || !Live(db.agents[ev.pick.value], now) then (Nothing, Refuse(Fatal))
      else (Nothing, Delivering(CheckToken(kid, token, picked, ev.pick.value)))
    case CheckToken(kid, token, picked, agent) =>
      if !PicksHandle(db.tokens, token, ev.pick) then stay
      else if ev.pick.None? || db.tokens[ev.pick.value].consumed then (Nothing, Refuse(Fatal))
      else (Nothing, Delivering(AddUpdate(kid, token, picked, agent, ev.pick.value)))
    case AddUpdate(kid, token, picked, agent, id) =>
      (PutUpdate(UpdateRow(agent, id)), Delivering(FindManifest(kid, token, picked, |db.updates|, 0)))
    case FindManifest(kid, token, picked, update, linked) =>
      if linked >= |picked| then stay
      else if picked[linked] >= |db.manifests| then (Nothing, Done(Panicked))
      else (Nothing, Delivering(AddLink(kid, token, picked, update, linked)))
    case AddLink(kid, token, picked, update, linked) =>
      if linked >= |picked| then stay
      else (PutLink(LinkRow(update, picked[linked])),
            if linked + 1 < |picked| then Delivering(FindManifest(kid, token, picked, update, linked + 1))
            else Done(UpdateSent(kid, token, Envelopes(db, picked))))
  }

  /** Acting on the reports of a Success or an Error. */
  ghost function ReportStep(now: int, db: Db, reports: seq<ReportItem>, pc: ReportPc, ev: Event): (Write, Pc)
    requires pc.n < |reports| && Counted(reports[pc.n])
  {
    var report := reports[pc.n];
    match pc
    case FindReport(kid, n) =>
      if !PicksAgent(db.agents, kid, ev.pick) || !PicksManifestByDigest(db.manifests, DigestKey(report), ev.pick2)
      then (Nothing, Reporting(pc))
      else if ev.pick.None? || ev.pick2.None? then (Nothing, SuccessFrom(kid, reports, n + 1))
      else (Nothing, Reporting(Reflect(kid, n, ev.pick.value, ev.pick2.value, db.manifests[ev.pick2.value].component)))
    case Reflect(kid, n, agent, manifest, component) =>
      (if HoldCollides(db, agent, manifest, component) then Nothing
       else Hold(agent, manifest, component, WholeSeconds(now), report.raw),
       SuccessFrom(kid, reports, n + 1))
    case FindFailure(kid, n) =>
      if !PicksAgent(db.agents, kid, ev.pick) || !PicksManifestByDigest(db.manifests, DigestKey(report), ev.pick2)
      then (Nothing, Reporting(pc))
      else if ev.pick.None? then (Nothing, FailureFrom(kid, reports, n + 1))
      else (Nothing, Reporting(AddFailure(kid, n, ev.pick.value, ev.pick2)))
    case AddFailure(kid, n, agent, about) =>
      (PutReport(ReportRow(agent, about, report.raw, false)), FailureFrom(kid, reports, n + 1))
  }

  /** Registering a manifest. */
  ghost function RegisterStep(db: Db, input: Input, pc: AdminPc, ev: Event): (Write, Pc)
    requires input.Registration? && input.envelope.Some?
  {
    var stay := (Nothing, Administering(pc));
    match pc
    case RegisterKey =>
      if !PicksSigningKey(db.signingKeys, input.signer, ev.pick) then stay
      else (Nothing, if ev.pick.None? then Refuse(NotAuthenticated) else Administering(RegisterLatest(ev.pick.value)))
    case RegisterLatest(key) =>
      if !PicksLatest(db.manifests, input.component, ev.pick) then stay
      else if ev.pick.Some? && Unsigned64(db.manifests[ev.pick.value].sequenceNumber) >= input.sequenceNumber then
        (Nothing, Refuse(SmallerSequenceNumber))
      else if ev.pick.Some? && db.manifests[ev.pick.value].signingKey != key then
        (Nothing, Refuse(SigningKeyMismatch))
      else if input.sequenceNumber >= MAX_INT64 then (Nothing, Refuse(SequenceTooLarge))
      else (Nothing, Administering(RegisterInsert(key)))
    case RegisterInsert(key) => (PutManifest(NewManifest(input, key)), Done(Registered))
    case Revoke => stay
  }

  function NewManifest(input: Input, key: nat): ManifestRow
    requires input.Registration? && input.envelope.Some?
  {
    ManifestRow(input.envelope.value, input.digest, key, input.component, Signed64(input.sequenceNumber))
  }

  ghost function RevokeStep(now: int, db: Db, kid: Bytes): (Write, Pc)
  {
    if exists a :: 0 <= a < |db.agents| && db.agents[a].kid == kid && db.agents[a].revokedAt.None?
    then (RevokeAgent(kid, WholeSeconds(now)), Done(RevokedNow))
    else (Nothing, Refuse(NotFound))
  }

  /** The write, the request and the next statement after executing the pending one. */
  ghost function Next(w: World, now: int, db: Db, req: Request, pc: Pc, ev: Event): (Write, Request, Pc)
  {
    var stay := (Nothing, req, pc);
    match pc
    case Issuing(at) => var (write, pc') := IssueStep(db, at, ev); (write, req, pc')
    case Matching(at) => if req.input.Signed? then MatchStep(w, now, db, req, at, ev) else stay
    case Attesting(at) =>
      if req.input.Signed? && req.input.verdict.Affirming? then AttestStep(w, now, db, req, at, ev) else stay
    case Delivering(at) => var (write, pc') := DeliverStep(now, db, at, ev); (write, req, pc')
    case Reporting(at) =>
      if req.input.Signed? && at.n < |req.input.message.reports| && Counted(req.input.message.reports[at.n]) then
        var (write, pc') := ReportStep(now, db, req.input.message.reports, at, ev); (write, req, pc')
      else stay
    case Administering(at) =>
      if req.input.Registration? && req.input.envelope.Some? then
        var (write, pc') := RegisterStep(db, req.input, at, ev); (write, req, pc')
      else if req.input.Revocation? then
        var (write, pc') := RevokeStep(now, db, req.input.revoked); (write, req, pc')
      else stay
    case Done(_) => stay
  }

  /** How a request goes on when the store fails the pending statement. */
  function OnStoreFault(req: Request, pc: Pc): Pc
  {
    match pc
    case Issuing(_) => Refuse(Fatal)
    case Matching(at) =>
      if !req.input.Signed? then pc
      else if at.Authenticate? then AfterAuthentication(req)
      else Dispatch(req)
    case Attesting(at) =>
      if at.ConsumeChallenge? || at.FindByChallenge? then Refuse(NotAuthenticated)
      else if at.FindDevice? then Attesting(AddAgent(at.kid, None))
      else Refuse(Fatal)
    case Delivering(_) => Refuse(Fatal)
    case Reporting(at) =>
      if !req.input.Signed? then pc
      else if at.FindReport? || at.Reflect? then SuccessFrom(at.kid, req.input.message.reports, at.n + 1)
      else FailureFrom(at.kid, req.input.message.reports, at.n + 1)
    case Administering(at) => Refuse(if at.RegisterKey? then NotAuthenticated else Fatal)
    case Done(_) => pc
  }

  function Logged(log: seq<Write>, write: Write): seq<Write>
  {
    if write.Nothing? then log else log + [write]
  }

  /** One step of one thread, its write entered in its log. */
  ghost function Advance(w: World, now: int, db: Db, th: Thread, ev: Event): (Write, Thread)
  {
    if ev.fault then (Nothing, th.(pc := OnStoreFault(th.req, th.pc)))
    else
      var (write, req, pc) := Next(w, now, db, th.req, th.pc, ev);
      (write, Thread(req, pc, Logged(th.log, write)))
  }

  // ---- the whole system ----

  datatype Sys = Sys(now: int, db: Db, threads: seq<Thread>)

  datatype Action =
    | Arrive(input: Input)
    | Run(thread: nat, event: Event)
    | Tick(elapsed: nat)

  function Initial(now: int, signingKeys: seq<SigningKeyRow>, devices: seq<Bytes>): Sys
  {
    Sys(now, EmptyDb(signingKeys, devices), [])
  }

  ghost function Step(w: World, s: Sys, action: Action): Sys
  {
    match action
    case Arrive(input) => s.(threads := s.threads + [Launch(input)])
    case Tick(elapsed) => s.(now := s.now + elapsed)
    case Run(i, ev) =>
      if i >= |s.threads| then s
      else
        var (write, th) := Advance(w, s.now, s.db, s.threads[i], ev);
        Sys(s.now, Apply(s.db, write), s.threads[i := th])
  }

  /** The state after any sequence of actions. */
  ghost function Execute(w: World, s: Sys, actions: seq<Action>): Sys
    decreases |actions|
  {
    if actions == [] then s
    else Step(w, Execute(w, s, actions[..|actions| - 1]), actions[|actions| - 1])
  }

  lemma {:induction false} ExecuteFirst(w: World, s: Sys, first: Action, rest: seq<Action>)
    ensures Execute(w, s, [first] + rest) == Execute(w, Step(w, s, first), rest)
    decreases |rest|
  {
    hide Step;
    var all := [first] + rest;
    if rest == [] {
      assert all[..|all| - 1] == [];
    } else {
      ExecuteFirst(w, s, first, rest[..|rest| - 1]);
      assert all[..|all| - 1] == [first] + rest[..|rest| - 1];
    }
  }

  lemma ExecuteLast(w: World, s: Sys, actions: seq<Action>, last: Action)
    ensures Execute(w, s, actions + [last]) == Step(w, Execute(w, s, actions), last)
  {
    hide Step;
    assert (actions + [last])[..|actions|] == actions;
  }

  /** Running on from where a run ended. */
  lemma {:induction false} ExecuteAppended(w: World, s: Sys, actions: seq<Action>, more: seq<Action>)
    ensures Execute(w, s, actions + more) == Execute(w, Execute(w, s, actions), more)
    decreases |more|
  {
    hide Step;
    if more == [] {
      assert actions + more == actions;
    } else {
      ExecuteAppended(w, s, actions, more[..|more| - 1]);
      assert (actions + more)[..|actions + more| - 1] == actions + more[..|more| - 1];
    }
  }

  lemma LaunchKeepsInput(input: Input)
    ensures Launch(input).req.input == input
  {
  }

  lemma StepExtends(w: World, s: Sys, action: Action)
    ensures Extends(s.db, Step(w, s, action).db) && s.now <= Step(w, s, action).now
    ensures |s.threads| <= |Step(w, s, action).threads|
  {
    hide Advance, Apply, Launch;
    if action.Run? && action.thread < |s.threads| {
      ApplyExtends(s.db, Advance(w, s.now, s.db, s.threads[action.thread], action.event).0);
    } else {
      ApplyExtends(s.db, Nothing);
      assert Apply(s.db, Nothing) == s.db by { ApplyNothing(s.db); }
    }
  }

  lemma ApplyNothing(db: Db)
    ensures Apply(db, Nothing) == db
  {
  }

  /** Over any run nothing stored is lost and no flag is taken back. */
  lemma {:induction false} RunExtends(w: World, s: Sys, actions: seq<Action>)
    ensures Extends(s.db, Execute(w, s, actions).db) && s.now <= Execute(w, s, actions).now
    ensures |s.threads| <= |Execute(w, s, actions).threads|
    decreases |actions|
  {
    hide Step, Extends;
    if actions == [] {
      ApplyExtends(s.db, Nothing);
      ApplyNothing(s.db);
    } else {
      var before := Execute(w, s, actions[..|actions| - 1]);
      RunExtends(w, s, actions[..|actions| - 1]);
      StepExtends(w, before, actions[|actions| - 1]);
      ExtendsTransitive(s.db, before.db, Execute(w, s, actions).db);
    }
  }
}
