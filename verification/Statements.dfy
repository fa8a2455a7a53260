/**
 What each pending statement does when a request runs alone: the link between the sequential
 program and the interleaved machine, statement by statement.
 */
module Statements {
  import opened Wrappers
  import opened Tables
  import opened Protocol
  import opened Machine
  import opened Solo
  import opened Repositories

  function Drawn(bytes: Bytes): Event
  {
    Event(bytes, None, None, None, false)
  }

  function Answered(list: Option<seq<nat>>): Event
  {
    Event([], None, None, list, false)
  }

  const FAULT := Event([], None, None, None, true)

  lemma LeadsNext(w: World, a: Config, b: Config, now: int, ev: Event)
    requires Leads(w, a, b) && b.now <= now && !ev.fault
    ensures var (write, req, pc) := Next(w, now, b.db, b.req, b.pc, ev);
      Leads(w, a, Config(now, Apply(b.db, write), req, pc))
  {
    hide Leads, Next, Apply;
    LeadsOn(w, a, b, Tock(now - b.now, ev));
  }

  /** The random source has failed. */
  lemma LeadsFault(w: World, a: Config, b: Config)
    requires Leads(w, a, b) && Drawing(b.pc)
    ensures Leads(w, a, b.(pc := OnStoreFault(b.req, b.pc)))
  {
    hide Leads, OnStoreFault;
    LeadsOn(w, a, b, Tock(0, FAULT));
    ApplyNothing(b.db);
  }

  // ---- issuing ----

  lemma LeadsToken(w: World, a: Config, b: Config, goal: Goal, bytes: Bytes)
    requires Leads(w, a, b) && b.pc == Issuing(DrawToken(goal)) && |bytes| == 32 && !Issued(b.db.tokens, bytes)
    ensures Leads(w, a, Config(b.now, Apply(b.db, PutToken(bytes)), b.req, AfterToken(bytes, goal)))
  {
    hide Leads, Issued;
    LeadsNext(w, a, b, b.now, Drawn(bytes));
    ApplyNothing(b.db);
    var mid := b.(pc := Issuing(AddToken(bytes, goal)));
    LeadsNext(w, a, mid, b.now, Drawn([]));
  }

  lemma LeadsChallenge(w: World, a: Config, b: Config, bytes: Bytes)
    requires Leads(w, a, b) && b.pc == Issuing(DrawChallenge) && |bytes| == 32 && !Issued(b.db.challenges, bytes)
    ensures Leads(w, a,
                  Config(b.now, Apply(b.db, PutChallenge(bytes)), b.req, Issuing(CheckQuery(ChallengeHandle(bytes)))))
  {
    hide Leads, Issued;
    LeadsNext(w, a, b, b.now, Drawn(bytes));
    ApplyNothing(b.db);
    var mid := b.(pc := Issuing(AddChallenge(bytes)));
    LeadsNext(w, a, mid, b.now, Drawn([]));
  }

  lemma LeadsQuery(w: World, a: Config, b: Config, handle: Handle, pick: Option<nat>)
    requires Leads(w, a, b) && b.pc == Issuing(CheckQuery(handle))
    requires PicksHandle(if handle.TokenHandle? then b.db.tokens else b.db.challenges, handle.bytes, pick)
    ensures if pick.None? || (if handle.TokenHandle? then b.db.tokens else b.db.challenges)[pick.value].consumed then
        Leads(w, a, b.(pc := Refuse(Fatal)))
      else
        var row := QueryRowFor(handle, pick.value);
        Leads(w, a, Config(b.now, Apply(b.db, PutQuery(row)), b.req,
                           Done(QuerySent(handle, row.attestation, row.tcList))))
  {
    hide Leads;
    LeadsNext(w, a, b, b.now, Choose(pick, None));
    ApplyNothing(b.db);
    if pick.Some? && !(if handle.TokenHandle? then b.db.tokens else b.db.challenges)[pick.value].consumed {
      var mid := b.(pc := Issuing(AddQuery(handle, pick.value)));
      LeadsNext(w, a, mid, b.now, Choose(None, None));
    }
  }

  // ---- matching ----

  lemma LeadsAuthenticate(w: World, a: Config, b: Config, now: int, pick: Option<nat>)
    requires Leads(w, a, b) && b.now <= now && b.pc == Matching(Authenticate)
    requires b.req.input.Signed? && b.req.input.kid.Some? && PicksAgent(b.db.agents, b.req.input.kid.value, pick)
    ensures
      if pick.None? || !Live(b.db.agents[pick.value], now) then
        Leads(w, a, Config(now, b.db, b.req, AfterAuthentication(b.req)))
      else if !w.usable(b.db.agents[pick.value].publicKey) then Leads(w, a, Config(now, b.db, b.req, Refuse(Fatal)))
      else if !w.verifies(b.req.input.body, b.db.agents[pick.value].publicKey) then
        Leads(w, a, Config(now, b.db, b.req, AfterAuthentication(b.req)))
      else
        var known := b.req.(auth := b.req.input.kid);
        Leads(w, a, Config(now, b.db, known, AfterAuthentication(known)))
  {
    hide Leads, AfterAuthentication, Dispatch;
    LeadsNext(w, a, b, now, Choose(pick, None));
    ApplyNothing(b.db);
  }

  lemma LeadsConsumeToken(w: World, a: Config, b: Config, bytes: Bytes)
    requires Leads(w, a, b) && b.pc == Matching(ConsumeToken) && b.req.input.Signed?
    requires b.req.input.message.token == Some(bytes)
    ensures if Unconsumed(b.db.tokens, bytes) then
        Leads(w, a, Config(b.now, Apply(b.db, UseToken(bytes)), b.req.(token := Some(bytes)), Matching(FindQuery)))
      else Leads(w, a, b.(pc := Dispatch(b.req)))
  {
    hide Leads, Dispatch, Unconsumed;
    LeadsNext(w, a, b, b.now, Choose(None, None));
    ApplyNothing(b.db);
  }

  lemma LeadsFindQuery(w: World, a: Config, b: Config, bytes: Bytes, pick: Option<nat>)
    requires Leads(w, a, b) && b.pc == Matching(FindQuery) && b.req.input.Signed? && b.req.token == Some(bytes)
    requires PicksQueryByToken(b.db, bytes, pick)
    ensures if pick.None? then Leads(w, a, b.(pc := Matching(FindUpdate)))
      else
        var q := b.db.queries[pick.value];
        var found := b.req.(recovered := Some(SentQuery(TokenHandle(bytes), q.attestation, q.tcList)));
        Leads(w, a, b.(req := found, pc := Dispatch(found)))
  {
    hide Leads, Dispatch;
    LeadsNext(w, a, b, b.now, Choose(pick, None));
    ApplyNothing(b.db);
  }

  lemma LeadsFindUpdate(w: World, a: Config, b: Config, bytes: Bytes, answer: Option<seq<nat>>)
    requires Leads(w, a, b) && b.pc == Matching(FindUpdate) && b.req.input.Signed? && b.req.token == Some(bytes)
    requires PicksUpdate(b.db, bytes, answer)
    ensures if answer.None? then Leads(w, a, b.(pc := Dispatch(b.req)))
      else
        var found := b.req.(recovered := Some(SentUpdate(bytes, Envelopes(b.db, answer.value))));
        Leads(w, a, b.(req := found, pc := Dispatch(found)))
  {
    hide Leads, Dispatch, PicksUpdate;
    LeadsNext(w, a, b, b.now, Answered(answer));
    ApplyNothing(b.db);
  }

  // ---- attesting ----

  predicate Affirmed(req: Request)
  {
    req.input.Signed? && req.input.verdict.Affirming?
  }

  lemma LeadsConsumeChallenge(w: World, a: Config, b: Config, bytes: Bytes)
    requires Leads(w, a, b) && b.pc == Attesting(ConsumeChallenge) && Affirmed(b.req)
    requires b.req.input.verdict.nonce == Some(bytes)
    ensures if Unconsumed(b.db.challenges, bytes) then
        Leads(w, a, Config(b.now, Apply(b.db, UseChallenge(bytes)), b.req.(challenge := Some(bytes)),
                           Attesting(FindByChallenge)))
      else Leads(w, a, b.(pc := Refuse(NotAuthenticated)))
  {
    hide Leads, Unconsumed;
    LeadsNext(w, a, b, b.now, Choose(None, None));
    ApplyNothing(b.db);
  }

  lemma LeadsFindByChallenge(w: World, a: Config, b: Config, bytes: Bytes, pick: Option<nat>)
    requires Leads(w, a, b) && b.pc == Attesting(FindByChallenge) && Affirmed(b.req) && b.req.challenge == Some(bytes)
    requires PicksQueryByChallenge(b.db, bytes, pick)
    ensures if pick.None? then Leads(w, a, b.(pc := Refuse(NotAuthenticated)))
      else
        var q := b.db.queries[pick.value];
        var found := b.req.(recovered := Some(SentQuery(ChallengeHandle(bytes), q.attestation, q.tcList)));
        Leads(w, a, b.(req := found, pc := AfterChallenge(w, found)))
  {
    hide Leads, AfterChallenge;
    LeadsNext(w, a, b, b.now, Choose(pick, None));
    ApplyNothing(b.db);
  }

  lemma LeadsFindKey(w: World, a: Config, b: Config, kid: Bytes, now: int, pick: Option<nat>)
    requires Leads(w, a, b) && b.now <= now && b.pc == Attesting(FindKey(kid)) && Affirmed(b.req)
    requires b.req.recovered.Some?
    requires PicksAgent(b.db.agents, kid, pick)
    ensures
      if pick.Some? then
        Leads(w, a, Config(now, b.db, b.req,
          if b.db.agents[pick.value].expiredAt < now then Refuse(Fatal) else Respond(b.req, kid)))
      else
        Leads(w, a, Config(now, b.db, b.req,
          Attesting(if b.req.input.verdict.ueid.None? then AddAgent(kid, None) else FindDevice(kid))))
  {
    hide Leads, Respond;
    LeadsNext(w, a, b, now, Choose(pick, None));
    ApplyNothing(b.db);
  }

  lemma LeadsFindDevice(w: World, a: Config, b: Config, kid: Bytes, pick: Option<nat>)
    requires Leads(w, a, b) && b.pc == Attesting(FindDevice(kid)) && Affirmed(b.req) && b.req.input.verdict.ueid.Some?
    requires PicksDevice(b.db.devices, b.req.input.verdict.ueid.value, pick)
    ensures Leads(w, a, b.(pc := Attesting(AddAgent(kid, pick))))
  {
    hide Leads;
    LeadsNext(w, a, b, b.now, Choose(pick, None));
    ApplyNothing(b.db);
  }

  lemma LeadsAddAgent(w: World, a: Config, b: Config, kid: Bytes, device: Option<nat>, now: int)
    requires Leads(w, a, b) && b.now <= now && b.pc == Attesting(AddAgent(kid, device)) && Affirmed(b.req)
    requires b.req.input.verdict.key.Some? && b.req.recovered.Some?
    ensures if KnownAgent(b.db.agents, kid) then Leads(w, a, Config(now, b.db, b.req, Refuse(Fatal)))
      else Leads(w, a, Config(now, Apply(b.db, PutAgent(NewAgent(kid, device, b.req.input.verdict.key.value, now))),
                              b.req, Respond(b.req, kid)))
  {
    hide Leads, Respond, KnownAgent, NewAgent;
    LeadsNext(w, a, b, now, Choose(None, None));
    ApplyNothing(b.db);
  }

  // ---- delivering ----

  lemma LeadsPickLatest(w: World, a: Config, b: Config, pick: Option<nat>)
    requires Leads(w, a, b) && b.pc.Delivering? && b.pc.deliver.PickLatest? && b.pc.deliver.components != []
    requires PicksLatest(b.db.manifests, b.pc.deliver.components[0], pick)
    ensures var at := b.pc.deliver;
      Leads(w, a, b.(pc := AfterPick(at.kid, at.token, at.components[1..],
                                     if pick.None? then at.picked else at.picked + [pick.value])))
  {
    hide Leads, AfterPick, PicksLatest;
    LeadsNext(w, a, b, b.now, Choose(pick, None));
    ApplyNothing(b.db);
  }

  /** What is stored once an Update and its links are in. */
  function WithUpdate(db: Db, row: UpdateRow, picked: seq<nat>): Db
  {
    db.(updates := db.updates + [row], links := db.links + LinksFor(|db.updates|, picked))
  }

  lemma LeadsCheckAgent(w: World, a: Config, b: Config, now: int, agent: Option<nat>)
    requires Leads(w, a, b) && b.now <= now && b.pc.Delivering? && b.pc.deliver.CheckAgent?
    requires PicksAgent(b.db.agents, b.pc.deliver.kid, agent)
    ensures var at := b.pc.deliver;
      if agent.None? || !Live(b.db.agents[agent.value], now) then Leads(w, a, Config(now, b.db, b.req, Refuse(Fatal)))
      else Leads(w, a, Config(now, b.db, b.req, Delivering(CheckToken(at.kid, at.token, at.picked, agent.value))))
  {
    hide Leads;
    LeadsNext(w, a, b, now, Choose(agent, None));
    ApplyNothing(b.db);
  }

  lemma LeadsCheckToken(w: World, a: Config, b: Config, id: Option<nat>)
    requires Leads(w, a, b) && b.pc.Delivering? && b.pc.deliver.CheckToken?
    requires PicksHandle(b.db.tokens, b.pc.deliver.token, id)
    ensures var at := b.pc.deliver;
      if id.None? || b.db.tokens[id.value].consumed then Leads(w, a, b.(pc := Refuse(Fatal)))
      else
        Leads(w, a, Config(b.now, WithUpdate(b.db, UpdateRow(at.agent, id.value), []), b.req,
                           Delivering(FindManifest(at.kid, at.token, at.picked, |b.db.updates|, 0))))
  {
    hide Leads;
    var at := b.pc.deliver;
    LeadsNext(w, a, b, b.now, Choose(id, None));
    ApplyNothing(b.db);
    if id.Some? && !b.db.tokens[id.value].consumed {
      var mid := b.(pc := Delivering(AddUpdate(at.kid, at.token, at.picked, at.agent, id.value)));
      LeadsNext(w, a, mid, b.now, Choose(None, None));
      assert Apply(b.db, PutUpdate(UpdateRow(at.agent, id.value))) ==
        WithUpdate(b.db, UpdateRow(at.agent, id.value), []);
    }
  }

  lemma LeadsLink(w: World, a: Config, b: Config)
    requires Leads(w, a, b) && b.pc.Delivering? && b.pc.deliver.FindManifest?
    requires b.pc.deliver.linked < |b.pc.deliver.picked|
    requires b.pc.deliver.picked[b.pc.deliver.linked] < |b.db.manifests|
    ensures var at := b.pc.deliver;
      Leads(w, a, Config(b.now, Apply(b.db, PutLink(LinkRow(at.update, at.picked[at.linked]))), b.req,
        if at.linked + 1 < |at.picked| then
          Delivering(FindManifest(at.kid, at.token, at.picked, at.update, at.linked + 1))
        else Done(UpdateSent(at.kid, at.token, Envelopes(b.db, at.picked)))))
  {
    hide Leads, Envelopes;
    var at := b.pc.deliver;
    LeadsNext(w, a, b, b.now, Choose(None, None));
    ApplyNothing(b.db);
    var mid := b.(pc := Delivering(AddLink(at.kid, at.token, at.picked, at.update, at.linked)));
    LeadsNext(w, a, mid, b.now, Choose(None, None));
  }

  /** From linked manifests on, all the remaining links and the answer. */
  lemma {:induction false} LeadsLinks(w: World, a: Config, b: Config, db: Db, row: UpdateRow)
    requires Leads(w, a, b) && b.pc.Delivering? && b.pc.deliver.FindManifest?
    requires b.pc.deliver.linked < |b.pc.deliver.picked|
    requires forall i :: 0 <= i < |b.pc.deliver.picked| ==> b.pc.deliver.picked[i] < |db.manifests|
    requires b.pc.deliver.update == |db.updates|
    requires b.db == WithUpdate(db, row, b.pc.deliver.picked[..b.pc.deliver.linked])
    ensures var at := b.pc.deliver;
      Leads(w, a, Config(b.now, WithUpdate(db, row, at.picked), b.req,
                         Done(UpdateSent(at.kid, at.token, Envelopes(db, at.picked)))))
    decreases |b.pc.deliver.picked| - b.pc.deliver.linked
  {
    hide Leads;
    var at := b.pc.deliver;
    LeadsLink(w, a, b);
    var more := at.picked[..at.linked + 1];
    assert LinksFor(at.update, more) ==
      LinksFor(at.update, at.picked[..at.linked]) + [LinkRow(at.update, at.picked[at.linked])];
    assert Apply(b.db, PutLink(LinkRow(at.update, at.picked[at.linked]))) == WithUpdate(db, row, more);
    hide Apply, LinksFor;
    assert Envelopes(b.db, at.picked) == Envelopes(db, at.picked);
    if at.linked + 1 < |at.picked| {
      var next := Config(b.now, WithUpdate(db, row, more), b.req,
                         Delivering(FindManifest(at.kid, at.token, at.picked, at.update, at.linked + 1)));
      LeadsLinks(w, a, next, db, row);
    } else {
      assert more == at.picked;
    }
  }

  // ---- reporting ----

  predicate AtReport(req: Request, n: nat)
  {
    req.input.Signed? && n < |req.input.message.reports| && Counted(req.input.message.reports[n])
  }

  lemma LeadsReflect(w: World, a: Config, b: Config, kid: Bytes, n: nat, now: int,
                     agent: Option<nat>, manifest: Option<nat>)
    requires Leads(w, a, b) && b.now <= now && b.pc == Reporting(FindReport(kid, n)) && AtReport(b.req, n)
    requires PicksAgent(b.db.agents, kid, agent)
    requires PicksManifestByDigest(b.db.manifests, DigestKey(b.req.input.message.reports[n]), manifest)
    ensures var reports := b.req.input.message.reports;
      if agent.None? || manifest.None?
         || HoldCollides(b.db, agent.value, manifest.value, b.db.manifests[manifest.value].component) then
        Leads(w, a, Config(now, b.db, b.req, SuccessFrom(kid, reports, n + 1)))
      else
        Leads(w, a, Config(now, Apply(b.db, Hold(agent.value, manifest.value, b.db.manifests[manifest.value].component,
                                                 WholeSeconds(now), reports[n].raw)),
                           b.req, SuccessFrom(kid, reports, n + 1)))
  {
    hide Leads, SuccessFrom, HoldCollides, DigestKey, PicksAgent, Counted;
    PicksRows(b.db, kid, DigestKey(b.req.input.message.reports[n]), agent, manifest);
    hide PicksManifestByDigest;
    LeadsNext(w, a, b, now, Choose(agent, manifest));
    ApplyNothing(b.db);
    if agent.Some? && manifest.Some? {
      var mid := Config(now, b.db, b.req,
        Reporting(Reflect(kid, n, agent.value, manifest.value, b.db.manifests[manifest.value].component)));
      LeadsNext(w, a, mid, now, Choose(None, None));
    }
  }

  lemma PicksRows(db: Db, kid: Bytes, digest: Bytes, agent: Option<nat>, manifest: Option<nat>)
    requires PicksAgent(db.agents, kid, agent) && PicksManifestByDigest(db.manifests, digest, manifest)
    ensures agent.Some? ==> agent.value < |db.agents|
    ensures manifest.Some? ==> manifest.value < |db.manifests|
  {
  }

  lemma LeadsFailure(w: World, a: Config, b: Config, kid: Bytes, n: nat,
                     agent: Option<nat>, about: Option<nat>)
    requires Leads(w, a, b) && b.pc == Reporting(FindFailure(kid, n)) && AtReport(b.req, n)
    requires PicksAgent(b.db.agents, kid, agent)
    requires PicksManifestByDigest(b.db.manifests, DigestKey(b.req.input.message.reports[n]), about)
    ensures var reports := b.req.input.message.reports;
      if agent.None? then Leads(w, a, b.(pc := FailureFrom(kid, reports, n + 1)))
      else
        Leads(w, a, Config(b.now, Apply(b.db, PutReport(ReportRow(agent.value, about, reports[n].raw, false))),
                           b.req, FailureFrom(kid, reports, n + 1)))
  {
    hide Leads, FailureFrom, DigestKey, PicksAgent, PicksManifestByDigest, Counted;
    LeadsNext(w, a, b, b.now, Choose(agent, about));
    ApplyNothing(b.db);
    if agent.Some? {
      var mid := b.(pc := Reporting(AddFailure(kid, n, agent.value, about)));
      LeadsNext(w, a, mid, b.now, Choose(None, None));
    }
  }

  // ---- administering ----

  lemma LeadsRegisterKey(w: World, a: Config, b: Config, pick: Option<nat>)
    requires Leads(w, a, b) && b.pc == Administering(RegisterKey) && b.req.input.Registration?
    requires b.req.input.envelope.Some?
    requires PicksSigningKey(b.db.signingKeys, b.req.input.signer, pick)
    ensures Leads(w, a, b.(pc :=
      if pick.None? then Refuse(NotAuthenticated) else Administering(RegisterLatest(pick.value))))
  {
    hide Leads, PicksSigningKey;
    LeadsNext(w, a, b, b.now, Choose(pick, None));
    ApplyNothing(b.db);
  }

  lemma LeadsRegister(w: World, a: Config, b: Config, key: nat, pick: Option<nat>)
    requires Leads(w, a, b) && b.pc == Administering(RegisterLatest(key)) && b.req.input.Registration?
    requires b.req.input.envelope.Some?
    requires PicksLatest(b.db.manifests, b.req.input.component, pick)
    ensures var input := b.req.input;
      if pick.Some? && Unsigned64(b.db.manifests[pick.value].sequenceNumber) >= input.sequenceNumber then
        Leads(w, a, b.(pc := Refuse(SmallerSequenceNumber)))
      else if pick.Some? && b.db.manifests[pick.value].signingKey != key then
        Leads(w, a, b.(pc := Refuse(SigningKeyMismatch)))
      else if input.sequenceNumber >= MAX_INT64 then Leads(w, a, b.(pc := Refuse(SequenceTooLarge)))
      else Leads(w, a, Config(b.now, Apply(b.db, PutManifest(NewManifest(input, key))), b.req, Done(Registered)))
  {
    hide Leads, Unsigned64, NewManifest;
    LeadsNext(w, a, b, b.now, Choose(pick, None));
    ApplyNothing(b.db);
    hide PicksLatest;
    var mid := b.(pc := Administering(RegisterInsert(key)));
    if Leads(w, a, mid) { LeadsNext(w, a, mid, b.now, Choose(None, None)); }
  }

  lemma LeadsRevoke(w: World, a: Config, b: Config, now: int)
    requires Leads(w, a, b) && b.now <= now && b.pc == Administering(Revoke) && b.req.input.Revocation?
    ensures var kid := b.req.input.revoked;
      if exists x :: 0 <= x < |b.db.agents| && b.db.agents[x].kid == kid && b.db.agents[x].revokedAt.None?
      then Leads(w, a, Config(now, Apply(b.db, RevokeAgent(kid, WholeSeconds(now))), b.req, Done(RevokedNow)))
      else Leads(w, a, Config(now, b.db, b.req, Refuse(NotFound)))
  {
    hide Leads;
    LeadsNext(w, a, b, now, Choose(None, None));
    ApplyNothing(b.db);
  }
}
