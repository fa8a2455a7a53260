/**
 The TAM as it is programmed: handlers that work on the store statement by statement, each
 proved to do what the interleaved machine does when its request runs alone, so that a TAM
 serving requests one after another only ever stands in reached states of the machine.
 */
module Tam {
  import opened Wrappers
  import opened Tables
  import opened Protocol
  import opened Machine
  import opened Delivery
  import opened Solo
  import opened Repositories
  import opened Statements
  import opened Selection
  import opened Sums
  import opened Handles
  import opened RequestFacts
  import opened Trust
  import opened Revocation
  import opened Registry
  import opened Holdings
  import opened Beliefs
  import opened Authentication
  import opened Filing
  import opened Accounts
  import opened Treatments
  import Service
  import Guarantees
  import Cbor

  class Tam {
    const world: World
    const store: Store
    const env: Environment
    ghost const start: Sys      // the state it was set up in
    ghost var past: seq<Action> // the run of the machine it has performed

    /** A TAM over a new store. */
    constructor (world: World, signingKeys: seq<SigningKeyRow>, devices: seq<Bytes>, env: Environment)
      ensures Valid() && fresh(store) && this.env == env && this.world == world
      ensures start == Initial(env.now, signingKeys, devices) && past == []
      ensures store.View() == EmptyDb(signingKeys, devices)
    {
      this.world, this.env := world, env;
      this.store := new Store(signingKeys, devices);
      this.start := Initial(env.now, signingKeys, devices);
      this.past := [];
    }

    /** The machine, run on past, stands where the store and the clock stand; and registering
        one at a time keeps the streams of manifests ordered. */
    ghost predicate Valid()
      reads this, store, env
    {
      var s := Execute(world, start, past);
      && s.now == env.now && s.db == store.View()
      && start == Initial(start.now, start.db.signingKeys, start.db.devices)
      && OrderedStreams(store.manifests) && NonNegative(store.manifests)
    }

    /** So the store is always as the machine's reached states are: handles unique and bound at
        most once, thumbprints unique and no more of them than challenges consumed, one holding
        in force per agent and component, one growing stream per component. */
    lemma StoreIsSound()
      requires Valid()
      ensures TablesSound(store.View()) && LinksInRange(store.View()) && OneActive(store.View())
      ensures UniqueKids(store.agents) && |store.agents| <= Sum(SpentRows(store.challenges))
      ensures OrderedStreams(store.manifests)
    {
      var keys, devices := start.db.signingKeys, start.db.devices;
      ReachedIsSound(world, start.now, keys, devices, past);
      KeysNeverOutnumberChallenges(world, start.now, keys, devices, past);
      hide Execute, AllFaithful, OrderedStreams, UniqueKids, OneActive, UniqueBytes, WellBound, LinksInRange;
    }

    /** The configuration is about the present store and time. */
    ghost predicate At(c: Config)
      reads store, env
    {
      c.now == env.now && c.db == store.View()
    }

    // ---- issuing ----

    method GenerateQueryRequest(ghost c: Config) returns (outcome: Outcome, ghost c': Config)
      requires At(c) && c.pc == Issuing(DrawToken(AskTcList))
      modifies store`tokens, store`queries, env`draws
      ensures At(c') && Leads(world, c, c') && c'.pc == Done(outcome)
      ensures Service.AsksTcList(old(env.draws), old(store.View()), store.View(), outcome)
      ensures outcome.QuerySent? || (outcome == Refused(Fatal) && env.draws == [])
    {
      hide Leads, Apply, QueryWritten, Service.Draws;
      LeadsNowhere(world, c);
      var token := store.GenerateUniqueToken(env);
      if token.None? {
        LeadsFault(world, c, c);
        return Refused(Fatal), c.(pc := Refuse(Fatal));
      }
      LeadsToken(world, c, c, AskTcList, token.value);
      JustIssued(c.db, token.value);
      c' := Config(c.now, store.View(), c.req, Issuing(CheckQuery(TokenHandle(token.value))));
      ghost var mid, id := store.View(), 0;
      outcome, c', id := SaveSentQueryRequest(TokenHandle(token.value), c, c');
      TokenAsked(old(env.draws), c.db, token.value, mid, store.View(), id, outcome);
    }

    method GenerateQueryRequestWithAttestation(ghost c: Config) returns (outcome: Outcome, ghost c': Config)
      requires At(c) && c.pc == Issuing(DrawChallenge)
      modifies store`challenges, store`queries, env`draws
      ensures At(c') && Leads(world, c, c') && c'.pc == Done(outcome)
      ensures Service.AsksAttestation(old(env.draws), old(store.View()), store.View(), outcome)
      ensures outcome.QuerySent? || (outcome == Refused(Fatal) && env.draws == [])
    {
      hide Leads, Apply, QueryWritten, Service.Draws;
      LeadsNowhere(world, c);
      var challenge := store.GenerateUniqueChallenge(env);
      if challenge.None? {
        LeadsFault(world, c, c);
        return Refused(Fatal), c.(pc := Refuse(Fatal));
      }
      LeadsChallenge(world, c, c, challenge.value);
      JustIssued(c.db, challenge.value);
      c' := Config(c.now, store.View(), c.req, Issuing(CheckQuery(ChallengeHandle(challenge.value))));
      ghost var mid, id := store.View(), 0;
      outcome, c', id := SaveSentQueryRequest(ChallengeHandle(challenge.value), c, c');
      ChallengeAsked(old(env.draws), c.db, challenge.value, mid, store.View(), id, outcome);
    }

    method SaveSentQueryRequest(handle: Handle, ghost c0: Config, ghost c: Config)
      returns (outcome: Outcome, ghost c': Config, ghost id: nat)
      requires At(c) && c.pc == Issuing(CheckQuery(handle)) && Leads(world, c0, c)
      modifies store`queries
      ensures At(c') && Leads(world, c0, c') && c'.pc == Done(outcome)
      ensures outcome.QuerySent? || outcome == Refused(Fatal)
      ensures outcome.Refused? ==>
        var rows := if handle.TokenHandle? then store.tokens else store.challenges;
        (!Issued(rows, handle.bytes) || Spent(rows, handle.bytes)) && store.View() == old(store.View())
      ensures outcome.QuerySent? ==>
        && PicksHandle(if handle.TokenHandle? then store.tokens else store.challenges, handle.bytes, Some(id))
        && QueryWritten(old(store.View()), store.View(), handle, id, outcome)
    {
      hide Leads, Apply;
      var ok; ghost var pick;
      ok, pick := store.CreateQuery(handle);
      LeadsQuery(world, c0, c, handle, pick);
      id := 0;
      if !ok {
        UnfitHandle(if handle.TokenHandle? then store.tokens else store.challenges, handle.bytes, pick);
        return Refused(Fatal), c.(pc := Refuse(Fatal)), id;
      }
      id := pick.value;
      QueryIsWritten(c.db, handle, id);
      var bits := QueryRowFor(handle, 0);
      outcome := QuerySent(handle, bits.attestation, bits.tcList);
      c' := Config(c.now, store.View(), c.req, Done(outcome));
    }

    // ---- authenticating and matching ----

    /** The thumbprint the message verified under, if any; or why it cannot go on. */
    method TryAuthenticate(input: Input, ghost c: Config) returns (r: Result<Option<Bytes>, TamError>, ghost c': Config)
      requires At(c) && input.Signed? && c.req == Request(input, None, None, None, None) && c.pc == FirstPc(c.req)
      modifies env`ticks, env`now
      ensures old(env.now) <= env.now
      ensures At(c') && Leads(world, c, c')
      ensures match r
        case Err(e) => c'.pc == Refuse(e)
        case Ok(auth) => c'.req == c.req.(auth := auth) && c'.pc == AfterAuthentication(c'.req)
      ensures r.Ok? && r.value.Some? ==>
        r.value == input.kid && Vouches(world, Sys(env.now, store.View(), []), input.body, input.kid.value)
      ensures r == Err(KidMissing) <==> input.kid.None? || input.kid.value == []
      ensures r == Ok(None) && |input.kid.value| == 32 && UniqueKids(store.agents) ==>
        !Vouches(world, Sys(env.now, store.View(), []), input.body, input.kid.value)
      ensures UniqueKids(store.agents) ==> Authenticates(world, env.now, store.agents, input, r)
    {
      hide Leads, AfterAuthentication, Service.Unusable, Service.Vouched;
      LeadsNowhere(world, c);
      c' := c;
      if input.kid.None? || input.kid.value == [] {
        return Err(KidMissing), c;
      }
      if |input.kid.value| != 32 {
        ShortKidIsNobody(world, store.agents, env.now, input);
        return Ok(None), c;
      }
      var agent := store.FindAgent(input.kid.value);
      var now := env.Now();
      if UniqueKids(store.agents) { PickDecides(world, store.agents, now, input.kid.value, input.body, agent); }
      LeadsAuthenticate(world, c, c, now, agent);
      c' := Config(now, c.db, c.req, AfterAuthentication(c.req));
      if agent.None? || !Live(store.agents[agent.value], now) {
        return Ok(None), c';
      }
      var key := store.agents[agent.value].publicKey;
      if !world.usable(key) {
        return Err(Fatal), c'.(pc := Refuse(Fatal));
      }
      if !world.verifies(input.body, key) {
        return Ok(None), c';
      }
      c' := Config(now, c.db, c.req.(auth := input.kid), AfterAuthentication(c.req.(auth := input.kid)));
      r := Ok(input.kid);
      assert VouchesAt(world, Sys(now, c.db, []), input.body, input.kid.value, agent.value);
    }

    /** The message sent under the token, which is consumed in looking. */
    method SearchSentMessageWithToken(token: Option<Bytes>, ghost c: Config)
      returns (sent: Option<Sent>, ghost c': Config)
      requires At(c) && c.req.input.Signed? && c.req.input.message.token == token && c.req.recovered.None?
      requires c.req.token.None?
      requires c.pc == AfterAuthentication(c.req)
      modifies store`tokens
      ensures At(c') && Leads(world, c, c')
      ensures c'.req == c.req.(token := c'.req.token, recovered := sent) && c'.pc == Dispatch(c'.req)
      ensures sent.Some? ==>
        && token.Some? && Unconsumed(old(store.tokens), token.value)
        && store.View() == Apply(old(store.View()), UseToken(token.value))
        && SentToken(sent.value) == token.value
      ensures store.View() == Service.TokenSpent(old(store.View()), token)
      ensures sent.Some? <==> Service.TokenAnswers(old(store.View()), token)
    {
      hide Leads, Apply, Dispatch, Unconsumed, PicksUpdate, Service.TokenAnswers, Service.TokenSpent, PicksQueryByToken;
      LeadsNowhere(world, c);
      c' := c;
      if token.None? {
        NoTokenSearch(c.db);
        return None, c;
      }
      var ok := store.MarkTokenConsumed(token.value);
      LeadsConsumeToken(world, c, c, token.value);
      if !ok {
        TokenSearch(c.db, token.value, false, None, None);
        return None, c.(pc := Dispatch(c.req));
      }
      c' := Config(c.now, store.View(), c.req.(token := token), Matching(FindQuery));
      var query := store.FindQueryByToken(token.value);
      LeadsFindQuery(world, c, c', token.value, query);
      if query.Some? {
        TokenSearch(c.db, token.value, true, query, None);
        QueryInRange(store.View(), token.value, query.value);
        var row := store.queries[query.value];
        sent := Some(SentQuery(TokenHandle(token.value), row.attestation, row.tcList));
        c' := c'.(req := c'.req.(recovered := sent), pc := Dispatch(c'.req.(recovered := sent)));
        return;
      }
      c' := c'.(pc := Matching(FindUpdate));
      var update := store.FindUpdateByToken(token.value);
      LeadsFindUpdate(world, c, c', token.value, update);
      TokenSearch(c.db, token.value, true, query, update);
      if update.None? {
        return None, c'.(pc := Dispatch(c'.req));
      }
      var manifestList := ManifestList(update.value);
      sent := Some(SentUpdate(token.value, manifestList));
      c' := c'.(req := c'.req.(recovered := sent), pc := Dispatch(c'.req.(recovered := sent)));
    }

    /** The envelopes of the rows, one by one. */
    method ManifestList(ids: seq<nat>) returns (list: seq<Bytes>)
      ensures list == Envelopes(store.View(), ids)
    {
      list := [];
      for i := 0 to |ids|
        invariant list == Envelopes(store.View(), ids)[..i]
      {
        list := list + [if ids[i] < |store.manifests| then store.manifests[ids[i]].envelope else []];
      }
    }

    method SearchSentMessageWithChallenge(challenge: Option<Bytes>, ghost c: Config)
      returns (sent: Option<Sent>, ghost c': Config)
      requires At(c) && Affirmed(c.req) && c.req.input.verdict.nonce == challenge
      requires c.pc == if challenge.None? then Refuse(NotAuthenticated) else Attesting(ConsumeChallenge)
      modifies store`challenges
      ensures At(c') && Leads(world, c, c') && c'.req.input == c.req.input && c'.req.auth == c.req.auth
      ensures sent.None? ==> c'.pc == Refuse(NotAuthenticated)
      ensures sent.Some? ==>
        && challenge.Some? && Unconsumed(old(store.challenges), challenge.value)
        && c'.req == c.req.(challenge := challenge, recovered := sent) && c'.pc == AfterChallenge(world, c'.req)
        && SentToken(sent.value) == []
      ensures store.View() == ChallengeSpent(old(store.View()), challenge)
      ensures sent.Some? <==> challenge.Some? && Service.ChallengeAnswers(old(store.View()), challenge.value)
    {
      hide Leads, Apply, Unconsumed, AfterChallenge, Service.ChallengeAnswers, PicksQueryByChallenge;
      LeadsNowhere(world, c);
      c' := c;
      if challenge.None? {
        return None, c;
      }
      var ok := store.MarkChallengeConsumed(challenge.value);
      LeadsConsumeChallenge(world, c, c, challenge.value);
      if !ok {
        ChallengeSearch(c.db, challenge.value, false, None);
        return None, c.(pc := Refuse(NotAuthenticated));
      }
      c' := Config(c.now, store.View(), c.req.(challenge := challenge), Attesting(FindByChallenge));
      var query := store.FindQueryByChallenge(challenge.value);
      LeadsFindByChallenge(world, c, c', challenge.value, query);
      ChallengeSearch(c.db, challenge.value, true, query);
      if query.None? {
        return None, c'.(pc := Refuse(NotAuthenticated));
      }
      ChallengeQueryInRange(store.View(), challenge.value, query.value);
      var row := store.queries[query.value];
      sent := Some(SentQuery(ChallengeHandle(challenge.value), row.attestation, row.tcList));
      c' := c'.(req := c'.req.(recovered := sent), pc := AfterChallenge(world, c'.req.(recovered := sent)));
    }

    // ---- attesting ----

    /** Stores the attested key unless it is stored already; a revoked key passes, an expired
        one does not. */
    method SetTeepAgentKey(key: Key, kid: Bytes, ueid: Option<Bytes>, ghost c: Config)
      returns (ok: bool, ghost c': Config)
      requires At(c) && Affirmed(c.req) && c.req.recovered.Some?
      requires c.req.input.verdict.key == Some(key) && c.req.input.verdict.ueid == ueid
      requires c.pc == if |kid| != 32 then Respond(c.req, kid) else Attesting(FindKey(kid))
      modifies store`agents, env`ticks, env`now
      ensures old(env.now) <= env.now
      ensures At(c') && Leads(world, c, c') && c'.req == c.req
      ensures c'.pc == if ok then Respond(c.req, kid) else Refuse(Fatal)
      ensures |kid| != 32 ==> ok && store.agents == old(store.agents)
      ensures |kid| == 32 && KnownAgent(old(store.agents), kid) ==>
        && store.agents == old(store.agents)
        && exists a ::
             && 0 <= a < |store.agents| && store.agents[a].kid == kid
             && ok == (env.now <= store.agents[a].expiredAt)
      ensures |kid| == 32 && !KnownAgent(old(store.agents), kid) ==>
        ok && exists device ::
          && DeviceOf(store.devices, ueid, device)
          && store.agents == old(store.agents) + [NewAgent(kid, device, key, env.now)]
      ensures Service.Enrols(old(env.now), env.now, old(store.View()), store.View(), key, kid, ueid, ok)
    {
      hide Leads, Apply, Respond, Service.Enrols;
      LeadsNowhere(world, c);
      c' := c;
      if |kid| != 32 {
        OddEnrols(old(env.now), c.db, key, kid, ueid);
        return true, c;
      }
      var existing := store.FindAgent(kid);
      var now := env.Now();
      LeadsFindKey(world, c, c, kid, now, existing);
      if existing.Some? {
        ExistingEnrols(old(env.now), now, now, c.db, key, kid, ueid, existing.value);
        if store.agents[existing.value].expiredAt < now {
          return false, Config(now, c.db, c.req, Refuse(Fatal));
        }
        return true, Config(now, c.db, c.req, Respond(c.req, kid));
      }
      var device := None;
      if ueid.Some? {
        c' := Config(now, c.db, c.req, Attesting(FindDevice(kid)));
        device := store.FindDevice(ueid.value);
        LeadsFindDevice(world, c, c', kid, device);
      }
      c' := Config(now, c.db, c.req, Attesting(AddAgent(kid, device)));
      var created := env.Now();
      LeadsAddAgent(world, c, c', kid, device, created);
      ok := store.CreateAgent(NewAgent(kid, device, key, created));
      c' := Config(created, store.View(), c.req, if ok then Respond(c.req, kid) else Refuse(Fatal));
      AgentStored(c.db, NewAgent(kid, device, key, created));
      NewEnrols(old(env.now), created, created, c.db, key, kid, ueid, device);
      assert DeviceOf(store.devices, ueid, device);
    }

    /** The thumbprint to answer to and the sent message matched by the attested challenge. */
    method VerifyAttestationPayload(input: Input, auth: Option<Bytes>, ghost c: Config)
      returns (r: Result<(Bytes, Sent), TamError>, ghost c': Config)
      requires At(c) && input.Signed? && c.req.input == input && c.req.auth == auth && c.pc == Attest(c.req)
      modifies store`challenges, store`agents, env`ticks, env`now
      ensures old(env.now) <= env.now
      ensures At(c') && Leads(world, c, c') && c'.req.input == input && c'.req.auth == auth
      ensures match r
        case Err(e) => c'.pc == Refuse(e)
        case Ok((kid, sent)) => c'.req.recovered == Some(sent) && c'.pc == Respond(c'.req, kid) && SentToken(sent) == []
      ensures Service.Attests(world, old(env.now), env.now, old(store.View()), store.View(), input, auth, Whom(r))
    {
      hide Leads, Apply, Respond, Unconsumed, Service.Attests, Service.ChallengeAnswers, Service.Enrols,
           Service.ProvesKey;
      LeadsNowhere(world, c);
      c' := c;
      AttestsAtOnce(world, env.now, c.db, input, auth);
      if input.message.payload.None? {
        return Err(PayloadNotFound), c;
      }
      match input.verdict
      case SubmitFailed(e) => return Err(e), c;
      case NotAffirming => return Err(AttestationFailed), c;
      case ClaimsUnreadable(e) => return Err(e), c;
      case Affirming(nonce, key, ueid) =>
        var sent;
        sent, c' := SearchSentMessageWithChallenge(nonce, c);
        AttestsByChallenge(world, old(env.now), c.db, input, auth, store.View());
        if sent.None? {
          return Err(NotAuthenticated), c';
        }
        if auth.Some? {
          return Ok((auth.value, sent.value)), c';
        }
        ProvedExactly(world, input);
        if input.message.format.OtherFormat? || key.None? || !world.usable(key.value)
           || !world.verifies(input.body, key.value) || world.thumbprint(key.value).None?
        {
          return Err(NotAuthenticated), c';
        }
        var kid := world.thumbprint(key.value).value;
        ghost var mid := c';
        var ok;
        ok, c' := SetTeepAgentKey(key.value, kid, ueid, mid);
        LeadsTransitive(world, c, mid, c');
        AttestsByKey(world, old(env.now), env.now, c.db, mid.db, store.View(), input, kid, ok);
        r := if ok then Ok((kid, sent.value)) else Err(Fatal);
    }

    // ---- delivering ----

    /** Adds the keys of the listed components that are not there yet. */
    method AddComponents(acc: seq<Bytes>, ids: seq<Cbor.ComponentId>) returns (keys: seq<Bytes>)
      ensures keys == AddDistinct(acc, ids)
    {
      keys := acc;
      for i := 0 to |ids|
        invariant AddDistinct(keys, ids[i..]) == AddDistinct(acc, ids)
      {
        var key := Cbor.ComponentKey(ids[i]);
        assert ids[i..][1..] == ids[i + 1..];
        var j := 0;
        while j < |keys| && keys[j] != key
          invariant j <= |keys| && key !in keys[..j]
        {
          j := j + 1;
        }
        assert j == |keys| ==> keys[..j] == keys;
        if j == |keys| {
          keys := keys + [key];
        }
      }
    }

    /** The latest manifest of every known component, looked up one component at a time. */
    method PickManifests(kid: Bytes, token: Bytes, components: seq<Bytes>, ghost c0: Config, ghost c: Config)
      returns (picked: seq<nat>, ghost c': Config)
      requires At(c) && Leads(world, c0, c) && components != []
      requires c.pc == Delivering(PickLatest(kid, token, components, []))
      ensures At(c') && Leads(world, c0, c') && c'.req == c.req && c'.pc == AfterPick(kid, token, [], picked)
      ensures Selects(store.manifests, components, picked)
    {
      hide Leads, Selects, PicksLatest;
      picked, c' := [], c;
      assert components[0..] == components && components[..0] == [];
      SelectsNone(store.manifests);
      for i := 0 to |components|
        invariant At(c') && Leads(world, c0, c') && c'.req == c.req
        invariant c'.pc == AfterPick(kid, token, components[i..], picked)
        invariant Selects(store.manifests, components[..i], picked)
      {
        var pick := store.FindLatest(components[i]);
        LeadsPickLatest(world, c0, c', pick);
        SelectsOneMore(store.manifests, components[..i], picked, components[i], pick);
        assert components[..i] + [components[i]] == components[..i + 1];
        assert components[i..][1..] == components[i + 1..];
        picked := if pick.None? then picked else picked + [pick.value];
        c' := c'.(pc := AfterPick(kid, token, components[i + 1..], picked));
      }
      assert components[..|components|] == components;
    }

    method SaveSentUpdate(kid: Bytes, token: Bytes, picked: seq<nat>, ghost c0: Config, ghost c: Config)
      returns (outcome: Outcome, ghost c': Config)
      requires At(c) && Leads(world, c0, c) && picked != [] && InRange(picked, |store.manifests|)
      requires c.pc == Delivering(CheckAgent(kid, token, picked))
      modifies store`updates, store`links, env`ticks, env`now
      ensures old(env.now) <= env.now
      ensures At(c') && Leads(world, c0, c') && c'.pc == Done(outcome)
      ensures outcome == Refused(Fatal) || outcome == UpdateSent(kid, token, Envelopes(store.View(), picked))
      ensures outcome.Refused? ==>
        !KeyStands(store.agents, kid, env.now) || !Issued(store.tokens, token) || Spent(store.tokens, token)
      ensures UniqueKids(store.agents) && Issued(store.tokens, token) && !Spent(store.tokens, token) ==>
        UpdateTried(env.now, old(store.View()), store.View(), kid, token, picked, outcome)
    {
      hide Leads, Apply, Envelopes, UpdateTried, UniqueKids, Issued, Spent, KeyStands;
      var manifestList := ManifestList(picked);
      var now := env.Now();
      var creation; ghost var agent; ghost var id;
      creation, agent, id := store.CreateUpdate(kid, token, picked, now);
      assert !creation.NilManifest? && picked[..KnownUpTo(picked, |store.manifests|)] == picked;
      var ok := creation.Created?;
      LeadsCheckAgent(world, c0, c, now, agent);
      c' := Config(now, c.db, c.req, Refuse(Fatal));
      if agent.Some? && Live(store.agents[agent.value], now) {
        var mid := Config(now, c.db, c.req, Delivering(CheckToken(kid, token, picked, agent.value)));
        LeadsCheckToken(world, c0, mid, id);
        if ok {
          var row := UpdateRow(agent.value, id.value);
          mid := Config(now, WithUpdate(c.db, row, []), c.req,
                        Delivering(FindManifest(kid, token, picked, |c.db.updates|, 0)));
          assert picked[..0] == [];
          LeadsLinks(world, c0, mid, c.db, row);
          c' := Config(now, store.View(), c.req, Done(UpdateSent(kid, token, Envelopes(c.db, picked))));
        }
      }
      if !ok {
        if id.None? || store.tokens[id.value].consumed { UnfitHandle(store.tokens, token, id); }
        if agent.None? || !Live(store.agents[agent.value], now) { UnfitAgent(store.agents, kid, agent, now); }
      }
      assert manifestList == Envelopes(store.View(), picked) by { SameEnvelopes(c.db, store.View(), picked); }
      outcome := if ok then UpdateSent(kid, token, manifestList) else Refused(Fatal);
      if UniqueKids(store.agents) && Issued(store.tokens, token) && !Spent(store.tokens, token) {
        TryEnds(now, c.db, store.View(), kid, token, agent, id, picked, outcome);
      }
    }

    /** Answers a QueryResponse with the latest manifests of the listed components, if any is
        known. */
    method ProcessQueryResponse(message: Message, kid: Bytes, sent: Sent, ghost c: Config)
      returns (outcome: Outcome, ghost c': Config)
      requires At(c) && c.req.input.Signed? && c.req.input.message == message && c.req.recovered == Some(sent)
      requires c.pc == Respond(c.req, kid)
      modifies store`tokens, store`updates, store`links, env
      ensures old(env.now) <= env.now
      ensures At(c') && Leads(world, c, c') && c'.pc == Done(outcome)
      ensures outcome == Refused(Fatal) || outcome == NoContent || outcome.UpdateSent?
      ensures outcome.Refused? ==>
        BytesOf(message.token) != SentToken(sent) || env.draws == [] || !KeyStands(store.agents, kid, env.now)
      ensures outcome.UpdateSent? ==> exists picked: seq<nat> ::
        && picked != [] && Selects(store.manifests, ComponentSet(message), picked)
        && outcome.manifests == Envelopes(store.View(), picked)
      ensures outcome == NoContent ==> Selects(store.manifests, ComponentSet(message), [])
      ensures UniqueKids(store.agents) ==>
        if BytesOf(message.token) != SentToken(sent)
        then Service.Refuses(old(store.View()), store.View(), outcome, Fatal)
        else Service.Delivers(old(env.draws), env.now, old(store.View()), store.View(), message, kid, outcome)
    {
      hide Leads, Apply, Envelopes, Selects, IsLatest, UpdateTried, UniqueKids, Issued, Spent, KeyStands,
           Service.Delivers, Service.Draws;
      LeadsNowhere(world, c);
      c' := c;
      if BytesOf(message.token) != SentToken(sent) {
        return Refused(Fatal), c;
      }
      var token := store.GenerateUniqueToken(env);
      if token.None? {
        LeadsFault(world, c, c);
        ExhaustedDelivers(old(env.draws), env.now, c.db, message, kid);
        return Refused(Fatal), c.(pc := Refuse(Fatal));
      }
      JustIssued(c.db, token.value);
      var components := AddComponents([], message.requested);
      components := AddComponents(components, message.tcList);
      LeadsToken(world, c, c, Deliver(kid, components), token.value);
      c' := Config(c.now, store.View(), c.req, AfterToken(token.value, Deliver(kid, components)));
      SameManifests(c.db, token.value);
      if components == [] {
        SelectsNone(store.manifests);
        TriedDelivers(old(env.draws), env.now, c.db, store.View(), message, kid, token.value, [], NoContent);
        return NoContent, c';
      }
      var picked;
      picked, c' := PickManifests(kid, token.value, components, c, c');
      SelectedInRange(store.manifests, components, picked);
      if picked == [] {
        TriedDelivers(old(env.draws), env.now, c.db, store.View(), message, kid, token.value, [], NoContent);
        return NoContent, c';
      }
      outcome, c' := SaveSentUpdate(kid, token.value, picked, c, c');
      if UniqueKids(store.agents) {
        TriedDelivers(old(env.draws), env.now, c.db, store.View(), message, kid, token.value, picked, outcome);
      }
    }

    // ---- acting on reports ----

    /** Records every positive report about a known manifest as a holding, in order: a left fold
        over the reports of what the agent is believed to hold. */
    method HandleSuccess(reports: seq<ReportItem>, kid: Bytes, ghost c: Config) returns (ghost c': Config)
      requires At(c) && c.req.input.Signed? && c.req.input.message.reports == reports
      requires c.pc == SuccessFrom(kid, reports, 0)
      modifies store`holdings, store`reports, env`ticks, env`now
      ensures old(env.now) <= env.now
      ensures At(c') && Leads(world, c, c') && c'.pc == Done(NoContent)
      ensures OneActive(old(store.View())) && UniqueDigests(store.manifests) && UniqueKids(store.agents) ==>
        BeliefsFollow(old(store.View()), store.View(), kid, reports)
      ensures Service.Recorded(old(env.now), env.now, old(store.View()), store.View(), kid, reports)
    {
      hide Leads, Apply, Counted, DigestKey, HoldCollides, NextCounted, Folded, Service.Recorded, SuccessFrom;
      LeadsNowhere(world, c);
      c' := c;
      ghost var trail := [c.db];
      FoldsFrom(env.now, c.db, kid);
      for i := 0 to |reports|
        invariant At(c') && Leads(world, c, c') && c'.req == c.req && c'.pc == SuccessFrom(kid, reports, i)
        invariant old(env.now) <= env.now && Folded(old(env.now), env.now, trail, c.db, c'.db, kid, reports[..i])
      {
        SuccessNext(kid, reports, i);
        ghost var db, since := c'.db, env.now;
        assert reports[..i] + [reports[i]] == reports[..i + 1];
        if Counted(reports[i]) {
          var now := env.Now();
          var ok; ghost var agent; ghost var manifest;
          ok, agent, manifest := store.ReflectManifestSuccess(kid, DigestKey(reports[i]), reports[i].raw, now);
          LeadsReflect(world, c, c', kid, i, now, agent, manifest);
          c' := Config(now, store.View(), c.req, SuccessFrom(kid, reports, i + 1));
          FoldsCounted(old(env.now), since, now, trail, c.db, db, c'.db, kid, reports[..i], reports[i], agent,
                       manifest);
        } else {
          FoldsSkipped(old(env.now), env.now, trail, c.db, db, kid, reports[..i], reports[i]);
        }
        trail := trail + [c'.db];
      }
      assert reports[..|reports|] == reports;
      SuccessDone(kid, reports);
      FoldsAll(old(env.now), env.now, trail, c.db, c'.db, kid, reports);
    }

    /** Files every positive report, and no other, as unresolved. */
    method HandleError(reports: seq<ReportItem>, kid: Bytes, ghost c: Config) returns (ghost c': Config)
      requires At(c) && c.req.input.Signed? && c.req.input.message.reports == reports
      requires c.pc == FailureFrom(kid, reports, 0)
      modifies store`reports
      ensures At(c') && Leads(world, c, c') && c'.pc == Done(NoContent)
      ensures Filed(old(store.View()), store.View(), kid, reports)
      ensures Service.FiledOnly(old(store.View()), store.View(), kid, reports)
    {
      hide Leads, Apply, Counted, DigestKey, NextCounted, Filed, FileTrails;
      LeadsNowhere(world, c);
      ghost var trail := [c.db];
      FileTrailsFrom(c.db, kid);
      NothingFiled(c.db, kid);
      c' := c;
      for i := 0 to |reports|
        invariant At(c') && Leads(world, c, c') && c'.req == c.req && c'.pc == FailureFrom(kid, reports, i)
        invariant Filed(c.db, c'.db, kid, reports[..i]) && FileTrails(trail, c.db, c'.db, kid, reports[..i])
      {
        NextCountedAt(reports, i);
        ghost var db := c'.db;
        assert reports[..i] + [reports[i]] == reports[..i + 1];
        if Counted(reports[i]) {
          var ok; ghost var agent; ghost var about;
          ok, agent, about := store.RecordManifestProcessingFailure(kid, DigestKey(reports[i]), reports[i].raw);
          LeadsFailure(world, c, c', kid, i, agent, about);
          FilingFollows(c.db, c'.db, kid, reports[..i], reports[i], agent, about, store.View());
          c' := Config(c.now, store.View(), c.req, FailureFrom(kid, reports, i + 1));
          OneFiled(db, c'.db, kid, reports[i], agent, about);
        } else {
          SkippedIsFiled(c.db, c'.db, kid, reports[..i], reports[i]);
          NotGoodChangesNothing(0, 0, db, kid, reports[i]);
        }
        FileTrailsOn(trail, c.db, db, c'.db, kid, reports[..i], reports[i]);
        trail := trail + [c'.db];
      }
      assert reports[..|reports|] == reports;
      FileTrailsAll(trail, c.db, c'.db, kid, reports);
      NextCountedAt(reports, |reports|);
    }

    // ---- whole requests ----

    /** A QueryResponse that answers the TAM is served if its sender is known, and asked for
        attestation if not; any other has to attest itself. */
    method AnswerQueryResponse(input: Input, auth: Option<Bytes>, sent: Option<Sent>, ghost c: Config)
      returns (outcome: Outcome, ghost c': Config)
      requires At(c) && input.Signed? && c.req.input == input && c.req.auth == auth && c.req.recovered == sent
      requires c.pc == Dispatch(c.req) && input.message.kind.KindQueryResponse?
      requires sent.Some? ==> SentToken(sent.value) == BytesOf(input.message.token)
      modifies store`tokens, store`challenges, store`queries, store`updates, store`links, store`agents, env
      ensures old(env.now) <= env.now
      ensures At(c') && Leads(world, c, c') && c'.pc == Done(outcome) && outcome != Registered
      ensures Fulfils(old(store.View()), store.View(), input.message, auth, outcome)
      ensures UniqueKids(old(store.agents)) ==>
        Service.Treats(world, old(env.now), env.now, old(env.draws), old(store.View()), store.View(), input, auth,
                       sent.Some?, outcome)
    {
      hide Leads, Attest, Respond, Selects, UniqueKids, ComponentSet, Envelopes, Service.Treats, Service.Delivers,
           Service.AsksAttestation, Service.Attests;
      LeadsNowhere(world, c);
      c' := c;
      if sent.Some? {
        if auth.None? {
          outcome, c' := GenerateQueryRequestWithAttestation(c);
          TreatsAsked(world, old(env.now), env.now, old(env.draws), c.db, store.View(), input, outcome);
        } else {
          outcome, c' := ProcessQueryResponse(input.message, auth.value, sent.value, c);
          if UniqueKids(store.agents) {
            TreatsDelivered(world, old(env.now), env.now, old(env.draws), c.db, store.View(), input, auth.value,
                            outcome);
          }
        }
        return;
      }
      var verified; ghost var mid;
      verified, mid := VerifyAttestationPayload(input, auth, c);
      ghost var at := env.now;
      match verified
      case Err(e) =>
        AttestedRefused(world, old(env.now), env.now, old(env.draws), c.db, store.View(), input, auth, e);
        return Refused(e), mid;
      case Ok((kid, found)) =>
        outcome, c' := ProcessQueryResponse(input.message, kid, found, mid);
        LeadsTransitive(world, c, mid, c');
        if UniqueKids(c.db.agents) {
          AttestsKeepsKids(world, old(env.now), at, c.db, mid.db, input, auth, Ok(kid));
          AttestedAnswered(world, old(env.now), at, env.now, old(env.draws), c.db, mid.db, store.View(), input, auth,
                           kid,
                           found, outcome);
        }
    }

    /** The switch on the message type. */
    method DispatchMessage(input: Input, auth: Option<Bytes>, sent: Option<Sent>, ghost c: Config)
      returns (outcome: Outcome, ghost c': Config)
      requires At(c) && input.Signed? && c.req.input == input && c.req.auth == auth && c.req.recovered == sent
      requires c.pc == Dispatch(c.req)
      requires sent.Some? ==> SentToken(sent.value) == BytesOf(input.message.token)
      modifies store`tokens, store`challenges, store`queries, store`updates, store`links, store`agents, store`holdings,
        store`reports, env
      ensures old(env.now) <= env.now
      ensures At(c') && Leads(world, c, c') && c'.pc == Done(outcome) && outcome != Registered
      ensures Fulfils(old(store.View()), store.View(), input.message, auth, outcome)
      ensures IsReport(input.message) && outcome == NoContent ==> sent.Some?
      ensures UniqueKids(old(store.agents)) ==>
        Service.Treats(world, old(env.now), env.now, old(env.draws), old(store.View()), store.View(), input, auth,
                       sent.Some?, outcome)
    {
      hide Leads, Attest, Respond, SuccessFrom, FailureFrom, Selects, BeliefsFollow, Filed, OneActive, UniqueDigests,
           UniqueKids, ComponentSet, Envelopes, Service.Treats, Service.Recorded, Service.FiledOnly;
      LeadsNowhere(world, c);
      TreatsAtOnce(world, env.now, env.draws, c.db, input, auth, sent.Some?);
      c' := c;
      match input.message.kind
      case KindQueryResponse => outcome, c' := AnswerQueryResponse(input, auth, sent, c);
      case KindSuccess =>
        if auth.None? {
          return Refused(NotAuthenticated), c;
        }
        if sent.None? {
          return Refused(NotAResponse), c;
        }
        c' := HandleSuccess(input.message.reports, auth.value, c);
        outcome := NoContent;
        TreatsRecorded(world, old(env.now), env.now, env.draws, c.db, store.View(), input, auth.value);
      case KindError =>
        if auth.None? {
          return Refused(NotAuthenticated), c;
        }
        if sent.None? {
          return Refused(NotAResponse), c;
        }
        c' := HandleError(input.message.reports, auth.value, c);
        outcome := NoContent;
        TreatsFiled(world, env.now, env.draws, c.db, store.View(), input, auth.value);
      case KindQueryRequest => outcome := Refused(NotSupported);
      case KindUpdate => outcome := Refused(NotSupported);
    }

    method ResolveSigned(input: Input, ghost c: Config) returns (outcome: Outcome, ghost c': Config)
      requires At(c) && input.Signed? && c.req == Request(input, None, None, None, None) && c.pc == FirstPc(c.req)
      modifies store`tokens, store`challenges, store`queries, store`updates, store`links, store`agents, store`holdings,
        store`reports, env
      ensures old(env.now) <= env.now
      ensures At(c') && Leads(world, c, c') && c'.pc == Done(outcome) && outcome != Registered
      ensures FulfilsSigned(old(store.View()), store.View(), input, outcome)
      ensures UniqueKids(old(store.agents)) ==>
        Service.TreatsSigned(world, old(env.now), env.now, old(env.draws), old(store.View()), store.View(), input,
                             outcome)
    {
      hide Leads, AfterAuthentication, Dispatch, FirstPc, Unconsumed, Vouches, Fulfils, FulfilsSigned, UniqueKids,
           Authenticates, Service.TreatsSigned, Service.Treats, Service.TokenAnswers, Service.TokenSpent;
      var auth; ghost var known;
      auth, known := TryAuthenticate(input, c);
      match auth
      case Err(e) =>
        RefusedFulfils(old(store.View()), store.View(), input, e);
        if UniqueKids(store.agents) { RefusedTreats(world, old(env.now), env.now, env.draws, c.db, input, e); }
        return Refused(e), known;
      case Ok(kid) =>
        ghost var at := env.now;
        var sent; ghost var matched;
        sent, matched := SearchSentMessageWithToken(input.message.token, known);
        ghost var db := store.View();
        outcome, c' := DispatchMessage(input, kid, sent, matched);
        FulfilsAfterToken(old(store.View()), db, store.View(), input, kid, sent, outcome);
        if UniqueKids(c.db.agents) {
          TreatedSigned(world, old(env.now), at, env.now, old(env.draws), c.db, store.View(), input, kid, outcome);
        }
        LeadsTransitive(world, c, known, matched);
        LeadsTransitive(world, c, matched, c');
    }

    /** Registers a manifest unless an equal or newer one is stored for its component, or one
        under another signing key. */
    method SetEnvelope(input: Input, ghost c: Config) returns (outcome: Outcome, ghost c': Config)
      requires At(c) && input.Registration? && c.req == Request(input, None, None, None, None) && c.pc == FirstPc(c.req)
      modifies store`manifests
      ensures At(c') && Leads(world, c, c') && c'.pc == Done(outcome)
      ensures outcome != Registered ==> store.manifests == old(store.manifests)
      ensures outcome == Registered ==>
        input.envelope.Some? && exists key: nat :: InsertedUnder(old(store.View()), store.View(), input, key)
      ensures OrderedStreams(old(store.manifests)) && NonNegative(old(store.manifests)) ==>
        && OrderedStreams(store.manifests) && NonNegative(store.manifests)
        && (DistinctSigners(store.signingKeys) ==> (outcome == Registered <==> MayRegister(old(store.View()), input)))
        && Service.Registers(old(store.View()), store.View(), input, outcome)
    {
      hide Leads, PicksLatest, OrderedStreams, NonNegative, Fresh, DistinctSigners, MayRegister, NewManifest,
           Unsigned64, Service.Registers;
      LeadsNowhere(world, c);
      RegistersNothing(c.db, input);
      if input.envelope.None? {
        NoSigner(c.db, input);
        return Refused(ManifestMissing), c;
      }
      var key := store.FindSigningKey(input.signer);
      LeadsRegisterKey(world, c, c, key);
      if key.None? {
        NoSigner(c.db, input);
        return Refused(NotAuthenticated), c.(pc := Refuse(NotAuthenticated));
      }
      var checking := c.(pc := Administering(RegisterLatest(key.value)));
      var existing := store.FindLatest(input.component);
      LeadsRegister(world, c, checking, key.value, existing);
      ExistingInRange(store.manifests, input.component, existing);
      RegistersExactly(c.db, input, key.value, existing);
      if OrderedStreams(c.db.manifests) && NonNegative(c.db.manifests) {
        RegistrationEnds(c.db, input, key.value, existing);
      }
      if existing.Some? && Unsigned64(store.manifests[existing.value].sequenceNumber) >= input.sequenceNumber {
        return Refused(SmallerSequenceNumber), c.(pc := Refuse(SmallerSequenceNumber));
      }
      if existing.Some? && store.manifests[existing.value].signingKey != key.value {
        return Refused(SigningKeyMismatch), c.(pc := Refuse(SigningKeyMismatch));
      }
      var ok := store.CreateManifest(input, key.value);
      outcome := if ok then Registered else Refused(SequenceTooLarge);
      c' := Config(c.now, store.View(), c.req, Done(outcome));
      if ok {
        assert InsertedUnder(c.db, store.View(), input, key.value);
      }
    }

    method RevokeTeepAgentKey(kid: Bytes, ghost c: Config) returns (outcome: Outcome, ghost c': Config)
      requires At(c) && c.req == Request(Revocation(kid), None, None, None, None) && c.pc == FirstPc(c.req)
      modifies store`agents, env`ticks, env`now
      ensures old(env.now) <= env.now
      ensures At(c') && Leads(world, c, c') && c'.pc == Done(outcome)
      ensures outcome == RevokedNow <==> |kid| == 32 && exists a ::
        0 <= a < |old(store.agents)| && old(store.agents)[a].kid == kid && old(store.agents)[a].revokedAt.None?
      ensures outcome != RevokedNow ==> outcome == Refused(if |kid| == 32 then NotFound else InvalidLength)
      ensures store.agents == if outcome == RevokedNow
        then Revoked(old(store.agents), kid, WholeSeconds(env.now)) else old(store.agents)
      ensures Service.Revokes(old(env.now), env.now, old(store.View()), store.View(), kid, outcome)
    {
      hide Leads, Apply, Service.Revokes;
      LeadsNowhere(world, c);
      RevokesNothing(old(env.now), env.now, c.db, kid);
      if |kid| != 32 {
        return Refused(InvalidLength), c;
      }
      var now := env.Now();
      LeadsRevoke(world, c, c, now);
      var ok := store.RevokeByKid(kid, now);
      outcome := if ok then RevokedNow else Refused(NotFound);
      c' := Config(now, store.View(), c.req, Done(outcome));
      AgentsRevoked(c.db, kid, WholeSeconds(now));
      RevokesNothing(old(env.now), now, c.db, kid);
      if ok { RevokedRows(old(env.now), now, now, c.db, kid); }
    }

    /** What is answered to one request, registration or revocation. */
    method Handle(input: Input, ghost c: Config) returns (outcome: Outcome, ghost c': Config)
      requires At(c) && c.req == Request(input, None, None, None, None) && c.pc == FirstPc(c.req)
      modifies store, env
      ensures old(env.now) <= env.now
      ensures At(c') && Leads(world, c, c') && c'.pc == Done(outcome)
      ensures store.signingKeys == old(store.signingKeys)
      ensures input.EmptyBody? && outcome.Refused? ==> env.draws == []
      ensures if outcome == Registered
        then input.Registration? && exists key: nat :: InsertedUnder(old(store.View()), store.View(), input, key)
        else store.manifests == old(store.manifests)
      ensures OrderedStreams(old(store.manifests)) && NonNegative(old(store.manifests)) ==>
        && OrderedStreams(store.manifests) && NonNegative(store.manifests)
        && (input.Registration? && DistinctSigners(store.signingKeys) ==>
              (outcome == Registered <==> MayRegister(old(store.View()), input)))
      ensures input.Signed? ==> FulfilsSigned(old(store.View()), store.View(), input, outcome)
      ensures Sane(old(store.View())) ==>
        Service.Serves(world, old(env.now), env.now, old(env.draws), old(store.View()), store.View(), input, outcome)
    {
      hide Leads, FirstPc, OrderedStreams, NonNegative, InsertedUnder, MayRegister, DistinctSigners, FulfilsSigned,
           UniqueKids, Service.AsksTcList, Service.TreatsSigned, Service.Registers, Service.Revokes;
      c' := c;
      match input {
        case EmptyBody => outcome, c' := GenerateQueryRequest(c) by { StartsIssuing(c); }
        case Unparsable(e) => outcome := Refused(e); LeadsNowhere(world, c); StartsRefused(c, e);
        case Signed(_, _, _, _) => outcome, c' := ResolveSigned(input, c);
        case Registration(_, _, _, _, _) => outcome, c' := SetEnvelope(input, c);
        case Revocation(kid) => outcome, c' := RevokeTeepAgentKey(kid, c);
      }
    }

    /** Serves one request, registration or revocation from beginning to end.  The run of the
        machine grows by that thread alone, and the thread ends with the answer given. */
    method Serve(input: Input) returns (outcome: Outcome)
      requires Valid()
      modifies this`past, store, env
      ensures Valid()
      ensures var before := Execute(world, start, old(past)).threads;
        var after := Execute(world, start, past).threads;
        && |after| == |before| + 1 && after[..|before|] == before
        && after[|before|].req.input == input && after[|before|].pc == Done(outcome)
      ensures exists c': Config ::
        && At(c') && c'.pc == Done(outcome)
        && Leads(world, Config(old(env.now), old(store.View()), Request(input, None, None, None, None),
                               Launch(input).pc), c')
      ensures store.signingKeys == old(store.signingKeys)
      ensures input.EmptyBody? && outcome.Refused? ==> env.draws == []
      ensures if outcome == Registered
        then input.Registration? && exists key: nat :: InsertedUnder(old(store.View()), store.View(), input, key)
        else store.manifests == old(store.manifests)
      ensures input.Registration? && DistinctSigners(store.signingKeys) ==>
        (outcome == Registered <==> MayRegister(old(store.View()), input))
      ensures Service.Serves(world, old(env.now), env.now, old(env.draws), old(store.View()), store.View(), input,
                             outcome)
      ensures input.Signed? ==> FulfilsSigned(old(store.View()), store.View(), input, outcome)
      ensures IsSuccess(input) && outcome == NoContent && UniqueDigests(old(store.manifests)) ==>
        && input.kid.Some? && input.message.token.Some?
        && BeliefsFollow(Apply(old(store.View()), UseToken(input.message.token.value)), store.View(), input.kid.value,
                         input.message.reports)
      ensures Guarantees.Reports(input) && Service.TokenAnswers(old(store.View()), input.message.token) ==>
        (Service.Vouched(world, old(store.agents), env.now, input.kid, input.body) ==> outcome == NoContent)
    {
      hide Execute, Leads, FirstPc, OrderedStreams, NonNegative, InsertedUnder, MayRegister, DistinctSigners,
           FulfilsSigned, BeliefsFollow, UniqueDigests, OneActive, UniqueKids, TablesSound, Service.Serves,
           Service.Vouched, Service.TokenAnswers;
      StoreIsSound();
      ghost var s := Execute(world, start, past);
      ghost var arrived := past + [Arrive(input)];
      ExecuteLast(world, start, past, Arrive(input));
      ghost var c := Config(env.now, store.View(), Request(input, None, None, None, None), Launch(input).pc);
      ghost var i := |s.threads|;
      ghost var c';
      outcome, c' := Handle(input, c);
      if input.Signed? { FoldsReports(old(store.View()), store.View(), input, outcome); }
      if Guarantees.Reports(input) && Service.Vouched(world, c.db.agents, env.now, input.kid, input.body) {
        Guarantees.VouchedReportIsAccepted(world, c.now, env.now, old(env.draws), c.db, store.View(), input, outcome);
      }
      LeadsKeepsInput(world, c, c');
      ghost var more := LeadsIsRun(world, Execute(world, start, arrived), i, c, c');
      ExecuteAppended(world, start, arrived, more);
      past := arrived + more;
    }
  }

  // ---- what a signed message comes to ----

  predicate IsSuccess(input: Input)
  {
    input.Signed? && input.message.kind.KindSuccess?
  }

  /** What the answer to a message says of the store it was handled in: an Update carries the
      selection, the empty answer to a QueryResponse means none of its components is known, a
      Success has its reports folded into the beliefs, an Error has its positive reports filed. */
  ghost predicate Fulfils(before: Db, db: Db, message: Message, auth: Option<Bytes>, outcome: Outcome)
  {
    match message.kind
    case KindQueryResponse =>
      && (outcome.UpdateSent? ==> exists picked: seq<nat> ::
            && picked != [] && Selects(db.manifests, ComponentSet(message), picked)
            && outcome.manifests == Envelopes(db, picked))
      && (outcome == NoContent ==> Selects(db.manifests, ComponentSet(message), []))
    case KindSuccess =>
      outcome == NoContent ==>
        && auth.Some?
        && (OneActive(before) && UniqueDigests(before.manifests) && UniqueKids(before.agents) ==>
              BeliefsFollow(before, db, auth.value, message.reports))
    case KindError =>
      outcome == NoContent ==>
        auth.Some? && Filed(before, db, auth.value, message.reports)
    case _ => outcome.Refused?
  }

  /** The same from before the token was consumed. */
  ghost predicate FulfilsSigned(before: Db, db: Db, input: Input, outcome: Outcome)
    requires input.Signed?
  {
    && Fulfils(Apply(before, UseToken(BytesOf(input.message.token))), db, input.message, input.kid, outcome)
    && (IsReport(input.message) && outcome == NoContent ==> input.message.token.Some?)
  }

  lemma FulfilsAfterToken(before: Db, db: Db, after: Db, input: Input, auth: Option<Bytes>, sent: Option<Sent>,
                          outcome: Outcome)
    requires input.Signed? && Fulfils(db, after, input.message, auth, outcome)
    requires auth.Some? ==> auth == input.kid
    requires IsReport(input.message) && outcome == NoContent ==> sent.Some?
    requires sent.Some? ==> input.message.token.Some? && db == Apply(before, UseToken(input.message.token.value))
    ensures FulfilsSigned(before, after, input, outcome)
  {
    hide Selects, OneActive, UniqueDigests, UniqueKids, BeliefsFollow, ComponentSet, Envelopes, Filed;
  }

  lemma RefusedFulfils(before: Db, db: Db, input: Input, e: TamError)
    requires input.Signed?
    ensures FulfilsSigned(before, db, input, Refused(e))
  {
  }

  /** In a store that is sound, with unique digests, nothing more is needed for the fold. */
  lemma FoldsReports(before: Db, db: Db, input: Input, outcome: Outcome)
    requires input.Signed? && FulfilsSigned(before, db, input, outcome) && OneActive(before)
    requires UniqueKids(before.agents)
    ensures input.message.kind.KindSuccess? && outcome == NoContent && UniqueDigests(before.manifests) ==>
      && input.kid.Some? && input.message.token.Some?
      && BeliefsFollow(Apply(before, UseToken(input.message.token.value)), db, input.kid.value, input.message.reports)
  {
    hide UniqueDigests, UniqueKids, BeliefsFollow;
  }

  predicate DeviceOf(devices: seq<Bytes>, ueid: Option<Bytes>, device: Option<nat>)
  {
    match ueid
    case None => device.None?
    case Some(bytes) =>
      if device.None? then bytes !in devices else device.value < |devices| && devices[device.value] == bytes
  }

  lemma AgentStored(db: Db, agent: AgentRow)
    ensures Apply(db, PutAgent(agent)).agents == db.agents + [agent]
  {
  }

  lemma AgentsRevoked(db: Db, kid: Bytes, at: int)
    ensures Apply(db, RevokeAgent(kid, at)).agents == Revoked(db.agents, kid, at)
  {
  }

  // ---- which registrations pass ----

  /** No two signing keys share a kid, as the table demands. */
  ghost predicate DistinctSigners(keys: seq<SigningKeyRow>)
  {
    forall i, j :: 0 <= i < j < |keys| ==> keys[i].kid != keys[j].kid
  }

  /** There is an envelope under a known signing key, with a number that can be stored, newer
      than everything stored for its component and under the same key. */
  ghost predicate MayRegister(db: Db, input: Input)
  {
    && input.Registration? && input.envelope.Some? && input.sequenceNumber < MAX_INT64
    && exists key: nat ::
         PicksSigningKey(db.signingKeys, input.signer, Some(key)) && Fresh(db.manifests, NewManifest(input, key))
  }

  lemma OnlySigner(db: Db, input: Input, key: nat)
    requires input.Registration? && input.envelope.Some?
    requires DistinctSigners(db.signingKeys) && PicksSigningKey(db.signingKeys, input.signer, Some(key))
    ensures MayRegister(db, input) <==> input.sequenceNumber < MAX_INT64 && Fresh(db.manifests, NewManifest(input, key))
  {
    hide Fresh, NewManifest;
    if MayRegister(db, input) {
      var other: nat :|
        PicksSigningKey(db.signingKeys, input.signer, Some(other)) && Fresh(db.manifests, NewManifest(input, other));
      assert other == key;
    }
  }

  lemma NoSigner(db: Db, input: Input)
    requires input.Registration? && (input.envelope.None? || PicksSigningKey(db.signingKeys, input.signer, None))
    ensures !MayRegister(db, input)
  {
  }

  /** What the check after the lookups decides. */
  predicate Newer(db: Db, input: Input, key: nat, existing: Option<nat>)
    requires input.Registration?
  {
    existing.None? || (existing.value < |db.manifests|
                       && Unsigned64(db.manifests[existing.value].sequenceNumber) < input.sequenceNumber
                       && db.manifests[existing.value].signingKey == key)
  }

  /** The checks pass exactly what may be registered, and inserting it keeps the streams. */
  lemma RegistersExactly(db: Db, input: Input, key: nat, existing: Option<nat>)
    requires input.Registration? && input.envelope.Some?
    requires PicksSigningKey(db.signingKeys, input.signer, Some(key))
    requires PicksLatest(db.manifests, input.component, existing)
    ensures OrderedStreams(db.manifests) && NonNegative(db.manifests) && DistinctSigners(db.signingKeys) ==>
      (MayRegister(db, input) <==> input.sequenceNumber < MAX_INT64 && Newer(db, input, key, existing))
    ensures OrderedStreams(db.manifests) && NonNegative(db.manifests) ==>
      (input.sequenceNumber < MAX_INT64 && Newer(db, input, key, existing) ==>
         var manifests := Apply(db, PutManifest(NewManifest(input, key))).manifests;
         OrderedStreams(manifests) && NonNegative(manifests))
  {
    if OrderedStreams(db.manifests) && NonNegative(db.manifests) {
      CheckIsExact(db, input, key, existing);
      if input.sequenceNumber < MAX_INT64 && Newer(db, input, key, existing) {
        InsertKeepsStreamsIffFresh(db.manifests, NewManifest(input, key));
        NonNegativeGrows(db.manifests, NewManifest(input, key));
      }
      if DistinctSigners(db.signingKeys) { OnlySigner(db, input, key); }
    }
    hide OrderedStreams, NonNegative, DistinctSigners, MayRegister, Newer, PicksLatest, PicksSigningKey, Fresh;
  }

  /** In an ordered stream, comparing with the latest row is comparing with every row. */
  lemma CheckIsExact(db: Db, input: Input, key: nat, existing: Option<nat>)
    requires input.Registration? && input.envelope.Some? && OrderedStreams(db.manifests) && NonNegative(db.manifests)
    requires PicksLatest(db.manifests, input.component, existing)
    ensures input.sequenceNumber < MAX_INT64 ==>
      (Fresh(db.manifests, NewManifest(input, key)) <==> Newer(db, input, key, existing))
  {
    var manifests := db.manifests;
    if existing.Some? && manifests[existing.value].signingKey == key {
      forall k | 0 <= k < |manifests| && manifests[k].component == input.component
        ensures manifests[k].signingKey == key
      {
        assert k < existing.value || existing.value < k || k == existing.value;
      }
    }
  }

  lemma FilingFollows(before: Db, db: Db, kid: Bytes, reports: seq<ReportItem>, last: ReportItem,
                      agent: Option<nat>, about: Option<nat>, db': Db)
    requires Filed(before, db, kid, reports) && Counted(last)
    requires PicksAgent(before.agents, kid, agent) && PicksManifestByDigest(before.manifests, DigestKey(last), about)
    requires db' == if agent.Some? then Apply(db, PutReport(ReportRow(agent.value, about, last.raw, false))) else db
    ensures Filed(before, db', kid, reports + [last])
  {
    hide Filed, Counted, DigestKey, Apply, PicksManifestByDigest;
    if agent.Some? {
      FiledOneMore(before, db, kid, reports, last, ReportRow(agent.value, about, last.raw, false));
    } else {
      SkippedIsFiled(before, db, kid, reports, last);
    }
  }

  /** Bytes just issued are issued and unconsumed. */
  lemma JustIssued(db: Db, bytes: Bytes)
    ensures !Issued(db.tokens, bytes) ==>
      var rows := Apply(db, PutToken(bytes)).tokens; Issued(rows, bytes) && !Spent(rows, bytes)
    ensures !Issued(db.challenges, bytes) ==>
      var rows := Apply(db, PutChallenge(bytes)).challenges; Issued(rows, bytes) && !Spent(rows, bytes)
  {
    assert Apply(db, PutToken(bytes)).tokens[|db.tokens|].bytes == bytes;
    assert Apply(db, PutChallenge(bytes)).challenges[|db.challenges|].bytes == bytes;
  }

  /** Every stored key with this thumbprint, and there is one, is neither revoked nor expired. */
  ghost predicate KeyStands(agents: seq<AgentRow>, kid: Bytes, now: int)
  {
    KnownAgent(agents, kid) && forall a :: 0 <= a < |agents| && agents[a].kid == kid ==> Live(agents[a], now)
  }

  lemma UnfitAgent(agents: seq<AgentRow>, kid: Bytes, pick: Option<nat>, now: int)
    requires PicksAgent(agents, kid, pick) && (pick.None? || !Live(agents[pick.value], now))
    ensures !KeyStands(agents, kid, now)
  {
  }

  lemma UnfitHandle(rows: seq<HandleRow>, bytes: Bytes, pick: Option<nat>)
    requires PicksHandle(rows, bytes, pick) && (pick.None? || rows[pick.value].consumed)
    ensures !Issued(rows, bytes) || Spent(rows, bytes)
  {
  }

  lemma StartsIssuing(c: Config)
    requires c.pc == FirstPc(c.req) && c.req.input == EmptyBody
    ensures c.pc == Issuing(DrawToken(AskTcList))
  {
  }

  lemma StartsRefused(c: Config, e: TamError)
    requires c.pc == FirstPc(c.req) && c.req.input == Unparsable(e)
    ensures c.pc == Refuse(e)
  {
  }

  lemma ExistingInRange(manifests: seq<ManifestRow>, component: Bytes, existing: Option<nat>)
    requires PicksLatest(manifests, component, existing)
    ensures existing.Some? ==> existing.value < |manifests|
  {
  }

  /** One row, made of the registration, is the only difference. */
  ghost predicate InsertedUnder(db: Db, db': Db, input: Input, key: nat)
  {
    && input.Registration? && input.envelope.Some? && PicksSigningKey(db.signingKeys, input.signer, Some(key))
    && db' == Apply(db, PutManifest(NewManifest(input, key)))
  }

  lemma SelectsNone(manifests: seq<ManifestRow>)
    ensures Selects(manifests, [], [])
  {
  }

  lemma SelectedInRange(manifests: seq<ManifestRow>, components: seq<Bytes>, picked: seq<nat>)
    requires Selects(manifests, components, picked)
    ensures InRange(picked, |manifests|)
  {
  }

  lemma SameEnvelopes(db: Db, db': Db, ids: seq<nat>)
    requires db.manifests == db'.manifests
    ensures Envelopes(db, ids) == Envelopes(db', ids)
  {
  }
}
