/**
 From what each statement does to what a request comes to: the rows behind every answer.
 */
module Accounts {
  import opened Wrappers
  import opened Tables
  import opened Protocol
  import opened Machine
  import opened Repositories
  import opened Selection
  import opened Service
  import opened Registry

  // ---- handles ----

  lemma SameHandles(rows: seq<HandleRow>, bytes: Bytes)
    ensures Issued(rows, bytes) <==> HasBytes(rows, bytes)
    ensures Unconsumed(rows, bytes) <==> Open(rows, bytes)
    ensures Consumed(rows, bytes) == Flipped(rows, bytes)
    ensures !Open(rows, bytes) ==> Flipped(rows, bytes) == rows
  {
    if Unconsumed(rows, bytes) {
      var i :| 0 <= i < |rows| && rows[i].bytes == bytes && !rows[i].consumed;
      assert rows[i] == HandleRow(bytes, false);
    }
    if Issued(rows, bytes) {
      var i :| 0 <= i < |rows| && rows[i].bytes == bytes;
      assert i < |rows| && rows[i].bytes == bytes;
    }
    if !Open(rows, bytes) {
      forall i | 0 <= i < |rows| ensures Flipped(rows, bytes)[i] == rows[i] {
        assert rows[i] == HandleRow(rows[i].bytes, rows[i].consumed);
      }
    }
  }

  /** Of bytes just issued there is one row, the last. */
  lemma LastRow(rows: seq<HandleRow>, bytes: Bytes, pick: Option<nat>)
    requires !HasBytes(rows, bytes) && PicksHandle(rows + [HandleRow(bytes, false)], bytes, pick)
    ensures pick == Some(|rows|)
  {
    var longer := rows + [HandleRow(bytes, false)];
    assert longer[|rows|].bytes == bytes;
    forall i: nat | i < |rows| ensures longer[i].bytes != bytes {
      assert longer[i] == rows[i];
    }
  }

  lemma TokenIsMatched(db: Db, token: Bytes)
    ensures (exists q: nat :: QueryUsesToken(db, q, token)) <==> (exists q: nat, t: nat :: QueryUnder(db, q, t, token))
    ensures (exists u: nat :: UpdateUsesToken(db, u, token)) <==>
      (exists u: nat, t: nat :: UpdateUnder(db, u, t, token))
  {
    if q: nat :| QueryUsesToken(db, q, token) { assert QueryUnder(db, q, db.queries[q].token.value, token); }
    if u: nat :| UpdateUsesToken(db, u, token) { assert UpdateUnder(db, u, db.updates[u].token, token); }
    if q: nat, t: nat :| QueryUnder(db, q, t, token) { assert QueryUsesToken(db, q, token); }
    if u: nat, t: nat :| UpdateUnder(db, u, t, token) { assert UpdateUsesToken(db, u, token); }
  }

  lemma ChallengeIsMatched(db: Db, challenge: Bytes)
    ensures (exists q: nat :: QueryUsesChallenge(db, q, challenge)) <==>
      (exists q: nat, c: nat :: QueryUnderChallenge(db, q, c, challenge))
  {
    if q: nat :| QueryUsesChallenge(db, q, challenge) {
      assert QueryUnderChallenge(db, q, db.queries[q].challenge.value, challenge);
    }
    if q: nat, c: nat :| QueryUnderChallenge(db, q, c, challenge) { assert QueryUsesChallenge(db, q, challenge); }
  }

  /** Consuming a handle binds and unbinds nothing. */
  lemma ConsumingKeepsBindings(db: Db, token: Bytes, bytes: Bytes)
    ensures var spent := Apply(db, UseToken(token));
      && (forall q: nat :: QueryUsesToken(spent, q, bytes) <==> QueryUsesToken(db, q, bytes))
      && (forall u: nat :: UpdateUsesToken(spent, u, bytes) <==> UpdateUsesToken(db, u, bytes))
    ensures var spent := Apply(db, UseChallenge(token));
      forall q: nat :: QueryUsesChallenge(spent, q, bytes) <==> QueryUsesChallenge(db, q, bytes)
  {
  }

  /** The message is found under an unconsumed token, or there is none. */
  lemma TokenSearch(db: Db, token: Bytes, consumed: bool, query: Option<nat>, update: Option<seq<nat>>)
    requires consumed == Unconsumed(db.tokens, token)
    requires var spent := Apply(db, UseToken(token));
      consumed ==> PicksQueryByToken(spent, token, query) && (query.None? ==> PicksUpdate(spent, token, update))
    ensures TokenAnswers(db, Some(token)) <==> consumed && (query.Some? || update.Some?)
    ensures TokenSpent(db, Some(token)) == if consumed then Apply(db, UseToken(token)) else db
  {
    SameHandles(db.tokens, token);
    TokenIsMatched(db, token);
    ConsumingKeepsBindings(db, token, token);
    hide QueryUsesToken, UpdateUsesToken, QueryUnder, UpdateUnder, LinkedManifests, Flipped, Consumed;
    if consumed && query.Some? { assert QueryUsesToken(db, query.value, token); }
  }

  lemma ChallengeSearch(db: Db, challenge: Bytes, consumed: bool, query: Option<nat>)
    requires consumed == Unconsumed(db.challenges, challenge)
    requires consumed ==> PicksQueryByChallenge(Apply(db, UseChallenge(challenge)), challenge, query)
    ensures ChallengeAnswers(db, challenge) <==> consumed && query.Some?
    ensures db.(challenges := Flipped(db.challenges, challenge)) ==
      if consumed then Apply(db, UseChallenge(challenge)) else db
  {
    SameHandles(db.challenges, challenge);
    ChallengeIsMatched(db, challenge);
    ConsumingKeepsBindings(db, challenge, challenge);
    hide QueryUsesChallenge, QueryUnderChallenge, Flipped, Consumed;
    if consumed && query.Some? { assert QueryUsesChallenge(db, query.value, challenge); }
  }

  // ---- asking ----

  /** What is written with a QueryRequest under handle row id. */
  predicate QueryWritten(db: Db, db': Db, handle: Handle, id: nat, outcome: Outcome)
  {
    && outcome == QuerySent(handle, handle.ChallengeHandle?, handle.TokenHandle?)
    && db' == db.(queries := db.queries + [if handle.TokenHandle? then QueryRow(false, true, Some(id), None)
                                           else QueryRow(true, false, None, Some(id))])
  }

  lemma TokenAsked(draws: seq<Bytes>, db: Db, b: Bytes, mid: Db, db': Db, id: nat, outcome: Outcome)
    requires Draws(db.tokens, draws, Some(b)) && mid == Apply(db, PutToken(b))
    requires PicksHandle(mid.tokens, b, Some(id)) && QueryWritten(mid, db', TokenHandle(b), id, outcome)
    ensures AsksTcList(draws, db, db', outcome)
  {
    LastRow(db.tokens, b, Some(id));
    hide HasBytes;
  }

  lemma ChallengeAsked(draws: seq<Bytes>, db: Db, b: Bytes, mid: Db, db': Db, id: nat, outcome: Outcome)
    requires Draws(db.challenges, draws, Some(b)) && mid == Apply(db, PutChallenge(b))
    requires PicksHandle(mid.challenges, b, Some(id)) && QueryWritten(mid, db', ChallengeHandle(b), id, outcome)
    ensures AsksAttestation(draws, db, db', outcome)
  {
    LastRow(db.challenges, b, Some(id));
    hide HasBytes;
  }

  // ---- keys ----

  /** With unique thumbprints the row picked decides. */
  lemma PickDecides(w: World, agents: seq<AgentRow>, now: int, kid: Bytes, body: Bytes, pick: Option<nat>)
    requires UniqueKids(agents) && PicksAgent(agents, kid, pick) && |kid| == 32
    ensures var stands := pick.Some? && Live(agents[pick.value], now);
      && (Unusable(w, agents, now, kid) <==> stands && !w.usable(agents[pick.value].publicKey))
      && (Vouched(w, agents, now, Some(kid), body) <==>
            stands && w.usable(agents[pick.value].publicKey) && w.verifies(body, agents[pick.value].publicKey))
  {
    forall a: nat | StandingKey(agents, now, kid, a) ensures pick == Some(a) && Live(agents[a], now) {
      assert KnownAgent(agents, kid);
      assert !(a < pick.value) && !(pick.value < a);
    }
    if pick.Some? && Live(agents[pick.value], now) { assert StandingKey(agents, now, kid, pick.value); }
  }

  lemma StandingPicked(agents: seq<AgentRow>, now: int, kid: Bytes, pick: Option<nat>)
    requires UniqueKids(agents) && PicksAgent(agents, kid, pick)
    ensures (exists a: nat :: StandingKey(agents, now, kid, a)) <==> pick.Some? && Live(agents[pick.value], now)
    ensures pick.Some? && Live(agents[pick.value], now) ==> StandingKey(agents, now, kid, pick.value)
  {
    forall a: nat | StandingKey(agents, now, kid, a) ensures pick == Some(a) && Live(agents[a], now) {
      assert KnownAgent(agents, kid);
      assert !(a < pick.value) && !(pick.value < a);
    }
    if pick.Some? && Live(agents[pick.value], now) { assert StandingKey(agents, now, kid, pick.value); }
  }

  lemma ExistingEnrols(from: int, to: int, now: int, db: Db, key: Key, kid: Bytes, ueid: Option<Bytes>, a: nat)
    requires from <= now <= to && |kid| == 32 && a < |db.agents| && db.agents[a].kid == kid
    ensures Enrols(from, to, db, db, key, kid, ueid, now <= db.agents[a].expiredAt)
  {
    assert NotExpired(db.agents[a], now) == (now <= db.agents[a].expiredAt);
    assert KeyStored(db.agents, kid);
  }

  lemma NewEnrols(from: int, to: int, now: int, db: Db, key: Key, kid: Bytes, ueid: Option<Bytes>, device: Option<nat>)
    requires from <= now <= to && |kid| == 32 && !KnownAgent(db.agents, kid)
    requires if ueid.None? then device.None? else PicksDevice(db.devices, ueid.value, device)
    ensures Enrols(from, to, db, Apply(db, PutAgent(NewAgent(kid, device, key, now))), key, kid, ueid, true)
  {
    var second := now - now % 1_000_000_000;
    assert SecondOf(second, now) && Device(db.devices, ueid, device);
    assert NewAgent(kid, device, key, now) == AgentRow(kid, device, key, second, second + 31_536_000_000_000_000, None);
  }

  lemma EnrolsKeepsKids(from: int, to: int, db: Db, db': Db, key: Key, kid: Bytes, ueid: Option<Bytes>, ok: bool)
    requires Enrols(from, to, db, db', key, kid, ueid, ok) && UniqueKids(db.agents)
    ensures UniqueKids(db'.agents)
  {
    hide SecondOf, Device;
  }

  // ---- delivering ----

  /** What is written with an Update for the agent row, under token row id. */
  predicate UpdateWritten(db: Db, db': Db, a: nat, kid: Bytes, token: Bytes, id: nat, picked: seq<nat>,
                          outcome: Outcome)
  {
    && outcome == UpdateSent(kid, token, Envelopes(db, picked))
    && db' == db.(updates := db.updates + [UpdateRow(a, id)], links := db.links + LinksFor(|db.updates|, picked))
  }

  lemma UpdateSends(db: Db, db': Db, a: nat, kid: Bytes, token: Bytes, id: nat, picked: seq<nat>, outcome: Outcome)
    requires !HasBytes(db.tokens, token)
    requires var mid := Apply(db, PutToken(token));
      PicksHandle(mid.tokens, token, Some(id)) && UpdateWritten(mid, db', a, kid, token, id, picked, outcome)
    requires forall i :: 0 <= i < |picked| ==> picked[i] < |db.manifests|
    ensures Sends(db, db', a, kid, token, picked, outcome)
  {
    LastRow(db.tokens, token, Some(id));
    hide HasBytes;
  }

  /** How delivering ends once the token is issued and the manifests are picked. */
  ghost predicate UpdateTried(now: int, mid: Db, db': Db, kid: Bytes, token: Bytes, picked: seq<nat>, outcome: Outcome)
  {
    if exists a: nat :: StandingKey(mid.agents, now, kid, a) then
      exists a: nat, id: nat ::
        && StandingKey(mid.agents, now, kid, a) && PicksHandle(mid.tokens, token, Some(id))
        && UpdateWritten(mid, db', a, kid, token, id, picked, outcome)
    else Refuses(mid, db', outcome, Fatal)
  }

  lemma TriedDelivers(draws: seq<Bytes>, now: int, db: Db, db': Db, message: Message, kid: Bytes, token: Bytes,
                      picked: seq<nat>, outcome: Outcome)
    requires Draws(db.tokens, draws, Some(token)) && Selects(db.manifests, ComponentSet(message), picked)
    requires forall i :: 0 <= i < |picked| ==> picked[i] < |db.manifests|
    requires var mid := Apply(db, PutToken(token));
      if picked == [] then outcome == NoContent && db' == mid
      else UpdateTried(now, mid, db', kid, token, picked, outcome)
    ensures Delivers(draws, now, db, db', message, kid, outcome)
  {
    hide Selects, Deduplicates, ComponentSet, Listed, Sends, UpdateWritten, PicksHandle, StandingKey;
    ComponentSetDeduplicates(message);
    var mid := Apply(db, PutToken(token));
    if picked != [] && exists a: nat :: StandingKey(db.agents, now, kid, a) {
      var a: nat, id: nat :| StandingKey(mid.agents, now, kid, a) && PicksHandle(mid.tokens, token, Some(id))
        && UpdateWritten(mid, db', a, kid, token, id, picked, outcome);
      UpdateSends(db, db', a, kid, token, id, picked, outcome);
    }
    assert DeliversPicked(now, db, db', kid, token, picked, outcome);
    hide DeliversPicked;
  }

  // ---- reports ----

  lemma GoodIsCounted(report: ReportItem)
    ensures Good(report) <==> Counted(report)
    ensures Counted(report) ==> forall db: Db, m: nat :: Names(db, report, m) <==>
      m < |db.manifests| && db.manifests[m].digest == DigestKey(report)
  {
    if report.content.Some? { CountedExactly(report.raw, report.content.value); }
    if Counted(report) { DigestKeyBytes(report); }
    hide Counted, DigestKey;
  }

  lemma HoldInstalls(db: Db, a: nat, m: nat, now: int, raw: Bytes)
    requires m < |db.manifests|
    ensures var second := now - now % 1_000_000_000;
      && SecondOf(second, now)
      && Installs(db, Apply(db, Hold(a, m, db.manifests[m].component, WholeSeconds(now), raw)), a, m, second, raw)
  {
    var component := db.manifests[m].component;
    var retired := Retired(db, a, component);
    forall h | 0 <= h < |db.holdings|
      ensures retired[h].(deleted := db.holdings[h].deleted) == db.holdings[h]
      ensures retired[h].deleted <==>
        db.holdings[h].deleted || (db.holdings[h].agent == a && db.holdings[h].manifest < |db.manifests|
                                   && db.manifests[db.holdings[h].manifest].component == component)
    {
    }
  }

  lemma OneRecorded(from: int, to: int, now: int, db: Db, db': Db, kid: Bytes, report: ReportItem,
                    agent: Option<nat>, manifest: Option<nat>)
    requires Counted(report) && from <= now <= to
    requires PicksAgent(db.agents, kid, agent) && PicksManifestByDigest(db.manifests, DigestKey(report), manifest)
    requires db' == if agent.None? || manifest.None? then db else
      Apply(db, Hold(agent.value, manifest.value, db.manifests[manifest.value].component, WholeSeconds(now),
                     report.raw))
    ensures Records(from, to, db, db', kid, report)
  {
    GoodIsCounted(report);
    hide Counted, DigestKey, Good, Installs, SecondOf, Apply, WholeSeconds;
    if agent.Some? && manifest.Some? {
      HoldInstalls(db, agent.value, manifest.value, now, report.raw);
      assert Names(db, report, manifest.value) && KeyStored(db.agents, kid);
    }
  }

  lemma OneFiled(db: Db, db': Db, kid: Bytes, report: ReportItem, agent: Option<nat>, about: Option<nat>)
    requires Counted(report)
    requires PicksAgent(db.agents, kid, agent) && PicksManifestByDigest(db.manifests, DigestKey(report), about)
    requires db' == if agent.None? then db else Apply(db, PutReport(ReportRow(agent.value, about, report.raw, false)))
    ensures FilesOne(db, db', kid, report)
  {
    GoodIsCounted(report);
    hide Counted, DigestKey, Good;
    if agent.Some? { assert KeyStored(db.agents, kid); }
  }

  lemma RecordedOneMore(from: int, to: int, to': int, trail: seq<Db>, db': Db, kid: Bytes, reports: seq<ReportItem>,
                        last: ReportItem)
    requires RecordsAll(from, to, trail, kid, reports) && to <= to'
    requires Records(from, to', trail[|reports|], db', kid, last)
    ensures RecordsAll(from, to', trail + [db'], kid, reports + [last])
  {
    var longer, all := trail + [db'], reports + [last];
    forall i | 0 <= i < |all| ensures Records(from, to', longer[i], longer[i + 1], kid, all[i]) {
      if i < |reports| {
        assert Records(from, to, trail[i], trail[i + 1], kid, reports[i]);
        RecordsWider(from, to, from, to', trail[i], trail[i + 1], kid, reports[i]);
      }
    }
  }

  lemma RecordsWider(from: int, to: int, from': int, to': int, db: Db, db': Db, kid: Bytes, report: ReportItem)
    requires Records(from, to, db, db', kid, report) && from' <= from && to <= to'
    ensures Records(from', to', db, db', kid, report)
  {
    hide Good, Names, SecondOf, Installs;
  }

  lemma FiledOneMoreRow(trail: seq<Db>, db': Db, kid: Bytes, reports: seq<ReportItem>, last: ReportItem)
    requires FilesAll(trail, kid, reports) && FilesOne(trail[|reports|], db', kid, last)
    ensures FilesAll(trail + [db'], kid, reports + [last])
  {
    hide FilesOne;
    var longer, all := trail + [db'], reports + [last];
    forall i | 0 <= i < |all| ensures FilesOne(longer[i], longer[i + 1], kid, all[i]) {
      if i < |reports| { assert FilesOne(trail[i], trail[i + 1], kid, reports[i]); }
    }
  }

  lemma NotGoodChangesNothing(from: int, to: int, db: Db, kid: Bytes, report: ReportItem)
    requires !Counted(report)
    ensures Records(from, to, db, db, kid, report) && FilesOne(db, db, kid, report)
  {
    GoodIsCounted(report);
    hide Counted, Good;
  }

  // ---- registering and revoking ----

  /** In ordered streams the latest row stands for all of its component. */
  lemma LatestDecides(db: Db, input: Input, key: nat, existing: Option<nat>)
    requires input.Registration? && OrderedStreams(db.manifests) && NonNegative(db.manifests)
    requires PicksLatest(db.manifests, input.component, existing)
    ensures existing.Some? ==> existing.value < |db.manifests|
    ensures AsNew(db, input) <==>
      existing.Some? && Unsigned64(db.manifests[existing.value].sequenceNumber) >= input.sequenceNumber
    ensures OtherSigner(db, input, key) <==> existing.Some? && db.manifests[existing.value].signingKey != key
  {
    if existing.Some? {
      forall m: nat | m < |db.manifests| && db.manifests[m].component == input.component
        ensures db.manifests[m].signingKey == db.manifests[existing.value].signingKey
      {
        assert m < existing.value || existing.value < m || m == existing.value;
      }
    }
  }

  lemma StoredAsRegistered(input: Input, key: nat)
    requires input.Registration? && input.envelope.Some? && input.sequenceNumber < MAX_INT64
    ensures NewManifest(input, key) ==
      ManifestRow(input.envelope.value, input.digest, key, input.component, input.sequenceNumber)
    ensures MAX_INT64 == 0x7FFF_FFFF_FFFF_FFFF
  {
  }

  lemma RevokedRows(from: int, to: int, now: int, db: Db, kid: Bytes)
    requires from <= now <= to && |kid| == 32
    requires exists a :: 0 <= a < |db.agents| && db.agents[a].kid == kid && db.agents[a].revokedAt.None?
    ensures Revokes(from, to, db, Apply(db, RevokeAgent(kid, WholeSeconds(now))), kid, RevokedNow)
  {
    assert SecondOf(now - now % 1_000_000_000, now);
  }
}
