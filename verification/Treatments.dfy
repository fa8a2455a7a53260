/**
 How what the handlers do, statement by statement, adds up to what serving a request comes to.
 */
module Treatments {
  import opened Wrappers
  import opened Tables
  import opened Protocol
  import opened Machine
  import opened Registry
  import opened Holdings
  import opened Beliefs
  import opened Accounts
  import opened Service

  predicate IsReport(message: Message)
  {
    message.kind.KindSuccess? || message.kind.KindError?
  }

  lemma NextCountedAt(reports: seq<ReportItem>, i: nat)
    ensures i >= |reports| ==> NextCounted(reports, i) == i
    ensures i < |reports| ==> NextCounted(reports, i) == if Counted(reports[i]) then i else NextCounted(reports, i + 1)
  {
  }

  lemma BeliefFollowsReport(before: Db, db: Db, kid: Bytes, reports: seq<ReportItem>, last: ReportItem,
                            agent: Option<nat>, manifest: Option<nat>, at: int, db': Db)
    requires BeliefsFollow(before, db, kid, reports) && Counted(last)
    requires UniqueDigests(before.manifests) && UniqueKids(before.agents)
    requires PicksAgent(before.agents, kid, agent) && PicksManifestByDigest(before.manifests, DigestKey(last), manifest)
    requires db' ==
      if agent.Some? && manifest.Some?
         && !HoldCollides(db, agent.value, manifest.value, before.manifests[manifest.value].component)
      then
        Apply(db, Hold(agent.value, manifest.value, before.manifests[manifest.value].component, at, last.raw))
      else db
    ensures BeliefsFollow(before, db', kid, reports + [last])
  {
    hide Counted, DigestKey, Apply, Believed, OneActive, UniqueDigests, UniqueKids, ManifestWith, Asserted,
         HoldCollides;
    DigestIsUnambiguous(before.manifests, DigestKey(last), manifest);
    if agent.Some? && manifest.Some? {
      HoldNeverCollides(db, agent.value, manifest.value, before.manifests[manifest.value].component);
      hide PicksManifestByDigest;
      ReflectedReport(before, db, kid, reports, last, agent.value, manifest.value, at);
    } else {
      SkippedReport(before, db, kid, reports, last);
    }
  }

  /** Whose a message is: nobody's without a kid, else the standing key's that verifies it. */
  ghost predicate Authenticates(w: World, now: int, agents: seq<AgentRow>, input: Input,
                                r: Result<Option<Bytes>, TamError>)
    requires input.Signed?
  {
    if input.kid == None || input.kid == Some([]) then r == Err(KidMissing)
    else if Unusable(w, agents, now, input.kid.value) then r == Err(Fatal)
    else r == Ok(if Vouched(w, agents, now, input.kid, input.body) then input.kid else None)
  }

  lemma ShortKidIsNobody(w: World, agents: seq<AgentRow>, now: int, input: Input)
    requires input.Signed? && input.kid.Some? && |input.kid.value| != 32 && input.kid.value != []
    ensures Authenticates(w, now, agents, input, Ok(None))
  {
  }

  lemma QueryIsWritten(db: Db, handle: Handle, id: nat)
    ensures var row := QueryRowFor(handle, id);
      QueryWritten(db, Apply(db, PutQuery(row)), handle, id, QuerySent(handle, row.attestation, row.tcList))
    ensures QueryRowFor(handle, 0).attestation == QueryRowFor(handle, id).attestation
    ensures QueryRowFor(handle, 0).tcList == QueryRowFor(handle, id).tcList
  {
  }

  lemma NoTokenSearch(db: Db)
    ensures TokenSpent(db, None) == db && !TokenAnswers(db, None)
  {
  }

  lemma QueryInRange(db: Db, token: Bytes, q: nat)
    requires PicksQueryByToken(db, token, Some(q))
    ensures q < |db.queries|
  {
  }

  lemma ChallengeQueryInRange(db: Db, challenge: Bytes, q: nat)
    requires PicksQueryByChallenge(db, challenge, Some(q))
    ensures q < |db.queries|
  {
  }

  function ChallengeSpent(db: Db, challenge: Option<Bytes>): Db
  {
    if challenge.None? then db else db.(challenges := Flipped(db.challenges, challenge.value))
  }

  lemma OddEnrols(now: int, db: Db, key: Key, kid: Bytes, ueid: Option<Bytes>)
    requires |kid| != 32
    ensures Enrols(now, now, db, db, key, kid, ueid, true)
  {
  }

  function Whom(r: Result<(Bytes, Sent), TamError>): Result<Bytes, TamError>
  {
    match r case Err(e) => Err(e) case Ok((kid, _)) => Ok(kid)
  }

  lemma AttestsAtOnce(w: World, now: int, db: Db, input: Input, auth: Option<Bytes>)
    requires input.Signed?
    ensures input.message.payload.None? ==> Attests(w, now, now, db, db, input, auth, Err(PayloadNotFound))
    ensures input.message.payload.Some? ==>
      match input.verdict
      case SubmitFailed(e) => Attests(w, now, now, db, db, input, auth, Err(e))
      case NotAffirming => Attests(w, now, now, db, db, input, auth, Err(AttestationFailed))
      case ClaimsUnreadable(e) => Attests(w, now, now, db, db, input, auth, Err(e))
      case _ => true
  {
    hide ChallengeAnswers, Enrols, ProvesKey;
  }

  lemma AttestsByChallenge(w: World, now: int, db: Db, input: Input, auth: Option<Bytes>, spent: Db)
    requires input.Signed? && input.message.payload.Some? && input.verdict.Affirming?
    requires spent == ChallengeSpent(db, input.verdict.nonce)
    ensures input.verdict.nonce.None? || !ChallengeAnswers(db, input.verdict.nonce.value) ==>
      Attests(w, now, now, db, spent, input, auth, Err(NotAuthenticated))
    ensures input.verdict.nonce.Some? && ChallengeAnswers(db, input.verdict.nonce.value) ==>
      && (auth.Some? ==> Attests(w, now, now, db, spent, input, auth, Ok(auth.value)))
      && (auth.None? && (forall kid: Bytes :: !ProvesKey(w, input, kid)) ==>
            Attests(w, now, now, db, spent, input, auth, Err(NotAuthenticated)))
  {
    hide ChallengeAnswers, Enrols, ProvesKey;
  }

  lemma ProvedExactly(w: World, input: Input)
    requires input.Signed? && input.verdict.Affirming?
    ensures var key := input.verdict.key;
      (forall kid: Bytes :: !ProvesKey(w, input, kid)) <==>
        input.message.format.OtherFormat? || key.None? || !w.usable(key.value)
        || !w.verifies(input.body, key.value) || w.thumbprint(key.value).None?
    ensures forall kid: Bytes :: ProvesKey(w, input, kid) ==> w.thumbprint(input.verdict.key.value) == Some(kid)
    ensures (exists kid: Bytes :: ProvesKey(w, input, kid)) ==>
      && input.verdict.key.Some? && w.thumbprint(input.verdict.key.value).Some?
      && ProvesKey(w, input, w.thumbprint(input.verdict.key.value).value)
  {
    var key := input.verdict.key;
    if key.Some? && w.thumbprint(key.value).Some? && !input.message.format.OtherFormat? && w.usable(key.value)
       && w.verifies(input.body, key.value)
    {
      assert ProvesKey(w, input, w.thumbprint(key.value).value);
    }
  }

  lemma AttestsByKey(w: World, from: int, to: int, db: Db, spent: Db, db': Db, input: Input, kid: Bytes, ok: bool)
    requires input.Signed? && input.message.payload.Some? && input.verdict.Affirming? && input.verdict.nonce.Some?
    requires ChallengeAnswers(db, input.verdict.nonce.value) && spent == ChallengeSpent(db, input.verdict.nonce)
    requires ProvesKey(w, input, kid)
    requires Enrols(from, to, spent, db', input.verdict.key.value, kid, input.verdict.ueid, ok)
    ensures Attests(w, from, to, db, db', input, None, if ok then Ok(kid) else Err(Fatal))
  {
    hide ChallengeAnswers, Enrols;
  }

  lemma TryEnds(now: int, mid: Db, db': Db, kid: Bytes, token: Bytes, agent: Option<nat>, id: Option<nat>,
                picked: seq<nat>, outcome: Outcome)
    requires UniqueKids(mid.agents) && PicksAgent(mid.agents, kid, agent) && PicksHandle(mid.tokens, token, id)
    requires Issued(mid.tokens, token) && !Spent(mid.tokens, token)
    requires var fit := agent.Some? && Live(mid.agents[agent.value], now) && id.Some? && !mid.tokens[id.value].consumed;
      if fit then UpdateWritten(mid, db', agent.value, kid, token, id.value, picked, outcome)
      else outcome == Refused(Fatal) && db' == mid
    ensures UpdateTried(now, mid, db', kid, token, picked, outcome)
  {
    StandingPicked(mid.agents, now, kid, agent);
    hide UpdateWritten, StandingKey, UniqueKids;
  }

  lemma ExhaustedDelivers(draws: seq<Bytes>, now: int, db: Db, message: Message, kid: Bytes)
    requires Draws(db.tokens, draws, None)
    ensures Delivers(draws, now, db, db, message, kid, Refused(Fatal))
  {
  }

  lemma SameManifests(db: Db, token: Bytes)
    ensures Apply(db, PutToken(token)).manifests == db.manifests && Apply(db, PutToken(token)).agents == db.agents
  {
  }

  /** The states from db to db' after each report. */
  ghost predicate Trails(from: int, to: int, trail: seq<Db>, db: Db, db': Db, kid: Bytes, reports: seq<ReportItem>)
  {
    RecordsAll(from, to, trail, kid, reports) && trail[0] == db && trail[|reports|] == db'
  }

  lemma TrailsFrom(from: int, to: int, db: Db, kid: Bytes)
    ensures Trails(from, to, [db], db, db, kid, [])
  {
  }

  lemma TrailsOn(from: int, to: int, to': int, trail: seq<Db>, db: Db, mid: Db, db': Db, kid: Bytes,
                 reports: seq<ReportItem>, last: ReportItem)
    requires Trails(from, to, trail, db, mid, kid, reports) && to <= to'
    requires Records(from, to', mid, db', kid, last)
    ensures Trails(from, to', trail + [db'], db, db', kid, reports + [last])
  {
    hide Records;
    RecordedOneMore(from, to, to', trail, db', kid, reports, last);
  }

  lemma TrailsAll(from: int, to: int, trail: seq<Db>, db: Db, db': Db, kid: Bytes, reports: seq<ReportItem>)
    requires Trails(from, to, trail, db, db', kid, reports)
    ensures Recorded(from, to, db, db', kid, reports)
  {
  }

  ghost predicate FileTrails(trail: seq<Db>, db: Db, db': Db, kid: Bytes, reports: seq<ReportItem>)
  {
    FilesAll(trail, kid, reports) && trail[0] == db && trail[|reports|] == db'
  }

  lemma FileTrailsFrom(db: Db, kid: Bytes)
    ensures FileTrails([db], db, db, kid, [])
  {
  }

  lemma FileTrailsOn(trail: seq<Db>, db: Db, mid: Db, db': Db, kid: Bytes, reports: seq<ReportItem>, last: ReportItem)
    requires FileTrails(trail, db, mid, kid, reports) && FilesOne(mid, db', kid, last)
    ensures FileTrails(trail + [db'], db, db', kid, reports + [last])
  {
    hide FilesOne;
    FiledOneMoreRow(trail, db', kid, reports, last);
  }

  lemma FileTrailsAll(trail: seq<Db>, db: Db, db': Db, kid: Bytes, reports: seq<ReportItem>)
    requires FileTrails(trail, db, db', kid, reports)
    ensures FiledOnly(db, db', kid, reports)
  {
  }

  /** The reports so far are recorded one after the other, and folded into the beliefs. */
  ghost predicate Folded(from: int, to: int, trail: seq<Db>, before: Db, db: Db, kid: Bytes, reports: seq<ReportItem>)
  {
    && Trails(from, to, trail, before, db, kid, reports)
    && db == before.(holdings := db.holdings, reports := db.reports)
    && (OneActive(before) && UniqueDigests(before.manifests) && UniqueKids(before.agents) ==>
          BeliefsFollow(before, db, kid, reports))
  }

  lemma FoldsFrom(now: int, db: Db, kid: Bytes)
    ensures Folded(now, now, [db], db, db, kid, [])
  {
    TrailsFrom(now, now, db, kid);
    hide Trails, BeliefsFollow, OneActive, UniqueDigests, UniqueKids;
    if OneActive(db) { NothingAsserted(db, kid); }
  }

  lemma FoldsCounted(from: int, to: int, now: int, trail: seq<Db>, before: Db, db: Db, db': Db, kid: Bytes,
                     reports: seq<ReportItem>, last: ReportItem, agent: Option<nat>, manifest: Option<nat>)
    requires Folded(from, to, trail, before, db, kid, reports) && Counted(last) && from <= to <= now
    requires PicksAgent(db.agents, kid, agent) && PicksManifestByDigest(db.manifests, DigestKey(last), manifest)
    requires db' ==
      if agent.Some? && manifest.Some?
         && !HoldCollides(db, agent.value, manifest.value, db.manifests[manifest.value].component)
      then
        Apply(db, Hold(agent.value, manifest.value, db.manifests[manifest.value].component, WholeSeconds(now),
                       last.raw))
      else db
    ensures Folded(from, now, trail + [db'], before, db', kid, reports + [last])
  {
    HoldKeepsRest(db, agent, manifest, WholeSeconds(now), last.raw);
    hide Trails, BeliefsFollow, OneActive, UniqueDigests, UniqueKids, Counted, DigestKey, HoldCollides, Apply,
         Records, WholeSeconds;
    RecordFollows(from, now, db, db', kid, last, agent, manifest);
    TrailsOn(from, to, now, trail, before, db, db', kid, reports, last);
    if OneActive(before) && UniqueDigests(before.manifests) && UniqueKids(before.agents) {
      BeliefFollowsReport(before, db, kid, reports, last, agent, manifest, WholeSeconds(now), db');
    }
  }

  lemma HoldKeepsRest(db: Db, agent: Option<nat>, manifest: Option<nat>, at: int, raw: Bytes)
    ensures agent.Some? && manifest.Some? && manifest.value < |db.manifests| ==>
      var db' := Apply(db, Hold(agent.value, manifest.value, db.manifests[manifest.value].component, at, raw));
      db' == db.(holdings := db'.holdings, reports := db'.reports)
  {
  }

  lemma FoldsSkipped(from: int, to: int, trail: seq<Db>, before: Db, db: Db, kid: Bytes, reports: seq<ReportItem>,
                     last: ReportItem)
    requires Folded(from, to, trail, before, db, kid, reports) && !Counted(last)
    ensures Folded(from, to, trail + [db], before, db, kid, reports + [last])
  {
    hide Trails, BeliefsFollow, OneActive, UniqueDigests, UniqueKids, Counted, Records;
    NotGoodChangesNothing(from, to, db, kid, last);
    TrailsOn(from, to, to, trail, before, db, db, kid, reports, last);
    if OneActive(before) && UniqueDigests(before.manifests) && UniqueKids(before.agents) {
      SkippedReport(before, db, kid, reports, last);
    }
  }

  lemma FoldsAll(from: int, to: int, trail: seq<Db>, before: Db, db: Db, kid: Bytes, reports: seq<ReportItem>)
    requires Folded(from, to, trail, before, db, kid, reports)
    ensures Recorded(from, to, before, db, kid, reports)
    ensures OneActive(before) && UniqueDigests(before.manifests) && UniqueKids(before.agents) ==>
      BeliefsFollow(before, db, kid, reports)
    ensures db == before.(holdings := db.holdings, reports := db.reports)
  {
    hide Trails, BeliefsFollow, OneActive, UniqueDigests, UniqueKids, Recorded;
    TrailsAll(from, to, trail, before, db, kid, reports);
  }

  lemma SuccessNext(kid: Bytes, reports: seq<ReportItem>, i: nat)
    requires i < |reports|
    ensures SuccessFrom(kid, reports, i) ==
      if Counted(reports[i]) then Reporting(FindReport(kid, i)) else SuccessFrom(kid, reports, i + 1)
  {
    NextCountedAt(reports, i);
  }

  lemma SuccessDone(kid: Bytes, reports: seq<ReportItem>)
    ensures SuccessFrom(kid, reports, |reports|) == Done(NoContent)
  {
    NextCountedAt(reports, |reports|);
  }

  lemma RecordFollows(from: int, now: int, db: Db, db': Db, kid: Bytes, report: ReportItem,
                      agent: Option<nat>, manifest: Option<nat>)
    requires Counted(report) && from <= now
    requires PicksAgent(db.agents, kid, agent) && PicksManifestByDigest(db.manifests, DigestKey(report), manifest)
    requires db' ==
      if agent.Some? && manifest.Some?
         && !HoldCollides(db, agent.value, manifest.value, db.manifests[manifest.value].component)
      then
        Apply(db, Hold(agent.value, manifest.value, db.manifests[manifest.value].component, WholeSeconds(now),
                       report.raw))
      else db
    ensures Records(from, now, db, db', kid, report)
  {
    hide Apply, Counted, DigestKey, HoldCollides, Records;
    if agent.Some? && manifest.Some? {
      HoldNeverCollides(db, agent.value, manifest.value, db.manifests[manifest.value].component);
    }
    OneRecorded(from, now, now, db, db', kid, report, agent, manifest);
  }

  // ---- what serving comes to ----

  lemma EnrolsWider(from: int, to: int, from': int, to': int, db: Db, db': Db, key: Key, kid: Bytes,
                    ueid: Option<Bytes>, ok: bool)
    requires Enrols(from, to, db, db', key, kid, ueid, ok) && from' <= from && to <= to'
    ensures Enrols(from', to', db, db', key, kid, ueid, ok)
  {
    hide Device, SecondOf, NotExpired, KeyStored;
  }

  lemma AttestsWider(w: World, from: int, to: int, from': int, to': int, db: Db, db': Db, input: Input,
                     auth: Option<Bytes>, r: Result<Bytes, TamError>)
    requires input.Signed? && Attests(w, from, to, db, db', input, auth, r) && from' <= from && to <= to'
    ensures Attests(w, from', to', db, db', input, auth, r)
  {
    hide ChallengeAnswers, Enrols, Flipped;
    if input.verdict.Affirming? && input.verdict.nonce.Some? {
      var spent := db.(challenges := Flipped(db.challenges, input.verdict.nonce.value));
      if input.message.payload.Some? && ChallengeAnswers(db, input.verdict.nonce.value) && auth.None?
         && exists kid: Bytes :: ProvesKey(w, input, kid)
      {
        var kid: Bytes, ok: bool :|
          && ProvesKey(w, input, kid)
          && Enrols(from, to, spent, db', input.verdict.key.value, kid, input.verdict.ueid, ok)
          && r == (if ok then Ok(kid) else Err(Fatal));
        EnrolsWider(from, to, from', to', spent, db', input.verdict.key.value, kid, input.verdict.ueid, ok);
      }
    }
  }

  lemma AttestsKeepsKids(w: World, from: int, to: int, db: Db, db': Db, input: Input, auth: Option<Bytes>,
                         r: Result<Bytes, TamError>)
    requires input.Signed? && Attests(w, from, to, db, db', input, auth, r) && UniqueKids(db.agents)
    ensures UniqueKids(db'.agents)
  {
    hide ChallengeAnswers, Enrols, Flipped;
    if db'.agents != db.agents {
      var spent := db.(challenges := Flipped(db.challenges, input.verdict.nonce.value));
      var kid: Bytes, ok: bool :|
        && ProvesKey(w, input, kid)
        && Enrols(from, to, spent, db', input.verdict.key.value, kid, input.verdict.ueid, ok);
      hide UniqueKids;
      EnrolsKeepsKids(from, to, spent, db', input.verdict.key.value, kid, input.verdict.ueid, ok);
    }
  }

  lemma TreatsAsked(w: World, from: int, to: int, draws: seq<Bytes>, db: Db, db': Db, input: Input, outcome: Outcome)
    requires input.Signed? && input.message.kind.KindQueryResponse?
    requires AsksAttestation(draws, db, db', outcome)
    ensures Treats(w, from, to, draws, db, db', input, None, true, outcome)
  {
    hide AsksAttestation;
  }

  lemma TreatsDelivered(w: World, from: int, to: int, draws: seq<Bytes>, db: Db, db': Db, input: Input, kid: Bytes,
                        outcome: Outcome)
    requires input.Signed? && input.message.kind.KindQueryResponse?
    requires Delivers(draws, to, db, db', input.message, kid, outcome)
    ensures Treats(w, from, to, draws, db, db', input, Some(kid), true, outcome)
  {
    hide Delivers;
  }

  lemma AttestedRefused(w: World, from: int, to: int, draws: seq<Bytes>, db: Db, db': Db, input: Input,
                        auth: Option<Bytes>, e: TamError)
    requires input.Signed? && input.message.kind.KindQueryResponse?
    requires Attests(w, from, to, db, db', input, auth, Err(e))
    ensures Treats(w, from, to, draws, db, db', input, auth, false, Refused(e))
  {
    assert AnswersAttested(draws, to, db', db', input.message, Err(e), Refused(e));
    hide Attests, AnswersAttested;
  }

  lemma AttestedAnswered(w: World, from: int, at: int, to: int, draws: seq<Bytes>, db: Db, mid: Db, db': Db,
                         input: Input, auth: Option<Bytes>, kid: Bytes, found: Sent, outcome: Outcome)
    requires input.Signed? && input.message.kind.KindQueryResponse? && at <= to && SentToken(found) == []
    requires Attests(w, from, at, db, mid, input, auth, Ok(kid))
    requires if BytesOf(input.message.token) != SentToken(found) then Refuses(mid, db', outcome, Fatal)
      else Delivers(draws, to, mid, db', input.message, kid, outcome)
    ensures Treats(w, from, to, draws, db, db', input, auth, false, outcome)
  {
    hide Delivers, Attests;
    AttestsWider(w, from, at, from, to, db, mid, input, auth, Ok(kid));
    assert AnswersAttested(draws, to, mid, db', input.message, Ok(kid), outcome);
    hide AnswersAttested;
  }

  lemma TreatsAtOnce(w: World, now: int, draws: seq<Bytes>, db: Db, input: Input, auth: Option<Bytes>, matched: bool)
    requires input.Signed?
    ensures IsReport(input.message) && auth.None? ==>
      Treats(w, now, now, draws, db, db, input, auth, matched, Refused(NotAuthenticated))
    ensures IsReport(input.message) && auth.Some? && !matched ==>
      Treats(w, now, now, draws, db, db, input, auth, matched, Refused(NotAResponse))
    ensures !IsReport(input.message) && !input.message.kind.KindQueryResponse? ==>
      Treats(w, now, now, draws, db, db, input, auth, matched, Refused(NotSupported))
  {
    hide Recorded, FiledOnly, Attests, AnswersAttested, Delivers;
  }

  lemma TreatsRecorded(w: World, from: int, to: int, draws: seq<Bytes>, db: Db, db': Db, input: Input, kid: Bytes)
    requires input.Signed? && input.message.kind.KindSuccess?
    requires Recorded(from, to, db, db', kid, input.message.reports)
    ensures Treats(w, from, to, draws, db, db', input, Some(kid), true, NoContent)
  {
    hide Recorded;
  }

  lemma TreatsFiled(w: World, now: int, draws: seq<Bytes>, db: Db, db': Db, input: Input, kid: Bytes)
    requires input.Signed? && input.message.kind.KindError?
    requires FiledOnly(db, db', kid, input.message.reports)
    ensures Treats(w, now, now, draws, db, db', input, Some(kid), true, NoContent)
  {
    hide FiledOnly;
  }

  lemma TreatsWider(w: World, from: int, to: int, from': int, draws: seq<Bytes>, db: Db, db': Db, input: Input,
                    auth: Option<Bytes>, matched: bool, outcome: Outcome)
    requires input.Signed? && Treats(w, from, to, draws, db, db', input, auth, matched, outcome) && from' <= from
    ensures Treats(w, from', to, draws, db, db', input, auth, matched, outcome)
  {
    hide Attests, AnswersAttested, Delivers, AsksAttestation, Recorded,
         FiledOnly;
    match input.message.kind
    case KindQueryResponse =>
      if !matched {
        var r: Result<Bytes, TamError>, verified: Db :|
          && Attests(w, from, to, db, verified, input, auth, r)
          && AnswersAttested(draws, to, verified, db', input.message, r, outcome);
        AttestsWider(w, from, to, from', to, db, verified, input, auth, r);
      }
    case KindSuccess =>
      if auth.Some? && matched { RecordedWider(from, to, from', db, db', auth.value, input.message.reports); }
    case _ =>
  }

  lemma RecordedWider(from: int, to: int, from': int, db: Db, db': Db, kid: Bytes, reports: seq<ReportItem>)
    requires Recorded(from, to, db, db', kid, reports) && from' <= from
    ensures Recorded(from', to, db, db', kid, reports)
  {
    hide Records;
    var trail: seq<Db> :| RecordsAll(from, to, trail, kid, reports) && trail[0] == db && trail[|reports|] == db';
    forall i | 0 <= i < |reports| ensures Records(from', to, trail[i], trail[i + 1], kid, reports[i]) {
      RecordsWider(from, to, from', to, trail[i], trail[i + 1], kid, reports[i]);
    }
    assert RecordsAll(from', to, trail, kid, reports);
  }

  lemma RefusedTreats(w: World, from: int, to: int, draws: seq<Bytes>, db: Db, input: Input, e: TamError)
    requires input.Signed? && from <= to && Authenticates(w, to, db.agents, input, Err(e))
    ensures TreatsSigned(w, from, to, draws, db, db, input, Refused(e))
  {
    hide Unusable, Vouched, Treats, TokenSpent, TokenAnswers;
  }

  lemma TreatedSigned(w: World, from: int, at: int, to: int, draws: seq<Bytes>, db: Db, db': Db, input: Input,
                      auth: Option<Bytes>, outcome: Outcome)
    requires input.Signed? && from <= at <= to && Authenticates(w, at, db.agents, input, Ok(auth))
    requires Treats(w, at, to, draws, TokenSpent(db, input.message.token), db', input, auth,
                            TokenAnswers(db, input.message.token), outcome)
    ensures TreatsSigned(w, from, to, draws, db, db', input, outcome)
  {
    hide Unusable, Vouched, Treats, TokenSpent, TokenAnswers;
    TreatsWider(w, at, to, from, draws, TokenSpent(db, input.message.token), db', input, auth,
                TokenAnswers(db, input.message.token), outcome);
  }

  /** What every valid store has, as far as single requests need it. */
  ghost predicate Sane(db: Db)
  {
    UniqueKids(db.agents) && OrderedStreams(db.manifests) && NonNegative(db.manifests)
  }

  lemma RegistersNothing(db: Db, input: Input)
    requires input.Registration?
    ensures input.envelope.None? ==> Registers(db, db, input, Refused(ManifestMissing))
    ensures input.envelope.Some? && PicksSigningKey(db.signingKeys, input.signer, None) ==>
      Registers(db, db, input, Refused(NotAuthenticated))
  {
    hide AsNew, OtherSigner;
  }

  lemma RegistrationEnds(db: Db, input: Input, key: nat, existing: Option<nat>)
    requires input.Registration? && input.envelope.Some?
    requires PicksSigningKey(db.signingKeys, input.signer, Some(key))
    requires PicksLatest(db.manifests, input.component, existing)
    requires OrderedStreams(db.manifests) && NonNegative(db.manifests)
    ensures existing.Some? ==> existing.value < |db.manifests|
    ensures
      if existing.Some? && Unsigned64(db.manifests[existing.value].sequenceNumber) >= input.sequenceNumber then
        Registers(db, db, input, Refused(SmallerSequenceNumber))
      else if existing.Some? && db.manifests[existing.value].signingKey != key then
        Registers(db, db, input, Refused(SigningKeyMismatch))
      else if input.sequenceNumber >= MAX_INT64 then Registers(db, db, input, Refused(SequenceTooLarge))
      else Registers(db, Apply(db, PutManifest(NewManifest(input, key))), input, Registered)
  {
    LatestDecides(db, input, key, existing);
    if input.sequenceNumber < MAX_INT64 { StoredAsRegistered(input, key); }
    hide AsNew, OtherSigner, OrderedStreams, NonNegative, PicksLatest, Unsigned64, NewManifest;
  }

  lemma RevokesNothing(from: int, to: int, db: Db, kid: Bytes)
    ensures |kid| != 32 ==> Revokes(from, to, db, db, kid, Refused(InvalidLength))
    ensures |kid| == 32 ==>
      || (exists a :: 0 <= a < |db.agents| && db.agents[a].kid == kid && db.agents[a].revokedAt.None?)
      || Revokes(from, to, db, db, kid, Refused(NotFound))
  {
  }
}
