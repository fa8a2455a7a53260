/**
 What serving one request comes to, from the request, the store, the keys, the clock and the
 random bytes alone: the answer and every row written.  Nothing here refers to how the program
 or the machine goes about it.
 */
module Service {
  import opened Wrappers
  import opened Tables
  import opened Protocol
  import opened Selection

  // ---- what the store says ----

  /** Neither revoked nor past its end. */
  predicate Stands(agent: AgentRow, now: int)
  {
    agent.revokedAt == None && now <= agent.expiredAt
  }

  predicate NotExpired(agent: AgentRow, now: int)
  {
    now <= agent.expiredAt
  }

  predicate StandingKey(agents: seq<AgentRow>, now: int, kid: Bytes, a: nat)
  {
    a < |agents| && agents[a].kid == kid && Stands(agents[a], now)
  }

  /** The message verifies under a standing, usable key stored under its kid. */
  ghost predicate Vouched(w: World, agents: seq<AgentRow>, now: int, kid: Option<Bytes>, body: Bytes)
  {
    && kid.Some? && |kid.value| == 32
    && exists a: nat ::
         && StandingKey(agents, now, kid.value, a)
         && w.usable(agents[a].publicKey) && w.verifies(body, agents[a].publicKey)
  }

  /** The standing key stored under the kid cannot be used. */
  ghost predicate Unusable(w: World, agents: seq<AgentRow>, now: int, kid: Bytes)
  {
    |kid| == 32 && exists a: nat :: StandingKey(agents, now, kid, a) && !w.usable(agents[a].publicKey)
  }

  ghost predicate HasBytes(rows: seq<HandleRow>, bytes: Bytes)
  {
    exists i: nat :: i < |rows| && rows[i].bytes == bytes
  }

  ghost predicate Open(rows: seq<HandleRow>, bytes: Bytes)
  {
    exists i: nat :: i < |rows| && rows[i] == HandleRow(bytes, false)
  }

  predicate QueryUnder(db: Db, q: nat, t: nat, token: Bytes)
  {
    q < |db.queries| && t < |db.tokens| && db.queries[q].token == Some(t) && db.tokens[t].bytes == token
  }

  predicate UpdateUnder(db: Db, u: nat, t: nat, token: Bytes)
  {
    u < |db.updates| && t < |db.tokens| && db.updates[u].token == t && db.tokens[t].bytes == token
  }

  predicate QueryUnderChallenge(db: Db, q: nat, c: nat, challenge: Bytes)
  {
    q < |db.queries| && c < |db.challenges| && db.queries[q].challenge == Some(c) && db.challenges[c].bytes == challenge
  }

  /** The token is unconsumed and a QueryRequest or an Update was sent under it. */
  ghost predicate TokenAnswers(db: Db, token: Option<Bytes>)
  {
    && token.Some? && Open(db.tokens, token.value)
    && ((exists q: nat, t: nat :: QueryUnder(db, q, t, token.value))
        || (exists u: nat, t: nat :: UpdateUnder(db, u, t, token.value)))
  }

  /** The challenge is unconsumed and a QueryRequest was sent under it. */
  ghost predicate ChallengeAnswers(db: Db, challenge: Bytes)
  {
    Open(db.challenges, challenge) && exists q: nat, c: nat :: QueryUnderChallenge(db, q, c, challenge)
  }

  /** The rows with these bytes, consumed. */
  function Flipped(rows: seq<HandleRow>, bytes: Bytes): seq<HandleRow>
  {
    seq(|rows|, i requires 0 <= i < |rows| => HandleRow(rows[i].bytes, rows[i].consumed || rows[i].bytes == bytes))
  }

  function TokenSpent(db: Db, token: Option<Bytes>): Db
  {
    if token.None? then db else db.(tokens := Flipped(db.tokens, token.value))
  }

  /** The random source gives 32 new bytes, or all it has left is taken. */
  ghost predicate Draws(rows: seq<HandleRow>, draws: seq<Bytes>, drawn: Option<Bytes>)
  {
    match drawn
    case None => forall i :: 0 <= i < |draws| ==> HasBytes(rows, draws[i])
    case Some(b) => b in draws && |b| == 32 && !HasBytes(rows, b)
  }

  /** The present second. */
  predicate SecondOf(second: int, now: int)
  {
    second % 1_000_000_000 == 0 && second <= now < second + 1_000_000_000
  }

  // ---- answers ----

  ghost predicate Refuses(db: Db, db': Db, outcome: Outcome, error: TamError)
  {
    outcome == Refused(error) && db' == db
  }

  /** A QueryRequest for the tc-list under a new token. */
  ghost predicate AsksTcList(draws: seq<Bytes>, db: Db, db': Db, outcome: Outcome)
  {
    || (Draws(db.tokens, draws, None) && Refuses(db, db', outcome, Fatal))
    || exists b: Bytes ::
         && Draws(db.tokens, draws, Some(b)) && outcome == QuerySent(TokenHandle(b), false, true)
         && db' == db.(tokens := db.tokens + [HandleRow(b, false)],
                       queries := db.queries + [QueryRow(false, true, Some(|db.tokens|), None)])
  }

  /** A QueryRequest for attestation under a new challenge. */
  ghost predicate AsksAttestation(draws: seq<Bytes>, db: Db, db': Db, outcome: Outcome)
  {
    || (Draws(db.challenges, draws, None) && Refuses(db, db', outcome, Fatal))
    || exists b: Bytes ::
         && Draws(db.challenges, draws, Some(b)) && outcome == QuerySent(ChallengeHandle(b), true, false)
         && db' == db.(challenges := db.challenges + [HandleRow(b, false)],
                       queries := db.queries + [QueryRow(true, false, None, Some(|db.challenges|))])
  }

  /** The rows of an Update for agent a under the newest token, and the message. */
  ghost predicate Sends(db: Db, db': Db, a: nat, kid: Bytes, token: Bytes, picked: seq<nat>, outcome: Outcome)
  {
    && outcome.UpdateSent? && outcome.kid == kid && outcome.token == token && |outcome.manifests| == |picked|
    && (forall i :: 0 <= i < |picked| ==>
          picked[i] < |db.manifests| && outcome.manifests[i] == db.manifests[picked[i]].envelope)
    && |db'.links| == |db.links| + |picked| && db.links <= db'.links
    && (forall i :: 0 <= i < |picked| ==> db'.links[|db.links| + i] == LinkRow(|db.updates|, picked[i]))
    && db' == db.(tokens := db.tokens + [HandleRow(token, false)],
                  updates := db.updates + [UpdateRow(a, |db.tokens|)], links := db'.links)
  }

  /** The latest manifests of the listed components go out, under a new token, to the holder of
      a key that stands; nothing goes out where none is known. */
  ghost predicate Delivers(draws: seq<Bytes>, now: int, db: Db, db': Db, message: Message, kid: Bytes, outcome: Outcome)
  {
    || (Draws(db.tokens, draws, None) && Refuses(db, db', outcome, Fatal))
    || exists b: Bytes, components: seq<Bytes>, picked: seq<nat> ::
         && Draws(db.tokens, draws, Some(b))
         && Deduplicates(components, Listed(message.requested) + Listed(message.tcList))
         && Selects(db.manifests, components, picked)
         && DeliversPicked(now, db, db', kid, b, picked, outcome)
  }

  ghost predicate DeliversPicked(now: int, db: Db, db': Db, kid: Bytes, token: Bytes, picked: seq<nat>,
                                 outcome: Outcome)
  {
    var issued := db.(tokens := db.tokens + [HandleRow(token, false)]);
    if picked == [] then outcome == NoContent && db' == issued
    else if exists a: nat :: StandingKey(db.agents, now, kid, a) then
      exists a: nat :: StandingKey(db.agents, now, kid, a) && Sends(db, db', a, kid, token, picked, outcome)
    else Refuses(issued, db', outcome, Fatal)
  }

  // ---- attestation ----

  /** The attested key: of a format that carries one, usable, verifying the message, and with a
      thumbprint. */
  predicate ProvesKey(w: World, input: Input, kid: Bytes)
    requires input.Signed? && input.verdict.Affirming?
  {
    && (input.message.format == EatFormat || input.message.format == SgxBundleFormat)
    && input.verdict.key.Some?
    && w.usable(input.verdict.key.value) && w.verifies(input.body, input.verdict.key.value)
    && w.thumbprint(input.verdict.key.value) == Some(kid)
  }

  ghost predicate KeyStored(agents: seq<AgentRow>, kid: Bytes)
  {
    exists a: nat :: a < |agents| && agents[a].kid == kid
  }

  /** The device row with the attested UEID, if one was attested and is known. */
  ghost predicate Device(devices: seq<Bytes>, ueid: Option<Bytes>, device: Option<nat>)
  {
    match device
    case None => ueid.None? || ueid.value !in devices
    case Some(d) => ueid.Some? && d < |devices| && devices[d] == ueid.value
  }

  /** A thumbprint of another size than 32 bytes is let through; a stored one exactly if it has
      not expired, revoked or not; a new one is stored, for a year from the present second. */
  ghost predicate Enrols(from: int, to: int, db: Db, db': Db, key: Key, kid: Bytes, ueid: Option<Bytes>, ok: bool)
  {
    if |kid| != 32 then ok && db' == db
    else if KeyStored(db.agents, kid) then
      && db' == db
      && exists a: nat, now: int ::
           && a < |db.agents| && db.agents[a].kid == kid && from <= now <= to
           && (ok <==> NotExpired(db.agents[a], now))
    else
      && ok
      && exists second: int, now: int, device: Option<nat> ::
           && from <= now <= to && SecondOf(second, now) && Device(db.devices, ueid, device)
           && db' == db.(agents := db.agents
                                   + [AgentRow(kid, device, key, second, second + 31_536_000_000_000_000, None)])
  }

  /** Whom an attestation lets be answered, and why not. */
  ghost predicate Attests(w: World, from: int, to: int, db: Db, db': Db, input: Input, auth: Option<Bytes>,
                          r: Result<Bytes, TamError>)
    requires input.Signed?
  {
    if input.message.payload.None? then r == Err(PayloadNotFound) && db' == db
    else match input.verdict
      case SubmitFailed(e) => r == Err(e) && db' == db
      case NotAffirming => r == Err(AttestationFailed) && db' == db
      case ClaimsUnreadable(e) => r == Err(e) && db' == db
      case Affirming(nonce, key, ueid) =>
        if nonce.None? then r == Err(NotAuthenticated) && db' == db
        else
          var spent := db.(challenges := Flipped(db.challenges, nonce.value));
          if !ChallengeAnswers(db, nonce.value) then r == Err(NotAuthenticated) && db' == spent
          else if auth.Some? then r == Ok(auth.value) && db' == spent
          else if exists kid: Bytes :: ProvesKey(w, input, kid) then
            exists kid: Bytes, ok: bool ::
              && ProvesKey(w, input, kid) && Enrols(from, to, spent, db', key.value, kid, ueid, ok)
              && r == (if ok then Ok(kid) else Err(Fatal))
          else r == Err(NotAuthenticated) && db' == spent
  }

  // ---- reports ----

  /** A readable report of a 32-byte SHA-256 digest (-16) that is good. */
  predicate Good(report: ReportItem)
  {
    && report.content.Some? && report.content.value.digestAlg == -16 && |report.content.value.digest| == 32
    && (report.content.value.result == AllGood || report.content.value.result == Detailed(0))
  }

  /** The manifest is stored under the reported digest, the array of -16 and the bytes. */
  predicate Names(db: Db, report: ReportItem, m: nat)
  {
    && report.content.Some? && m < |db.manifests|
    && db.manifests[m].digest == [0x82, 0x2F, 0x58, 0x20] + report.content.value.digest
  }

  /** The agent holds manifest m of its component from now on, and nothing else of it. */
  ghost predicate Installs(db: Db, db': Db, a: nat, m: nat, second: int, raw: Bytes)
    requires m < |db.manifests|
  {
    && |db'.holdings| == |db.holdings| + 1
    && db'.holdings[|db.holdings|] == HoldingRow(a, m, second, false)
    && (forall h :: 0 <= h < |db.holdings| ==>
          && db'.holdings[h].(deleted := db.holdings[h].deleted) == db.holdings[h]
          && (db'.holdings[h].deleted <==>
                db.holdings[h].deleted
                || (db.holdings[h].agent == a && db.holdings[h].manifest < |db.manifests|
                    && db.manifests[db.holdings[h].manifest].component == db.manifests[m].component)))
    && db' == db.(holdings := db'.holdings, reports := db.reports + [ReportRow(a, Some(m), raw, true)])
  }

  /** A good report about a stored manifest makes it what the agent holds of its component. */
  ghost predicate Records(from: int, to: int, db: Db, db': Db, kid: Bytes, report: ReportItem)
  {
    if Good(report) && KeyStored(db.agents, kid) && (exists m: nat :: Names(db, report, m)) then
      exists a: nat, m: nat, second: int, now: int ::
        && a < |db.agents| && db.agents[a].kid == kid && Names(db, report, m)
        && from <= now <= to && SecondOf(second, now) && Installs(db, db', a, m, second, report.raw)
    else db' == db
  }

  /** A good report is filed as unresolved, about the manifest it names if there is one. */
  ghost predicate FilesOne(db: Db, db': Db, kid: Bytes, report: ReportItem)
  {
    if Good(report) && KeyStored(db.agents, kid) then
      exists a: nat, about: Option<nat> ::
        && a < |db.agents| && db.agents[a].kid == kid
        && (match about case Some(m) => Names(db, report, m) case None => forall m: nat :: !Names(db, report, m))
        && db' == db.(reports := db.reports + [ReportRow(a, about, report.raw, false)])
    else db' == db
  }

  /** The reports are recorded one after the other. */
  ghost predicate RecordsAll(from: int, to: int, trail: seq<Db>, kid: Bytes, reports: seq<ReportItem>)
  {
    && |trail| == |reports| + 1
    && forall i :: 0 <= i < |reports| ==> Records(from, to, trail[i], trail[i + 1], kid, reports[i])
  }

  ghost predicate FilesAll(trail: seq<Db>, kid: Bytes, reports: seq<ReportItem>)
  {
    && |trail| == |reports| + 1
    && forall i :: 0 <= i < |reports| ==> FilesOne(trail[i], trail[i + 1], kid, reports[i])
  }

  ghost predicate Recorded(from: int, to: int, db: Db, db': Db, kid: Bytes, reports: seq<ReportItem>)
  {
    exists trail: seq<Db> :: RecordsAll(from, to, trail, kid, reports) && trail[0] == db && trail[|reports|] == db'
  }

  ghost predicate FiledOnly(db: Db, db': Db, kid: Bytes, reports: seq<ReportItem>)
  {
    exists trail: seq<Db> :: FilesAll(trail, kid, reports) && trail[0] == db && trail[|reports|] == db'
  }

  // ---- whole requests ----

  /** What becomes of a message once it is known whose it is and whether it answers the TAM. */
  ghost predicate Treats(w: World, from: int, to: int, draws: seq<Bytes>, db: Db, db': Db, input: Input,
                         auth: Option<Bytes>, matched: bool, outcome: Outcome)
    requires input.Signed?
  {
    match input.message.kind
    case KindQueryResponse =>
      if matched then
        if auth.None? then AsksAttestation(draws, db, db', outcome)
        else Delivers(draws, to, db, db', input.message, auth.value, outcome)
      else
        exists r: Result<Bytes, TamError>, verified: Db ::
          && Attests(w, from, to, db, verified, input, auth, r)
          && AnswersAttested(draws, to, verified, db', input.message, r, outcome)
    case KindSuccess =>
      if auth.None? then Refuses(db, db', outcome, NotAuthenticated)
      else if !matched then Refuses(db, db', outcome, NotAResponse)
      else outcome == NoContent && Recorded(from, to, db, db', auth.value, input.message.reports)
    case KindError =>
      if auth.None? then Refuses(db, db', outcome, NotAuthenticated)
      else if !matched then Refuses(db, db', outcome, NotAResponse)
      else outcome == NoContent && FiledOnly(db, db', auth.value, input.message.reports)
    case _ => Refuses(db, db', outcome, NotSupported)
  }

  /** An answer to a challenge carries no token. */
  ghost predicate AnswersAttested(draws: seq<Bytes>, to: int, db: Db, db': Db, message: Message,
                                  r: Result<Bytes, TamError>, outcome: Outcome)
  {
    match r
    case Err(e) => Refuses(db, db', outcome, e)
    case Ok(kid) =>
      if message.token == None || message.token == Some([]) then Delivers(draws, to, db, db', message, kid, outcome)
      else Refuses(db, db', outcome, Fatal)
  }

  ghost predicate TreatsSigned(w: World, from: int, to: int, draws: seq<Bytes>, db: Db, db': Db, input: Input,
                               outcome: Outcome)
    requires input.Signed?
  {
    if input.kid == None || input.kid == Some([]) then Refuses(db, db', outcome, KidMissing)
    else
      exists now: int ::
        && from <= now <= to
        && (if Unusable(w, db.agents, now, input.kid.value) then Refuses(db, db', outcome, Fatal)
            else
              Treats(w, from, to, draws, TokenSpent(db, input.message.token), db', input,
                     if Vouched(w, db.agents, now, input.kid, input.body) then input.kid else None,
                     TokenAnswers(db, input.message.token), outcome))
  }

  /** Some stored manifest of the component has this number or a larger one. */
  ghost predicate AsNew(db: Db, input: Input)
    requires input.Registration?
  {
    exists m: nat ::
      && m < |db.manifests| && db.manifests[m].component == input.component
      && db.manifests[m].sequenceNumber >= input.sequenceNumber
  }

  /** Some stored manifest of the component is signed under another key. */
  ghost predicate OtherSigner(db: Db, input: Input, key: nat)
    requires input.Registration?
  {
    exists m: nat ::
      m < |db.manifests| && db.manifests[m].component == input.component && db.manifests[m].signingKey != key
  }

  /** A manifest is refused if its envelope or its signer is missing, if some stored manifest of
      its component is as new or under another key, or if its number is too large. */
  ghost predicate Registers(db: Db, db': Db, input: Input, outcome: Outcome)
    requires input.Registration?
  {
    if input.envelope.None? then Refuses(db, db', outcome, ManifestMissing)
    else if forall k :: 0 <= k < |db.signingKeys| ==> db.signingKeys[k].kid != input.signer then
      Refuses(db, db', outcome, NotAuthenticated)
    else
      exists k: nat ::
        && k < |db.signingKeys| && db.signingKeys[k].kid == input.signer
        && (if AsNew(db, input) then Refuses(db, db', outcome, SmallerSequenceNumber)
            else if OtherSigner(db, input, k) then Refuses(db, db', outcome, SigningKeyMismatch)
            else if input.sequenceNumber >= 0x7FFF_FFFF_FFFF_FFFF then Refuses(db, db', outcome, SequenceTooLarge)
            else
              && outcome == Registered
              && db' == db.(manifests := db.manifests + [ManifestRow(input.envelope.value, input.digest, k,
                                                                     input.component, input.sequenceNumber)]))
  }

  /** Under signing key k the manifest is newer than all of its component, and signed like them. */
  ghost predicate Passes(db: Db, input: Input, k: nat)
    requires input.Registration?
  {
    && k < |db.signingKeys| && db.signingKeys[k].kid == input.signer
    && !AsNew(db, input) && !OtherSigner(db, input, k)
  }

  ghost predicate Admits(db: Db, input: Input)
  {
    && input.Registration? && input.envelope.Some? && input.sequenceNumber < 0x7FFF_FFFF_FFFF_FFFF
    && exists k: nat :: Passes(db, input, k)
  }

  /** Nothing is wrong with it but its number. */
  ghost predicate Oversized(db: Db, input: Input)
  {
    && input.Registration? && input.envelope.Some? && input.sequenceNumber >= 0x7FFF_FFFF_FFFF_FFFF
    && exists k: nat :: Passes(db, input, k)
  }

  predicate RowAdded(db: Db, db': Db, input: Input, k: nat)
    requires input.Registration? && input.envelope.Some?
  {
    db' == db.(manifests := db.manifests + [ManifestRow(input.envelope.value, input.digest, k, input.component,
                                                        input.sequenceNumber)])
  }

  lemma RegistersWhat(db: Db, db': Db, input: Input, outcome: Outcome)
    requires input.Registration? && input.envelope.Some? && Registers(db, db', input, outcome)
    requires forall i, j :: 0 <= i < j < |db.signingKeys| ==> db.signingKeys[i].kid != db.signingKeys[j].kid
    ensures outcome == Registered <==> Admits(db, input)
    ensures outcome == Refused(SequenceTooLarge) <==> Oversized(db, input)
  {
    hide AsNew, OtherSigner;
    if s: nat :| s < |db.signingKeys| && db.signingKeys[s].kid == input.signer {
      forall j: nat | j < |db.signingKeys| && db.signingKeys[j].kid == input.signer ensures j == s {
      }
      assert Passes(db, input, s) <==> !AsNew(db, input) && !OtherSigner(db, input, s);
    }
  }

  lemma RegisteredIsAdded(db: Db, db': Db, input: Input, outcome: Outcome)
    requires input.Registration? && input.envelope.Some? && Registers(db, db', input, outcome)
    ensures outcome == Registered ==> exists k: nat :: Passes(db, input, k) && RowAdded(db, db', input, k)
    ensures outcome != Registered ==> db' == db && outcome.Refused?
    ensures outcome.Refused? ==>
      || outcome.error == NotAuthenticated || outcome.error == SmallerSequenceNumber
      || outcome.error == SigningKeyMismatch || outcome.error == SequenceTooLarge
  {
    hide AsNew, OtherSigner;
    if outcome == Registered {
      var k: nat :|
        && k < |db.signingKeys| && db.signingKeys[k].kid == input.signer
        && !AsNew(db, input) && !OtherSigner(db, input, k) && RowAdded(db, db', input, k);
      assert Passes(db, input, k);
    }
  }

  /** Every unrevoked row of the key is stamped with the present second. */
  ghost predicate Revokes(from: int, to: int, db: Db, db': Db, kid: Bytes, outcome: Outcome)
  {
    if |kid| != 32 then Refuses(db, db', outcome, InvalidLength)
    else if forall a :: 0 <= a < |db.agents| && db.agents[a].kid == kid ==> db.agents[a].revokedAt.Some? then
      Refuses(db, db', outcome, NotFound)
    else
      exists second: int, now: int ::
        && from <= now <= to && SecondOf(second, now) && outcome == RevokedNow
        && |db'.agents| == |db.agents| && db' == db.(agents := db'.agents)
        && forall a :: 0 <= a < |db.agents| ==>
             db'.agents[a] == if db.agents[a].kid == kid && db.agents[a].revokedAt.None?
                              then db.agents[a].(revokedAt := Some(second)) else db.agents[a]
  }

  /** Served between the two times with these random bytes at hand, the request is answered so
      and changes the store so. */
  ghost predicate Serves(w: World, from: int, to: int, draws: seq<Bytes>, db: Db, db': Db, input: Input,
                         outcome: Outcome)
  {
    match input
    case EmptyBody => AsksTcList(draws, db, db', outcome)
    case Unparsable(e) => Refuses(db, db', outcome, e)
    case Signed(_, _, _, _) => TreatsSigned(w, from, to, draws, db, db', input, outcome)
    case Registration(_, _, _, _, _) => Registers(db, db', input, outcome)
    case Revocation(kid) => Revokes(from, to, db, db', kid, outcome)
  }
}
