/**
 What an agent can count on when its request is served: a message that is vouched for and answers
 the TAM is never turned away, an attestation is taken exactly for a proved key, and whatever is
 refused is refused for want of one of the two.
 */
module Guarantees {
  import opened Wrappers
  import opened Tables
  import opened Protocol
  import opened Selection
  import opened Service

  // ---- keys over time ----

  lemma StoodBefore(w: World, agents: seq<AgentRow>, now: int, later: int, kid: Option<Bytes>, body: Bytes)
    requires now <= later
    ensures Vouched(w, agents, later, kid, body) ==> Vouched(w, agents, now, kid, body)
    ensures kid.Some? && Unusable(w, agents, later, kid.value) ==> Unusable(w, agents, now, kid.value)
  {
    forall a: nat | kid.Some? && StandingKey(agents, later, kid.value, a)
      ensures StandingKey(agents, now, kid.value, a)
    {
    }
  }

  /** Two keys under one thumbprint are one. */
  lemma VouchedIsUsable(w: World, agents: seq<AgentRow>, now: int, later: int, kid: Bytes, body: Bytes)
    requires UniqueKids(agents) && now <= later && Vouched(w, agents, later, Some(kid), body)
    ensures !Unusable(w, agents, now, kid) && exists a: nat :: StandingKey(agents, later, kid, a)
  {
    var a: nat :|
      StandingKey(agents, later, kid, a) && w.usable(agents[a].publicKey) && w.verifies(body, agents[a].publicKey);
    forall b: nat | StandingKey(agents, now, kid, b) ensures b == a {
    }
  }

  lemma FlippedBytes(rows: seq<HandleRow>, bytes: Bytes, draws: seq<Bytes>, drawn: Option<Bytes>)
    ensures Draws(Flipped(rows, bytes), draws, drawn) <==> Draws(rows, draws, drawn)
  {
    forall b: Bytes ensures HasBytes(Flipped(rows, bytes), b) <==> HasBytes(rows, b) {
      if i: nat :| i < |rows| && rows[i].bytes == b { assert Flipped(rows, bytes)[i].bytes == b; }
      if i: nat :| i < |rows| && Flipped(rows, bytes)[i].bytes == b { assert rows[i].bytes == b; }
    }
  }

  /** When the message is dispatched, whose it is and what it answers. */
  lemma Dispatched(w: World, from: int, to: int, draws: seq<Bytes>, db: Db, db': Db, input: Input, outcome: Outcome)
    requires from <= to && UniqueKids(db.agents) && Serves(w, from, to, draws, db, db', input, outcome) && input.Signed?
    requires input.kid.Some? && input.kid.value != [] && !Unusable(w, db.agents, from, input.kid.value)
    ensures Vouched(w, db.agents, to, input.kid, input.body) ==>
      Treats(w, from, to, draws, TokenSpent(db, input.message.token), db', input, input.kid,
             TokenAnswers(db, input.message.token), outcome)
    ensures !Vouched(w, db.agents, from, input.kid, input.body) ==>
      Treats(w, from, to, draws, TokenSpent(db, input.message.token), db', input, None,
             TokenAnswers(db, input.message.token), outcome)
    ensures
      || Treats(w, from, to, draws, TokenSpent(db, input.message.token), db', input, None,
                TokenAnswers(db, input.message.token), outcome)
      || (Vouched(w, db.agents, from, input.kid, input.body)
          && Treats(w, from, to, draws, TokenSpent(db, input.message.token), db', input, input.kid,
                    TokenAnswers(db, input.message.token), outcome))
  {
    hide Treats, TokenSpent, TokenAnswers, Vouched, Unusable, UniqueKids;
    var now: int :|
      && from <= now <= to
      && (if Unusable(w, db.agents, now, input.kid.value) then Refuses(db, db', outcome, Fatal)
          else
            Treats(w, from, to, draws, TokenSpent(db, input.message.token), db', input,
                   if Vouched(w, db.agents, now, input.kid, input.body) then input.kid else None,
                   TokenAnswers(db, input.message.token), outcome));
    StoodBefore(w, db.agents, from, now, input.kid, input.body);
    StoodBefore(w, db.agents, now, to, input.kid, input.body);
  }

  lemma UsableNow(w: World, db: Db, from: int, to: int, input: Input)
    requires from <= to && UniqueKids(db.agents) && input.Signed? && Vouched(w, db.agents, to, input.kid, input.body)
    ensures input.kid.Some? && input.kid.value != [] && !Unusable(w, db.agents, from, input.kid.value)
    ensures exists a: nat :: StandingKey(db.agents, to, input.kid.value, a)
  {
    VouchedIsUsable(w, db.agents, from, to, input.kid.value, input.body);
    hide Unusable, UniqueKids;
  }

  // ---- answers ----

  /** An Update, or nothing where no listed component is known, or the random source ran dry. */
  ghost predicate Answered(db: Db, draws: seq<Bytes>, message: Message, kid: Bytes, outcome: Outcome)
  {
    || (outcome == Refused(Fatal) && Draws(db.tokens, draws, None))
    || (if SomeKnown(db, message) then outcome.UpdateSent? && outcome.kid == kid else outcome == NoContent)
  }

  ghost predicate SomeKnown(db: Db, message: Message)
  {
    exists c :: c in Listed(message.requested) + Listed(message.tcList) && KnownComponent(db.manifests, c)
  }

  lemma DeliveredIsAnswered(draws: seq<Bytes>, to: int, db: Db, db': Db, message: Message, kid: Bytes, outcome: Outcome)
    requires Delivers(draws, to, db, db', message, kid, outcome)
    requires exists a: nat :: StandingKey(db.agents, to, kid, a)
    ensures Answered(db, draws, message, kid, outcome)
  {
    hide Draws, Sends, StandingKey;
    if !(Draws(db.tokens, draws, None) && Refuses(db, db', outcome, Fatal)) {
      var b: Bytes, components: seq<Bytes>, picked: seq<nat> :|
        && Draws(db.tokens, draws, Some(b))
        && Deduplicates(components, Listed(message.requested) + Listed(message.tcList))
        && Selects(db.manifests, components, picked)
        && DeliversPicked(to, db, db', kid, b, picked, outcome);
      PickedIfKnown(db, message, components);
      hide KnownOnes, Deduplicates, SomeKnown;
      SentOrNothing(to, db, db', kid, b, picked, outcome);
    }
  }

  lemma PickedIfKnown(db: Db, message: Message, components: seq<Bytes>)
    requires Deduplicates(components, Listed(message.requested) + Listed(message.tcList))
    ensures KnownOnes(db.manifests, components) != [] <==> SomeKnown(db, message)
  {
    var known := KnownOnes(db.manifests, components);
    if SomeKnown(db, message) {
      var c :| c in Listed(message.requested) + Listed(message.tcList) && KnownComponent(db.manifests, c);
      assert c in components && c in known;
    }
    if known != [] {
      assert known[0] in components && known[0] in Listed(message.requested) + Listed(message.tcList);
    }
  }

  lemma SentOrNothing(to: int, db: Db, db': Db, kid: Bytes, b: Bytes, picked: seq<nat>, outcome: Outcome)
    requires DeliversPicked(to, db, db', kid, b, picked, outcome)
    requires exists a: nat :: StandingKey(db.agents, to, kid, a)
    ensures if picked == [] then outcome == NoContent else outcome.UpdateSent? && outcome.kid == kid
  {
    hide StandingKey;
  }

  /** A QueryResponse under a token the TAM is waiting for is answered with an Update, or with
      nothing where nothing it lists is known, if a key that still stands at the end vouches for
      it; and with a request for attestation if none vouched for it when it came. */
  lemma QueryResponseIsServed(w: World, from: int, to: int, draws: seq<Bytes>, db: Db, db': Db, input: Input,
                              outcome: Outcome)
    requires from <= to && UniqueKids(db.agents) && Serves(w, from, to, draws, db, db', input, outcome)
    requires input.Signed? && input.message.kind.KindQueryResponse? && TokenAnswers(db, input.message.token)
    ensures Vouched(w, db.agents, to, input.kid, input.body) ==>
      Answered(db, draws, input.message, input.kid.value, outcome)
    ensures input.kid.Some? && input.kid.value != [] && !Unusable(w, db.agents, from, input.kid.value) ==>
      Vouched(w, db.agents, from, input.kid, input.body) || AsksToAttest(db, draws, outcome)
  {
    hide Serves, Vouched, Unusable, UniqueKids, TokenAnswers, Draws, Flipped, Delivers, StandingKey, Answered;
    if Vouched(w, db.agents, to, input.kid, input.body) { UsableNow(w, db, from, to, input); }
    if input.kid.Some? && input.kid.value != [] && !Unusable(w, db.agents, from, input.kid.value) {
      Dispatched(w, from, to, draws, db, db', input, outcome);
      var spent := TokenSpent(db, input.message.token);
      assert spent.agents == db.agents && spent.challenges == db.challenges;
      if Vouched(w, db.agents, to, input.kid, input.body) {
        DeliveredIsAnswered(draws, to, spent, db', input.message, input.kid.value, outcome);
        SpentAnswers(db, draws, input.message, input.kid.value, outcome);
      }
    }
  }

  ghost predicate AsksToAttest(db: Db, draws: seq<Bytes>, outcome: Outcome)
  {
    || (outcome == Refused(Fatal) && Draws(db.challenges, draws, None))
    || exists b: Bytes :: Draws(db.challenges, draws, Some(b)) && outcome == QuerySent(ChallengeHandle(b), true, false)
  }

  lemma SpentAnswers(db: Db, draws: seq<Bytes>, message: Message, kid: Bytes, outcome: Outcome)
    requires Answered(TokenSpent(db, message.token), draws, message, kid, outcome)
    ensures Answered(db, draws, message, kid, outcome)
  {
    if message.token.Some? { FlippedBytes(db.tokens, message.token.value, draws, None); }
    hide Draws, Flipped;
  }

  predicate Reports(input: Input)
  {
    input.Signed? && (input.message.kind.KindSuccess? || input.message.kind.KindError?)
  }

  /** A Success or an Error is accepted exactly if it is vouched for and answers the TAM; it is
      refused as not authenticated without the one, and as no response without the other.  What
      is accepted is recorded, or filed. */
  lemma ReportsAreAccepted(w: World, from: int, to: int, draws: seq<Bytes>, db: Db, db': Db, input: Input,
                           outcome: Outcome)
    requires from <= to && UniqueKids(db.agents) && Serves(w, from, to, draws, db, db', input, outcome)
    requires Reports(input) && input.kid.Some? && input.kid.value != []
    requires !Unusable(w, db.agents, from, input.kid.value)
    ensures Vouched(w, db.agents, to, input.kid, input.body) ==>
      outcome == if TokenAnswers(db, input.message.token) then NoContent else Refused(NotAResponse)
    ensures !Vouched(w, db.agents, from, input.kid, input.body) ==> outcome == Refused(NotAuthenticated)
    ensures outcome == NoContent ==>
      && Vouched(w, db.agents, from, input.kid, input.body) && TokenAnswers(db, input.message.token)
      && var spent := TokenSpent(db, input.message.token);
      && (input.message.kind.KindSuccess? ==> Recorded(from, to, spent, db', input.kid.value, input.message.reports))
      && (input.message.kind.KindError? ==> FiledOnly(spent, db', input.kid.value, input.message.reports))
    ensures outcome == NoContent || outcome == Refused(NotAuthenticated) || outcome == Refused(NotAResponse)
  {
    hide Serves, Vouched, Unusable, UniqueKids, TokenAnswers, TokenSpent, Recorded, FiledOnly;
    Dispatched(w, from, to, draws, db, db', input, outcome);
  }

  lemma VouchedReportIsAccepted(w: World, from: int, to: int, draws: seq<Bytes>, db: Db, db': Db, input: Input,
                                outcome: Outcome)
    requires from <= to && UniqueKids(db.agents) && Serves(w, from, to, draws, db, db', input, outcome)
    requires Reports(input) && Vouched(w, db.agents, to, input.kid, input.body)
    ensures outcome == if TokenAnswers(db, input.message.token) then NoContent else Refused(NotAResponse)
  {
    hide Serves, Vouched, Unusable, UniqueKids, TokenAnswers, TokenSpent, Recorded, FiledOnly;
    UsableNow(w, db, from, to, input);
    ReportsAreAccepted(w, from, to, draws, db, db', input, outcome);
  }

  /** The attested key is new and can be stored. */
  ghost predicate NewKey(db: Db, kid: Bytes)
  {
    |kid| == 32 && !KeyStored(db.agents, kid)
  }

  /** An affirmed attestation that answers a challenge, from a sender nobody vouches for: without
      a proved key it is refused and no key is stored; a proved key, be it carried by an EAT or an
      SGX bundle, is stored if it is new, and its holder is answered like any other. */
  lemma AttestationIsTaken(w: World, from: int, to: int, draws: seq<Bytes>, db: Db, db': Db, input: Input, kid: Bytes,
                           outcome: Outcome)
    requires from <= to <= from + 31_535_999_000_000_000
    requires UniqueKids(db.agents) && Serves(w, from, to, draws, db, db', input, outcome)
    requires input.Signed? && input.message.kind.KindQueryResponse? && input.message.token.None?
    requires input.kid.Some? && input.kid.value != [] && !Unusable(w, db.agents, from, input.kid.value)
    requires !Vouched(w, db.agents, from, input.kid, input.body)
    requires input.message.payload.Some? && input.verdict.Affirming? && input.verdict.nonce.Some?
    requires ChallengeAnswers(db, input.verdict.nonce.value)
    ensures (forall k: Bytes :: !ProvesKey(w, input, k)) ==>
      outcome == Refused(NotAuthenticated) && db'.agents == db.agents
    ensures ProvesKey(w, input, kid) && NewKey(db, kid) ==>
      && Answered(db, draws, input.message, kid, outcome)
      && |db'.agents| == |db.agents| + 1 && db.agents <= db'.agents
      && db'.agents[|db.agents|].kid == kid && db'.agents[|db.agents|].publicKey == input.verdict.key.value
    ensures ProvesKey(w, input, kid) && !NewKey(db, kid) ==> db'.agents == db.agents
  {
    hide Serves, Vouched, Unusable, UniqueKids, ChallengeAnswers, Delivers, Flipped, Answered, Enrols, Draws, ProvesKey;
    NoTokenAnswers(db);
    Dispatched(w, from, to, draws, db, db', input, outcome);
    assert Treats(w, from, to, draws, db, db', input, None, false, outcome);
    var r: Result<Bytes, TamError>, verified: Db :|
      && Attests(w, from, to, db, verified, input, None, r)
      && AnswersAttested(draws, to, verified, db', input.message, r, outcome);
    if k: Bytes :| ProvesKey(w, input, k) {
      AttestedKey(w, from, to, draws, db, verified, db', input, kid, r, outcome);
    }
  }

  lemma NoTokenAnswers(db: Db)
    ensures !TokenAnswers(db, None) && TokenSpent(db, None) == db
  {
  }

  lemma AttestedKey(w: World, from: int, to: int, draws: seq<Bytes>, db: Db, verified: Db, db': Db, input: Input,
                    kid: Bytes, r: Result<Bytes, TamError>, outcome: Outcome)
    requires from <= to <= from + 31_535_999_000_000_000
    requires input.Signed? && input.message.token.None? && input.message.payload.Some?
    requires input.verdict.Affirming? && input.verdict.nonce.Some? && ChallengeAnswers(db, input.verdict.nonce.value)
    requires Attests(w, from, to, db, verified, input, None, r)
    requires AnswersAttested(draws, to, verified, db', input.message, r, outcome)
    ensures ProvesKey(w, input, kid) && NewKey(db, kid) ==>
      && Answered(db, draws, input.message, kid, outcome)
      && |db'.agents| == |db.agents| + 1 && db.agents <= db'.agents
      && db'.agents[|db.agents|].kid == kid && db'.agents[|db.agents|].publicKey == input.verdict.key.value
    ensures ProvesKey(w, input, kid) && !NewKey(db, kid) ==> db'.agents == db.agents
  {
    if ProvesKey(w, input, kid) {
      var spent := db.(challenges := Flipped(db.challenges, input.verdict.nonce.value));
      var k: Bytes, ok: bool :|
        && ProvesKey(w, input, k)
        && Enrols(from, to, spent, verified, input.verdict.key.value, k, input.verdict.ueid, ok)
        && r == (if ok then Ok(k) else Err(Fatal));
      assert k == kid;
      hide ProvesKey, ChallengeAnswers, Attests, Delivers, Draws, Answered, Flipped;
      if NewKey(db, kid) {
        EnrolledStands(from, to, spent, verified, input.verdict.key.value, kid, input.verdict.ueid, ok);
        DeliveredIsAnswered(draws, to, verified, db', input.message, kid, outcome);
        SameAnswers(db, verified, draws, input.message, kid, outcome);
      }
      if ok { DeliversKeepsAgents(draws, to, verified, db', input.message, kid, outcome); }
    }
  }

  lemma SameAnswers(db: Db, verified: Db, draws: seq<Bytes>, message: Message, kid: Bytes, outcome: Outcome)
    requires Answered(verified, draws, message, kid, outcome)
    requires verified.tokens == db.tokens && verified.manifests == db.manifests
    ensures Answered(db, draws, message, kid, outcome)
  {
    hide Draws;
  }

  lemma EnrolledStands(from: int, to: int, db: Db, db': Db, key: Key, kid: Bytes, ueid: Option<Bytes>, ok: bool)
    requires from <= to <= from + 31_535_999_000_000_000 && NewKey(db, kid)
    requires Enrols(from, to, db, db', key, kid, ueid, ok)
    ensures ok && |db'.agents| == |db.agents| + 1 && db' == db.(agents := db'.agents) && db.agents <= db'.agents
    ensures db'.agents[|db.agents|].kid == kid && db'.agents[|db.agents|].publicKey == key
    ensures exists a: nat :: StandingKey(db'.agents, to, kid, a)
  {
    assert StandingKey(db'.agents, to, kid, |db.agents|);
  }

  lemma DeliversKeepsAgents(draws: seq<Bytes>, to: int, db: Db, db': Db, message: Message, kid: Bytes, outcome: Outcome)
    requires Delivers(draws, to, db, db', message, kid, outcome)
    ensures db'.agents == db.agents
  {
    hide Draws, Selects, Deduplicates, StandingKey;
  }

  /** An empty POST is answered with a QueryRequest for the tc-list under a new token, unless the
      random source has nothing new left. */
  lemma EmptyPostIsAnswered(w: World, from: int, to: int, draws: seq<Bytes>, db: Db, db': Db, outcome: Outcome)
    requires Serves(w, from, to, draws, db, db', EmptyBody, outcome)
    ensures (exists i :: 0 <= i < |draws| && |draws[i]| == 32 && !HasBytes(db.tokens, draws[i])) ==>
      exists b: Bytes :: outcome == QuerySent(TokenHandle(b), false, true) && !HasBytes(db.tokens, b)
  {
    hide HasBytes;
  }
}
