/**
 Effects are confined: every change to a table is accounted for by the message that may make
 it, and an attestation that is not affirmed leaves nothing behind but the spent token.
 */
module Effects {
  import opened Wrappers
  import opened Tables
  import opened Protocol
  import opened Machine
  import opened RequestFacts
  import opened Delivery
  import opened Authentication
  import opened Holdings
  import opened Beliefs
  import opened Revocation

  /** What entitles a request to make the difference between the two stores. */
  ghost predicate AccountedFor(w: World, req: Request, db: Db, db': Db)
  {
    && (db'.holdings != db.holdings ==>
          && req.input.Signed? && req.input.message.kind.KindSuccess?
          && req.auth.Some? && req.token.Some? && req.recovered.Some?)
    && (db'.manifests != db.manifests ==>
          && req.input.Registration? && |db'.manifests| == |db.manifests| + 1
          && db.manifests == db'.manifests[..|db.manifests|]
          && AsRegistered(req.input, db'.manifests[|db.manifests|]))
    && (db'.reports != db.reports ==>
          && req.input.Signed? && req.auth.Some? && req.token.Some? && req.recovered.Some?
          && |db'.reports| == |db.reports| + 1 && db.reports == db'.reports[..|db.reports|]
          && (if db'.reports[|db.reports|].resolved then req.input.message.kind.KindSuccess?
              else req.input.message.kind.KindError?))
    && (db'.agents != db.agents ==>
          || (req.input.Revocation? && |db'.agents| == |db.agents|)
          || (|db'.agents| == |db.agents| + 1 && db.agents == db'.agents[..|db.agents|]
              && Introduces(w, req, db'.agents[|db.agents|].kid)))
    && (db'.queries != db.queries || db'.updates != db.updates || db'.links != db.links ==>
          req.input.EmptyBody? || (IsQueryResponse(req) && req.recovered.Some?))
    && (db'.tokens != db.tokens && |db'.tokens| == |db.tokens| ==>
          && req.input.Signed? && req.token.Some?
          && req.token == req.input.message.token && db'.tokens == Consumed(db.tokens, req.token.value))
  }

  predicate AsRegistered(input: Input, row: ManifestRow)
  {
    && input.Registration? && input.envelope == Some(row.envelope) && row.digest == input.digest
    && row.component == input.component && row.sequenceNumber == Signed64(input.sequenceNumber)
  }

  lemma GroundedIsAccounted(w: World, req: Request, db: Db, write: Write)
    requires Grounded(w, req, write) && Coherent(req)
    ensures AccountedFor(w, req, db, Apply(db, write))
  {
  }

  lemma AdvanceGrounded(w: World, now: int, db: Db, th: Thread, ev: Event)
    requires Faithful(w, th)
    ensures var (write, th') := Advance(w, now, db, th, ev);
      (write.Nothing? || Grounded(w, th'.req, write)) && Coherent(th'.req) && th'.req.input == th.req.input
  {
    hide AtPc, Grounded, Next, OnStoreFault, AllGrounded, Counts;
    if !ev.fault {
      NextKeeps(w, now, db, th.req, th.pc, th.log, ev);
    }
  }

  /** Holdings and reports are written in the reporting phase, which settles nothing else. */
  lemma ReportingKeepsRequest(w: World, now: int, db: Db, th: Thread, ev: Event)
    ensures var (write, th') := Advance(w, now, db, th, ev);
      write.Hold? || write.PutReport? ==> th'.req == th.req
  {
    hide ComponentSet, NextCounted, DigestKey, HoldCollides, PicksAgent, PicksManifestByDigest, Envelopes, OnStoreFault,
         PicksLatest, LinkedManifests, Dispatch, AfterAuthentication;
  }

  lemma ReportsAreWritten(db: Db, write: Write)
    ensures Apply(db, write).holdings != db.holdings || Apply(db, write).reports != db.reports ==>
      write.Hold? || write.PutReport?
  {
  }

  /** In every reached state, whatever a thread's next step changes is accounted for by its
      request; holdings and reports only by a request whose message verified under a stored key
      that was live at some moment of the run; and it changes the beliefs about no agent but
      the one it authenticated as. */
  lemma EveryChangeIsAccountedFor(w: World, now: int, signingKeys: seq<SigningKeyRow>, devices: seq<Bytes>,
                                  past: seq<Action>, i: nat, ev: Event, a: nat)
    requires i < |Reached(w, now, signingKeys, devices, past).threads|
    requires a < |Reached(w, now, signingKeys, devices, past).db.agents|
    ensures var s := Reached(w, now, signingKeys, devices, past);
      var s' := Step(w, s, Run(i, ev));
      && AccountedFor(w, s'.threads[i].req, s.db, s'.db)
      && (s'.db.holdings != s.db.holdings || s'.db.reports != s.db.reports ==>
            Authenticated(w, Initial(now, signingKeys, devices), past, s.threads[i].req))
      && (Believed(s'.db, a) != Believed(s.db, a) ==> s.threads[i].req.auth == Some(s.db.agents[a].kid))
  {
    var s := Reached(w, now, signingKeys, devices, past);
    ReachedIsSound(w, now, signingKeys, devices, past);
    hide Reached, Advance, Faithful, Apply, Grounded, Coherent, Believed, HoldingsSound, Authenticated;
    var (write, th') := Advance(w, s.now, s.db, s.threads[i], ev);
    AdvanceGrounded(w, s.now, s.db, s.threads[i], ev);
    if write.Nothing? {
      ApplyNothing(s.db);
      NothingIsAccounted(w, th'.req, s.db);
    } else {
      GroundedIsAccounted(w, th'.req, s.db, write);
      ReportingKeepsRequest(w, s.now, s.db, s.threads[i], ev);
      ReportsAreWritten(s.db, write);
      if s.threads[i].req.auth.Some? {
        AuthenticationIsEarned(w, now, signingKeys, devices, past, i);
      }
      if s.threads[i].req.auth != Some(s.db.agents[a].kid) {
        BeliefKept(w, s, i, ev, s.db.agents[a].kid, a);
      }
    }
  }

  lemma NothingIsAccounted(w: World, req: Request, db: Db)
    ensures AccountedFor(w, req, db, db)
  {
  }

  // ---- attestation that is not affirmed ----

  function ApplyAll(db: Db, writes: seq<Write>): Db
    decreases |writes|
  {
    if writes == [] then db else Apply(ApplyAll(db, writes[..|writes| - 1]), writes[|writes| - 1])
  }

  lemma ConsumedTwice(rows: seq<HandleRow>, bytes: Bytes)
    ensures Consumed(Consumed(rows, bytes), bytes) == Consumed(rows, bytes)
  {
  }

  lemma {:induction false} OnlyUses(db: Db, log: seq<Write>, token: Bytes)
    requires forall k :: 0 <= k < |log| ==> log[k] == UseToken(token)
    ensures ApplyAll(db, log) == db || ApplyAll(db, log) == db.(tokens := Consumed(db.tokens, token))
    decreases |log|
  {
    if log != [] {
      OnlyUses(db, log[..|log| - 1], token);
      ConsumedTwice(db.tokens, token);
    }
  }

  /** A request that recovered nothing by its token and whose attestation was refused, or
      could not be read, or never got to a verdict, has written nothing but the flag of the
      token it presented. */
  lemma {:induction false} UnaffirmedLeavesNoTrace(w: World, now: int, signingKeys: seq<SigningKeyRow>,
                                                   devices: seq<Bytes>, past: seq<Action>, i: nat, db: Db)
    requires var s := Reached(w, now, signingKeys, devices, past);
      && i < |s.threads| && s.threads[i].req.input.Signed? && !s.threads[i].req.input.verdict.Affirming?
      && s.threads[i].req.recovered.None?
    ensures var th := Reached(w, now, signingKeys, devices, past).threads[i];
      || ApplyAll(db, th.log) == db
      || (th.req.input.message.token.Some?
          && ApplyAll(db, th.log) == db.(tokens := Consumed(db.tokens, th.req.input.message.token.value)))
  {
    var s := Reached(w, now, signingKeys, devices, past);
    ReachedSound(w, now, signingKeys, devices, past);
    var th := s.threads[i];
    assert Faithful(w, th);
    hide Reached, ApplyAll;
    if th.log == [] {
      OnlyUses(db, th.log, []);
    } else {
      forall k | 0 <= k < |th.log| ensures th.req.token.Some? && th.log[k] == UseToken(th.req.token.value) {
        assert Grounded(w, th.req, th.log[k]);
      }
      assert th.log[0] == UseToken(th.req.token.value);
      OnlyUses(db, th.log, th.req.token.value);
    }
  }
}
