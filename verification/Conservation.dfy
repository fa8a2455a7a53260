/**
 Conservation of handles: however requests interleave, and whatever the store fails, the
 unconsumed handles bound to a sent message never outnumber the empty POSTs received.
 An empty POST brings one credit into the system; a request that matches a sent message
 trades the handle it consumed for one credit; a credit is spent to bind one new handle.
 */
module Conservation {
  import opened Wrappers
  import opened Tables
  import opened Protocol
  import opened Machine
  import opened RequestFacts
  import opened Handles
  import opened Sums

  /** The right of a request to record one more sent message. */
  function Credit(pc: Pc): nat
  {
    match pc
    case Issuing(_) => 1
    case Attesting(at) => if at.ConsumeChallenge? || at.FindByChallenge? then 0 else 1
    case Delivering(at) => if at.FindManifest? || at.AddLink? then 0 else 1
    case _ => 0
  }

  /** The handle a request has consumed and is looking up. */
  function LookingUp(req: Request, pc: Pc): Option<Handle>
  {
    match pc
    case Matching(at) =>
      if (at.FindQuery? || at.FindUpdate?) && req.token.Some? then Some(TokenHandle(req.token.value)) else None
    case Attesting(FindByChallenge) => if req.challenge.Some? then Some(ChallengeHandle(req.challenge.value)) else None
    case _ => None
  }

  ghost predicate SomeoneLooksUp(threads: seq<Thread>, handle: Handle)
  {
    exists i :: 0 <= i < |threads| && LookingUp(threads[i].req, threads[i].pc) == Some(handle)
  }

  // The two tables of handles, treated alike.
  datatype Kind = Tokens | Challenges

  function Rows(db: Db, kind: Kind): seq<HandleRow>
  {
    if kind.Tokens? then db.tokens else db.challenges
  }

  ghost predicate Bound(db: Db, kind: Kind, id: nat)
  {
    if kind.Tokens? then TokenBound(db, id) else ChallengeBound(db, id)
  }

  function HandleOf(kind: Kind, bytes: Bytes): Handle
  {
    if kind.Tokens? then TokenHandle(bytes) else ChallengeHandle(bytes)
  }

  /** A bound handle still counts while it is unconsumed, or while whoever consumed it is
      about to find the message it was sent under. */
  ghost predicate Weighs(s: Sys, kind: Kind, id: nat)
  {
    && id < |Rows(s.db, kind)| && Bound(s.db, kind, id)
    && (!Rows(s.db, kind)[id].consumed || SomeoneLooksUp(s.threads, HandleOf(kind, Rows(s.db, kind)[id].bytes)))
  }

  ghost function Weights(s: Sys, kind: Kind): (r: seq<nat>)
    ensures |r| == |Rows(s.db, kind)|
    ensures forall id: nat :: id < |r| ==> r[id] == if Weighs(s, kind, id) then 1 else 0
  {
    seq(|Rows(s.db, kind)|, id requires 0 <= id < |Rows(s.db, kind)| => if Weighs(s, kind, id) then 1 else 0)
  }

  function Credits(threads: seq<Thread>): (r: seq<nat>)
    ensures |r| == |threads| && forall i :: 0 <= i < |r| ==> r[i] == Credit(threads[i].pc)
  {
    seq(|threads|, i requires 0 <= i < |threads| => Credit(threads[i].pc))
  }

  function EmptyPosts(threads: seq<Thread>): (r: seq<nat>)
    ensures |r| == |threads| && forall i :: 0 <= i < |r| ==> r[i] == if threads[i].req.input.EmptyBody? then 1 else 0
  {
    seq(|threads|, i requires 0 <= i < |threads| => if threads[i].req.input.EmptyBody? then 1 else 0)
  }

  ghost predicate Conserved(s: Sys)
  {
    Sum(Weights(s, Tokens)) + Sum(Weights(s, Challenges)) + Sum(Credits(s.threads)) <= Sum(EmptyPosts(s.threads))
  }

  // ---- what a step does to credits ----

  /** The lookup about to be made will find a sent message. */
  ghost predicate WillFind(db: Db, handle: Handle)
  {
    match handle
    case TokenHandle(b) => (exists q: nat :: QueryUsesToken(db, q, b)) || (exists u: nat :: UpdateUsesToken(db, u, b))
    case ChallengeHandle(b) => exists q: nat :: QueryUsesChallenge(db, q, b)
  }

  /** A step never adds to the credit of its request, pays one for binding a handle, and
      earns one only by leaving a lookup that finds something. */
  ghost predicate Pays(db: Db, req: Request, pc: Pc, write: Write, req': Request, pc': Pc)
  {
    || Credit(pc') + (if Binding(write) then 1 else 0) <= Credit(pc)
    || (write.Nothing? && LookingUp(req, pc).Some? && WillFind(db, LookingUp(req, pc).value)
        && LookingUp(req', pc').None? && Credit(pc') == 1)
  }

  lemma UnmatchedEarnsNothing(req: Request)
    requires req.input.Signed? && req.recovered.None?
    ensures Credit(Dispatch(req)) == 0
  {
    hide ComponentSet, NextCounted;
  }

  lemma MatchPays(w: World, now: int, db: Db, req: Request, pc: MatchPc, log: seq<Write>, ev: Event)
    requires AtMatching(req, pc, log)
    ensures var (write, req', pc') := MatchStep(w, now, db, req, pc, ev); Pays(db, req, Matching(pc), write, req', pc')
  {
    hide ComponentSet, NextCounted, Envelopes, LinkedManifests, PicksAgent;
    var (write, req', pc') := MatchStep(w, now, db, req, pc, ev);
    UnmatchedEarnsNothing(req);
    if req'.recovered.None? { UnmatchedEarnsNothing(req'); }
  }

  lemma AttestPays(w: World, now: int, db: Db, req: Request, pc: AttestPc, log: seq<Write>, ev: Event)
    requires AtAttesting(w, req, pc, log)
    ensures var (write, req', pc') := AttestStep(w, now, db, req, pc, ev);
      Pays(db, req, Attesting(pc), write, req', pc')
  {
    hide ComponentSet, PicksAgent, NewAgent;
  }

  lemma NextPays(w: World, now: int, db: Db, req: Request, pc: Pc, log: seq<Write>, ev: Event)
    requires AtPc(w, req, pc, log)
    ensures var (write, req', pc') := Next(w, now, db, req, pc, ev); Pays(db, req, pc, write, req', pc')
  {
    match pc
    case Matching(at) => MatchPays(w, now, db, req, at, log, ev);
    case Attesting(at) => AttestPays(w, now, db, req, at, log, ev);
    case Issuing(_) =>
    case Delivering(_) =>
    case _ => hide DigestKey, HoldCollides, PicksLatest, PicksAgent;
  }

  lemma AdvancePays(w: World, now: int, db: Db, th: Thread, ev: Event)
    requires Faithful(w, th)
    ensures var (write, th') := Advance(w, now, db, th, ev);
      Pays(db, th.req, th.pc, write, th'.req, th'.pc) && th'.req.input == th.req.input
  {
    if ev.fault {
      hide ComponentSet, NextCounted;
      if th.pc.Matching? { UnmatchedEarnsNothing(th.req); }
    } else {
      hide Pays, Next;
      NextPays(w, now, db, th.req, th.pc, th.log, ev);
      NextKeeps(w, now, db, th.req, th.pc, th.log, ev);
    }
  }

  // ---- what a step does to weights ----

  /** A request starts looking a handle up only by consuming it. */
  predicate Enters(req: Request, pc: Pc, write: Write, req': Request, pc': Pc)
  {
    match LookingUp(req', pc')
    case None => true
    case Some(TokenHandle(b)) => LookingUp(req, pc) == Some(TokenHandle(b)) || write == UseToken(b)
    case Some(ChallengeHandle(b)) => LookingUp(req, pc) == Some(ChallengeHandle(b)) || write == UseChallenge(b)
  }

  lemma MatchEnters(w: World, now: int, db: Db, req: Request, pc: MatchPc, ev: Event)
    requires req.input.Signed? && req.recovered.None?
    ensures var (write, req', pc') := MatchStep(w, now, db, req, pc, ev); Enters(req, Matching(pc), write, req', pc')
  {
    hide ComponentSet, NextCounted, LinkedManifests, PicksAgent, Envelopes;
  }

  lemma NextEnters(w: World, now: int, db: Db, req: Request, pc: Pc, ev: Event)
    requires pc.Matching? ==> req.recovered.None?
    ensures var (write, req', pc') := Next(w, now, db, req, pc, ev); Enters(req, pc, write, req', pc')
  {
    hide ComponentSet, NextCounted, LinkedManifests, PicksLatest, PicksAgent, DigestKey, HoldCollides, Envelopes,
         PicksManifestByDigest, MatchStep;
    if pc.Matching? && req.input.Signed? {
      MatchEnters(w, now, db, req, pc.lookup, ev);
      hide Enters;
    }
  }

  lemma AdvanceEnters(w: World, now: int, db: Db, th: Thread, ev: Event)
    requires Faithful(w, th)
    ensures var (write, th') := Advance(w, now, db, th, ev); Enters(th.req, th.pc, write, th'.req, th'.pc)
  {
    hide AllGrounded, Counts, ComponentSet, NextCounted, Next;
    if !ev.fault { NextEnters(w, now, db, th.req, th.pc, ev); }
  }

  /** The write records a sent message under handle id of the kind. */
  predicate Binds(write: Write, kind: Kind, id: nat)
  {
    match write
    case PutQuery(row) => (if kind.Tokens? then row.token else row.challenge) == Some(id)
    case PutUpdate(row) => kind.Tokens? && row.token == id
    case _ => false
  }

  ghost function Moved(s: Sys, i: nat, write: Write, th': Thread): Sys
    requires i < |s.threads|
  {
    Sys(s.now, Apply(s.db, write), s.threads[i := th'])
  }

  ghost predicate Moves(s: Sys, i: nat, write: Write, th': Thread)
  {
    && i < |s.threads| && HandlesSound(s)
    && Proper(s.db, s.threads[i].req, s.threads[i].pc, write, th'.req, th'.pc)
    && Enters(s.threads[i].req, s.threads[i].pc, write, th'.req, th'.pc)
  }

  lemma RowsAfter(db: Db, write: Write, kind: Kind, id: nat)
    requires id < |Rows(Apply(db, write), kind)|
    ensures |Rows(db, kind)| <= |Rows(Apply(db, write), kind)| <= |Rows(db, kind)| + 1
    ensures id < |Rows(db, kind)| ==>
      && Rows(Apply(db, write), kind)[id].bytes == Rows(db, kind)[id].bytes
      && (Rows(db, kind)[id].consumed ==> Rows(Apply(db, write), kind)[id].consumed)
    ensures Bound(Apply(db, write), kind, id) ==> Bound(db, kind, id) || Binds(write, kind, id)
  {
  }

  lemma LooksAfter(s: Sys, i: nat, write: Write, th': Thread, handle: Handle)
    requires Moves(s, i, write, th')
    requires SomeoneLooksUp(Moved(s, i, write, th').threads, handle)
    ensures || SomeoneLooksUp(s.threads, handle)
            || (handle.TokenHandle? && write == UseToken(handle.bytes))
            || (handle.ChallengeHandle? && write == UseChallenge(handle.bytes))
  {
    hide HandlesSound, Proper, LookingUp, Apply;
    var threads' := s.threads[i := th'];
    var j :| 0 <= j < |threads'| && LookingUp(threads'[j].req, threads'[j].pc) == Some(handle);
    assert LookingUp(s.threads[j].req, s.threads[j].pc) == Some(handle) || j == i;
  }

  lemma UsedWasUnconsumed(rows: seq<HandleRow>, bytes: Bytes, id: nat)
    requires UniqueBytes(rows) && Unconsumed(rows, bytes) && id < |rows| && rows[id].bytes == bytes
    ensures !rows[id].consumed
  {
  }

  /** No handle gains weight but the one a write binds. */
  lemma WeightKept(s: Sys, i: nat, write: Write, th': Thread, kind: Kind, id: nat)
    requires Moves(s, i, write, th') && Weighs(Moved(s, i, write, th'), kind, id) && !Binds(write, kind, id)
    requires id < |Rows(s.db, kind)|
    ensures Weighs(s, kind, id)
  {
    var s' := Moved(s, i, write, th');
    RowsAfter(s.db, write, kind, id);
    var handle := HandleOf(kind, Rows(s.db, kind)[id].bytes);
    hide WellBound, Custody, Disjoint, Enters, Bound, Apply, SomeoneLooksUp;
    if Rows(s.db, kind)[id].consumed {
      LooksAfter(s, i, write, th', handle);
      if !SomeoneLooksUp(s.threads, handle) {
        UsedWasUnconsumed(Rows(s.db, kind), handle.bytes, id);
      }
    }
  }

  /** A handle issued by the write is not bound yet. */
  lemma NewHandleWeightless(s: Sys, i: nat, write: Write, th': Thread, kind: Kind)
    requires Moves(s, i, write, th') && |Rows(Apply(s.db, write), kind)| > |Rows(s.db, kind)|
    ensures !Weighs(Moved(s, i, write, th'), kind, |Rows(s.db, kind)|)
  {
    hide Custody, Disjoint, Enters, SomeoneLooksUp;
  }

  lemma BoundWasFree(s: Sys, i: nat, write: Write, th': Thread, kind: Kind, id: nat)
    requires Moves(s, i, write, th') && Binds(write, kind, id)
    ensures id < |Rows(s.db, kind)| && !Bound(s.db, kind, id) && !Weighs(s, kind, id)
    ensures |Rows(Apply(s.db, write), kind)| == |Rows(s.db, kind)|
  {
    hide Disjoint, Enters, SomeoneLooksUp, UniqueBytes, WellBound;
    var th := s.threads[i];
    assert Custody(s.db, th.req, th.pc);
    var handle := Owns(th.pc).value;
    assert TablesSound(s.db);
    FreeMeansUnbound(s.db, handle, id);
  }

  /** The total weight of a kind grows by at most one, and only by a binding. */
  lemma {:induction false} WeightsBounded(s: Sys, i: nat, write: Write, th': Thread, kind: Kind)
    requires Moves(s, i, write, th')
    ensures Sum(Weights(Moved(s, i, write, th'), kind)) <=
      Sum(Weights(s, kind)) + (if exists id: nat :: Binds(write, kind, id) then 1 else 0)
  {
    var s' := Moved(s, i, write, th');
    var xs, ys := Weights(s, kind), Weights(s', kind);
    RowCount(s.db, write, kind);
    hide Moves, Weighs, Apply, Binds;
    forall id: nat | id < |xs| && !Binds(write, kind, id)
      ensures ys[id] <= xs[id]
    {
      if Weighs(s', kind, id) { WeightKept(s, i, write, th', kind, id); }
    }
    if id: nat :| Binds(write, kind, id) {
      BoundWasFree(s, i, write, th', kind, id);
      BindsOne(write, kind, id);
      SumBounded(xs, ys, id);
    } else if |ys| > |xs| {
      NewHandleWeightless(s, i, write, th', kind);
      SumMonotone(ys[..|xs|], xs);
      SumGrown(ys[..|xs|], ys);
    } else {
      SumMonotone(ys, xs);
    }
  }

  lemma RowCount(db: Db, write: Write, kind: Kind)
    ensures |Rows(db, kind)| <= |Rows(Apply(db, write), kind)| <= |Rows(db, kind)| + 1
  {
  }

  lemma BindsOne(write: Write, kind: Kind, id: nat)
    requires Binds(write, kind, id)
    ensures forall other: nat :: Binds(write, kind, other) ==> other == id
  {
  }

  /** What a lookup will find is sent under the very row with those bytes. */
  lemma FoundIsBound(db: Db, kind: Kind, id: nat)
    requires UniqueBytes(db.tokens) && UniqueBytes(db.challenges) && id < |Rows(db, kind)|
    requires WillFind(db, HandleOf(kind, Rows(db, kind)[id].bytes))
    ensures Bound(db, kind, id)
  {
    var bytes := Rows(db, kind)[id].bytes;
    if kind.Tokens? {
      if q: nat :| QueryUsesToken(db, q, bytes) {
        assert db.queries[q].token.value == id;
      } else {
        var u: nat :| UpdateUsesToken(db, u, bytes);
        assert db.updates[u].token == id;
      }
    } else {
      var q: nat :| QueryUsesChallenge(db, q, bytes);
      assert db.queries[q].challenge.value == id;
    }
  }

  /** A handle being looked up is consumed, and nobody else looks it up. */
  lemma LookedUpIsConsumed(s: Sys, i: nat, kind: Kind, id: nat)
    requires HandlesSound(s) && i < |s.threads| && id < |Rows(s.db, kind)|
    requires LookingUp(s.threads[i].req, s.threads[i].pc) == Some(HandleOf(kind, Rows(s.db, kind)[id].bytes))
    ensures Rows(s.db, kind)[id].consumed
    ensures forall j :: 0 <= j < |s.threads| && j != i ==>
      LookingUp(s.threads[j].req, s.threads[j].pc) != LookingUp(s.threads[i].req, s.threads[i].pc)
  {
    hide WellBound, Owns;
    var th := s.threads[i];
    assert Custody(s.db, th.req, th.pc);
    forall j | 0 <= j < |s.threads| && j != i
      ensures LookingUp(s.threads[j].req, s.threads[j].pc) != LookingUp(th.req, th.pc)
    {
      assert Disjoint(s.threads[j], th);
    }
  }

  /** Whoever leaves a lookup that finds something takes the weight of the handle along. */
  lemma FoundLosesWeight(s: Sys, i: nat, th': Thread, kind: Kind, id: nat)
    requires Moves(s, i, Nothing, th')
    requires id < |Rows(s.db, kind)|
    requires LookingUp(s.threads[i].req, s.threads[i].pc) == Some(HandleOf(kind, Rows(s.db, kind)[id].bytes))
    requires WillFind(s.db, HandleOf(kind, Rows(s.db, kind)[id].bytes)) && LookingUp(th'.req, th'.pc).None?
    ensures Weighs(s, kind, id) && !Weighs(Moved(s, i, Nothing, th'), kind, id)
  {
    assert HandlesSound(s) && UniqueBytes(s.db.tokens) && UniqueBytes(s.db.challenges);
    hide Proper, Enters, HandlesSound, LookingUp, WillFind, Bound, UniqueBytes;
    FoundIsBound(s.db, kind, id);
    LookedUpIsConsumed(s, i, kind, id);
    ApplyNothing(s.db);
  }

  // ---- every run ----

  lemma BindsOneKind(s: Sys, i: nat, write: Write, th': Thread)
    requires Moves(s, i, write, th')
    ensures (exists id: nat :: Binds(write, Tokens, id)) || (exists id: nat :: Binds(write, Challenges, id)) ==>
      Binding(write)
    ensures !((exists id: nat :: Binds(write, Tokens, id)) && (exists id: nat :: Binds(write, Challenges, id)))
  {
    hide HandlesSound, Enters;
  }

  lemma CreditsAfter(threads: seq<Thread>, i: nat, th': Thread)
    requires i < |threads| && th'.req.input == threads[i].req.input
    ensures Sum(Credits(threads[i := th'])) + Credit(threads[i].pc) == Sum(Credits(threads)) + Credit(th'.pc)
    ensures Sum(EmptyPosts(threads[i := th'])) == Sum(EmptyPosts(threads))
  {
    hide Credit;
    SumChangedAt(Credits(threads), Credits(threads[i := th']), i);
    assert EmptyPosts(threads[i := th']) == EmptyPosts(threads);
  }

  lemma MoveConserves(s: Sys, i: nat, write: Write, th': Thread)
    requires Moves(s, i, write, th') && Conserved(s)
    requires Pays(s.db, s.threads[i].req, s.threads[i].pc, write, th'.req, th'.pc)
    requires th'.req.input == s.threads[i].req.input
    ensures Conserved(Moved(s, i, write, th'))
  {
    var th := s.threads[i];
    CreditsAfter(s.threads, i, th');
    WeightsBounded(s, i, write, th', Tokens);
    WeightsBounded(s, i, write, th', Challenges);
    BindsOneKind(s, i, write, th');
    hide Moves, Binds, Weights, Credits, EmptyPosts;
    if Credit(th'.pc) + (if Binding(write) then 1 else 0) <= Credit(th.pc) {
    } else {
      FoundConserves(s, i, th');
    }
  }

  /** The credit earned by a lookup that finds something is the weight its handle loses. */
  lemma {:induction false} FoundConserves(s: Sys, i: nat, th': Thread)
    requires Moves(s, i, Nothing, th')
    requires LookingUp(s.threads[i].req, s.threads[i].pc).Some? && LookingUp(th'.req, th'.pc).None?
    requires WillFind(s.db, LookingUp(s.threads[i].req, s.threads[i].pc).value)
    ensures Sum(Weights(Moved(s, i, Nothing, th'), Tokens)) + Sum(Weights(Moved(s, i, Nothing, th'), Challenges)) + 1
         <= Sum(Weights(s, Tokens)) + Sum(Weights(s, Challenges))
    ensures Credit(s.threads[i].pc) == 0
  {
    var th := s.threads[i];
    var handle := LookingUp(th.req, th.pc).value;
    var kind := if handle.TokenHandle? then Tokens else Challenges;
    var other := if handle.TokenHandle? then Challenges else Tokens;
    assert Custody(s.db, th.req, th.pc);
    assert Spent(Rows(s.db, kind), handle.bytes);
    var id: nat :| id < |Rows(s.db, kind)| && Rows(s.db, kind)[id].bytes == handle.bytes;
    FoundLosesWeight(s, i, th', kind, id);
    RowCount(s.db, Nothing, kind);
    hide HandlesSound, Proper, Enters, Weighs, Custody, LookingUp;
    ApplyNothing(s.db);
    var xs, ys := Weights(s, kind), Weights(Moved(s, i, Nothing, th'), kind);
    forall j: nat | j < |xs| && j != id ensures ys[j] <= xs[j] {
      if Weighs(Moved(s, i, Nothing, th'), kind, j) { WeightKept(s, i, Nothing, th', kind, j); }
    }
    SumBounded(xs, ys, id);
    WeightsBounded(s, i, Nothing, th', other);
  }

  lemma LaunchBringsOneCredit(input: Input)
    ensures var th := Launch(input);
      LookingUp(th.req, th.pc).None? && Credit(th.pc) == if input.EmptyBody? then 1 else 0
  {
    if input.Signed? { UnmatchedEarnsNothing(Launch(input).req); }
  }

  lemma ArrivalConserves(s: Sys, input: Input)
    requires Conserved(s)
    ensures Conserved(s.(threads := s.threads + [Launch(input)]))
  {
    hide LookingUp, Credit, Launch, TokenBound, ChallengeBound;
    var th := Launch(input);
    var s' := s.(threads := s.threads + [th]);
    LaunchBringsOneCredit(input);
    assert th.req.input == input by { LaunchKeepsInput(input); }
    SumGrown(Credits(s.threads), Credits(s'.threads));
    SumGrown(EmptyPosts(s.threads), EmptyPosts(s'.threads));
    ArrivalWeights(s, th, Tokens);
    ArrivalWeights(s, th, Challenges);
  }

  lemma ArrivalWeights(s: Sys, th: Thread, kind: Kind)
    requires LookingUp(th.req, th.pc).None?
    ensures Sum(Weights(s.(threads := s.threads + [th]), kind)) <= Sum(Weights(s, kind))
  {
    hide LookingUp, TokenBound, ChallengeBound;
    var s' := s.(threads := s.threads + [th]);
    forall id: nat | id < |Rows(s.db, kind)| && Weighs(s', kind, id) ensures Weighs(s, kind, id) {
      var handle := HandleOf(kind, Rows(s.db, kind)[id].bytes);
      if SomeoneLooksUp(s'.threads, handle) {
        var j :| 0 <= j < |s'.threads| && LookingUp(s'.threads[j].req, s'.threads[j].pc) == Some(handle);
        assert s'.threads[j] == s.threads[j];
      }
    }
    SumMonotone(Weights(s', kind), Weights(s, kind));
  }

  lemma RunConserves(w: World, s: Sys, i: nat, ev: Event)
    requires HandlesSound(s) && i < |s.threads| && Faithful(w, s.threads[i]) && Conserved(s)
    ensures Conserved(Step(w, s, Run(i, ev)))
  {
    hide Conserved, Advance, Faithful, Pays, Enters, UniqueBytes, WellBound, Custody, Disjoint, Proper, Apply;
    var th := s.threads[i];
    var (write, th') := Advance(w, s.now, s.db, th, ev);
    AdvanceProper(w, s.now, s.db, th, ev);
    AdvancePays(w, s.now, s.db, th, ev);
    AdvanceEnters(w, s.now, s.db, th, ev);
    if write == Nothing && th' == th {
      ApplyNothing(s.db);
      assert Step(w, s, Run(i, ev)) == s;
    } else {
      MoveConserves(s, i, write, th');
    }
  }

  lemma StepConserves(w: World, s: Sys, action: Action)
    requires HandlesSound(s) && AllFaithful(w, s) && Conserved(s)
    ensures Conserved(Step(w, s, action))
  {
    hide HandlesSound, Faithful, Conserved, Advance, Apply, Launch;
    match action
    case Arrive(input) => ArrivalConserves(s, input);
    case Tick(elapsed) => TickConserves(s, elapsed);
    case Run(i, ev) => if i < |s.threads| { RunConserves(w, s, i, ev); }
  }

  lemma TickConserves(s: Sys, elapsed: nat)
    requires Conserved(s)
    ensures Conserved(s.(now := s.now + elapsed))
  {
    var s' := s.(now := s.now + elapsed);
    assert Weights(s', Tokens) == Weights(s, Tokens);
    assert Weights(s', Challenges) == Weights(s, Challenges);
  }

  lemma {:induction false} ExecuteConserves(w: World, s: Sys, actions: seq<Action>)
    requires HandlesSound(s) && AllFaithful(w, s) && Conserved(s)
    ensures Conserved(Execute(w, s, actions))
    decreases |actions|
  {
    hide HandlesSound, AllFaithful, Conserved, Step;
    if actions != [] {
      var before := actions[..|actions| - 1];
      ExecuteConserves(w, s, before);
      ExecuteSound(w, s, before);
      RunFaithful(w, s, before);
      StepConserves(w, Execute(w, s, before), actions[|actions| - 1]);
    }
  }

  /** Whether handle id of the kind is bound to a sent message and unconsumed. */
  ghost predicate Outstanding(db: Db, kind: Kind, id: nat)
  {
    id < |Rows(db, kind)| && Bound(db, kind, id) && !Rows(db, kind)[id].consumed
  }

  ghost function OutstandingHandles(db: Db, kind: Kind): (r: seq<nat>)
    ensures |r| == |Rows(db, kind)|
    ensures forall id: nat :: id < |r| ==> r[id] == if Outstanding(db, kind, id) then 1 else 0
  {
    seq(|Rows(db, kind)|, id requires 0 <= id < |Rows(db, kind)| => if Outstanding(db, kind, id) then 1 else 0)
  }

  lemma OutstandingWeigh(s: Sys, kind: Kind)
    ensures Sum(OutstandingHandles(s.db, kind)) <= Sum(Weights(s, kind))
  {
    hide Bound, SomeoneLooksUp;
    SumMonotone(OutstandingHandles(s.db, kind), Weights(s, kind));
  }

  /** The handles a peer could still redeem never outnumber the empty POSTs received. */
  lemma OutstandingAtMostEmptyPosts(w: World, now: int, signingKeys: seq<SigningKeyRow>,
                                    devices: seq<Bytes>, actions: seq<Action>)
    ensures var s := Execute(w, Initial(now, signingKeys, devices), actions);
      Sum(OutstandingHandles(s.db, Tokens)) + Sum(OutstandingHandles(s.db, Challenges)) <= Sum(EmptyPosts(s.threads))
  {
    var s0 := Initial(now, signingKeys, devices);
    InitialSound(now, signingKeys, devices);
    assert Conserved(s0);
    ExecuteConserves(w, s0, actions);
    var s := Execute(w, s0, actions);
    hide Execute, HandlesSound, AllFaithful, OutstandingHandles, Weights;
    OutstandingWeigh(s, Tokens);
    OutstandingWeigh(s, Challenges);
  }

  /** In every reached state: an accepted non-empty message has consumed a handle and found the
      message sent under it, and a request records at most one sent message, if it is not an
      empty POST only after that. */
  lemma {:induction false} OneForOne(w: World, now: int, signingKeys: seq<SigningKeyRow>, devices: seq<Bytes>,
                  actions: seq<Action>, i: nat)
    requires var s := Execute(w, Initial(now, signingKeys, devices), actions);
      i < |s.threads| && s.threads[i].req.input.Signed?
    ensures var th := Execute(w, Initial(now, signingKeys, devices), actions).threads[i];
      && (th.pc.Done? && !th.pc.outcome.Refused? && !th.pc.outcome.Panicked? ==>
            th.req.recovered.Some? && (th.req.token.Some? || th.req.challenge.Some?))
      && Bindings(th.log) <= 1
      && forall k :: 0 <= k < |th.log| && Binding(th.log[k]) ==>
           th.req.recovered.Some? && (th.req.token.Some? || th.req.challenge.Some?)
  {
    var s0 := Initial(now, signingKeys, devices);
    RunFaithful(w, s0, actions);
    var th := Execute(w, s0, actions).threads[i];
    assert Faithful(w, th);
    hide Execute;
    forall k | 0 <= k < |th.log| && Binding(th.log[k]) ensures th.req.recovered.Some? {
      assert Grounded(w, th.req, th.log[k]);
    }
  }
}
