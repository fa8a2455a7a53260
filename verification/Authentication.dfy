/**
 What it means that a request is authenticated as kid: at some moment of the run a key stored
 under kid was neither revoked nor expired, and the request's own message verified under it.
 The flag a request carries is never anything less.
 */
module Authentication {
  import opened Wrappers
  import opened Tables
  import opened Protocol
  import opened Machine
  import opened RequestFacts
  import opened Delivery

  /** In this state a live key is stored under kid, and the message verifies under it. */
  ghost predicate Vouches(w: World, s: Sys, body: Bytes, kid: Bytes)
  {
    exists a :: 0 <= a < |s.db.agents| && VouchesAt(w, s, body, kid, a)
  }

  predicate VouchesAt(w: World, s: Sys, body: Bytes, kid: Bytes, a: nat)
  {
    && a < |s.db.agents| && s.db.agents[a].kid == kid && Live(s.db.agents[a], s.now)
    && w.usable(s.db.agents[a].publicKey) && w.verifies(body, s.db.agents[a].publicKey)
  }

  /** At some moment of the run a live stored key vouched for the message. */
  ghost predicate VouchedFor(w: World, s0: Sys, actions: seq<Action>, body: Bytes, kid: Bytes)
  {
    exists k: nat :: k <= |actions| && Vouches(w, Execute(w, s0, actions[..k]), body, kid)
  }

  /** The request is authenticated, and rightly so. */
  ghost predicate Authenticated(w: World, s0: Sys, actions: seq<Action>, req: Request)
  {
    req.auth.Some? && req.input.Signed? && VouchedFor(w, s0, actions, req.input.body, req.auth.value)
  }

  ghost predicate AllRightly(w: World, s0: Sys, actions: seq<Action>, threads: seq<Thread>)
  {
    forall i :: 0 <= i < |threads| && threads[i].req.auth.Some? ==> Authenticated(w, s0, actions, threads[i].req)
  }

  // ---- one step ----

  lemma MatchVouches(w: World, now: int, db: Db, threads: seq<Thread>, req: Request, pc: MatchPc, ev: Event)
    requires req.input.Signed?
    ensures var req' := MatchStep(w, now, db, req, pc, ev).1;
      req'.auth == req.auth || (req'.auth.Some? && Vouches(w, Sys(now, db, threads), req.input.body, req'.auth.value))
  {
    hide ComponentSet, NextCounted, Envelopes, PicksUpdate, PicksQueryByToken, Dispatch, AfterAuthentication;
    if pc.Authenticate? && MatchStep(w, now, db, req, pc, ev).1.auth != req.auth {
      assert VouchesAt(w, Sys(now, db, threads), req.input.body, req.input.kid.value, ev.pick.value);
    }
  }

  lemma NextVouches(w: World, now: int, db: Db, threads: seq<Thread>, req: Request, pc: Pc, ev: Event)
    ensures var req' := Next(w, now, db, req, pc, ev).1;
      req'.auth == req.auth
      || (req'.auth.Some? && req.input.Signed? && Vouches(w, Sys(now, db, threads), req.input.body, req'.auth.value))
  {
    hide IssueStep, MatchStep, DeliverStep, ReportStep, RegisterStep, ComponentSet, PicksAgent, PicksQueryByChallenge,
         NewAgent, Vouches;
    if pc.Matching? && req.input.Signed? {
      MatchVouches(w, now, db, threads, req, pc.lookup, ev);
    }
  }

  /** A request gains authentication only in a state that vouches for it. */
  lemma AdvanceVouches(w: World, s: Sys, th: Thread, ev: Event)
    requires th.req.input == Advance(w, s.now, s.db, th, ev).1.req.input
    ensures var req' := Advance(w, s.now, s.db, th, ev).1.req;
      req'.auth == th.req.auth
      || (req'.auth.Some? && req'.input.Signed? && Vouches(w, s, req'.input.body, req'.auth.value))
  {
    hide Vouches, Next, OnStoreFault;
    if !ev.fault {
      NextVouches(w, s.now, s.db, s.threads, th.req, th.pc, ev);
    }
  }

  // ---- every run ----

  lemma VouchedStill(w: World, s0: Sys, actions: seq<Action>, last: Action, body: Bytes, kid: Bytes)
    ensures VouchedFor(w, s0, actions, body, kid) ==> VouchedFor(w, s0, actions + [last], body, kid)
    ensures Vouches(w, Execute(w, s0, actions), body, kid) ==> VouchedFor(w, s0, actions + [last], body, kid)
  {
    hide Vouches, Execute;
    assert (actions + [last])[..|actions|] == actions && actions[..|actions|] == actions;
    if VouchedFor(w, s0, actions, body, kid) {
      var k: nat :| k <= |actions| && Vouches(w, Execute(w, s0, actions[..k]), body, kid);
      assert (actions + [last])[..k] == actions[..k];
    }
  }

  lemma RunRightly(w: World, s0: Sys, actions: seq<Action>, i: nat, ev: Event)
    requires var s := Execute(w, s0, actions);
      AllFaithful(w, s) && AllRightly(w, s0, actions, s.threads) && i < |s.threads|
    ensures var s := Execute(w, s0, actions);
      AllRightly(w, s0, actions + [Run(i, ev)], Step(w, s, Run(i, ev)).threads)
  {
    var s := Execute(w, s0, actions);
    var (write, th') := Advance(w, s.now, s.db, s.threads[i], ev);
    KeepsInput(w, s.now, s.db, s.threads[i], ev);
    AdvanceVouches(w, s, s.threads[i], ev);
    var threads := s.threads[i := th'];
    hide Execute, Advance, Vouches, VouchedFor, Faithful;
    forall j | 0 <= j < |threads| && threads[j].req.auth.Some?
      ensures Authenticated(w, s0, actions + [Run(i, ev)], threads[j].req)
    {
      VouchedStill(w, s0, actions, Run(i, ev), threads[j].req.input.body, threads[j].req.auth.value);
      assert j != i ==> Authenticated(w, s0, actions, s.threads[j].req);
      assert s.threads[i].req.auth.Some? ==> Authenticated(w, s0, actions, s.threads[i].req);
    }
  }

  lemma KeepsInput(w: World, now: int, db: Db, th: Thread, ev: Event)
    requires Faithful(w, th)
    ensures Advance(w, now, db, th, ev).1.req.input == th.req.input
  {
    hide AtPc, Next, OnStoreFault, AllGrounded, Counts;
    if !ev.fault { NextKeeps(w, now, db, th.req, th.pc, th.log, ev); }
  }

  lemma ArrivalRightly(w: World, s0: Sys, actions: seq<Action>, threads: seq<Thread>, input: Input)
    requires AllRightly(w, s0, actions, threads)
    ensures AllRightly(w, s0, actions + [Arrive(input)], threads + [Launch(input)])
  {
    hide VouchedFor;
    assert Launch(input).req.auth.None?;
    hide Launch;
    var threads' := threads + [Launch(input)];
    forall j | 0 <= j < |threads'| && threads'[j].req.auth.Some?
      ensures Authenticated(w, s0, actions + [Arrive(input)], threads'[j].req)
    {
      assert Authenticated(w, s0, actions, threads[j].req);
      VouchedStill(w, s0, actions, Arrive(input), threads[j].req.input.body, threads[j].req.auth.value);
    }
  }

  lemma TickRightly(w: World, s0: Sys, actions: seq<Action>, threads: seq<Thread>, last: Action)
    requires AllRightly(w, s0, actions, threads)
    ensures AllRightly(w, s0, actions + [last], threads)
  {
    hide VouchedFor;
    forall j | 0 <= j < |threads| && threads[j].req.auth.Some?
      ensures Authenticated(w, s0, actions + [last], threads[j].req)
    {
      assert Authenticated(w, s0, actions, threads[j].req);
      VouchedStill(w, s0, actions, last, threads[j].req.input.body, threads[j].req.auth.value);
    }
  }

  lemma {:induction false} ExecuteRightly(w: World, s0: Sys, actions: seq<Action>)
    requires AllFaithful(w, s0) && AllRightly(w, s0, [], s0.threads)
    ensures AllRightly(w, s0, actions, Execute(w, s0, actions).threads)
    decreases |actions|
  {
    hide AllRightly, AllFaithful, Advance, Apply, Launch;
    if actions != [] {
      var before, last := actions[..|actions| - 1], actions[|actions| - 1];
      ExecuteRightly(w, s0, before);
      RunFaithful(w, s0, before);
      var s := Execute(w, s0, before);
      assert actions == before + [last];
      hide Execute;
      match last
      case Arrive(input) => ArrivalRightly(w, s0, before, s.threads, input);
      case Tick(_) => TickRightly(w, s0, before, s.threads, last);
      case Run(i, ev) =>
        if i < |s.threads| { RunRightly(w, s0, before, i, ev); } else { TickRightly(w, s0, before, s.threads, last); }
    }
  }

  /** In every reached state a request authenticated as kid had its message verified, at some
      moment of the run, under a key stored under kid that was then neither revoked nor
      expired; and that key is still the one stored there. */
  lemma AuthenticationIsEarned(w: World, now: int, signingKeys: seq<SigningKeyRow>, devices: seq<Bytes>,
                               actions: seq<Action>, i: nat)
    requires var s := Reached(w, now, signingKeys, devices, actions); i < |s.threads| && s.threads[i].req.auth.Some?
    ensures var s := Reached(w, now, signingKeys, devices, actions);
      var req := s.threads[i].req;
      && Authenticated(w, Initial(now, signingKeys, devices), actions, req)
      && exists a: nat :: a < |s.db.agents| && s.db.agents[a].kid == req.auth.value
           && w.verifies(req.input.body, s.db.agents[a].publicKey)
  {
    var s0 := Initial(now, signingKeys, devices);
    ExecuteRightly(w, s0, actions);
    var req := Execute(w, s0, actions).threads[i].req;
    hide Execute, Vouches;
    assert Authenticated(w, s0, actions, req);
    var k: nat :| k <= |actions| && Vouches(w, Execute(w, s0, actions[..k]), req.input.body, req.auth.value);
    VouchedKeyStays(w, s0, actions, k, req.input.body, req.auth.value);
  }

  lemma VouchedKeyStays(w: World, s0: Sys, actions: seq<Action>, k: nat, body: Bytes, kid: Bytes)
    requires k <= |actions| && Vouches(w, Execute(w, s0, actions[..k]), body, kid)
    ensures var s := Execute(w, s0, actions);
      exists a: nat :: a < |s.db.agents| && s.db.agents[a].kid == kid && w.verifies(body, s.db.agents[a].publicKey)
  {
    hide Execute;
    var earlier := Execute(w, s0, actions[..k]);
    var a: nat :| a < |earlier.db.agents| && VouchesAt(w, earlier, body, kid, a);
    ExecuteAppended(w, s0, actions[..k], actions[k..]);
    assert actions[..k] + actions[k..] == actions;
    RunExtends(w, earlier, actions[k..]);
    var s := Execute(w, s0, actions);
    assert s.db.agents[a].kid == kid && w.verifies(body, s.db.agents[a].publicKey);
  }

  /** An Update is answered to nobody else: its request verified under a stored key of that kid
      that was live at some moment, or it introduced the key of that kid itself. */
  lemma UpdatesGoToProvedKeys(w: World, now: int, signingKeys: seq<SigningKeyRow>, devices: seq<Bytes>,
                              actions: seq<Action>, i: nat)
    requires var s := Reached(w, now, signingKeys, devices, actions);
      i < |s.threads| && s.threads[i].pc.Done? && s.threads[i].pc.outcome.UpdateSent?
    ensures var s := Reached(w, now, signingKeys, devices, actions);
      var req, kid := s.threads[i].req, s.threads[i].pc.outcome.kid;
      || (req.auth == Some(kid) && Authenticated(w, Initial(now, signingKeys, devices), actions, req))
      || (req.auth.None? && Introduces(w, req, kid))
  {
    var s := Reached(w, now, signingKeys, devices, actions);
    ReachedSound(w, now, signingKeys, devices, actions);
    assert Faithful(w, s.threads[i]);
    hide Reached, Authenticated, Introduces;
    if s.threads[i].req.auth.Some? {
      AuthenticationIsEarned(w, now, signingKeys, devices, actions, i);
    }
  }
}
