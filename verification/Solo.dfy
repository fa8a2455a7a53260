/**
 One request run to completion with nobody else moving, as a special case of the interleaved
 machine: what the sequential program does statement by statement.
 */
module Solo {
  import opened Tables
  import opened Protocol
  import opened Machine

  /** The time, the store, and the one request being handled. */
  datatype Config = Config(now: int, db: Db, req: Request, pc: Pc)

  /** Time passes, then the pending statement is executed. */
  datatype Tock = Tock(elapsed: nat, event: Event)

  predicate Drawing(pc: Pc)
  {
    pc.Issuing? && (pc.issue.DrawToken? || pc.issue.DrawChallenge?)
  }

  /** Alone, nothing fails but the random source. */
  function Undisturbed(pc: Pc, event: Event): Event
  {
    if Drawing(pc) then event else event.(fault := false)
  }

  ghost function SoloStep(w: World, c: Config, tock: Tock): Config
  {
    var now := c.now + tock.elapsed;
    var (write, th) := Advance(w, now, c.db, Thread(c.req, c.pc, []), Undisturbed(c.pc, tock.event));
    Config(now, Apply(c.db, write), th.req, th.pc)
  }

  ghost function SoloRun(w: World, c: Config, tocks: seq<Tock>): Config
    decreases |tocks|
  {
    if tocks == [] then c else SoloStep(w, SoloRun(w, c, tocks[..|tocks| - 1]), tocks[|tocks| - 1])
  }

  /** Some sequence of undisturbed steps takes the one configuration to the other. */
  ghost predicate Leads(w: World, c: Config, c': Config)
  {
    exists tocks: seq<Tock> :: SoloRun(w, c, tocks) == c'
  }

  lemma LeadsNowhere(w: World, c: Config)
    ensures Leads(w, c, c)
  {
    assert SoloRun(w, c, []) == c;
  }

  lemma LeadsOn(w: World, a: Config, b: Config, tock: Tock)
    requires Leads(w, a, b)
    ensures Leads(w, a, SoloStep(w, b, tock))
  {
    hide SoloStep;
    var tocks: seq<Tock> :| SoloRun(w, a, tocks) == b;
    assert (tocks + [tock])[..|tocks|] == tocks;
    assert SoloRun(w, a, tocks + [tock]) == SoloStep(w, b, tock);
  }

  lemma {:induction false} LeadsFurther(w: World, a: Config, b: Config, tocks: seq<Tock>)
    requires Leads(w, a, b)
    ensures Leads(w, a, SoloRun(w, b, tocks))
    decreases |tocks|
  {
    hide SoloStep;
    if tocks != [] {
      LeadsFurther(w, a, b, tocks[..|tocks| - 1]);
      LeadsOn(w, a, SoloRun(w, b, tocks[..|tocks| - 1]), tocks[|tocks| - 1]);
    }
  }

  lemma LeadsTransitive(w: World, a: Config, b: Config, c: Config)
    requires Leads(w, a, b) && Leads(w, b, c)
    ensures Leads(w, a, c)
  {
    var tocks: seq<Tock> :| SoloRun(w, b, tocks) == c;
    hide SoloRun;
    LeadsFurther(w, a, b, tocks);
  }

  lemma NextKeepsInput(w: World, now: int, db: Db, req: Request, pc: Pc, ev: Event)
    ensures Next(w, now, db, req, pc, ev).1.input == req.input
  {
    hide ComponentSet, NextCounted, Envelopes, PicksAgent, PicksQueryByToken, PicksUpdate, PicksQueryByChallenge,
         Dispatch, AfterAuthentication, IssueStep, DeliverStep, ReportStep, RegisterStep;
  }

  lemma {:induction false} SoloRunKeepsInput(w: World, c: Config, tocks: seq<Tock>)
    ensures SoloRun(w, c, tocks).req.input == c.req.input
    decreases |tocks|
  {
    if tocks != [] {
      var before, last := SoloRun(w, c, tocks[..|tocks| - 1]), tocks[|tocks| - 1];
      SoloRunKeepsInput(w, c, tocks[..|tocks| - 1]);
      NextKeepsInput(w, before.now + last.elapsed, before.db, before.req, before.pc,
                     Undisturbed(before.pc, last.event));
      hide Next, OnStoreFault;
    }
  }

  lemma LeadsKeepsInput(w: World, c: Config, c': Config)
    requires Leads(w, c, c')
    ensures c'.req.input == c.req.input
  {
    var tocks: seq<Tock> :| SoloRun(w, c, tocks) == c';
    hide SoloRun;
    SoloRunKeepsInput(w, c, tocks);
  }

  // ---- solo runs are runs of the system ----

  /** Thread i of the system stands where the configuration says. */
  predicate StandsAt(s: Sys, i: nat, c: Config)
  {
    i < |s.threads| && s.now == c.now && s.db == c.db && s.threads[i].req == c.req && s.threads[i].pc == c.pc
  }

  lemma SoloStepIsRun(w: World, s: Sys, i: nat, c: Config, tock: Tock)
    requires StandsAt(s, i, c)
    ensures var s' := Step(w, Step(w, s, Tick(tock.elapsed)), Run(i, Undisturbed(c.pc, tock.event)));
      && StandsAt(s', i, SoloStep(w, c, tock)) && |s'.threads| == |s.threads|
      && forall j :: 0 <= j < |s.threads| && j != i ==> s'.threads[j] == s.threads[j]
  {
    hide Next, OnStoreFault, Apply;
  }

  lemma {:induction false} SoloRunIsRun(w: World, s: Sys, i: nat, c: Config, tocks: seq<Tock>)
    returns (actions: seq<Action>)
    requires StandsAt(s, i, c)
    ensures var s' := Execute(w, s, actions);
      && StandsAt(s', i, SoloRun(w, c, tocks)) && |s'.threads| == |s.threads|
      && forall j :: 0 <= j < |s.threads| && j != i ==> s'.threads[j] == s.threads[j]
    decreases |tocks|
  {
    hide SoloStep, Step;
    actions := [];
    if tocks != [] {
      var last := tocks[|tocks| - 1];
      var before := SoloRun(w, c, tocks[..|tocks| - 1]);
      var run := Run(i, Undisturbed(before.pc, last.event));
      actions := SoloRunIsRun(w, s, i, c, tocks[..|tocks| - 1]);
      SoloStepIsRun(w, Execute(w, s, actions), i, before, last);
      ExecuteLast(w, s, actions, Tick(last.elapsed));
      ExecuteLast(w, s, actions + [Tick(last.elapsed)], run);
      actions := actions + [Tick(last.elapsed)] + [run];
    }
  }

  /** Whatever a request does alone, it does in a run of the whole system in which every other
      thread stays where it is. */
  lemma LeadsIsRun(w: World, s: Sys, i: nat, c: Config, c': Config) returns (actions: seq<Action>)
    requires StandsAt(s, i, c) && Leads(w, c, c')
    ensures var s' := Execute(w, s, actions);
      && StandsAt(s', i, c') && |s'.threads| == |s.threads|
      && forall j :: 0 <= j < |s.threads| && j != i ==> s'.threads[j] == s.threads[j]
  {
    var tocks: seq<Tock> :| SoloRun(w, c, tocks) == c';
    hide SoloRun;
    actions := SoloRunIsRun(w, s, i, c, tocks);
  }
}
