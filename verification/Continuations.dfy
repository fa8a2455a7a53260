/**
 Continuations of a run, built action by action: registering a manifest, binding a message to a
 token, finding the message a Success answers, and recording what it reports.
 */
module Continuations {
  import opened Wrappers
  import opened Tables
  import opened Protocol
  import opened Machine
  import opened RequestFacts
  import opened Handles
  import opened Delivery
  import opened Holdings
  import opened Beliefs
  import opened Revocation
  import opened Footing
  import opened LateReports
  import opened Solo
  import opened Statements

  ghost predicate Reaches(w: World, s: Sys, s': Sys)
  {
    exists actions: seq<Action> :: Execute(w, s, actions) == s'
  }

  lemma ReachesSelf(w: World, s: Sys)
    ensures Reaches(w, s, s)
  {
    assert Execute(w, s, []) == s;
  }

  lemma ReachesOn(w: World, a: Sys, b: Sys, c: Sys)
    requires Reaches(w, a, b) && Reaches(w, b, c)
    ensures Reaches(w, a, c)
  {
    var first: seq<Action> :| Execute(w, a, first) == b;
    var second: seq<Action> :| Execute(w, b, second) == c;
    ExecuteAppended(w, a, first, second);
  }

  lemma ReachesByOne(w: World, s: Sys, action: Action)
    ensures Reaches(w, s, Step(w, s, action))
  {
    hide Step;
    ExecuteLast(w, s, [], action);
    assert [] + [action] == [action] && Execute(w, s, []) == s;
    assert Execute(w, s, [action]) == Step(w, s, action);
  }

  lemma ReachesStep(w: World, s: Sys, s1: Sys, action: Action)
    requires Reaches(w, s, s1)
    ensures Reaches(w, s, Step(w, s1, action))
  {
    hide Reaches, Step;
    ReachesByOne(w, s1, action);
    ReachesOn(w, s, s1, Step(w, s1, action));
  }

  lemma ReachesExtends(w: World, s: Sys, s': Sys)
    requires Reaches(w, s, s')
    ensures Extends(s.db, s'.db) && s.now <= s'.now && |s.threads| <= |s'.threads|
    ensures Grounding(w, s) ==> Grounding(w, s')
  {
    var actions: seq<Action> :| Execute(w, s, actions) == s';
    RunExtends(w, s, actions);
    hide Execute, Grounding, Extends;
    if Grounding(w, s) { ExecuteGrounding(w, s, actions); }
  }

  /** All threads but j stand where they stood. */
  predicate OthersKept(s: Sys, s': Sys, j: nat)
  {
    |s.threads| <= |s'.threads| && forall i :: 0 <= i < |s.threads| && i != j ==> s'.threads[i] == s.threads[i]
  }

  // ---- whole requests ----

  function Start(now: int, db: Db, input: Input): Config
  {
    Config(now, db, Launch(input).req, Launch(input).pc)
  }

  /** A request served while every other stands still. */
  lemma Serving(w: World, s: Sys, input: Input, c: Config) returns (s': Sys)
    requires Leads(w, Start(s.now, s.db, input), c)
    ensures Reaches(w, s, s') && s'.now == c.now && s'.db == c.db && |s'.threads| == |s.threads| + 1
    ensures s'.threads[|s.threads|].req == c.req && s'.threads[|s.threads|].pc == c.pc
    ensures forall j :: 0 <= j < |s.threads| ==> s'.threads[j] == s.threads[j]
  {
    hide Leads, Launch;
    var s1 := Step(w, s, Arrive(input));
    ReachesByOne(w, s, Arrive(input));
    assert StandsAt(s1, |s.threads|, Start(s.now, s.db, input));
    var actions := LeadsIsRun(w, s1, |s.threads|, Start(s.now, s.db, input), c);
    s' := Execute(w, s1, actions);
    assert Reaches(w, s1, s');
    hide Reaches, Execute, Step;
    ReachesOn(w, s, s1, s');
  }

  // ---- registering a manifest ----

  function Registering(digest: Bytes, signer: Bytes, component: Bytes): Input
  {
    Registration(Some([]), digest, signer, component, 0)
  }

  function NewRow(digest: Bytes, component: Bytes): ManifestRow
  {
    ManifestRow([], digest, 0, component, 0)
  }

  /** Where there is a signing key, a manifest of any digest can be registered for any component
      not known yet. */
  lemma Register(w: World, s: Sys, digest: Bytes, component: Bytes) returns (s': Sys)
    requires s.db.signingKeys != [] && !KnownComponent(s.db.manifests, component)
    ensures Reaches(w, s, s') && s'.now == s.now
    ensures s'.db == s.db.(manifests := s.db.manifests + [NewRow(digest, component)])
    ensures |s'.threads| == |s.threads| + 1 && s'.threads[..|s.threads|] == s.threads
  {
    hide Leads, Reaches, KnownComponent;
    var input := Registering(digest, s.db.signingKeys[0].kid, component);
    var start := Start(s.now, s.db, input);
    LeadsNowhere(w, start);
    LeadsRegisterKey(w, start, start, Some(0));
    LeadsRegister(w, start, start.(pc := Administering(RegisterLatest(0))), 0, None);
    s' := Serving(w, s, input,
                  Config(s.now, Apply(s.db, PutManifest(NewManifest(input, 0))), start.req, Done(Registered)));
  }

  /** There is always a component nobody has registered. */
  lemma {:induction false} UnknownComponent(manifests: seq<ManifestRow>) returns (component: Bytes)
    ensures !KnownComponent(manifests, component)
    ensures forall m :: 0 <= m < |manifests| ==> |manifests[m].component| < |component|
  {
    if manifests == [] {
      component := [0];
    } else {
      var front := UnknownComponent(manifests[..|manifests| - 1]);
      component := front + manifests[|manifests| - 1].component + [0];
      forall m | 0 <= m < |manifests| ensures |manifests[m].component| < |component| {
        if m < |manifests| - 1 { assert manifests[m] == manifests[..|manifests| - 1][m]; }
      }
    }
  }

  lemma {:induction false} LatestExists(manifests: seq<ManifestRow>, component: Bytes) returns (m: nat)
    requires KnownComponent(manifests, component)
    ensures IsLatest(manifests, component, m)
  {
    var last := |manifests| - 1;
    var front := manifests[..last];
    if KnownComponent(front, component) {
      m := LatestExists(front, component);
      if manifests[last].component == component && manifests[m].sequenceNumber < manifests[last].sequenceNumber {
        m := last;
      }
    } else {
      assert forall k :: 0 <= k < last ==> front[k].component == manifests[k].component;
      m := last;
    }
  }

  // ---- binding a message to a token ----

  /** The token is unconsumed and has a message; nothing else of interest has changed. */
  ghost predicate BoundNow(w: World, s: Sys, s': Sys, j: nat, token: Bytes)
  {
    && Reaches(w, s, s') && OthersKept(s, s', j)
    && Unconsumed(s'.db.tokens, token) && HasMessage(s'.db, token) && s'.db.signingKeys == s.db.signingKeys
  }

  lemma StepBinds(w: World, s: Sys, j: nat, token: Bytes, id: nat)
    requires j < |s.threads| && Unconsumed(s.db.tokens, token) && HasRow(s.db.tokens, id, token)
    requires s.threads[j].pc == Issuing(AddQuery(TokenHandle(token), id))
      || (s.threads[j].pc.Delivering? && s.threads[j].pc.deliver.AddUpdate?
          && s.threads[j].pc.deliver.token == token && s.threads[j].pc.deliver.id == id)
    ensures BoundNow(w, s, Step(w, s, Run(j, Choose(None, None))), j, token)
  {
    var s' := Step(w, s, Run(j, Choose(None, None)));
    ReachesByOne(w, s, Run(j, Choose(None, None)));
    hide Reaches;
    if s.threads[j].pc.Issuing? {
      assert QueryUsesToken(s'.db, |s.db.queries|, token);
    } else {
      assert UpdateUsesToken(s'.db, |s.db.updates|, token);
    }
  }

  lemma BoundLater(w: World, s: Sys, s1: Sys, s': Sys, j: nat, token: Bytes)
    requires Reaches(w, s, s1) && OthersKept(s, s1, j) && j < |s.threads| && s1.db.signingKeys == s.db.signingKeys
    requires BoundNow(w, s1, s', j, token)
    ensures BoundNow(w, s, s', j, token)
  {
    ReachesOn(w, s, s1, s');
    hide Reaches, HasMessage, Unconsumed;
  }

  lemma BindFromCheck(w: World, s: Sys, j: nat, token: Bytes) returns (s': Sys)
    requires j < |s.threads| && Unconsumed(s.db.tokens, token)
    requires s.threads[j].pc == Issuing(CheckQuery(TokenHandle(token)))
      || (s.threads[j].pc.Delivering? && s.threads[j].pc.deliver.CheckToken? && s.threads[j].pc.deliver.token == token)
    ensures BoundNow(w, s, s', j, token)
  {
    var id: nat :| id < |s.db.tokens| && s.db.tokens[id].bytes == token && !s.db.tokens[id].consumed;
    var run := Run(j, Choose(Some(id), None));
    var s1 := Step(w, s, run);
    ReachesByOne(w, s, run);
    hide Reaches, Unconsumed, BoundNow;
    assert s1.db == s.db && OthersKept(s, s1, j);
    StepBinds(w, s1, j, token, id);
    s' := Step(w, s1, Run(j, Choose(None, None)));
    BoundLater(w, s, s1, s', j, token);
  }

  lemma BindFromCheckAgent(w: World, s: Sys, j: nat, token: Bytes) returns (s': Sys)
    requires j < |s.threads| && Unconsumed(s.db.tokens, token)
    requires s.threads[j].pc.Delivering? && s.threads[j].pc.deliver.CheckAgent?
    requires s.threads[j].pc.deliver.token == token
    requires Standing(s.db, s.now, s.threads[j].pc.deliver.kid)
    ensures BoundNow(w, s, s', j, token)
  {
    var a: nat :| a < |s.db.agents| && s.db.agents[a].kid == s.threads[j].pc.deliver.kid && Live(s.db.agents[a], s.now);
    var run := Run(j, Choose(Some(a), None));
    var s1 := Step(w, s, run);
    ReachesByOne(w, s, run);
    hide Reaches, Unconsumed, BoundNow, Standing;
    assert s1.db == s.db && OthersKept(s, s1, j);
    s' := BindFromCheck(w, s1, j, token);
    BoundLater(w, s, s1, s', j, token);
  }

  /** Some manifest is picked already, or will be. */
  ghost predicate Promising(db: Db, pc: DeliverPc)
    requires pc.PickLatest?
  {
    pc.picked != [] || exists c :: 0 <= c < |pc.components| && KnownComponent(db.manifests, pc.components[c])
  }

  lemma {:induction false} BindFromPick(w: World, s: Sys, j: nat, token: Bytes) returns (s': Sys)
    requires j < |s.threads| && Unconsumed(s.db.tokens, token)
    requires s.threads[j].pc.Delivering? && s.threads[j].pc.deliver.PickLatest?
    requires s.threads[j].pc.deliver.token == token
    requires Standing(s.db, s.now, s.threads[j].pc.deliver.kid) && Promising(s.db, s.threads[j].pc.deliver)
    requires s.threads[j].pc.deliver.components != []
    ensures BoundNow(w, s, s', j, token)
    decreases |s.threads[j].pc.deliver.components|
  {
    var at := s.threads[j].pc.deliver;
    var pick := PickFor(s.db.manifests, at.components[0]);
    var run := Run(j, Choose(pick, None));
    var s1 := PickStep(w, s, j, pick);
    StillPromising(s.db, at, pick);
    hide BoundNow, Unconsumed, Standing, KnownComponent, Step, Reaches;
    if at.components[1..] == [] {
      s' := BindFromCheckAgent(w, s1, j, token);
    } else {
      s' := BindFromPick(w, s1, j, token);
    }
    BoundLater(w, s, s1, s', j, token);
  }

  lemma PickFor(manifests: seq<ManifestRow>, component: Bytes) returns (pick: Option<nat>)
    ensures PicksLatest(manifests, component, pick)
  {
    if KnownComponent(manifests, component) {
      var m := LatestExists(manifests, component);
      pick := Some(m);
    } else {
      pick := None;
    }
  }

  lemma PickStep(w: World, s: Sys, j: nat, pick: Option<nat>) returns (s1: Sys)
    requires j < |s.threads| && s.threads[j].pc.Delivering? && s.threads[j].pc.deliver.PickLatest?
    requires var at := s.threads[j].pc.deliver;
      at.components != [] && PicksLatest(s.db.manifests, at.components[0], pick)
    ensures Reaches(w, s, s1) && OthersKept(s, s1, j) && s1.db == s.db && s1.now == s.now && j < |s1.threads|
    ensures var at := s.threads[j].pc.deliver;
      s1.threads[j].pc == AfterPick(at.kid, at.token, at.components[1..],
                                    if pick.None? then at.picked else at.picked + [pick.value])
  {
    s1 := Step(w, s, Run(j, Choose(pick, None)));
    ReachesByOne(w, s, Run(j, Choose(pick, None)));
    hide Reaches, PicksLatest, AfterPick;
  }

  lemma StillPromising(db: Db, pc: DeliverPc, pick: Option<nat>)
    requires pc.PickLatest? && pc.components != [] && Promising(db, pc)
    requires PicksLatest(db.manifests, pc.components[0], pick)
    ensures var picked := if pick.None? then pc.picked else pc.picked + [pick.value];
      && (pc.components[1..] == [] ==> picked != [])
      && Promising(db, PickLatest(pc.kid, pc.token, pc.components[1..], picked))
  {
    var next := PickLatest(pc.kid, pc.token, pc.components[1..],
                           if pick.None? then pc.picked else pc.picked + [pick.value]);
    if pick.None? && pc.picked == [] {
      var c :| 0 <= c < |pc.components| && KnownComponent(db.manifests, pc.components[c]);
      assert pc.components[c] == next.components[c - 1];
    }
  }

  /** Where there is a signing key, a component to come can be made known. */
  lemma MakePromising(w: World, s: Sys, j: nat) returns (s1: Sys)
    requires j < |s.threads| && s.threads[j].pc.Delivering? && s.threads[j].pc.deliver.PickLatest?
    requires s.threads[j].pc.deliver.components != [] && s.db.signingKeys != []
    ensures Reaches(w, s, s1) && s1.now == s.now && |s1.threads| >= |s.threads|
    ensures s1.threads[..|s.threads|] == s.threads
    ensures s1.db == s.db.(manifests := s1.db.manifests) && Promising(s1.db, s.threads[j].pc.deliver)
  {
    var component := s.threads[j].pc.deliver.components[0];
    ReachesSelf(w, s);
    if KnownComponent(s.db.manifests, component) {
      s1 := s;
    } else {
      s1 := Register(w, s, [], component);
      assert s1.db.manifests[|s.db.manifests|].component == component;
    }
  }

  lemma BindFromFirstPick(w: World, s: Sys, j: nat, token: Bytes) returns (s': Sys)
    requires j < |s.threads| && Unconsumed(s.db.tokens, token)
    requires s.threads[j].pc.Delivering? && s.threads[j].pc.deliver.PickLatest?
    requires s.threads[j].pc.deliver.token == token
    requires Standing(s.db, s.now, s.threads[j].pc.deliver.kid) && s.db.signingKeys != []
    requires s.threads[j].pc.deliver.components != []
    ensures BoundNow(w, s, s', j, token)
  {
    hide BoundNow, Unconsumed, Standing, Promising, Reaches;
    var s1 := MakePromising(w, s, j);
    assert s1.threads[j] == s.threads[j] && OthersKept(s, s1, j);
    SameStanding(s.db, s1.db, s.now, s.threads[j].pc.deliver.kid);
    s' := BindFromPick(w, s1, j, token);
    BoundLater(w, s, s1, s', j, token);
  }

  lemma BindDelivering(w: World, s: Sys, j: nat, token: Bytes) returns (s': Sys)
    requires j < |s.threads| && Unconsumed(s.db.tokens, token) && MayBind(s.db, s.now, s.threads[j].pc, token)
    requires s.threads[j].pc.Delivering? && Custody(s.db, s.threads[j].req, s.threads[j].pc)
    requires s.threads[j].pc.deliver.PickLatest? ==> s.threads[j].pc.deliver.components != []
    ensures BoundNow(w, s, s', j, token)
  {
    hide BoundNow, Unconsumed, Standing, Free, Spent;
    var at := s.threads[j].pc.deliver;
    if at.PickLatest? {
      s' := BindFromFirstPick(w, s, j, token);
    } else if at.CheckAgent? {
      s' := BindFromCheckAgent(w, s, j, token);
    } else if at.CheckToken? {
      s' := BindFromCheck(w, s, j, token);
    } else {
      StepBinds(w, s, j, token, at.id);
      s' := Step(w, s, Run(j, Choose(None, None)));
    }
  }

  /** A thread that may bind a token can be let bind it. */
  lemma Bind(w: World, s: Sys, j: nat, token: Bytes) returns (s': Sys)
    requires Grounding(w, s) && j < |s.threads| && Unconsumed(s.db.tokens, token)
    requires MayBind(s.db, s.now, s.threads[j].pc, token)
    ensures BoundNow(w, s, s', j, token)
  {
    hide Grounding, Faithful, Footed, FootedTables, Remembers, UniqueKids, Recorded, TablesSound, BoundNow,
         Unconsumed, Standing, Step, Free, Spent;
    ThreadFacts(w, s, j);
    if s.threads[j].pc.Delivering? {
      if s.threads[j].pc.deliver.PickLatest? { PickHasComponents(w, s, j); }
      s' := BindDelivering(w, s, j, token);
    } else if s.threads[j].pc.issue.CheckQuery? {
      s' := BindFromCheck(w, s, j, token);
    } else {
      StepBinds(w, s, j, token, s.threads[j].pc.issue.id);
      s' := Step(w, s, Run(j, Choose(None, None)));
    }
  }

  lemma PickHasComponents(w: World, s: Sys, j: nat)
    requires j < |s.threads| && Faithful(w, s.threads[j])
    requires s.threads[j].pc.Delivering? && s.threads[j].pc.deliver.PickLatest?
    ensures s.threads[j].pc.deliver.components != []
  {
  }

  lemma SameStanding(db: Db, db': Db, now: int, kid: Bytes)
    requires db.agents == db'.agents && Standing(db, now, kid)
    ensures Standing(db', now, kid)
  {
  }

  // ---- finding the message a Success answers ----

  /** Thread i is about to look up its first report, and nothing it depends on has gone. */
  ghost predicate LooksUp(w: World, s: Sys, s': Sys, i: nat, kid: Bytes)
  {
    && Reaches(w, s, s') && i < |s'.threads| && s'.db.signingKeys == s.db.signingKeys
    && s'.threads[i].pc.Reporting? && s'.threads[i].pc.report.FindReport? && s'.threads[i].pc.report.kid == kid
    && s'.threads[i].req.input.Signed? && s'.threads[i].pc.report.n < |s'.threads[i].req.input.message.reports|
    && Counted(s'.threads[i].req.input.message.reports[s'.threads[i].pc.report.n])
  }

  /** A Success authenticated as kid, with a report to act on. */
  predicate ReadyToReport(th: Thread, kid: Bytes)
  {
    && th.req.input.Signed? && th.req.input.message.kind.KindSuccess? && th.req.auth == Some(kid)
    && HasCounted(th.req.input.message.reports)
  }

  lemma FoundDispatches(req: Request, kid: Bytes, log: seq<Write>, pc: Pc)
    requires ReadyToReport(Thread(req, pc, log), kid) && req.recovered.Some?
    ensures Dispatch(req) == Reporting(FindReport(kid, NextCounted(req.input.message.reports, 0)))
  {
  }

  lemma UpdateMatches(w: World, s: Sys, i: nat, kid: Bytes) returns (s': Sys)
    requires i < |s.threads| && ReadyToReport(s.threads[i], kid) && s.threads[i].pc == Matching(FindUpdate)
    requires s.threads[i].req.token.Some? && UpdateRecorded(s.db, s.threads[i].req.token.value)
    ensures LooksUp(w, s, s', i, kid)
  {
    var token := s.threads[i].req.token.value;
    var list := Some(Linked(s.db, token));
    assert PicksUpdate(s.db, token, list);
    var run := Run(i, Event([], None, None, list, false));
    s' := Step(w, s, run);
    ReachesByOne(w, s, run);
    var found := s.threads[i].req.(recovered := Some(SentUpdate(token, Envelopes(s.db, list.value))));
    FoundDispatches(found, kid, s.threads[i].log, s.threads[i].pc);
    hide Reaches, Dispatch, PicksUpdate, HasCounted, Envelopes, LinkedManifests;
    assert s'.threads[i].pc == Dispatch(found);
  }

  lemma LooksUpLater(w: World, s: Sys, s1: Sys, s': Sys, i: nat, kid: Bytes)
    requires Reaches(w, s, s1) && s1.db.signingKeys == s.db.signingKeys && LooksUp(w, s1, s', i, kid)
    ensures LooksUp(w, s, s', i, kid)
  {
    ReachesOn(w, s, s1, s');
    hide Reaches;
  }

  lemma QueryMatches(w: World, s: Sys, i: nat, kid: Bytes) returns (s': Sys)
    requires i < |s.threads| && ReadyToReport(s.threads[i], kid) && s.threads[i].pc == Matching(FindQuery)
    requires s.threads[i].req.token.Some? && HasMessage(s.db, s.threads[i].req.token.value)
    ensures LooksUp(w, s, s', i, kid)
  {
    var token := s.threads[i].req.token.value;
    if q: nat :| QueryUsesToken(s.db, q, token) {
      var run := Run(i, Choose(Some(q), None));
      s' := Step(w, s, run);
      ReachesByOne(w, s, run);
      var row := s.db.queries[q];
      var sent := SentQuery(TokenHandle(token), row.attestation, row.tcList);
      var found := s.threads[i].req.(recovered := Some(sent));
      FoundDispatches(found, kid, s.threads[i].log, s.threads[i].pc);
      hide Reaches, Dispatch, HasCounted, UpdateRecorded;
      assert s'.threads[i].pc == Dispatch(found);
    } else {
      var run := Run(i, Choose(None, None));
      var s1 := Step(w, s, run);
      ReachesByOne(w, s, run);
      hide Reaches, Dispatch, HasCounted, UpdateRecorded, LooksUp;
      assert s1.threads[i].pc == Matching(FindUpdate) && s1.threads[i].req == s.threads[i].req && s1.db == s.db;
      s' := UpdateMatches(w, s1, i, kid);
      LooksUpLater(w, s, s1, s', i, kid);
    }
  }

  lemma ConsumeMatches(w: World, s: Sys, i: nat, kid: Bytes) returns (s': Sys)
    requires i < |s.threads| && ReadyToReport(s.threads[i], kid) && s.threads[i].pc == Matching(ConsumeToken)
    requires s.threads[i].req.input.message.token.Some?
    requires Unconsumed(s.db.tokens, s.threads[i].req.input.message.token.value)
    requires HasMessage(s.db, s.threads[i].req.input.message.token.value)
    ensures LooksUp(w, s, s', i, kid)
  {
    var token := s.threads[i].req.input.message.token.value;
    var run := Run(i, Choose(None, None));
    var s1 := Step(w, s, run);
    ReachesByOne(w, s, run);
    assert s1.threads[i].pc == Matching(FindQuery) && s1.threads[i].req == s.threads[i].req.(token := Some(token))
      && s1.db == Apply(s.db, UseToken(token));
    hide Step, Reaches, HasCounted, LooksUp;
    MessageStays(s.db, UseToken(token), token);
    SameKeysAfter(s.db, UseToken(token));
    hide Apply, HasMessage;
    s' := QueryMatches(w, s1, i, kid);
    LooksUpLater(w, s, s1, s', i, kid);
  }

  lemma MessageStays(db: Db, write: Write, token: Bytes)
    requires HasMessage(db, token)
    ensures HasMessage(Apply(db, write), token)
  {
    ApplyExtends(db, write);
    if q: nat :| QueryUsesToken(db, q, token) {
      assert QueryUsesToken(Apply(db, write), q, token);
    } else {
      UpdateRecordedKept(db, write, token);
    }
  }

  lemma SameKeysAfter(db: Db, write: Write)
    ensures Apply(db, write).signingKeys == db.signingKeys
  {
  }

  /** A token not issued yet can be issued to an empty POST. */
  lemma Issue(w: World, s: Sys, token: Bytes) returns (s': Sys)
    requires |token| == 32 && !Issued(s.db.tokens, token)
    ensures Reaches(w, s, s') && |s'.threads| == |s.threads| + 1 && s'.threads[..|s.threads|] == s.threads
    ensures s'.db.signingKeys == s.db.signingKeys && Unconsumed(s'.db.tokens, token)
    ensures s'.threads[|s.threads|].pc == Issuing(CheckQuery(TokenHandle(token)))
  {
    var n := |s.threads|;
    ReachesSelf(w, s);
    hide Reaches;
    var s1 := Step(w, s, Arrive(EmptyBody));
    ReachesStep(w, s, s, Arrive(EmptyBody));
    var draw, none := Event(token, None, None, None, false), Choose(None, None);
    var s2 := Step(w, s1, Run(n, draw));
    ReachesStep(w, s, s1, Run(n, draw));
    assert s2.db == s.db && s2.threads == s.threads + [s1.threads[n].(pc := Issuing(AddToken(token, AskTcList)))];
    s' := Step(w, s2, Run(n, none));
    ReachesStep(w, s, s2, Run(n, none));
    assert s'.db.tokens[|s.db.tokens|] == HandleRow(token, false);
  }

  lemma ConsumeOpen(w: World, s: Sys, i: nat, kid: Bytes) returns (s': Sys)
    requires Grounding(w, s) && i < |s.threads| && ReadyToReport(s.threads[i], kid)
    requires s.threads[i].pc == Matching(ConsumeToken) && s.threads[i].req.input.message.token.Some?
    requires TokenOpen(s, s.threads[i].req.input.message.token.value)
    ensures LooksUp(w, s, s', i, kid)
  {
    hide Grounding, HasMessage, Unconsumed, Issued, LooksUp, HasCounted, Reaches, MayBind;
    var token := s.threads[i].req.input.message.token.value;
    if Issued(s.db.tokens, token) || |token| != 32 {
      if HasMessage(s.db, token) {
        s' := ConsumeMatches(w, s, i, kid);
      } else {
        var j :| 0 <= j < |s.threads| && MayBind(s.db, s.now, s.threads[j].pc, token);
        MatchersOwnNothing(s.db, s.now, s.threads[i].pc, token);
        var s1 := Bind(w, s, j, token);
        s' := ConsumeMatches(w, s1, i, kid);
        LooksUpLater(w, s, s1, s', i, kid);
      }
    } else {
      var s1 := Issue(w, s, token);
      ReachesExtends(w, s, s1);
      OwnersMayBind(s1, |s.threads|, token);
      var s2 := Bind(w, s1, |s.threads|, token);
      assert s2.threads[i] == s1.threads[i] == s.threads[i];
      var s3 := ConsumeMatches(w, s2, i, kid);
      LooksUpLater(w, s1, s2, s3, i, kid);
      LooksUpLater(w, s, s1, s3, i, kid);
      s' := s3;
    }
  }

  lemma MatchersOwnNothing(db: Db, now: int, pc: Pc, token: Bytes)
    ensures pc.Matching? ==> !MayBind(db, now, pc, token)
  {
  }

  lemma OwnersMayBind(s: Sys, j: nat, token: Bytes)
    requires j < |s.threads| && s.threads[j].pc == Issuing(CheckQuery(TokenHandle(token)))
    ensures MayBind(s.db, s.now, s.threads[j].pc, token)
  {
  }

  lemma BindQuery(w: World, s: Sys, j: nat, token: Bytes) returns (s': Sys)
    requires j < |s.threads| && AboutToBindQuery(s.threads[j].pc, token)
    requires HasRow(s.db.tokens, s.threads[j].pc.issue.id, token)
    ensures Reaches(w, s, s') && OthersKept(s, s', j) && s'.db.signingKeys == s.db.signingKeys
    ensures HasMessage(s'.db, token)
  {
    s' := Step(w, s, Run(j, Choose(None, None)));
    ReachesByOne(w, s, Run(j, Choose(None, None)));
    hide Reaches;
    assert QueryUsesToken(s'.db, |s.db.queries|, token);
  }

  lemma BindUpdate(w: World, s: Sys, j: nat, token: Bytes) returns (s': Sys)
    requires j < |s.threads| && AboutToBindUpdate(s.threads[j].pc, token)
    requires HasRow(s.db.tokens, s.threads[j].pc.deliver.id, token)
    ensures Reaches(w, s, s') && OthersKept(s, s', j) && s'.db.signingKeys == s.db.signingKeys
    ensures UpdateRecorded(s'.db, token)
  {
    s' := Step(w, s, Run(j, Choose(None, None)));
    ReachesByOne(w, s, Run(j, Choose(None, None)));
    hide Reaches;
    assert UpdateUsesToken(s'.db, |s.db.updates|, token);
  }

  /** A thread about to bind the token binds it, even a spent one. */
  lemma BindAbout(w: World, s: Sys, j: nat, token: Bytes) returns (s': Sys)
    requires Grounding(w, s) && j < |s.threads|
    requires AboutToBindQuery(s.threads[j].pc, token) || AboutToBindUpdate(s.threads[j].pc, token)
    ensures Reaches(w, s, s') && OthersKept(s, s', j) && s'.db.signingKeys == s.db.signingKeys
    ensures HasMessage(s'.db, token)
    ensures AboutToBindUpdate(s.threads[j].pc, token) ==> UpdateRecorded(s'.db, token)
  {
    hide Grounding, Faithful, Footed, FootedTables, Remembers, UniqueKids, Recorded, TablesSound, Free, Spent, Reaches,
         UpdateRecorded, OthersKept;
    ThreadFacts(w, s, j);
    if AboutToBindQuery(s.threads[j].pc, token) {
      s' := BindQuery(w, s, j, token);
    } else {
      s' := BindUpdate(w, s, j, token);
    }
  }

  lemma Ahead(w: World, s: Sys, i: nat, kid: Bytes) returns (s': Sys)
    requires Grounding(w, s) && i < |s.threads| && ReadyToReport(s.threads[i], kid) && s.threads[i].req.token.Some?
    requires (s.threads[i].pc == Matching(FindQuery) && QueryAhead(s, s.threads[i].req.token.value))
      || (s.threads[i].pc == Matching(FindUpdate) && UpdateAhead(s, s.threads[i].req.token.value))
    ensures LooksUp(w, s, s', i, kid)
  {
    hide Grounding, HasMessage, UpdateRecorded, LooksUp, HasCounted, Reaches;
    var token := s.threads[i].req.token.value;
    var querying := s.threads[i].pc == Matching(FindQuery);
    var s1 := s;
    ReachesSelf(w, s);
    if !(if querying then HasMessage(s.db, token) else UpdateRecorded(s.db, token)) {
      var j :| 0 <= j < |s.threads| && (AboutToBindUpdate(s.threads[j].pc, token)
        || (querying && AboutToBindQuery(s.threads[j].pc, token)));
      s1 := BindAbout(w, s, j, token);
      assert s1.threads[i] == s.threads[i];
    }
    if querying {
      s' := QueryMatches(w, s1, i, kid);
    } else {
      s' := UpdateMatches(w, s1, i, kid);
    }
    LooksUpLater(w, s, s1, s', i, kid);
  }

  // ---- recording what is reported ----

  lemma ReflectAbout(w: World, s: Sys, i: nat, kid: Bytes, a: nat)
    requires Grounding(w, s) && i < |s.threads| && a < |s.db.agents| && s.db.agents[a].kid == kid
    requires s.threads[i].pc.Reporting? && s.threads[i].pc.report.Reflect? && s.threads[i].pc.report.kid == kid
    ensures var at := s.threads[i].pc.report;
      at.agent == a && !HoldCollides(s.db, a, at.manifest, at.component)
  {
    hide Faithful, Custody, Recorded, TablesSound, Footed, FootedTables, Grounding;
    var at := s.threads[i].pc.report;
    ThreadFacts(w, s, i);
    assert at.agent == a;
    hide UniqueKids, Remembers;
    HoldNeverCollides(s.db, at.agent, at.manifest, at.component);
  }

  /** A thread that has read the rows of a report records the holding. */
  lemma ReflectLands(w: World, s: Sys, i: nat, kid: Bytes, a: nat) returns (s': Sys)
    requires Grounding(w, s) && i < |s.threads| && a < |s.db.agents| && s.db.agents[a].kid == kid
    requires s.threads[i].pc.Reporting? && s.threads[i].pc.report.Reflect? && s.threads[i].pc.report.kid == kid
    ensures Reaches(w, s, s') && |s'.db.holdings| == |s.db.holdings| + 1 && s'.db.holdings[|s.db.holdings|].agent == a
  {
    hide Reaches, Grounding, HoldCollides, NextCounted, Faithful, Counted;
    ReflectAbout(w, s, i, kid, a);
    ThreadFacts(w, s, i);
    ReportingIsAt(w, s.threads[i]);
    hide Custody, Recorded, TablesSound, Footed, FootedTables, UniqueKids, Remembers;
    var run := Run(i, Choose(None, None));
    s' := Step(w, s, run);
    ReachesByOne(w, s, run);
  }

  lemma KnownReportLands(w: World, s: Sys, i: nat, kid: Bytes, a: nat, m: nat) returns (s': Sys)
    requires Grounding(w, s) && LooksUp(w, s, s, i, kid) && a < |s.db.agents| && s.db.agents[a].kid == kid
    requires var th := s.threads[i];
      m < |s.db.manifests| && s.db.manifests[m].digest == DigestKey(th.req.input.message.reports[th.pc.report.n])
    ensures Reaches(w, s, s') && |s'.db.holdings| == |s.db.holdings| + 1 && s'.db.holdings[|s.db.holdings|].agent == a
  {
    hide Reaches, DigestKey, NextCounted, Counted, Grounding;
    var run := Run(i, Choose(Some(a), Some(m)));
    var s1 := Step(w, s, run);
    ReachesByOne(w, s, run);
    assert s1.db == s.db && s1.threads[i].pc
      == Reporting(Reflect(kid, s.threads[i].pc.report.n, a, m, s.db.manifests[m].component));
    ReachesExtends(w, s, s1);
    hide Step, Extends;
    s' := ReflectLands(w, s1, i, kid, a);
    ReachesOn(w, s, s1, s');
  }

  lemma ReportLands(w: World, s: Sys, i: nat, kid: Bytes, a: nat) returns (s': Sys)
    requires Grounding(w, s) && LooksUp(w, s, s, i, kid) && a < |s.db.agents| && s.db.agents[a].kid == kid
    requires s.db.signingKeys != []
    ensures Reaches(w, s, s') && |s'.db.holdings| == |s.db.holdings| + 1 && s'.db.holdings[|s.db.holdings|].agent == a
  {
    hide Reaches, DigestKey, Counted, Grounding, KnownComponent;
    var digest := DigestKey(s.threads[i].req.input.message.reports[s.threads[i].pc.report.n]);
    if m: nat :| m < |s.db.manifests| && s.db.manifests[m].digest == digest {
      s' := KnownReportLands(w, s, i, kid, a, m);
    } else {
      var component := UnknownComponent(s.db.manifests);
      var s1 := Register(w, s, digest, component);
      ReachesExtends(w, s, s1);
      ReachesSelf(w, s1);
      assert s1.threads[i] == s.threads[i];
      assert s1.db.manifests[|s.db.manifests|].digest == digest;
      s' := KnownReportLands(w, s1, i, kid, a, |s.db.manifests|);
      ReachesOn(w, s, s1, s');
    }
  }

  /** Whoever may still report can come to look a report up, or has read its rows. */
  lemma MayLookUp(w: World, s: Sys, i: nat, kid: Bytes) returns (s': Sys)
    requires Grounding(w, s) && i < |s.threads| && MayStillReport(s, s.threads[i], kid)
    requires !(s.threads[i].pc.Reporting? && s.threads[i].pc.report.Reflect?)
    ensures LooksUp(w, s, s', i, kid) && s.db.signingKeys != []
  {
    hide Grounding, Reaches, LooksUp, HasCounted, TokenOpen, QueryAhead, UpdateAhead;
    if s.threads[i].pc.Reporting? {
      s' := s;
      LooksUpNow(w, s, i, kid);
    } else if s.threads[i].pc.lookup.ConsumeToken? {
      s' := ConsumeOpen(w, s, i, kid);
    } else {
      s' := Ahead(w, s, i, kid);
    }
  }

  lemma LooksUpNow(w: World, s: Sys, i: nat, kid: Bytes)
    requires Grounding(w, s) && i < |s.threads| && s.threads[i].req.auth == Some(kid)
    requires s.threads[i].pc.Reporting? && s.threads[i].pc.report.FindReport?
    ensures LooksUp(w, s, s, i, kid)
  {
    hide Grounding, Faithful, Custody, Recorded, TablesSound, Footed, FootedTables, UniqueKids, Remembers, Reaches,
         Counted;
    ThreadFacts(w, s, i);
    ReportingIsAt(w, s.threads[i]);
    ReachesSelf(w, s);
  }

  lemma ReportingIsAt(w: World, th: Thread)
    requires Faithful(w, th) && th.pc.Reporting?
    ensures th.req.auth == Some(th.pc.report.kid) && th.req.input.Signed?
    ensures th.pc.report.n < |th.req.input.message.reports| && Counted(th.req.input.message.reports[th.pc.report.n])
  {
    hide Counted, AllGrounded;
  }

  /** Whoever may still report can still record a holding of the agent. */
  lemma MayStillReportLands(w: World, s: Sys, i: nat, kid: Bytes, a: nat) returns (s': Sys)
    requires Grounding(w, s) && i < |s.threads| && MayStillReport(s, s.threads[i], kid)
    requires a < |s.db.agents| && s.db.agents[a].kid == kid
    ensures Reaches(w, s, s') && !NothingHeldSince(s, s', a)
  {
    hide Grounding, Reaches, Extends;
    if s.threads[i].pc.Reporting? && s.threads[i].pc.report.Reflect? {
      ThreadFacts(w, s, i);
      ReportingIsAt(w, s.threads[i]);
      hide MayStillReport, Faithful, Custody, Recorded, TablesSound, Footed, FootedTables, UniqueKids, Remembers;
      s' := ReflectLands(w, s, i, kid, a);
    } else {
      var s1 := MayLookUp(w, s, i, kid);
      hide MayStillReport;
      ReachesExtends(w, s, s1);
      AgentStays(s.db, s1.db, a);
      OldHoldingsStay(s.db, s1.db);
      ReachesSelf(w, s1);
      s' := ReportLands(w, s1, i, kid, a);
      ReachesOn(w, s, s1, s');
    }
  }

  // ---- exactly ----

  /** Once kid is revoked or expired, no continuation whatever records another holding of its
      agent if and only if no request may still report as kid. */
  lemma NoHoldingForDeadKey(w: World, now: int, signingKeys: seq<SigningKeyRow>, devices: seq<Bytes>,
                            past: seq<Action>, kid: Bytes, a: nat)
    requires var s := Reached(w, now, signingKeys, devices, past);
      Dead(s.db, s.now, kid) && a < |s.db.agents| && s.db.agents[a].kid == kid
    ensures var s := Reached(w, now, signingKeys, devices, past);
      (forall actions: seq<Action> :: NothingHeldSince(s, Execute(w, s, actions), a)) <==> Closed(s, kid)
  {
    var s := Reached(w, now, signingKeys, devices, past);
    ReachedGrounding(w, now, signingKeys, devices, past);
    hide Reached, Grounding, MayStillReport, Dead, NothingHeldSince, Believed;
    if Closed(s, kid) {
      NothingYet(s, a);
      forall actions: seq<Action> ensures NothingHeldSince(s, Execute(w, s, actions), a) {
        ExecuteStaysQuiet(w, s, actions, kid, a);
      }
    } else {
      var i :| 0 <= i < |s.threads| && MayStillReport(s, s.threads[i], kid);
      var s' := MayStillReportLands(w, s, i, kid, a);
      var actions: seq<Action> :| Execute(w, s, actions) == s';
      assert !NothingHeldSince(s, Execute(w, s, actions), a);
    }
  }

  lemma NothingYet(s: Sys, a: nat)
    ensures NothingHeldSince(s, s, a)
  {
  }

  /** And then no continuation, re-attestation with the same key included, changes what the
      agent is believed to hold, or its key, or its expiry. */
  lemma DeadKeyHoldsStill(w: World, now: int, signingKeys: seq<SigningKeyRow>, devices: seq<Bytes>,
                          past: seq<Action>, actions: seq<Action>, kid: Bytes, a: nat)
    requires var s := Reached(w, now, signingKeys, devices, past);
      Dead(s.db, s.now, kid) && Closed(s, kid) && a < |s.db.agents| && s.db.agents[a].kid == kid
    ensures var s := Reached(w, now, signingKeys, devices, past);
      var s' := Execute(w, s, actions);
      && Believed(s'.db, a) == Believed(s.db, a)
      && Dead(s'.db, s'.now, kid)
      && a < |s'.db.agents| && s'.db.agents[a].(revokedAt := None) == s.db.agents[a].(revokedAt := None)
  {
    var s := Reached(w, now, signingKeys, devices, past);
    ReachedGrounding(w, now, signingKeys, devices, past);
    NothingYet(s, a);
    hide Reached, Grounding, Dead, Closed, Believed, NothingHeldSince;
    ExecuteStaysQuiet(w, s, actions, kid, a);
    RunExtends(w, s, actions);
    hide Execute;
  }

  lemma TwoStepsLand(w: World, s: Sys, i: nat, a: nat, m: nat)
    requires OneActive(s.db) && i < |s.threads| && a < |s.db.agents| && m < |s.db.manifests|
    requires s.threads[i].req.input.Signed? && s.threads[i].pc.Reporting? && s.threads[i].pc.report.FindReport?
    requires s.db.agents[a].kid == s.threads[i].pc.report.kid
    requires s.threads[i].pc.report.n < |s.threads[i].req.input.message.reports|
    requires Counted(s.threads[i].req.input.message.reports[s.threads[i].pc.report.n])
    requires s.db.manifests[m].digest == DigestKey(s.threads[i].req.input.message.reports[s.threads[i].pc.report.n])
    ensures var s' := Execute(w, s, [Run(i, Choose(Some(a), Some(m))), Run(i, Choose(None, None))]);
      Believed(s'.db, a) == Believed(s.db, a)[s.db.manifests[m].component := m]
  {
    var first, second := Run(i, Choose(Some(a), Some(m))), Run(i, Choose(None, None));
    var th := s.threads[i];
    var component := s.db.manifests[m].component;
    var s1 := Step(w, s, first);
    hide DigestKey, Counted, NextCounted, Believed, OneActive;
    assert s1.db == s.db && s1.now == s.now && s1.threads[i].req == th.req
      && s1.threads[i].pc == Reporting(Reflect(th.pc.report.kid, th.pc.report.n, a, m, component));
    HoldNeverCollides(s.db, a, m, component);
    hide HoldCollides;
    var hold := Hold(a, m, component, WholeSeconds(s.now), th.req.input.message.reports[th.pc.report.n].raw);
    assert Step(w, s1, second).db == Apply(s.db, hold);
    hide Step, Apply;
    HoldReplaces(s.db, hold, a);
    ExecuteFirst(w, s, first, [second]);
    ExecuteLast(w, s1, [], second);
    assert [first] + [second] == [first, second] && [] + [second] == [second] && Execute(w, s1, []) == s1;
  }

  /** The exception is real and takes two steps: in a reached state in which kid is dead, a
      Success that has only come to look up a report about a known manifest still has it
      recorded, and the belief about its component replaced. */
  lemma LateReportStillLands(w: World, now: int, signingKeys: seq<SigningKeyRow>, devices: seq<Bytes>,
                             past: seq<Action>, i: nat, a: nat, m: nat)
    requires var s := Reached(w, now, signingKeys, devices, past);
      && i < |s.threads| && s.threads[i].pc.Reporting? && s.threads[i].pc.report.FindReport?
      && s.threads[i].req.input.Signed? && s.threads[i].pc.report.n < |s.threads[i].req.input.message.reports|
      && Dead(s.db, s.now, s.threads[i].pc.report.kid)
      && a < |s.db.agents| && s.db.agents[a].kid == s.threads[i].pc.report.kid
      && m < |s.db.manifests| && Counted(s.threads[i].req.input.message.reports[s.threads[i].pc.report.n])
      && s.db.manifests[m].digest == DigestKey(s.threads[i].req.input.message.reports[s.threads[i].pc.report.n])
    ensures var s := Reached(w, now, signingKeys, devices, past);
      var s' := Execute(w, s, [Run(i, Choose(Some(a), Some(m))), Run(i, Choose(None, None))]);
      Believed(s'.db, a) == Believed(s.db, a)[s.db.manifests[m].component := m]
  {
    var s := Reached(w, now, signingKeys, devices, past);
    ReachedGrounding(w, now, signingKeys, devices, past);
    ThreadFacts(w, s, i);
    ReportingIsAt(w, s.threads[i]);
    OneActiveNow(w, s);
    hide Reached, Grounding, Faithful, Custody, Recorded, TablesSound, Footed, FootedTables, UniqueKids, Remembers,
         Dead, OneActive;
    TwoStepsLand(w, s, i, a, m);
  }
}
