/**
 The manifest registry: per component a stream of growing sequence numbers under one signing
 key, as long as no two registrations of the component overlap between check and insert.
 */
module Registry {
  import opened Wrappers
  import opened Tables
  import opened Protocol
  import opened Machine
  import opened RequestFacts

  /** The rows of a component, in insertion order, have strictly growing sequence numbers and
      one signing key. */
  ghost predicate OrderedStreams(manifests: seq<ManifestRow>)
  {
    forall i, j :: 0 <= i < j < |manifests| && manifests[i].component == manifests[j].component ==>
      manifests[i].sequenceNumber < manifests[j].sequenceNumber && manifests[i].signingKey == manifests[j].signingKey
  }

  /** The row is newer than every stored row of its component, and under the same key. */
  ghost predicate Fresh(manifests: seq<ManifestRow>, row: ManifestRow)
  {
    forall k :: 0 <= k < |manifests| && manifests[k].component == row.component ==>
      manifests[k].sequenceNumber < row.sequenceNumber && manifests[k].signingKey == row.signingKey
  }

  ghost predicate NonNegative(manifests: seq<ManifestRow>)
  {
    forall k :: 0 <= k < |manifests| ==> 0 <= manifests[k].sequenceNumber < MAX_INT64
  }

  /** Inserting a row keeps the streams exactly when the row is fresh. */
  lemma InsertKeepsStreamsIffFresh(manifests: seq<ManifestRow>, row: ManifestRow)
    ensures OrderedStreams(manifests + [row]) <==> OrderedStreams(manifests) && Fresh(manifests, row)
  {
    var after := manifests + [row];
    assert forall k :: 0 <= k < |manifests| ==> after[k] == manifests[k];
    if OrderedStreams(after) {
      forall k | 0 <= k < |manifests| && manifests[k].component == row.component
        ensures manifests[k].sequenceNumber < row.sequenceNumber && manifests[k].signingKey == row.signingKey
      {
        assert after[k].component == after[|manifests|].component;
      }
      forall i, j | 0 <= i < j < |manifests| && manifests[i].component == manifests[j].component
        ensures manifests[i].sequenceNumber < manifests[j].sequenceNumber
        ensures manifests[i].signingKey == manifests[j].signingKey
      {
        assert after[i].component == after[j].component;
      }
    }
  }

  // ---- one registration at a time ----

  predicate Inserting(th: Thread)
  {
    th.pc.Administering? && th.pc.admin.RegisterInsert? && th.req.input.Registration? && th.req.input.envelope.Some?
  }

  /** No two registrations of one component are both between their check and their insert. */
  ghost predicate Serial(threads: seq<Thread>)
  {
    forall i, j :: 0 <= i < j < |threads| && Inserting(threads[i]) && Inserting(threads[j]) ==>
      threads[i].req.input.component != threads[j].req.input.component
  }

  ghost predicate SerialRun(w: World, s: Sys, actions: seq<Action>)
    decreases |actions|
  {
    Serial(Execute(w, s, actions).threads) && (actions == [] || SerialRun(w, s, actions[..|actions| - 1]))
  }

  function RowOf(th: Thread): ManifestRow
    requires Inserting(th)
  {
    NewManifest(th.req.input, th.pc.admin.key)
  }

  ghost predicate RegistrySound(s: Sys)
  {
    && OrderedStreams(s.db.manifests) && NonNegative(s.db.manifests)
    && forall i :: 0 <= i < |s.threads| && Inserting(s.threads[i]) ==> Fresh(s.db.manifests, RowOf(s.threads[i]))
  }

  /** Passing the check against the latest row makes the row to insert fresh. */
  lemma CheckMakesFresh(db: Db, input: Input, key: nat, ev: Event)
    requires input.Registration? && input.envelope.Some?
    requires OrderedStreams(db.manifests) && NonNegative(db.manifests)
    ensures var (write, pc') := RegisterStep(db, input, RegisterLatest(key), ev);
      && write.Nothing?
      && (pc'.Administering? && pc'.admin.RegisterInsert? ==> Fresh(db.manifests, NewManifest(input, pc'.admin.key)))
  {
    var (write, pc') := RegisterStep(db, input, RegisterLatest(key), ev);
    if pc'.Administering? && pc'.admin.RegisterInsert? {
      var row := NewManifest(input, key);
      forall k | 0 <= k < |db.manifests| && db.manifests[k].component == row.component
        ensures db.manifests[k].sequenceNumber < row.sequenceNumber && db.manifests[k].signingKey == row.signingKey
      {
        var m := ev.pick.value;
        assert IsLatest(db.manifests, input.component, m);
        assert k == m || db.manifests[k].signingKey == db.manifests[m].signingKey;
      }
    }
  }

  /** What a step does that bears on the registry. */
  ghost predicate RegistryStep(db: Db, th: Thread, write: Write, th': Thread)
  {
    && (write.PutManifest? ==>
          && Inserting(th) && write.manifest == RowOf(th) && !Inserting(th')
          && 0 <= write.manifest.sequenceNumber < MAX_INT64)
    && (Inserting(th') ==> write.Nothing? && (th' == th || Fresh(db.manifests, RowOf(th'))))
  }

  lemma OthersDoNotRegister(w: World, now: int, db: Db, req: Request, pc: Pc, ev: Event)
    requires !pc.Administering?
    ensures var (write, req', pc') := Next(w, now, db, req, pc, ev); !write.PutManifest? && !pc'.Administering?
  {
    hide ComponentSet, NextCounted, LinkedManifests, PicksLatest, PicksAgent, DigestKey, HoldCollides, Envelopes,
         PicksManifestByDigest;
  }

  lemma AdminRegisters(w: World, now: int, db: Db, th: Thread, ev: Event)
    requires th.pc.Administering? && AtAdministering(th.req, th.pc.admin) && !ev.fault
    requires OrderedStreams(db.manifests) && NonNegative(db.manifests)
    ensures var (write, th') := Advance(w, now, db, th, ev); RegistryStep(db, th, write, th')
  {
    hide OrderedStreams, NonNegative, Fresh, PicksLatest, PicksSigningKey;
    if th.req.input.Registration? && th.pc.admin.RegisterLatest? {
      CheckMakesFresh(db, th.req.input, th.pc.admin.key, ev);
    }
  }

  lemma AdvanceRegisters(w: World, now: int, db: Db, th: Thread, ev: Event)
    requires Faithful(w, th) && OrderedStreams(db.manifests) && NonNegative(db.manifests)
    ensures var (write, th') := Advance(w, now, db, th, ev); RegistryStep(db, th, write, th')
  {
    hide OrderedStreams, NonNegative, Fresh;
    if ev.fault {
      hide ComponentSet, NextCounted;
    } else if th.pc.Administering? {
      AdminRegisters(w, now, db, th, ev);
      hide Advance;
    } else {
      OthersDoNotRegister(w, now, db, th.req, th.pc, ev);
      hide Next;
    }
  }

  lemma FreshKept(manifests: seq<ManifestRow>, row: ManifestRow, other: ManifestRow)
    requires Fresh(manifests, other) && row.component != other.component
    ensures Fresh(manifests + [row], other)
  {
  }

  lemma OnlyRegistrationWrites(db: Db, write: Write)
    ensures Apply(db, write).manifests == if write.PutManifest? then db.manifests + [write.manifest] else db.manifests
  {
  }

  lemma OthersStayFresh(s: Sys, i: nat, write: Write, th': Thread, j: nat)
    requires i < |s.threads| && j < |s.threads| && i != j && RegistrySound(s) && Serial(s.threads)
    requires RegistryStep(s.db, s.threads[i], write, th') && Inserting(s.threads[j])
    ensures Fresh(Apply(s.db, write).manifests, RowOf(s.threads[j]))
  {
    hide Fresh, OrderedStreams, NonNegative, Apply;
    OnlyRegistrationWrites(s.db, write);
    if write.PutManifest? {
      FreshKept(s.db.manifests, write.manifest, RowOf(s.threads[j]));
    }
  }

  lemma RunRegisters(w: World, s: Sys, i: nat, ev: Event)
    requires i < |s.threads| && AllFaithful(w, s) && RegistrySound(s) && Serial(s.threads)
    ensures RegistrySound(Step(w, s, Run(i, ev)))
  {
    hide Advance, Apply, Faithful, Fresh, OrderedStreams, NonNegative, Serial;
    var th := s.threads[i];
    var (write, th') := Advance(w, s.now, s.db, th, ev);
    AdvanceRegisters(w, s.now, s.db, th, ev);
    OnlyRegistrationWrites(s.db, write);
    forall j | 0 <= j < |s.threads| && j != i && Inserting(s.threads[j])
      ensures Fresh(Apply(s.db, write).manifests, RowOf(s.threads[j]))
    {
      OthersStayFresh(s, i, write, th', j);
    }
    if write.PutManifest? {
      InsertKeepsStreamsIffFresh(s.db.manifests, write.manifest);
      NonNegativeGrows(s.db.manifests, write.manifest);
    }
    if write.Nothing? { ApplyNothing(s.db); }
  }

  lemma NonNegativeGrows(manifests: seq<ManifestRow>, row: ManifestRow)
    requires NonNegative(manifests) && 0 <= row.sequenceNumber < MAX_INT64
    ensures NonNegative(manifests + [row])
  {
  }

  lemma StepRegisters(w: World, s: Sys, action: Action)
    requires AllFaithful(w, s) && RegistrySound(s) && Serial(s.threads)
    ensures RegistrySound(Step(w, s, action))
  {
    hide Advance, Apply, Faithful, Fresh, OrderedStreams, NonNegative, Serial;
    match action
    case Arrive(input) => LaunchInsertsNothing(input); hide Launch;
    case Tick(_) =>
    case Run(i, ev) => if i < |s.threads| { RunRegisters(w, s, i, ev); }
  }

  lemma LaunchInsertsNothing(input: Input)
    ensures !Inserting(Launch(input))
  {
    hide ComponentSet, NextCounted;
  }

  lemma {:induction false} ExecuteRegisters(w: World, s: Sys, actions: seq<Action>)
    requires AllFaithful(w, s) && RegistrySound(s) && SerialRun(w, s, actions)
    ensures RegistrySound(Execute(w, s, actions))
    decreases |actions|
  {
    hide AllFaithful, RegistrySound, Step, Serial;
    if actions != [] {
      var before := actions[..|actions| - 1];
      ExecuteRegisters(w, s, before);
      RunFaithful(w, s, before);
      assert Serial(Execute(w, s, before).threads) by { assert SerialRun(w, s, before); }
      StepRegisters(w, Execute(w, s, before), actions[|actions| - 1]);
    }
  }

  /** Under one-at-a-time registration the streams are ordered in every reached state. */
  lemma SerialRegistrationKeepsStreams(w: World, now: int, signingKeys: seq<SigningKeyRow>,
                                       devices: seq<Bytes>, actions: seq<Action>)
    requires SerialRun(w, Initial(now, signingKeys, devices), actions)
    ensures var s := Execute(w, Initial(now, signingKeys, devices), actions);
      OrderedStreams(s.db.manifests) && NonNegative(s.db.manifests)
  {
    var s0 := Initial(now, signingKeys, devices);
    assert RegistrySound(s0) && AllFaithful(w, s0);
    ExecuteRegisters(w, s0, actions);
  }

  // ---- exactly when ----

  /** The actions only let registrations that are past their check in s go on. */
  ghost predicate OnlyInserts(s: Sys, actions: seq<Action>)
  {
    forall k :: 0 <= k < |actions| ==>
      actions[k].Run? && actions[k].thread < |s.threads| && Inserting(s.threads[actions[k].thread])
  }

  /** Every thread stands where it stood, or has stopped inserting. */
  ghost predicate OnlyFinished(s: Sys, s': Sys)
  {
    && |s'.threads| == |s.threads|
    && forall i :: 0 <= i < |s.threads| ==> s'.threads[i] == s.threads[i] || !Inserting(s'.threads[i])
  }

  lemma OneInsert(w: World, s: Sys, i: nat, ev: Event)
    requires i < |s.threads|
    ensures OnlyFinished(s, Step(w, s, Run(i, ev))) || !Inserting(s.threads[i])
  {
    if Inserting(s.threads[i]) && !ev.fault {
      assert Step(w, s, Run(i, ev)).threads[i].pc.Done?;
    }
  }

  lemma FinishedStays(w: World, s0: Sys, s: Sys, i: nat, ev: Event)
    requires OnlyFinished(s0, s) && i < |s.threads| && Inserting(s0.threads[i]) && StoppedForGood(s, i)
    ensures OnlyFinished(s0, Step(w, s, Run(i, ev)))
    ensures forall j :: StoppedForGood(s, j) ==> StoppedForGood(Step(w, s, Run(i, ev)), j)
  {
    if s.threads[i] == s0.threads[i] {
      OneInsert(w, s, i, ev);
      InsertFinishes(w, s, i, ev);
    }
  }

  /** The thread is finished, or still inserting. */
  predicate StoppedForGood(s: Sys, i: int)
  {
    0 <= i < |s.threads| && (s.threads[i].pc.Done? || Inserting(s.threads[i]))
  }

  lemma InsertFinishes(w: World, s: Sys, i: nat, ev: Event)
    requires i < |s.threads| && Inserting(s.threads[i])
    ensures Step(w, s, Run(i, ev)).threads[i].pc.Done?
    ensures Step(w, s, Run(i, ev)).db == if ev.fault then s.db else Apply(s.db, PutManifest(RowOf(s.threads[i])))
  {
    if ev.fault { ApplyNothing(s.db); }
  }

  lemma FinishedIsSerial(s: Sys, s': Sys)
    requires OnlyFinished(s, s') && Serial(s.threads)
    ensures Serial(s'.threads)
  {
  }

  lemma {:induction false} InsertsKeepStreams(w: World, s: Sys, actions: seq<Action>)
    requires AllFaithful(w, s) && RegistrySound(s) && Serial(s.threads) && OnlyInserts(s, actions)
    ensures var s' := Execute(w, s, actions);
      && RegistrySound(s') && OnlyFinished(s, s')
      && forall i :: 0 <= i < |s.threads| && Inserting(s.threads[i]) ==> StoppedForGood(s', i)
    decreases |actions|
  {
    hide AllFaithful, RegistrySound, Serial, Step;
    if actions != [] {
      var before, last := actions[..|actions| - 1], actions[|actions| - 1];
      InsertsKeepStreams(w, s, before);
      var mid := Execute(w, s, before);
      RunFaithful(w, s, before);
      FinishedIsSerial(s, mid);
      StepRegisters(w, mid, last);
      FinishedStays(w, s, mid, last.thread, last.event);
    }
  }

  /** Running two pending inserts one after the other puts their two rows at the end. */
  lemma InsertsInTurn(w: World, s: Sys, first: nat, second: nat) returns (actions: seq<Action>)
    requires first < |s.threads| && second < |s.threads| && first != second
    requires Inserting(s.threads[first]) && Inserting(s.threads[second])
    ensures OnlyInserts(s, actions)
    ensures Execute(w, s, actions).db.manifests ==
      s.db.manifests + [RowOf(s.threads[first])] + [RowOf(s.threads[second])]
  {
    var ev := Choose(None, None);
    InsertFinishes(w, s, first, ev);
    var mid := Step(w, s, Run(first, ev));
    assert mid.threads[second] == s.threads[second];
    InsertFinishes(w, mid, second, ev);
    hide Step, Execute, Inserting;
    ExecuteFirst(w, s, Run(first, ev), [Run(second, ev)]);
    ExecuteFirst(w, mid, Run(second, ev), []);
    ExecuteNothing(w, Step(w, mid, Run(second, ev)));
    actions := [Run(first, ev), Run(second, ev)];
    assert [Run(first, ev)] + [Run(second, ev)] == actions && [Run(second, ev)] + [] == [Run(second, ev)];
  }

  lemma TwoRowsOutOfOrder(manifests: seq<ManifestRow>, a: ManifestRow, b: ManifestRow)
    requires a.component == b.component && a.sequenceNumber >= b.sequenceNumber
    ensures !OrderedStreams(manifests + [a] + [b])
  {
    var n := |manifests|;
    var last := manifests + [a] + [b];
    assert last[n] == a && last[n + 1] == b;
  }

  /** Two overlapping registrations of one component can go in in an order that breaks it. */
  lemma OverlapBreaks(w: World, s: Sys, i: nat, j: nat) returns (actions: seq<Action>)
    requires i < |s.threads| && j < |s.threads| && i != j && Inserting(s.threads[i]) && Inserting(s.threads[j])
    requires s.threads[i].req.input.component == s.threads[j].req.input.component
    ensures OnlyInserts(s, actions) && !OrderedStreams(Execute(w, s, actions).db.manifests)
  {
    var a, b := RowOf(s.threads[i]), RowOf(s.threads[j]);
    hide Execute, OrderedStreams, OnlyInserts;
    if a.sequenceNumber < b.sequenceNumber {
      actions := InsertsInTurn(w, s, j, i);
      TwoRowsOutOfOrder(s.db.manifests, b, a);
    } else {
      actions := InsertsInTurn(w, s, i, j);
      TwoRowsOutOfOrder(s.db.manifests, a, b);
    }
  }

  lemma ExecuteNothing(w: World, s: Sys)
    ensures Execute(w, s, []) == s
  {
  }

  /** From a state whose checks were made one at a time up to its last step, the registrations
      already past their check leave the streams ordered however they go on, if and only if no
      two of them are of one component: the overlap between check and insert is exactly what
      the missing transaction costs. */
  lemma OverlapExactly(w: World, s: Sys)
    requires AllFaithful(w, s) && RegistrySound(s)
    ensures
      (forall actions: seq<Action> ::
         OnlyInserts(s, actions) ==> OrderedStreams(Execute(w, s, actions).db.manifests))
      <==> Serial(s.threads)
  {
    hide AllFaithful, Execute, OrderedStreams, NonNegative, Fresh;
    if Serial(s.threads) {
      forall actions: seq<Action> | OnlyInserts(s, actions)
        ensures OrderedStreams(Execute(w, s, actions).db.manifests)
      {
        InsertsKeepStreams(w, s, actions);
      }
    } else {
      var i, j :| 0 <= i < j < |s.threads| && Inserting(s.threads[i]) && Inserting(s.threads[j])
        && s.threads[i].req.input.component == s.threads[j].req.input.component;
      var actions := OverlapBreaks(w, s, i, j);
      assert OnlyInserts(s, actions) && !OrderedStreams(Execute(w, s, actions).db.manifests);
    }
  }

  /** Every run whose states but the last are serial ends in such a state. */
  lemma SerialSoFarIsSound(w: World, now: int, signingKeys: seq<SigningKeyRow>, devices: seq<Bytes>,
                           actions: seq<Action>, last: Action)
    requires SerialRun(w, Initial(now, signingKeys, devices), actions)
    ensures var s := Execute(w, Initial(now, signingKeys, devices), actions + [last]);
      AllFaithful(w, s) && RegistrySound(s)
  {
    var s0 := Initial(now, signingKeys, devices);
    assert RegistrySound(s0) && AllFaithful(w, s0);
    ExecuteRegisters(w, s0, actions);
    RunFaithful(w, s0, actions);
    assert Serial(Execute(w, s0, actions).threads);
    ExecuteLast(w, s0, actions, last);
    hide Step, Execute, AllFaithful, RegistrySound, Serial;
    StepRegisters(w, Execute(w, s0, actions), last);
    StepFaithful(w, Execute(w, s0, actions), last);
  }

  // ---- the latest manifest ----

  /** In ordered streams the latest row of a component is the last inserted, and the only row
      with its sequence number. */
  lemma LatestIsLast(manifests: seq<ManifestRow>, component: Bytes, m: nat)
    requires OrderedStreams(manifests)
    ensures IsLatest(manifests, component, m) <==>
      && m < |manifests| && manifests[m].component == component
      && forall k :: 0 <= k < |manifests| && k != m && manifests[k].component == component ==>
           k < m && manifests[k].sequenceNumber < manifests[m].sequenceNumber
  {
    if IsLatest(manifests, component, m) {
      forall k | 0 <= k < |manifests| && k != m && manifests[k].component == component
        ensures k < m && manifests[k].sequenceNumber < manifests[m].sequenceNumber
      {
        assert manifests[k].component == manifests[m].component;
      }
    }
  }

  /** What the query for all latest manifests may answer: each row carrying the maximum of its
      component, once, in the order of the components. */
  ghost predicate PicksAllLatest(manifests: seq<ManifestRow>, answer: seq<nat>)
  {
    && (forall i :: 0 <= i < |answer| ==>
          answer[i] < |manifests| && IsLatest(manifests, manifests[answer[i]].component, answer[i]))
    && (forall m: nat :: m < |manifests| && IsLatest(manifests, manifests[m].component, m) ==> m in answer)
    && (forall i, j :: 0 <= i < j < |answer| ==> answer[i] != answer[j])
    && Ascending(manifests, answer)
  }

  /** The same of the rows below m. */
  ghost predicate PicksLatestBelow(manifests: seq<ManifestRow>, answer: seq<nat>, m: nat)
  {
    && (forall i :: 0 <= i < |answer| ==>
          answer[i] < m && answer[i] < |manifests| && IsLatest(manifests, manifests[answer[i]].component, answer[i]))
    && (forall k: nat :: k < m && k < |manifests| && IsLatest(manifests, manifests[k].component, k) ==> k in answer)
    && (forall i, j :: 0 <= i < j < |answer| ==> answer[i] != answer[j])
  }

  /** Inserting a number adds it, and repeats nothing if it is new. */
  lemma InsertedOnce(answer: seq<nat>, n: nat, m: nat)
    requires n <= |answer| && m !in answer && forall i, j :: 0 <= i < j < |answer| ==> answer[i] != answer[j]
    ensures var longer := answer[..n] + [m] + answer[n..];
      && (forall k: nat :: k in longer <==> k in answer || k == m)
      && forall i, j :: 0 <= i < j < |longer| ==> longer[i] != longer[j]
  {
    var longer := answer[..n] + [m] + answer[n..];
    assert answer == answer[..n] + answer[n..];
    assert forall i :: 0 <= i < |longer| ==>
      longer[i] == if i < n then answer[i] else if i == n then m else answer[i - 1];
  }

  lemma LatestInserted(manifests: seq<ManifestRow>, answer: seq<nat>, n: nat, m: nat)
    requires PicksLatestBelow(manifests, answer, m) && n <= |answer| && m < |manifests|
    requires IsLatest(manifests, manifests[m].component, m)
    ensures PicksLatestBelow(manifests, answer[..n] + [m] + answer[n..], m + 1)
  {
    hide IsLatest;
    InsertedOnce(answer, n, m);
    var longer := answer[..n] + [m] + answer[n..];
    forall i | 0 <= i < |longer| && longer[i] != m
      ensures longer[i] < m && longer[i] < |manifests| && IsLatest(manifests, manifests[longer[i]].component, longer[i])
    {
      assert longer[i] in longer;
      var k :| 0 <= k < |answer| && answer[k] == longer[i];
    }
  }

  lemma LatestSkipped(manifests: seq<ManifestRow>, answer: seq<nat>, m: nat)
    requires PicksLatestBelow(manifests, answer, m) && m < |manifests|
    requires !IsLatest(manifests, manifests[m].component, m)
    ensures PicksLatestBelow(manifests, answer, m + 1)
  {
  }

  lemma NoneBelow(manifests: seq<ManifestRow>)
    ensures PicksLatestBelow(manifests, [], 0) && Ascending(manifests, [])
  {
  }

  lemma AllBelow(manifests: seq<ManifestRow>, answer: seq<nat>)
    requires PicksLatestBelow(manifests, answer, |manifests|) && Ascending(manifests, answer)
    ensures PicksAllLatest(manifests, answer)
  {
    hide IsLatest, Ascending;
  }

  lemma ComponentIsKnown(manifests: seq<ManifestRow>, m: nat, latest: Option<nat>)
    requires m < |manifests| && PicksLatest(manifests, manifests[m].component, latest)
    ensures latest.Some? && latest.value < |manifests| && IsLatest(manifests, manifests[m].component, latest.value)
  {
  }

  lemma SameNumberIsLatest(manifests: seq<ManifestRow>, latest: nat, m: nat)
    requires m < |manifests| && IsLatest(manifests, manifests[m].component, latest)
    ensures IsLatest(manifests, manifests[m].component, m) <==>
      manifests[latest].sequenceNumber == manifests[m].sequenceNumber
  {
  }

  /** As the database compares byte strings (NotAfterExactly): by the first byte that differs, a prefix first. */
  predicate NotAfter(a: Bytes, b: Bytes)
  {
    a == [] || (b != [] && (a[0] < b[0] || (a[0] == b[0] && NotAfter(a[1..], b[1..]))))
  }

  lemma SameFirst(a: Bytes, b: Bytes, n: nat)
    requires 0 < n <= |a| && n <= |b| && a[..n] == b[..n]
    ensures a[0] == b[0]
  {
    assert a[..n][0] == a[0];
  }

  /** A byte string is not after another if it begins it, or is smaller at the first byte that
      differs. */
  lemma {:induction false} NotAfterExactly(a: Bytes, b: Bytes)
    ensures NotAfter(a, b) <==> a <= b || exists i: nat :: i < |a| && i < |b| && a[..i] == b[..i] && a[i] < b[i]
  {
    if a != [] && b != [] {
      if a[0] == b[0] {
        NotAfterExactly(a[1..], b[1..]);
        assert a == [a[0]] + a[1..] && b == [b[0]] + b[1..];
        if a[1..] <= b[1..] {
          assert a <= b;
        } else if i: nat :| i < |a| - 1 && i < |b| - 1 && a[1..][..i] == b[1..][..i] && a[1..][i] < b[1..][i] {
          assert a[..i + 1] == [a[0]] + a[1..][..i] && b[..i + 1] == [b[0]] + b[1..][..i] && a[i + 1] < b[i + 1];
        }
        if i: nat :| i < |a| && i < |b| && a[..i] == b[..i] && a[i] < b[i] {
          assert i > 0;
          assert a[1..][..i - 1] == a[..i][1..] && b[1..][..i - 1] == b[..i][1..] && a[1..][i - 1] < b[1..][i - 1];
        }
        if a <= b { assert a[1..] <= b[1..]; }
      } else {
        assert !(a <= b);
        assert a[..0] == b[..0];
        if i: nat :| i < |a| && i < |b| && a[..i] == b[..i] && a[i] < b[i] {
          if i > 0 { SameFirst(a, b, i); }
        }
      }
    }
  }

  lemma {:induction false} NotAfterIsTotal(a: Bytes, b: Bytes)
    ensures NotAfter(a, b) || NotAfter(b, a)
    ensures NotAfter(a, b) && NotAfter(b, a) ==> a == b
  {
    if a != [] && b != [] && a[0] == b[0] {
      NotAfterIsTotal(a[1..], b[1..]);
      assert a == [a[0]] + a[1..] && b == [b[0]] + b[1..];
    }
  }

  lemma {:induction false} NotAfterIsTransitive(a: Bytes, b: Bytes, c: Bytes)
    requires NotAfter(a, b) && NotAfter(b, c)
    ensures NotAfter(a, c)
  {
    if a != [] && b != [] && c != [] && a[0] == b[0] == c[0] {
      NotAfterIsTransitive(a[1..], b[1..], c[1..]);
    }
  }

  /** The rows come in the order of their components. */
  ghost predicate Ascending(manifests: seq<ManifestRow>, answer: seq<nat>)
  {
    && (forall i :: 0 <= i < |answer| ==> answer[i] < |manifests|)
    && forall i, j :: 0 <= i < j < |answer| ==> NotAfter(manifests[answer[i]].component, manifests[answer[j]].component)
  }

  lemma AscendingBelow(manifests: seq<ManifestRow>, answer: seq<nat>, n: nat, m: nat)
    requires Ascending(manifests, answer) && n <= |answer| && m < |manifests|
    requires n > 0 ==> NotAfter(manifests[answer[n - 1]].component, manifests[m].component)
    ensures forall i :: 0 <= i < n ==> NotAfter(manifests[answer[i]].component, manifests[m].component)
  {
    hide NotAfter;
    forall i | 0 <= i < n ensures NotAfter(manifests[answer[i]].component, manifests[m].component) {
      if i < n - 1 {
        NotAfterIsTransitive(manifests[answer[i]].component, manifests[answer[n - 1]].component,
                             manifests[m].component);
      }
    }
  }

  /** Where the first n rows of the answer are not after the row and the rest are, it goes
      between them. */
  lemma AscendingInserted(manifests: seq<ManifestRow>, answer: seq<nat>, n: nat, m: nat)
    requires Ascending(manifests, answer) && n <= |answer| && m < |manifests|
    requires forall i :: 0 <= i < n ==> NotAfter(manifests[answer[i]].component, manifests[m].component)
    requires n < |answer| ==> NotAfter(manifests[m].component, manifests[answer[n]].component)
    ensures Ascending(manifests, answer[..n] + [m] + answer[n..])
  {
    hide NotAfter;
    forall j | n <= j < |answer| ensures NotAfter(manifests[m].component, manifests[answer[j]].component) {
      if j > n {
        NotAfterIsTransitive(manifests[m].component, manifests[answer[n]].component, manifests[answer[j]].component);
      }
    }
  }

  /** It answers, for every known component, exactly one row: the one the query for that
      component alone picks, whichever it may pick. */
  lemma AllLatestAgreesWithLatest(manifests: seq<ManifestRow>, answer: seq<nat>, component: Bytes,
                                  pick: Option<nat>)
    requires OrderedStreams(manifests) && PicksAllLatest(manifests, answer) && PicksLatest(manifests, component, pick)
    ensures pick.Some? <==> exists i :: 0 <= i < |answer| && manifests[answer[i]].component == component
    ensures forall i :: 0 <= i < |answer| && manifests[answer[i]].component == component ==> pick == Some(answer[i])
    ensures forall i, j :: 0 <= i < j < |answer| ==>
      && manifests[answer[i]].component != manifests[answer[j]].component
      && !NotAfter(manifests[answer[j]].component, manifests[answer[i]].component)
  {
    forall i, j | 0 <= i < j < |answer| && manifests[answer[i]].component != manifests[answer[j]].component
      ensures !NotAfter(manifests[answer[j]].component, manifests[answer[i]].component)
    {
      NotAfterIsTotal(manifests[answer[i]].component, manifests[answer[j]].component);
    }
    hide NotAfter;
    forall i, j |
      0 <= i < |answer| && 0 <= j < |answer| && manifests[answer[i]].component == manifests[answer[j]].component
      ensures answer[i] == answer[j]
    {
      OnlyOneLatest(manifests, manifests[answer[i]].component, answer[i], answer[j]);
    }
    if pick.Some? {
      assert pick.value in answer;
      forall i | 0 <= i < |answer| && manifests[answer[i]].component == component ensures answer[i] == pick.value {
        OnlyOneLatest(manifests, component, answer[i], pick.value);
      }
    }
  }

  lemma OnlyOneLatest(manifests: seq<ManifestRow>, component: Bytes, m: nat, n: nat)
    requires OrderedStreams(manifests) && IsLatest(manifests, component, m) && IsLatest(manifests, component, n)
    ensures m == n
  {
    LatestIsLast(manifests, component, m);
    LatestIsLast(manifests, component, n);
  }

  // ---- what holds however registrations overlap ----

  lemma AdvanceStoresInRange(w: World, now: int, db: Db, th: Thread, ev: Event)
    requires Faithful(w, th)
    ensures var write := Advance(w, now, db, th, ev).0;
      write.PutManifest? ==> 0 <= write.manifest.sequenceNumber < MAX_INT64
  {
    if ev.fault {
    } else if th.pc.Administering? {
      hide PicksLatest, PicksSigningKey, AllGrounded, Counts, Coherent;
    } else {
      OthersDoNotRegister(w, now, db, th.req, th.pc, ev);
      hide Next;
    }
  }

  lemma StepStaysInRange(w: World, s: Sys, action: Action)
    requires AllFaithful(w, s) && NonNegative(s.db.manifests)
    ensures NonNegative(Step(w, s, action).db.manifests)
  {
    hide Advance, Apply, Faithful, NonNegative, Launch;
    if action.Run? && action.thread < |s.threads| {
      var write := Advance(w, s.now, s.db, s.threads[action.thread], action.event).0;
      AdvanceStoresInRange(w, s.now, s.db, s.threads[action.thread], action.event);
      OnlyRegistrationWrites(s.db, write);
      if write.PutManifest? { NonNegativeGrows(s.db.manifests, write.manifest); }
    }
  }

  lemma {:induction false} ExecuteStaysInRange(w: World, s: Sys, actions: seq<Action>)
    requires AllFaithful(w, s) && NonNegative(s.db.manifests)
    ensures NonNegative(Execute(w, s, actions).db.manifests)
    decreases |actions|
  {
    hide AllFaithful, NonNegative, Step;
    if actions != [] {
      var before := actions[..|actions| - 1];
      ExecuteStaysInRange(w, s, before);
      RunFaithful(w, s, before);
      StepStaysInRange(w, Execute(w, s, before), actions[|actions| - 1]);
    }
  }

  /** In every interleaving the stored numbers are below 2^63 - 1, so that the signed column
      reads and compares as the unsigned numbers that were registered. */
  lemma NumbersStayInRange(w: World, now: int, signingKeys: seq<SigningKeyRow>, devices: seq<Bytes>,
                           actions: seq<Action>)
    ensures var manifests := Execute(w, Initial(now, signingKeys, devices), actions).db.manifests;
      && NonNegative(manifests)
      && (forall k :: 0 <= k < |manifests| ==>
            Unsigned64(manifests[k].sequenceNumber) == manifests[k].sequenceNumber)
      && (forall component: Bytes, m: nat :: IsLatest(manifests, component, m) ==>
            forall k :: 0 <= k < |manifests| && manifests[k].component == component ==>
              Unsigned64(manifests[k].sequenceNumber) <= Unsigned64(manifests[m].sequenceNumber))
  {
    var s0 := Initial(now, signingKeys, devices);
    assert AllFaithful(w, s0) && NonNegative(s0.db.manifests);
    ExecuteStaysInRange(w, s0, actions);
    hide Execute;
  }

  /** The unsigned number of the latest manifest of a component never goes down, however
      registrations overlap; and in ordered streams its signer never changes. */
  lemma LatestNeverGoesBack(w: World, now: int, signingKeys: seq<SigningKeyRow>, devices: seq<Bytes>,
                            past: seq<Action>, actions: seq<Action>, component: Bytes, m: nat, n: nat)
    requires var s := Execute(w, Initial(now, signingKeys, devices), past);
      IsLatest(s.db.manifests, component, m) && IsLatest(Execute(w, s, actions).db.manifests, component, n)
    ensures var s := Execute(w, Initial(now, signingKeys, devices), past);
      var after := Execute(w, s, actions).db.manifests;
      && Unsigned64(s.db.manifests[m].sequenceNumber) <= Unsigned64(after[n].sequenceNumber)
      && (OrderedStreams(after) ==> m <= n && after[n].signingKey == s.db.manifests[m].signingKey)
  {
    var s0 := Initial(now, signingKeys, devices);
    var s := Execute(w, s0, past);
    NumbersStayInRange(w, now, signingKeys, devices, past);
    NumbersStayInRange(w, now, signingKeys, devices, past + actions);
    ExecuteAppended(w, s0, past, actions);
    RunExtends(w, s, actions);
    var after := Execute(w, s, actions).db.manifests;
    hide Execute;
    assert after[m] == s.db.manifests[m];
    if OrderedStreams(after) { LatestIsLast(after, component, n); }
  }

  // ---- signed columns ----

  /** Comparing two unsigned values by their signed columns is right exactly when both lie on
      the same side of 2^63; the registration guard puts both below it. */
  lemma SignedOrderExactly(a: int, b: int)
    requires 0 <= a < 0x1_0000_0000_0000_0000 && 0 <= b < 0x1_0000_0000_0000_0000
    ensures (Signed64(a) < Signed64(b) <==> a < b) <==> (a == b || (a <= MAX_INT64) == (b <= MAX_INT64))
    ensures Unsigned64(Signed64(a)) == a
  {
  }

  // ---- overlapping registrations ----

  function Sample(sequenceNumber: nat): Input
  {
    Registration(Some([]), [], [7], [1], sequenceNumber)
  }

  /** Both read the empty table before either inserts. */
  lemma OverlapStates(w: World, s2: Sys)
    requires s2 == Sys(0, EmptyDb([SigningKeyRow([7], [])], []), [Launch(Sample(5)), Launch(Sample(3))])
    ensures var a0, a1 := Run(0, Choose(Some(0), None)), Run(1, Choose(Some(0), None));
      var b0, b1 := Run(0, Choose(None, None)), Run(1, Choose(None, None));
      var s6 := Step(w, Step(w, Step(w, Step(w, s2, a0), a1), b0), b1);
      && s6.db == s2.db && |s6.threads| == 2
      && s6.threads[0] == Launch(Sample(5)).(pc := Administering(RegisterInsert(0)))
      && s6.threads[1] == Launch(Sample(3)).(pc := Administering(RegisterInsert(0)))
  {
    var a0, a1 := Run(0, Choose(Some(0), None)), Run(1, Choose(Some(0), None));
    var b0, b1 := Run(0, Choose(None, None)), Run(1, Choose(None, None));
    var s4 := Step(w, Step(w, s2, a0), a1);
    assert s4.db == s2.db && s4.threads[0] == Launch(Sample(5)).(pc := Administering(RegisterLatest(0)))
      && s4.threads[1] == Launch(Sample(3)).(pc := Administering(RegisterLatest(0)));
  }

  lemma OverlapInserts(w: World, s6: Sys)
    requires s6.db.manifests == [] && |s6.threads| == 2
    requires s6.threads[0] == Launch(Sample(5)).(pc := Administering(RegisterInsert(0)))
    requires s6.threads[1] == Launch(Sample(3)).(pc := Administering(RegisterInsert(0)))
    ensures var s8 := Step(w, Step(w, s6, Run(0, Choose(None, None))), Run(1, Choose(None, None)));
      && !OrderedStreams(s8.db.manifests) && |s8.threads| == 2
      && s8.threads[0].pc == Done(Registered) && s8.threads[1].pc == Done(Registered)
  {
    var s8 := Step(w, Step(w, s6, Run(0, Choose(None, None))), Run(1, Choose(None, None)));
    assert s8.db.manifests == [NewManifest(Sample(5), 0), NewManifest(Sample(3), 0)];
    assert s8.db.manifests[0].component == s8.db.manifests[1].component;
  }

  /** Two overlapping registrations of one component, both past the check on the empty table:
      the smaller sequence number goes in last, and the stream is out of order. */
  lemma OverlapBreaksStreams(w: World) returns (actions: seq<Action>)
    ensures var s := Execute(w, Initial(0, [SigningKeyRow([7], [])], []), actions);
      && !OrderedStreams(s.db.manifests) && |s.threads| == 2
      && s.threads[0].pc == Done(Registered) && s.threads[1].pc == Done(Registered)
  {
    var s0 := Initial(0, [SigningKeyRow([7], [])], []);
    var a0, a1 := Run(0, Choose(Some(0), None)), Run(1, Choose(Some(0), None));
    var b0, b1 := Run(0, Choose(None, None)), Run(1, Choose(None, None));
    var steps := [Arrive(Sample(5)), Arrive(Sample(3)), a0, a1, b0, b1, b0, b1];
    var s2 := Step(w, Step(w, s0, steps[0]), steps[1]);
    assert s2 == Sys(0, s0.db, [Launch(Sample(5)), Launch(Sample(3))]);
    OverlapStates(w, s2);
    OverlapInserts(w, Step(w, Step(w, Step(w, Step(w, s2, a0), a1), b0), b1));
    OverlapRuns(w, s0, steps);
    actions := steps;
  }

  lemma OverlapRuns(w: World, s0: Sys, steps: seq<Action>)
    requires |steps| == 8
    ensures Execute(w, s0, steps) ==
      Step(w, Step(w, Step(w, Step(w, Step(w, Step(w, Step(w, Step(w, s0,
        steps[0]), steps[1]), steps[2]), steps[3]), steps[4]), steps[5]), steps[6]), steps[7])
  {
    hide Execute, Step, Stepped;
    StepsTaken(w, s0, steps, 8);
    assert steps[..8] == steps;
    StepsUnrolled(w, s0, steps);
  }

  ghost function Stepped(w: World, s: Sys, steps: seq<Action>, k: nat): Sys
    requires k <= |steps|
  {
    if k == 0 then s else Step(w, Stepped(w, s, steps, k - 1), steps[k - 1])
  }

  lemma {:induction false} StepsTaken(w: World, s: Sys, steps: seq<Action>, k: nat)
    requires k <= |steps|
    ensures Execute(w, s, steps[..k]) == Stepped(w, s, steps, k)
  {
    hide Step;
    if k > 0 {
      StepsTaken(w, s, steps, k - 1);
      hide Execute;
      ExecuteLast(w, s, steps[..k - 1], steps[k - 1]);
      assert steps[..k] == steps[..k - 1] + [steps[k - 1]];
    }
  }

  lemma StepsUnrolled(w: World, s: Sys, steps: seq<Action>)
    requires |steps| == 8
    ensures Stepped(w, s, steps, 8) ==
      Step(w, Step(w, Step(w, Step(w, Step(w, Step(w, Step(w, Step(w, s,
        steps[0]), steps[1]), steps[2]), steps[3]), steps[4]), steps[5]), steps[6]), steps[7])
  {
    hide Step;
    assert Stepped(w, s, steps, 0) == s;
    assert Stepped(w, s, steps, 1) == Step(w, Stepped(w, s, steps, 0), steps[0]);
    assert Stepped(w, s, steps, 2) == Step(w, Stepped(w, s, steps, 1), steps[1]);
    assert Stepped(w, s, steps, 3) == Step(w, Stepped(w, s, steps, 2), steps[2]);
    assert Stepped(w, s, steps, 4) == Step(w, Stepped(w, s, steps, 3), steps[3]);
    assert Stepped(w, s, steps, 5) == Step(w, Stepped(w, s, steps, 4), steps[4]);
    assert Stepped(w, s, steps, 6) == Step(w, Stepped(w, s, steps, 5), steps[5]);
    assert Stepped(w, s, steps, 7) == Step(w, Stepped(w, s, steps, 6), steps[6]);
    assert Stepped(w, s, steps, 8) == Step(w, Stepped(w, s, steps, 7), steps[7]);
  }
}
