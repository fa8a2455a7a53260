/**
 The active holdings of an agent as a map from component to manifest, and what processing
 a Success list does to it.
 */
module Beliefs {
  import opened Wrappers
  import opened Tables
  import opened Protocol
  import opened Holdings

  /** For each component, the manifest the agent is believed to hold. */
  function Believed(db: Db, agent: nat): map<Bytes, nat>
  {
    BelievedFrom(db, agent, |db.holdings|)
  }

  function BelievedFrom(db: Db, agent: nat, n: nat): map<Bytes, nat>
    requires n <= |db.holdings|
  {
    if n == 0 then map[]
    else
      var row := db.holdings[n - 1];
      var before := BelievedFrom(db, agent, n - 1);
      if !row.deleted && row.agent == agent && row.manifest < |db.manifests| then
        before[db.manifests[row.manifest].component := row.manifest]
      else before
  }

  /** Some holding in force says the agent holds this manifest of this component. */
  ghost predicate Holds(db: Db, agent: nat, component: Bytes, manifest: nat)
  {
    exists h: nat :: ActiveFor(db, h, agent, component) && db.holdings[h].manifest == manifest
  }

  predicate Maps(belief: map<Bytes, nat>, component: Bytes, manifest: nat)
  {
    component in belief && belief[component] == manifest
  }

  ghost predicate HoldsBelow(db: Db, agent: nat, component: Bytes, manifest: nat, n: nat)
  {
    exists h: nat :: h < n && ActiveFor(db, h, agent, component) && db.holdings[h].manifest == manifest
  }

  lemma OnlyOneActive(db: Db, agent: nat, component: Bytes, h: nat, k: nat)
    requires OneActive(db) && ActiveFor(db, h, agent, component) && ActiveFor(db, k, agent, component)
    ensures h == k
  {
    assert InForce(db, h) && InForce(db, k) && ComponentOf(db, h) == ComponentOf(db, k);
  }

  lemma {:induction false} BelievedFromIffHolds(db: Db, agent: nat, component: Bytes, manifest: nat, n: nat)
    requires OneActive(db) && n <= |db.holdings|
    ensures Maps(BelievedFrom(db, agent, n), component, manifest) <==> HoldsBelow(db, agent, component, manifest, n)
  {
    if n > 0 {
      BelievedFromIffHolds(db, agent, component, manifest, n - 1);
      if ActiveFor(db, n - 1, agent, component) {
        forall h: nat | ActiveFor(db, h, agent, component) ensures h == n - 1 {
          OnlyOneActive(db, agent, component, h, n - 1);
        }
        assert HoldsBelow(db, agent, component, db.holdings[n - 1].manifest, n);
      }
    }
  }

  lemma BelievedIffHolds(db: Db, agent: nat, component: Bytes, manifest: nat)
    requires OneActive(db)
    ensures Maps(Believed(db, agent), component, manifest) <==> Holds(db, agent, component, manifest)
  {
    BelievedFromIffHolds(db, agent, component, manifest, |db.holdings|);
    hide OneActive, BelievedFrom;
    if Holds(db, agent, component, manifest) {
      var h: nat :| ActiveFor(db, h, agent, component) && db.holdings[h].manifest == manifest;
      assert h < |db.holdings|;
    }
  }

  lemma SameBeliefs(a: map<Bytes, nat>, b: map<Bytes, nat>)
    requires forall c, m: nat :: Maps(a, c, m) <==> Maps(b, c, m)
    ensures a == b
  {
    forall c | c in a ensures c in b && a[c] == b[c] { assert Maps(a, c, a[c]); }
    forall c | c in b ensures c in a { assert Maps(b, c, b[c]); }
  }

  lemma HoldsAfterHold(db: Db, write: Write, agent: nat, component: Bytes, manifest: nat)
    requires write.Hold? && OfComponent(db, write.held, write.component)
    ensures Holds(Apply(db, write), agent, component, manifest) <==>
      if agent == write.holder && component == write.component then manifest == write.held
      else Holds(db, agent, component, manifest)
  {
    var db' := Apply(db, write);
    var n := |db.holdings|;
    assert ActiveFor(db', n, write.holder, write.component) && db'.holdings[n].manifest == write.held;
    if Holds(db', agent, component, manifest) {
      var h: nat :| ActiveFor(db', h, agent, component) && db'.holdings[h].manifest == manifest;
      if h < n { assert ActiveFor(db, h, agent, component) && db.holdings[h].manifest == manifest; }
    }
    if Holds(db, agent, component, manifest) && (agent != write.holder || component != write.component) {
      var h: nat :| ActiveFor(db, h, agent, component) && db.holdings[h].manifest == manifest;
      assert ActiveFor(db', h, agent, component) && db'.holdings[h].manifest == manifest;
    }
  }

  /** Recording a holding replaces the belief about that component of that agent. */
  lemma HoldReplaces(db: Db, write: Write, agent: nat)
    requires OneActive(db) && write.Hold? && write.holder < |db.agents| && OfComponent(db, write.held, write.component)
    ensures OneActive(Apply(db, write))
    ensures Believed(Apply(db, write), agent) ==
      if agent == write.holder then Believed(db, agent)[write.component := write.held] else Believed(db, agent)
  {
    HoldKeepsOneActive(db, write);
    var db' := Apply(db, write);
    var after := Believed(db', agent);
    var before := Believed(db, agent);
    var expected := if agent == write.holder then before[write.component := write.held] else before;
    hide Apply, OneActive, Holds, Believed;
    forall c, m: nat ensures Maps(after, c, m) <==> Maps(expected, c, m) {
      BelievedIffHolds(db', agent, c, m);
      BelievedIffHolds(db, agent, c, m);
      HoldsAfterHold(db, write, agent, c, m);
    }
    SameBeliefs(after, expected);
  }

  lemma HoldsKept(db: Db, write: Write, agent: nat, component: Bytes, manifest: nat)
    requires HoldingRowsKnown(db) && !write.Hold?
    ensures Holds(Apply(db, write), agent, component, manifest) <==> Holds(db, agent, component, manifest)
  {
    ApplyExtends(db, write);
    var db' := Apply(db, write);
    assert db'.holdings == db.holdings;
    forall h: nat ensures ActiveFor(db', h, agent, component) == ActiveFor(db, h, agent, component) {
    }
  }

  /** Every other write leaves every belief alone. */
  lemma OthersLeaveBeliefs(db: Db, write: Write, agent: nat)
    requires OneActive(db) && !write.Hold?
    ensures OneActive(Apply(db, write)) && Believed(Apply(db, write), agent) == Believed(db, agent)
  {
    OthersKeepOneActive(db, write);
    Known(db);
    hide Apply, OneActive, Holds, Believed, HoldingRowsKnown;
    forall c, m: nat ensures Maps(Believed(Apply(db, write), agent), c, m) <==> Maps(Believed(db, agent), c, m) {
      BelievedIffHolds(Apply(db, write), agent, c, m);
      BelievedIffHolds(db, agent, c, m);
      HoldsKept(db, write, agent, c, m);
    }
    SameBeliefs(Believed(Apply(db, write), agent), Believed(db, agent));
  }

  lemma Known(db: Db)
    requires OneActive(db)
    ensures HoldingRowsKnown(db)
  {
  }

  // ---- a whole Success list ----

  /** The row whose digest a report names, if there is one. */
  ghost function ManifestWith(manifests: seq<ManifestRow>, digest: Bytes): (r: Option<nat>)
    ensures PicksManifestByDigest(manifests, digest, r)
  {
    if i: nat :| i < |manifests| && manifests[i].digest == digest then Some(i) else None
  }

  /** The belief a Success list asserts: each positive report about a known manifest, in
      order, overwrites the component of that manifest. */
  ghost function Asserted(manifests: seq<ManifestRow>, belief: map<Bytes, nat>,
                          reports: seq<ReportItem>): map<Bytes, nat>
    decreases |reports|
  {
    if reports == [] then belief
    else
      var before := Asserted(manifests, belief, reports[..|reports| - 1]);
      var last := reports[|reports| - 1];
      if !Counted(last) then before
      else match ManifestWith(manifests, DigestKey(last))
        case None => before
        case Some(m) => before[manifests[m].component := m]
  }

  ghost predicate UniqueDigests(manifests: seq<ManifestRow>)
  {
    forall i, j :: 0 <= i < j < |manifests| ==> manifests[i].digest != manifests[j].digest
  }

  /** The belief about the agent of this thumbprint is what the reports assert, and the belief
      about every other agent is what it was. */
  ghost predicate BeliefsFollow(before: Db, db: Db, kid: Bytes, reports: seq<ReportItem>)
  {
    && db == before.(holdings := db.holdings, reports := db.reports)
    && OneActive(db)
    && forall a: nat :: a < |before.agents| ==>
         Believed(db, a) ==
           if before.agents[a].kid == kid then Asserted(before.manifests, Believed(before, a), reports)
           else Believed(before, a)
  }

  lemma NothingAsserted(db: Db, kid: Bytes)
    requires OneActive(db)
    ensures BeliefsFollow(db, db, kid, [])
  {
  }

  lemma AssertedOneMore(manifests: seq<ManifestRow>, belief: map<Bytes, nat>, reports: seq<ReportItem>,
                        last: ReportItem)
    ensures Asserted(manifests, belief, reports + [last]) ==
      var before := Asserted(manifests, belief, reports);
      if !Counted(last) then before
      else match ManifestWith(manifests, DigestKey(last))
        case None => before
        case Some(m) => before[manifests[m].component := m]
  {
    hide DigestKey, Counted, ManifestWith;
    assert (reports + [last])[..|reports|] == reports;
  }

  lemma DigestIsUnambiguous(manifests: seq<ManifestRow>, digest: Bytes, pick: Option<nat>)
    requires UniqueDigests(manifests) && PicksManifestByDigest(manifests, digest, pick)
    ensures pick == ManifestWith(manifests, digest)
  {
  }

  /** A report that is not acted on asserts nothing. */
  lemma SkippedReport(before: Db, db: Db, kid: Bytes, reports: seq<ReportItem>, last: ReportItem)
    requires BeliefsFollow(before, db, kid, reports)
    requires !Counted(last) || ManifestWith(before.manifests, DigestKey(last)).None? || !KnownAgent(before.agents, kid)
    ensures BeliefsFollow(before, db, kid, reports + [last])
  {
    hide DigestKey, Counted, ManifestWith, OneActive, Believed, Asserted;
    forall a: nat | a < |before.agents|
      ensures Believed(db, a) == if before.agents[a].kid == kid
        then Asserted(before.manifests, Believed(before, a), reports + [last]) else Believed(before, a)
    {
      AssertedOneMore(before.manifests, Believed(before, a), reports, last);
    }
  }

  lemma HoldShape(db: Db, write: Write)
    requires write.Hold?
    ensures var db' := Apply(db, write); db' == db.(holdings := db'.holdings, reports := db'.reports)
  {
  }

  /** A report that is acted on asserts its manifest. */
  lemma ReflectedReport(before: Db, db: Db, kid: Bytes, reports: seq<ReportItem>, last: ReportItem,
                        agent: nat, manifest: nat, at: int)
    requires BeliefsFollow(before, db, kid, reports) && UniqueKids(before.agents)
    requires Counted(last) && ManifestWith(before.manifests, DigestKey(last)) == Some(manifest)
    requires OfKid(before, agent, kid) && manifest < |before.manifests|
    ensures BeliefsFollow(before, Apply(db, Hold(agent, manifest, before.manifests[manifest].component, at, last.raw)),
                          kid, reports + [last])
  {
    hide DigestKey, Counted, ManifestWith, OneActive, Believed, Asserted, Apply;
    var write := Hold(agent, manifest, before.manifests[manifest].component, at, last.raw);
    HoldShape(db, write);
    forall a: nat | a < |before.agents|
      ensures Believed(Apply(db, write), a) == if before.agents[a].kid == kid
        then Asserted(before.manifests, Believed(before, a), reports + [last]) else Believed(before, a)
      ensures OneActive(Apply(db, write))
    {
      AssertedOneMore(before.manifests, Believed(before, a), reports, last);
      HoldReplaces(db, write, a);
    }
  }
}
