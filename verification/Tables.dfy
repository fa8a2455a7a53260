/**
 The relational store: its tables, the statements that write them and what each
 lookup may answer.  No modelled statement deletes a row, so a row's id is its
 position.  A lookup with LIMIT 1 may answer any matching row: no order is assumed
 unless the statement itself orders.
 */
module Tables {
  import opened Wrappers

  type Byte = b: int | 0 <= b < 256
  type Bytes = seq<Byte>

  /** A public key in its encoded (stored) form. */
  type Key = Bytes

  // Times are nanoseconds.
  const SECOND: int := 1_000_000_000
  const KEY_LIFETIME: int := 365 * 24 * 3600 * SECOND

  /** Agents, revocations and holdings are stamped in whole seconds. */
  function WholeSeconds(time: int): int
  {
    time - time % SECOND
  }

  /** How an unsigned 64-bit value reads as a signed column, and back. */
  function Signed64(value: int): int
  {
    if value > 0x7FFF_FFFF_FFFF_FFFF then value - 0x1_0000_0000_0000_0000 else value
  }

  function Unsigned64(stored: int): int
  {
    if stored < 0 then stored + 0x1_0000_0000_0000_0000 else stored
  }

  // One row of the tokens table or of the challenges table.
  datatype HandleRow = HandleRow(bytes: Bytes, consumed: bool)
  datatype AgentRow = AgentRow(kid: Bytes, device: Option<nat>, publicKey: Key,
                               createdAt: int, expiredAt: int, revokedAt: Option<int>)
  datatype QueryRow = QueryRow(attestation: bool, tcList: bool, token: Option<nat>, challenge: Option<nat>)
  datatype UpdateRow = UpdateRow(agent: nat, token: nat)
  datatype LinkRow = LinkRow(update: nat, manifest: nat)
  datatype SigningKeyRow = SigningKeyRow(kid: Bytes, publicKey: Key)
  datatype ManifestRow = ManifestRow(envelope: Bytes, digest: Bytes, signingKey: nat,
                                     component: Bytes, sequenceNumber: int)
  datatype HoldingRow = HoldingRow(agent: nat, manifest: nat, createdAt: int, deleted: bool)
  datatype ReportRow = ReportRow(agent: nat, manifest: Option<nat>, report: Bytes, resolved: bool)

  datatype Db = Db(
    tokens: seq<HandleRow>,
    challenges: seq<HandleRow>,
    queries: seq<QueryRow>,
    updates: seq<UpdateRow>,
    links: seq<LinkRow>,
    agents: seq<AgentRow>,
    signingKeys: seq<SigningKeyRow>,
    manifests: seq<ManifestRow>,
    holdings: seq<HoldingRow>,
    reports: seq<ReportRow>,
    devices: seq<Bytes>)

  /** A store holding nothing but the given signing keys and devices. */
  function EmptyDb(signingKeys: seq<SigningKeyRow>, devices: seq<Bytes>): Db
  {
    Db([], [], [], [], [], [], signingKeys, [], [], [], devices)
  }

  // ---- lookups ----

  ghost predicate Issued(rows: seq<HandleRow>, bytes: Bytes)
  {
    exists i :: 0 <= i < |rows| && rows[i].bytes == bytes
  }

  ghost predicate Unconsumed(rows: seq<HandleRow>, bytes: Bytes)
  {
    exists i :: 0 <= i < |rows| && rows[i].bytes == bytes && !rows[i].consumed
  }

  ghost predicate Spent(rows: seq<HandleRow>, bytes: Bytes)
  {
    exists i :: 0 <= i < |rows| && rows[i].bytes == bytes && rows[i].consumed
  }

  ghost predicate PicksHandle(rows: seq<HandleRow>, bytes: Bytes, pick: Option<nat>)
  {
    match pick
    case None => !Issued(rows, bytes)
    case Some(i) => i < |rows| && rows[i].bytes == bytes
  }

  ghost predicate KnownAgent(agents: seq<AgentRow>, kid: Bytes)
  {
    exists a :: 0 <= a < |agents| && agents[a].kid == kid
  }

  ghost predicate PicksAgent(agents: seq<AgentRow>, kid: Bytes, pick: Option<nat>)
  {
    match pick
    case None => !KnownAgent(agents, kid)
    case Some(a) => a < |agents| && agents[a].kid == kid
  }

  ghost predicate UniqueKids(agents: seq<AgentRow>)
  {
    forall a, b :: 0 <= a < b < |agents| ==> agents[a].kid != agents[b].kid
  }

  predicate Live(agent: AgentRow, now: int)
  {
    agent.revokedAt.None? && now <= agent.expiredAt
  }

  ghost predicate PicksSigningKey(keys: seq<SigningKeyRow>, kid: Bytes, pick: Option<nat>)
  {
    match pick
    case None => forall k :: 0 <= k < |keys| ==> keys[k].kid != kid
    case Some(k) => k < |keys| && keys[k].kid == kid
  }

  ghost predicate PicksDevice(devices: seq<Bytes>, ueid: Bytes, pick: Option<nat>)
  {
    match pick
    case None => ueid !in devices
    case Some(d) => d < |devices| && devices[d] == ueid
  }

  /** Query row q was sent under the token with these bytes. */
  predicate QueryUsesToken(db: Db, q: nat, token: Bytes)
  {
    q < |db.queries| && db.queries[q].token.Some? && db.queries[q].token.value < |db.tokens|
    && db.tokens[db.queries[q].token.value].bytes == token
  }

  predicate QueryUsesChallenge(db: Db, q: nat, challenge: Bytes)
  {
    q < |db.queries| && db.queries[q].challenge.Some? && db.queries[q].challenge.value < |db.challenges|
    && db.challenges[db.queries[q].challenge.value].bytes == challenge
  }

  predicate UpdateUsesToken(db: Db, u: nat, token: Bytes)
  {
    u < |db.updates| && db.updates[u].token < |db.tokens| && db.tokens[db.updates[u].token].bytes == token
  }

  ghost predicate PicksQueryByToken(db: Db, token: Bytes, pick: Option<nat>)
  {
    match pick
    case None => forall q: nat :: !QueryUsesToken(db, q, token)
    case Some(q) => QueryUsesToken(db, q, token)
  }

  ghost predicate PicksQueryByChallenge(db: Db, challenge: Bytes, pick: Option<nat>)
  {
    match pick
    case None => forall q: nat :: !QueryUsesChallenge(db, q, challenge)
    case Some(q) => QueryUsesChallenge(db, q, challenge)
  }

  /** The manifests linked to any update sent under the token, in link order. */
  function LinkedManifests(db: Db, token: Bytes, upTo: nat): (ids: seq<nat>)
    requires upTo <= |db.links|
  {
    if upTo == 0 then [] else
      var l := db.links[upTo - 1];
      LinkedManifests(db, token, upTo - 1) + (if UpdateUsesToken(db, l.update, token) then [l.manifest] else [])
  }

  /** What joining the token with its updates, their links and the linked manifests may
      answer: nothing without an update row, else every linked manifest, in any order. */
  ghost predicate PicksUpdate(db: Db, token: Bytes, answer: Option<seq<nat>>)
  {
    match answer
    case None => forall u: nat :: !UpdateUsesToken(db, u, token)
    case Some(ids) =>
      && (exists u: nat :: UpdateUsesToken(db, u, token))
      && multiset(ids) == multiset(LinkedManifests(db, token, |db.links|))
  }

  /** Row m has the largest sequence number stored for the component. */
  ghost predicate IsLatest(manifests: seq<ManifestRow>, component: Bytes, m: nat)
  {
    && m < |manifests| && manifests[m].component == component
    && forall k :: 0 <= k < |manifests| && manifests[k].component == component
         ==> manifests[k].sequenceNumber <= manifests[m].sequenceNumber
  }

  ghost predicate KnownComponent(manifests: seq<ManifestRow>, component: Bytes)
  {
    exists m :: 0 <= m < |manifests| && manifests[m].component == component
  }

  ghost predicate PicksLatest(manifests: seq<ManifestRow>, component: Bytes, pick: Option<nat>)
  {
    match pick
    case None => !KnownComponent(manifests, component)
    case Some(m) => IsLatest(manifests, component, m)
  }

  ghost predicate PicksManifestByDigest(manifests: seq<ManifestRow>, digest: Bytes, pick: Option<nat>)
  {
    match pick
    case None => forall m :: 0 <= m < |manifests| ==> manifests[m].digest != digest
    case Some(m) => m < |manifests| && manifests[m].digest == digest
  }

  // ---- writes ----

  /** The effect of one committed statement (or, for Hold, of one transaction). */
  datatype Write =
    | Nothing
    | PutToken(bytes: Bytes)
    | UseToken(bytes: Bytes)
    | PutChallenge(bytes: Bytes)
    | UseChallenge(bytes: Bytes)
    | PutQuery(query: QueryRow)
    | PutUpdate(update: UpdateRow)
    | PutLink(link: LinkRow)
    | PutAgent(agent: AgentRow)
    | RevokeAgent(kid: Bytes, at: int)
    | PutManifest(manifest: ManifestRow)
    | Hold(holder: nat, held: nat, component: Bytes, at: int, report: Bytes)
    | PutReport(row: ReportRow)

  function Consumed(rows: seq<HandleRow>, bytes: Bytes): (r: seq<HandleRow>)
    ensures |r| == |rows|
    ensures forall i :: 0 <= i < |rows| ==>
      r[i] == HandleRow(rows[i].bytes, rows[i].consumed || rows[i].bytes == bytes)
  {
    seq(|rows|, i requires 0 <= i < |rows| =>
      if rows[i].bytes == bytes then rows[i].(consumed := true) else rows[i])
  }

  function Revoked(agents: seq<AgentRow>, kid: Bytes, at: int): (r: seq<AgentRow>)
    ensures |r| == |agents|
    ensures forall i :: 0 <= i < |agents| ==>
      r[i] == if agents[i].kid == kid && agents[i].revokedAt.None?
              then agents[i].(revokedAt := Some(at)) else agents[i]
  {
    seq(|agents|, i requires 0 <= i < |agents| =>
      if agents[i].kid == kid && agents[i].revokedAt.None? then agents[i].(revokedAt := Some(at)) else agents[i])
  }

  /** Holding h is in force, belongs to the agent and is of the component. */
  predicate ActiveFor(db: Db, h: nat, agent: nat, component: Bytes)
  {
    h < |db.holdings| && !db.holdings[h].deleted && db.holdings[h].agent == agent
    && db.holdings[h].manifest < |db.manifests|
    && db.manifests[db.holdings[h].manifest].component == component
  }

  function Retired(db: Db, agent: nat, component: Bytes): (r: seq<HoldingRow>)
    ensures |r| == |db.holdings|
    ensures forall h: nat :: h < |db.holdings| ==>
      r[h] == if ActiveFor(db, h, agent, component)
              then db.holdings[h].(deleted := true) else db.holdings[h]
  {
    seq(|db.holdings|, h requires 0 <= h < |db.holdings| =>
      if ActiveFor(db, h, agent, component) then db.holdings[h].(deleted := true) else db.holdings[h])
  }

  /** After the retirement, some row in force would collide on the partial unique index. */
  ghost predicate HoldCollides(db: Db, agent: nat, manifest: nat, component: Bytes)
  {
    var retired := Retired(db, agent, component);
    exists h: nat :: h < |retired| && !retired[h].deleted
      && retired[h].agent == agent && retired[h].manifest == manifest
  }

  function Apply(db: Db, write: Write): Db
  {
    match write
    case Nothing => db
    case PutToken(b) => db.(tokens := db.tokens + [HandleRow(b, false)])
    case UseToken(b) => db.(tokens := Consumed(db.tokens, b))
    case PutChallenge(b) => db.(challenges := db.challenges + [HandleRow(b, false)])
    case UseChallenge(b) => db.(challenges := Consumed(db.challenges, b))
    case PutQuery(row) => db.(queries := db.queries + [row])
    case PutUpdate(row) => db.(updates := db.updates + [row])
    case PutLink(row) => db.(links := db.links + [row])
    case PutAgent(row) => db.(agents := db.agents + [row])
    case RevokeAgent(kid, at) => db.(agents := Revoked(db.agents, kid, at))
    case PutManifest(row) => db.(manifests := db.manifests + [row])
    case Hold(agent, manifest, component, at, report) =>
      db.(holdings := Retired(db, agent, component) + [HoldingRow(agent, manifest, at, false)],
          reports := db.reports + [ReportRow(agent, Some(manifest), report, true)])
    case PutReport(row) => db.(reports := db.reports + [row])
  }

  // ---- what every statement keeps ----

  ghost predicate HandlesExtend(rows: seq<HandleRow>, rows': seq<HandleRow>)
  {
    && |rows| <= |rows'|
    && forall i :: 0 <= i < |rows| ==> rows'[i].bytes == rows[i].bytes && (rows[i].consumed ==> rows'[i].consumed)
  }

  ghost predicate AgentsExtend(agents: seq<AgentRow>, agents': seq<AgentRow>)
  {
    && |agents| <= |agents'|
    && forall a :: 0 <= a < |agents| ==>
         && agents'[a].(revokedAt := None) == agents[a].(revokedAt := None)
         && (agents[a].revokedAt.Some? ==> agents'[a].revokedAt == agents[a].revokedAt)
  }

  ghost predicate HoldingsExtend(holdings: seq<HoldingRow>, holdings': seq<HoldingRow>)
  {
    && |holdings| <= |holdings'|
    && forall h :: 0 <= h < |holdings| ==>
         && holdings'[h].(deleted := false) == holdings[h].(deleted := false)
         && (holdings[h].deleted ==> holdings'[h].deleted)
  }

  /** Rows stay, keep their contents, and flags only ever go up: a consumed handle stays
      consumed, a revoked agent stays revoked, an agent's key and expiry never change. */
  ghost predicate Extends(db: Db, db': Db)
  {
    && HandlesExtend(db.tokens, db'.tokens)
    && HandlesExtend(db.challenges, db'.challenges)
    && db.queries <= db'.queries
    && db.updates <= db'.updates
    && db.links <= db'.links
    && AgentsExtend(db.agents, db'.agents)
    && db.signingKeys == db'.signingKeys
    && db.manifests <= db'.manifests
    && HoldingsExtend(db.holdings, db'.holdings)
    && db.reports <= db'.reports
    && db.devices == db'.devices
  }

  lemma ApplyExtends(db: Db, write: Write)
    ensures Extends(db, Apply(db, write))
  {
  }

  lemma ExtendsTransitive(a: Db, b: Db, c: Db)
    requires Extends(a, b) && Extends(b, c)
    ensures Extends(a, c)
  {
    forall i | 0 <= i < |a.agents|
      ensures c.agents[i].(revokedAt := None) == a.agents[i].(revokedAt := None)
      ensures a.agents[i].revokedAt.Some? ==> c.agents[i].revokedAt == a.agents[i].revokedAt
    {
      assert b.agents[i].(revokedAt := None) == a.agents[i].(revokedAt := None);
    }
    forall h | 0 <= h < |a.holdings|
      ensures c.holdings[h].(deleted := false) == a.holdings[h].(deleted := false)
      ensures a.holdings[h].deleted ==> c.holdings[h].deleted
    {
      assert b.holdings[h].(deleted := false) == a.holdings[h].(deleted := false);
    }
  }
}
