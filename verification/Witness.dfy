/**
 Runs that show the exceptions are real: a key dies while an Update for it, or a report from
 it, is still on its way; and an agent's holding is left out of every status answer.
 */
module Witness {
  import opened Wrappers
  import opened Tables
  import opened Protocol
  import opened Machine
  import opened Solo
  import opened Statements
  import opened Delivery
  import opened Holdings
  import opened Beliefs
  import opened Revocation
  import opened Footing
  import opened LateReports
  import opened Continuations
  import opened Status
  import Cbor

  /** The key has this 32-byte thumbprint, can be used, and verifies the body. */
  predicate CanAttest(w: World, body: Bytes, key: Key, kid: Bytes)
  {
    |kid| == 32 && w.thumbprint(key) == Some(kid) && w.usable(key) && w.verifies(body, key)
  }

  function Random(n: Byte): (r: Bytes)
    ensures |r| == 32 && r[0] == n
  {
    seq(32, i => n)
  }

  /** No handle from the n-th on has been drawn. */
  ghost predicate Unused(db: Db, n: int)
  {
    forall k: Byte :: n <= k ==> !Issued(db.tokens, Random(k)) && !Issued(db.challenges, Random(k))
  }

  // ---- the requests ----

  function Answering(token: Bytes): Input
  {
    Signed([], Message(KindQueryResponse, Some(token), None, EatFormat, [], [], []), Some([1]), NotAffirming)
  }

  function Attested(body: Bytes, challenge: Bytes, key: Key, wanted: seq<Cbor.ComponentId>): Input
  {
    Signed(body, Message(KindQueryResponse, None, Some([]), EatFormat, wanted, [], []), Some([1]),
           Affirming(Some(challenge), Some(key), None))
  }

  function Installed(body: Bytes, token: Bytes, kid: Bytes, report: ReportItem): Input
  {
    Signed(body, Message(KindSuccess, Some(token), None, EatFormat, [], [], [report]), Some(kid), NotAffirming)
  }

  // ---- what the store holds after them ----

  function Asked(db: Db, token: Bytes): Db
  {
    db.(tokens := db.tokens + [HandleRow(token, false)],
        queries := db.queries + [QueryRow(false, true, Some(|db.tokens|), None)])
  }

  function Challenged(db: Db, token: Bytes, challenge: Bytes): Db
  {
    db.(tokens := Consumed(db.tokens, token), challenges := db.challenges + [HandleRow(challenge, false)],
        queries := db.queries + [QueryRow(true, false, None, Some(|db.challenges|))])
  }

  function Enrolled(db: Db, challenge: Bytes, agent: AgentRow): Db
  {
    db.(challenges := Consumed(db.challenges, challenge), agents := db.agents + [agent])
  }

  // ---- each request served ----

  lemma AskLeads(w: World, now: int, db: Db, token: Bytes) returns (c: Config)
    requires |token| == 32 && !Issued(db.tokens, token)
    ensures Leads(w, Start(now, db, EmptyBody), c) && c.now == now && c.db == Asked(db, token)
  {
    hide Leads, Issued;
    var start := Start(now, db, EmptyBody);
    LeadsNowhere(w, start);
    LeadsToken(w, start, start, AskTcList, token);
    var drawn := Config(now, Apply(db, PutToken(token)), start.req, AfterToken(token, AskTcList));
    LeadsQuery(w, start, drawn, TokenHandle(token), Some(|db.tokens|));
    c := Config(now, Asked(db, token), start.req, Done(QuerySent(TokenHandle(token), false, true)));
  }

  lemma ChallengeLeads(w: World, now: int, db: Db, token: Bytes, q: nat, challenge: Bytes) returns (c: Config)
    requires Unconsumed(db.tokens, token) && QueryUsesToken(db, q, token)
    requires |challenge| == 32 && !Issued(db.challenges, challenge)
    ensures Leads(w, Start(now, db, Answering(token)), c) && c.now == now && c.db == Challenged(db, token, challenge)
  {
    hide Leads, Issued, Unconsumed;
    var start := Start(now, db, Answering(token));
    LeadsNowhere(w, start);
    LeadsConsumeToken(w, start, start, token);
    var used := Apply(db, UseToken(token));
    var req := start.req.(token := Some(token));
    LeadsFindQuery(w, start, Config(now, used, req, Matching(FindQuery)), token, Some(q));
    var row := db.queries[q];
    var found := req.(recovered := Some(SentQuery(TokenHandle(token), row.attestation, row.tcList)));
    LeadsChallenge(w, start, Config(now, used, found, Issuing(DrawChallenge)), challenge);
    var drawn := Config(now, Apply(used, PutChallenge(challenge)), found,
                        Issuing(CheckQuery(ChallengeHandle(challenge))));
    LeadsQuery(w, start, drawn, ChallengeHandle(challenge), Some(|db.challenges|));
    c := Config(now, Challenged(db, token, challenge), found, Done(QuerySent(ChallengeHandle(challenge), true, false)));
  }

  lemma FindsChallenge(w: World, now: int, db: Db, challenge: Bytes, q: nat, body: Bytes, key: Key, kid: Bytes,
                       wanted: seq<Cbor.ComponentId>) returns (c: Config)
    requires Unconsumed(db.challenges, challenge) && QueryUsesChallenge(db, q, challenge)
    requires CanAttest(w, body, key, kid)
    ensures Leads(w, Start(now, db, Attested(body, challenge, key, wanted)), c) && c.now == now
    ensures c.db == Apply(db, UseChallenge(challenge)) && c.pc == Attesting(FindKey(kid))
    ensures c.req.input == Attested(body, challenge, key, wanted) && c.req.recovered.Some?
    ensures SentToken(c.req.recovered.value) == []
  {
    hide Leads, Unconsumed, ComponentSet;
    var start := Start(now, db, Attested(body, challenge, key, wanted));
    LeadsNowhere(w, start);
    LeadsConsumeChallenge(w, start, start, challenge);
    var used := Apply(db, UseChallenge(challenge));
    var req := start.req.(challenge := Some(challenge));
    LeadsFindByChallenge(w, start, Config(now, used, req, Attesting(FindByChallenge)), challenge, Some(q));
    var row := db.queries[q];
    var found := req.(recovered := Some(SentQuery(ChallengeHandle(challenge), row.attestation, row.tcList)));
    c := Config(now, used, found, AfterChallenge(w, found));
  }

  lemma AttestLeads(w: World, now: int, db: Db, challenge: Bytes, q: nat, body: Bytes, key: Key, kid: Bytes,
                    wanted: seq<Cbor.ComponentId>) returns (c: Config)
    requires Unconsumed(db.challenges, challenge) && QueryUsesChallenge(db, q, challenge)
    requires CanAttest(w, body, key, kid)
    requires !KnownAgent(db.agents, kid)
    ensures Leads(w, Start(now, db, Attested(body, challenge, key, wanted)), c) && c.now == now
    ensures c.db == Enrolled(db, challenge, NewAgent(kid, None, key, now))
    ensures c.pc == Issuing(DrawToken(Deliver(kid, ComponentSet(Attested(body, challenge, key, wanted).message))))
  {
    hide Leads, Unconsumed, KnownAgent, ComponentSet, NewAgent;
    var input := Attested(body, challenge, key, wanted);
    var found := FindsChallenge(w, now, db, challenge, q, body, key, kid, wanted);
    LeadsFindKey(w, Start(now, db, input), found, kid, now, None);
    var absent := found.(pc := Attesting(AddAgent(kid, None)));
    LeadsAddAgent(w, Start(now, db, input), absent, kid, None, now);
    c := Config(now, Enrolled(db, challenge, NewAgent(kid, None, key, now)), absent.req, Respond(absent.req, kid));
  }

  /** On to the liveness check, which the key just stored passes. */
  lemma DeliverLeads(w: World, a: Config, b: Config, kid: Bytes, component: Bytes, token: Bytes, m: nat, agent: nat)
    returns (c: Config)
    requires Leads(w, a, b) && b.pc == Issuing(DrawToken(Deliver(kid, [component])))
    requires |token| == 32 && !Issued(b.db.tokens, token) && IsLatest(b.db.manifests, component, m)
    requires agent < |b.db.agents| && b.db.agents[agent].kid == kid && Live(b.db.agents[agent], b.now)
    ensures Leads(w, a, c) && c.now == b.now && c.db == Apply(b.db, PutToken(token))
    ensures c.pc == Delivering(CheckToken(kid, token, [m], agent))
  {
    hide Leads, Issued, IsLatest, Live;
    LeadsToken(w, a, b, Deliver(kid, [component]), token);
    var db := Apply(b.db, PutToken(token));
    var pick := Config(b.now, db, b.req, Delivering(PickLatest(kid, token, [component], [])));
    LeadsPickLatest(w, a, pick, Some(m));
    assert [component][1..] == [] && [] + [m] == [m];
    var check := pick.(pc := Delivering(CheckAgent(kid, token, [m])));
    LeadsCheckAgent(w, a, check, b.now, Some(agent));
    c := check.(pc := Delivering(CheckToken(kid, token, [m], agent)));
  }

  lemma ReportLeads(w: World, now: int, db: Db, token: Bytes, q: nat, body: Bytes, kid: Bytes, a: nat,
                    report: ReportItem)
    returns (c: Config)
    requires Unconsumed(db.tokens, token) && QueryUsesToken(db, q, token) && Counted(report) && |kid| == 32
    requires a < |db.agents| && db.agents[a].kid == kid && Live(db.agents[a], now)
    requires w.usable(db.agents[a].publicKey) && w.verifies(body, db.agents[a].publicKey)
    ensures Leads(w, Start(now, db, Installed(body, token, kid, report)), c) && c.now == now
    ensures c.db == Apply(db, UseToken(token)) && c.pc == Reporting(FindReport(kid, 0))
    ensures c.req.input == Installed(body, token, kid, report) && c.req.auth == Some(kid)
  {
    hide Leads, Unconsumed, Counted, Live;
    var start := Start(now, db, Installed(body, token, kid, report));
    LeadsNowhere(w, start);
    LeadsAuthenticate(w, start, start, now, Some(a));
    var known := start.req.(auth := Some(kid));
    LeadsConsumeToken(w, start, Config(now, db, known, Matching(ConsumeToken)), token);
    var used := Apply(db, UseToken(token));
    var req := known.(token := Some(token));
    LeadsFindQuery(w, start, Config(now, used, req, Matching(FindQuery)), token, Some(q));
    var row := db.queries[q];
    var found := req.(recovered := Some(SentQuery(TokenHandle(token), row.attestation, row.tcList)));
    c := Config(now, used, found, Dispatch(found));
  }

  lemma HoldLeads(w: World, b: Config, start: Config, body: Bytes, token: Bytes, kid: Bytes, a: nat,
                  report: ReportItem, m: nat)
    returns (c: Config)
    requires Leads(w, start, b) && b.pc == Reporting(FindReport(kid, 0))
    requires b.req.input == Installed(body, token, kid, report)
    requires Counted(report) && a < |b.db.agents| && b.db.agents[a].kid == kid
    requires m < |b.db.manifests| && b.db.manifests[m].digest == DigestKey(report)
    ensures Leads(w, start, c) && c.now == b.now
    ensures c.db == Apply(b.db, Hold(a, m, b.db.manifests[m].component, WholeSeconds(b.now), report.raw))
  {
    hide Leads, Counted, DigestKey;
    HoldNeverCollides(b.db, a, m, b.db.manifests[m].component);
    LeadsReflect(w, start, b, kid, 0, b.now, Some(a), Some(m));
    c := Config(b.now, Apply(b.db, Hold(a, m, b.db.manifests[m].component, WholeSeconds(b.now), report.raw)), b.req,
                SuccessFrom(kid, [report], 1));
  }

  // ---- one request after another ----

  /** Only handles changed. */
  predicate SameRows(db: Db, db': Db)
  {
    db'.(tokens := db.tokens, challenges := db.challenges, queries := db.queries) == db
  }

  lemma AskUses(db: Db, n: Byte)
    requires Unused(db, n)
    ensures var db' := Asked(db, Random(n));
      && SameRows(db, db') && Unconsumed(db'.tokens, Random(n)) && QueryUsesToken(db', |db.queries|, Random(n))
      && Unused(db', n + 1) && !Issued(db'.challenges, Random(n))
  {
    var db' := Asked(db, Random(n));
    assert db'.tokens[|db.tokens|] == HandleRow(Random(n), false);
    forall k: Byte | n + 1 <= k ensures !Issued(db'.tokens, Random(k)) {
      assert Random(k)[0] != Random(n)[0];
    }
  }

  lemma ChallengeUses(db: Db, n: Byte)
    requires Unused(db, n + 1)
    ensures var db' := Challenged(db, Random(n), Random(n));
      && SameRows(db, db') && Unconsumed(db'.challenges, Random(n)) && QueryUsesChallenge(db', |db.queries|, Random(n))
      && Unused(db', n + 1)
  {
    var db' := Challenged(db, Random(n), Random(n));
    assert db'.challenges[|db.challenges|] == HandleRow(Random(n), false);
    forall k: Byte | n + 1 <= k ensures !Issued(db'.tokens, Random(k)) && !Issued(db'.challenges, Random(k)) {
      assert Random(k)[0] != Random(n)[0];
      assert forall i :: 0 <= i < |db.tokens| ==> db'.tokens[i].bytes == db.tokens[i].bytes;
    }
  }

  lemma Asking(w: World, s: Sys, n: Byte) returns (s': Sys, q: nat)
    requires Unused(s.db, n)
    ensures Reaches(w, s, s') && s'.now == s.now && SameRows(s.db, s'.db) && Unused(s'.db, n + 1)
    ensures Unconsumed(s'.db.tokens, Random(n)) && QueryUsesToken(s'.db, q, Random(n))
    ensures !Issued(s'.db.challenges, Random(n))
    ensures |s.threads| <= |s'.threads| && forall j :: 0 <= j < |s.threads| ==> s'.threads[j] == s.threads[j]
  {
    AskUses(s.db, n);
    q := |s.db.queries|;
    hide Asked, SameRows, Unconsumed, Reaches, Leads;
    var c := AskLeads(w, s.now, s.db, Random(n));
    s' := Serving(w, s, EmptyBody, c);
  }

  /** An empty POST, and an answer nobody can authenticate: a challenge is out. */
  lemma Inviting(w: World, s: Sys, n: Byte) returns (s': Sys, q: nat)
    requires Unused(s.db, n)
    ensures Reaches(w, s, s') && s'.now == s.now && SameRows(s.db, s'.db) && Unused(s'.db, n + 1)
    ensures Unconsumed(s'.db.challenges, Random(n)) && QueryUsesChallenge(s'.db, q, Random(n))
    ensures |s.threads| <= |s'.threads| && forall j :: 0 <= j < |s.threads| ==> s'.threads[j] == s.threads[j]
  {
    hide Challenged, Unconsumed, Issued, Reaches, Leads, Unused;
    var s1, q1 := Asking(w, s, n);
    ChallengeUses(s1.db, n);
    var c := ChallengeLeads(w, s1.now, s1.db, Random(n), q1, Random(n));
    s' := Serving(w, s1, Answering(Random(n)), c);
    q := |s1.db.queries|;
    ReachesOn(w, s, s1, s');
  }

  lemma EnrolKeepsUnused(db: Db, n: int, challenge: Bytes, agent: AgentRow)
    requires Unused(db, n)
    ensures Unused(Enrolled(db, challenge, agent), n)
  {
    var db' := Enrolled(db, challenge, agent);
    forall k: Byte | n <= k ensures !Issued(db'.tokens, Random(k)) && !Issued(db'.challenges, Random(k)) {
      assert forall i :: 0 <= i < |db.challenges| ==> db'.challenges[i].bytes == db.challenges[i].bytes;
    }
  }

  /** A new key attested: its agent is stored. */
  lemma Enrolling(w: World, s: Sys, n: Byte, body: Bytes, key: Key, kid: Bytes) returns (s': Sys)
    requires Unused(s.db, n) && CanAttest(w, body, key, kid) && !KnownAgent(s.db.agents, kid)
    ensures Reaches(w, s, s') && s'.now == s.now && Unused(s'.db, n + 1)
    ensures SameRows(s.db.(agents := s.db.agents + [NewAgent(kid, None, key, s.now)]), s'.db)
  {
    hide Unconsumed, Issued, Reaches, Leads, Unused, ComponentSet, KnownAgent, CanAttest, NewAgent;
    var s1, q := Inviting(w, s, n);
    EnrolKeepsUnused(s1.db, n + 1, Random(n), NewAgent(kid, None, key, s.now));
    var c := AttestLeads(w, s1.now, s1.db, Random(n), q, body, key, kid, []);
    s' := Serving(w, s1, Attested(body, Random(n), key, []), c);
    ReachesOn(w, s, s1, s');
  }

  lemma UseKeepsUnused(db: Db, n: int, token: Bytes)
    requires Unused(db, n)
    ensures Unused(Apply(db, UseToken(token)), n)
  {
    var db' := Apply(db, UseToken(token));
    forall k: Byte | n <= k ensures !Issued(db'.tokens, Random(k)) {
      assert forall i :: 0 <= i < |db.tokens| ==> db'.tokens[i].bytes == db.tokens[i].bytes;
    }
  }

  predicate Speaks(w: World, now: int, db: Db, body: Bytes, kid: Bytes, a: nat)
  {
    && |kid| == 32 && a < |db.agents| && db.agents[a].kid == kid && Live(db.agents[a], now)
    && w.usable(db.agents[a].publicKey) && w.verifies(body, db.agents[a].publicKey)
  }

  /** A live key sends a Success under a fresh token: its report is about to be looked up. */
  lemma Announcing(w: World, s: Sys, n: Byte, body: Bytes, kid: Bytes, a: nat, report: ReportItem)
    returns (s1: Sys, c: Config)
    requires Unused(s.db, n) && Counted(report) && Speaks(w, s.now, s.db, body, kid, a)
    ensures Reaches(w, s, s1) && Leads(w, Start(s1.now, s1.db, Installed(body, Random(n), kid, report)), c)
    ensures s1.now == c.now == s.now && SameRows(s.db, c.db) && Unused(c.db, n + 1)
    ensures c.pc == Reporting(FindReport(kid, 0))
    ensures c.req.input == Installed(body, Random(n), kid, report) && c.req.auth == Some(kid)
  {
    hide Unconsumed, Issued, Reaches, Leads, Unused, Counted, Live;
    var q: nat;
    s1, q := Asking(w, s, n);
    UseKeepsUnused(s1.db, n + 1, Random(n));
    c := ReportLeads(w, s1.now, s1.db, Random(n), q, body, kid, a, report);
  }

  /** And then recorded. */
  lemma Holding(w: World, s: Sys, n: Byte, body: Bytes, kid: Bytes, a: nat, report: ReportItem, m: nat)
    returns (s': Sys)
    requires Unused(s.db, n) && Counted(report) && Speaks(w, s.now, s.db, body, kid, a)
    requires m < |s.db.manifests| && s.db.manifests[m].digest == DigestKey(report)
    ensures Reaches(w, s, s') && s'.now == s.now && Unused(s'.db, n + 1)
    ensures s'.db.agents == s.db.agents && s'.db.manifests == s.db.manifests
    ensures s'.db.holdings ==
      Retired(s.db, a, s.db.manifests[m].component) + [HoldingRow(a, m, WholeSeconds(s.now), false)]
  {
    hide Reaches, Leads, Unused, Counted, Live, DigestKey;
    var s1, c1 := Announcing(w, s, n, body, kid, a, report);
    var input := Installed(body, Random(n), kid, report);
    var c := HoldLeads(w, c1, Start(s1.now, s1.db, input), body, Random(n), kid, a, report, m);
    HoldKeepsUnused(c1.db, n + 1, Hold(a, m, c1.db.manifests[m].component, WholeSeconds(c1.now), report.raw));
    s' := Serving(w, s1, input, c);
    ReachesOn(w, s, s1, s');
  }

  lemma HoldKeepsUnused(db: Db, n: int, write: Write)
    requires Unused(db, n) && write.Hold?
    ensures Unused(Apply(db, write), n)
  {
  }

  /** The key is revoked, whatever else is under way. */
  lemma Revoking(w: World, s: Sys, kid: Bytes, a: nat) returns (s': Sys)
    requires |kid| == 32 && a < |s.db.agents| && s.db.agents[a].kid == kid && s.db.agents[a].revokedAt.None?
    ensures Reaches(w, s, s') && Dead(s'.db, s'.now, kid)
    ensures s'.db == s.db.(agents := s'.db.agents) && |s'.db.agents| == |s.db.agents| && s'.db.agents[a].kid == kid
    ensures |s.threads| <= |s'.threads| && forall j :: 0 <= j < |s.threads| ==> s'.threads[j] == s.threads[j]
  {
    hide Reaches, Leads;
    var start := Start(s.now, s.db, Revocation(kid));
    LeadsNowhere(w, start);
    LeadsRevoke(w, start, start, s.now);
    s' := Serving(w, s, Revocation(kid),
      Config(s.now, Apply(s.db, RevokeAgent(kid, WholeSeconds(s.now))), start.req, Done(RevokedNow)));
    assert !Live(s'.db.agents[a], s'.now);
  }

  // ---- the exceptions are met ----

  const SIGNERS: seq<SigningKeyRow> := [SigningKeyRow([7], [])]

  lemma Beginning(w: World, now: int, digest: Bytes, component: Bytes) returns (s: Sys)
    ensures Reaches(w, Initial(now, SIGNERS, []), s) && s.now == now && Unused(s.db, 0)
    ensures s.db == EmptyDb(SIGNERS, []).(manifests := [NewRow(digest, component)])
    ensures IsLatest(s.db.manifests, component, 0)
  {
    hide Reaches;
    s := Register(w, Initial(now, SIGNERS, []), digest, component);
  }

  lemma ReachedFrom(w: World, now: int, s: Sys) returns (past: seq<Action>)
    requires Reaches(w, Initial(now, SIGNERS, []), s)
    ensures Reached(w, now, SIGNERS, [], past) == s
  {
    past :| Execute(w, Initial(now, SIGNERS, []), past) == s;
  }

  /** A key can be revoked while an Update for it is past the liveness check: there are runs on
      which the exception to NoUpdateForDeadKey is met. */
  lemma DeadYetPastGate(w: World, now: int, body: Bytes, key: Key, kid: Bytes, id: Cbor.ComponentId)
    returns (past: seq<Action>, i: nat)
    requires CanAttest(w, body, key, kid)
    ensures var s := Reached(w, now, SIGNERS, [], past);
      Dead(s.db, s.now, kid) && i < |s.threads| && PastGate(s.db, s.threads[i].pc, kid)
  {
    hide Reaches, Leads, Unconsumed, Issued, NewRow, Reached, Dead;
    var component := Cbor.ComponentKey(id);
    var s1 := Beginning(w, now, [], component);
    var s2, q := Inviting(w, s1, 0);
    ReachesOn(w, Initial(now, SIGNERS, []), s1, s2);
    var s3 := Delivered(w, s2, q, body, key, kid, id);
    ReachesOn(w, Initial(now, SIGNERS, []), s2, s3);
    i := |s2.threads|;
    var s4 := Revoking(w, s3, kid, 0);
    ReachesOn(w, Initial(now, SIGNERS, []), s3, s4);
    past := ReachedFrom(w, now, s4);
  }

  /** The new key asks for the component: its Update passes the liveness check. */
  lemma Delivered(w: World, s: Sys, q: nat, body: Bytes, key: Key, kid: Bytes, id: Cbor.ComponentId) returns (s': Sys)
    requires CanAttest(w, body, key, kid) && s.db.agents == [] && IsLatest(s.db.manifests, Cbor.ComponentKey(id), 0)
    requires Unused(s.db, 1) && Unconsumed(s.db.challenges, Random(0)) && QueryUsesChallenge(s.db, q, Random(0))
    ensures Reaches(w, s, s') && |s'.threads| == |s.threads| + 1
    ensures s'.db.agents == [NewAgent(kid, None, key, s.now)] && Unconsumed(s'.db.tokens, Random(1))
    ensures s'.threads[|s.threads|].pc == Delivering(CheckToken(kid, Random(1), [0], 0))
  {
    hide Reaches, Leads, Issued, IsLatest;
    var input := Attested(body, Random(0), key, [id]);
    OnlyWanted(body, Random(0), key, id);
    EnrolKeepsUnused(s.db, 1, Random(0), NewAgent(kid, None, key, s.now));
    NewIsLive(kid, key, s.now);
    hide Unused, Unconsumed, ComponentSet, NewAgent, Live;
    var c := AttestLeads(w, s.now, s.db, Random(0), q, body, key, kid, [id]);
    assert !Issued(c.db.tokens, Random(1)) by { UnusedNow(c.db, 1); }
    var c' := DeliverLeads(w, Start(s.now, s.db, input), c, kid, Cbor.ComponentKey(id), Random(1), 0, 0);
    s' := Serving(w, s, input, c');
    PutIsUnconsumed(c.db, Random(1));
  }

  lemma UnusedNow(db: Db, n: Byte)
    requires Unused(db, n)
    ensures !Issued(db.tokens, Random(n))
  {
  }

  lemma PutIsUnconsumed(db: Db, token: Bytes)
    ensures Unconsumed(Apply(db, PutToken(token)).tokens, token)
  {
    assert Apply(db, PutToken(token)).tokens[|db.tokens|] == HandleRow(token, false);
  }

  lemma OnlyWanted(body: Bytes, challenge: Bytes, key: Key, id: Cbor.ComponentId)
    ensures ComponentSet(Attested(body, challenge, key, [id]).message) == [Cbor.ComponentKey(id)]
  {
    assert AddDistinct([], [id]) == AddDistinct([Cbor.ComponentKey(id)], []);
  }

  lemma NewIsLive(kid: Bytes, key: Key, now: int)
    ensures Live(NewAgent(kid, None, key, now), now) && NewAgent(kid, None, key, now).revokedAt.None?
    ensures NewAgent(kid, None, key, now).kid == kid && NewAgent(kid, None, key, now).publicKey == key
    ensures Live(NewAgent(kid, None, key, now), now + SECOND)
  {
  }

  lemma SpeaksForItself(w: World, now: int, db: Db, body: Bytes, key: Key, kid: Bytes, a: nat, born: int)
    requires CanAttest(w, body, key, kid) && a < |db.agents| && db.agents[a] == NewAgent(kid, None, key, born)
    requires now == born || now == born + SECOND
    ensures Speaks(w, now, db, body, kid, a)
  {
    NewIsLive(kid, key, born);
    hide Live, NewAgent;
  }

  /** A key can be revoked while a report from it is about to be looked up: there are runs on
      which the exception to NoHoldingForDeadKey is met, and the belief changes. */
  lemma DeadYetReporting(w: World, now: int, body: Bytes, key: Key, kid: Bytes, report: ReportItem, component: Bytes)
    returns (past: seq<Action>, more: seq<Action>)
    requires CanAttest(w, body, key, kid) && Counted(report)
    ensures |more| == 2
    ensures var s := Reached(w, now, SIGNERS, [], past);
      && Dead(s.db, s.now, kid) && |s.db.agents| == 1 && s.db.agents[0].kid == kid
      && Believed(s.db, 0) == map[] && Believed(Execute(w, s, more).db, 0) == map[component := 0]
  {
    hide Reaches, Leads, Unused, DigestKey, Counted, Reached, Dead, Execute, Believed, Speaks, NewAgent;
    var s1 := Beginning(w, now, DigestKey(report), component);
    var s2 := Enrolling(w, s1, 0, body, key, kid);
    SpeaksForItself(w, s2.now, s2.db, body, key, kid, 0, now);
    NewIsLive(kid, key, now);
    var s3, i := AboutToReport(w, s2, 1, body, kid, 0, report);
    var s4 := Revoking(w, s3, kid, 0);
    ReachesOn(w, Initial(now, SIGNERS, []), s1, s2);
    ReachesOn(w, Initial(now, SIGNERS, []), s2, s3);
    ReachesOn(w, Initial(now, SIGNERS, []), s3, s4);
    past := ReachedFrom(w, now, s4);
    LateReportStillLands(w, now, SIGNERS, [], past, i, 0, 0);
    more := [Run(i, Choose(Some(0), Some(0))), Run(i, Choose(None, None))];
    assert Believed(s4.db, 0) == map[] by { NothingBelieved(s4.db); }
  }

  lemma NothingBelieved(db: Db)
    requires db.holdings == []
    ensures Believed(db, 0) == map[]
  {
  }

  lemma AboutToReport(w: World, s: Sys, n: Byte, body: Bytes, kid: Bytes, a: nat, report: ReportItem)
    returns (s': Sys, i: nat)
    requires Unused(s.db, n) && Counted(report) && Speaks(w, s.now, s.db, body, kid, a)
    ensures Reaches(w, s, s') && s'.now == s.now && SameRows(s.db, s'.db)
    ensures i < |s'.threads| && s'.threads[i].pc == Reporting(FindReport(kid, 0))
    ensures s'.threads[i].req.input == Installed(body, Random(n), kid, report)
  {
    hide Reaches, Leads, Unused, Counted, Speaks;
    var s1, c := Announcing(w, s, n, body, kid, a, report);
    s' := Serving(w, s1, Installed(body, Random(n), kid, report), c);
    i := |s1.threads|;
    ReachesOn(w, s, s1, s');
  }

  /** Two agents report the same component a second apart: what the first is believed to hold
      is missing from every answer about its status. */
  lemma HoldingGoesUnlisted(w: World, now: int, body: Bytes, key: Key, kid: Bytes, body': Bytes, key': Key, kid': Bytes,
                            report: ReportItem, component: Bytes) returns (past: seq<Action>)
    requires CanAttest(w, body, key, kid) && CanAttest(w, body', key', kid') && kid != kid' && Counted(report)
    ensures var s := Reached(w, now, SIGNERS, [], past);
      && |s.db.agents| == 2 && s.db.agents[0].kid == kid && ActiveFor(s.db, 0, 0, component)
      && forall manifests: seq<Overview> :: ShowsSome(s.db, 0, manifests) ==> !Lists(manifests, component)
  {
    hide Reaches, Leads, Unused, DigestKey, Counted, Reached, Believed, CanAttest, NewAgent, ShowsSome, Lists, Speaks;
    var s2 := Pair(w, now, body, key, kid, body', key', kid', report, component);
    SpeaksForItself(w, s2.now, s2.db, body, key, kid, 0, now);
    var s3 := Holding(w, s2, 2, body, kid, 0, report, 0);
    assert s3.db.holdings == [HoldingRow(0, 0, WholeSeconds(now), false)];
    var s4 := Step(w, s3, Tick(SECOND));
    ReachesByOne(w, s3, Tick(SECOND));
    SpeaksForItself(w, s4.now, s4.db, body', key', kid', 1, now);
    var s5 := Holding(w, s4, 3, body', kid', 1, report, 0);
    var s0 := Initial(now, SIGNERS, []);
    ReachesOn(w, s0, s2, s3);
    ReachesOn(w, s0, s3, s4);
    ReachesOn(w, s0, s4, s5);
    past := ReachedFrom(w, now, s5);
    ASecondLater(now);
    SecondIsLater(s4.db, s5.db, component, WholeSeconds(now), WholeSeconds(now + SECOND));
    ReachedGrounding(w, now, SIGNERS, [], past);
    OneActiveNow(w, s5);
    NewIsLive(kid, key, now);
    ShownExactly(s5.db, 0, component, 0);
  }

  /** A manifest and two agents. */
  lemma Pair(w: World, now: int, body: Bytes, key: Key, kid: Bytes, body': Bytes, key': Key, kid': Bytes,
             report: ReportItem, component: Bytes) returns (s: Sys)
    requires CanAttest(w, body, key, kid) && CanAttest(w, body', key', kid') && kid != kid' && Counted(report)
    ensures Reaches(w, Initial(now, SIGNERS, []), s) && s.now == now && Unused(s.db, 2) && s.db.holdings == []
    ensures s.db.agents == [NewAgent(kid, None, key, now), NewAgent(kid', None, key', now)]
    ensures s.db.manifests == [NewRow(DigestKey(report), component)]
  {
    hide Reaches, Leads, Unused, DigestKey, Counted, CanAttest, NewAgent;
    var s1 := Beginning(w, now, DigestKey(report), component);
    var s2 := Enrolling(w, s1, 0, body, key, kid);
    NewIsLive(kid, key, now);
    s := Enrolling(w, s2, 1, body', key', kid');
    ReachesOn(w, Initial(now, SIGNERS, []), s1, s2);
    ReachesOn(w, Initial(now, SIGNERS, []), s2, s);
  }

  lemma ASecondLater(now: int)
    ensures WholeSeconds(now) < WholeSeconds(now + SECOND)
  {
    assert (now + SECOND) % SECOND == now % SECOND;
  }

  lemma SecondIsLater(db: Db, db': Db, component: Bytes, at: int, later: int)
    requires |db.manifests| == 1 && db.manifests[0].component == component && db'.manifests == db.manifests
    requires at < later
    requires db.holdings == [HoldingRow(0, 0, at, false)]
    requires db'.holdings == Retired(db, 1, component) + [HoldingRow(1, 0, later, false)]
    ensures ActiveFor(db', 0, 0, component) && LaterElsewhere(db', 0, component, 0)
  {
    assert Retired(db, 1, component)[0] == db.holdings[0];
    assert HeldElsewhere(db', 0, component, 1);
  }
}
