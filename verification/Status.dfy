/**
 The agent status query.  It ranks the active holdings of a component over all agents
 together and shows an agent only the components it ranks first for.
 */
module Status {
  import opened Wrappers
  import opened Tables
  import opened Holdings
  import opened Beliefs

  datatype Overview = Overview(component: Bytes, sequenceNumber: int)
  datatype AgentStatus = AgentStatus(kid: Bytes, ueid: Option<Bytes>, updatedAt: int, manifests: seq<Overview>)

  /** Holding h is in force and its manifest is of the component, whoever the agent. */
  predicate Ranks(db: Db, h: nat, component: Bytes)
  {
    InForce(db, h) && OfComponent(db, db.holdings[h].manifest, component)
  }

  /** A choice of first rank for each component: a latest holding, ties broken at will. */
  ghost predicate RanksFirst(db: Db, tops: map<Bytes, nat>)
  {
    && (forall c :: c in tops ==> Ranks(db, tops[c], c))
    && (forall h: nat, c :: Ranks(db, h, c) ==>
          c in tops && db.holdings[h].createdAt <= db.holdings[tops[c]].createdAt)
  }

  function OverviewOf(db: Db, h: nat): Overview
    requires h < |db.holdings| && db.holdings[h].manifest < |db.manifests|
  {
    var row := db.manifests[db.holdings[h].manifest];
    Overview(row.component, Unsigned64(row.sequenceNumber))
  }

  /** Entry by entry, the holdings of the agent that rank first. */
  ghost predicate Shows(db: Db, agent: nat, tops: map<Bytes, nat>, manifests: seq<Overview>)
  {
    && (forall i :: 0 <= i < |manifests| ==>
          var c := manifests[i].component;
          && c in tops && Ranks(db, tops[c], c) && db.holdings[tops[c]].agent == agent
          && manifests[i] == OverviewOf(db, tops[c]))
    && (forall i, j :: 0 <= i < j < |manifests| ==> manifests[i].component != manifests[j].component)
    && (forall c :: c in tops && tops[c] < |db.holdings| && db.holdings[tops[c]].agent == agent ==>
          exists i :: 0 <= i < |manifests| && manifests[i].component == c)
  }

  ghost predicate Lists(manifests: seq<Overview>, component: Bytes)
  {
    exists i :: 0 <= i < |manifests| && manifests[i].component == component
  }

  ghost predicate ShowsSome(db: Db, agent: nat, manifests: seq<Overview>)
  {
    exists tops: map<Bytes, nat> :: RanksFirst(db, tops) && Shows(db, agent, tops, manifests)
  }

  function UeidOf(db: Db, agent: AgentRow): Option<Bytes>
  {
    if agent.device.Some? && agent.device.value < |db.devices| then Some(db.devices[agent.device.value]) else None
  }

  /** What the query may answer for the agent with this thumbprint. */
  ghost predicate Answers(db: Db, kid: Bytes, status: Option<AgentStatus>)
  {
    match status
    case None => !KnownAgent(db.agents, kid)
    case Some(st) => exists a: nat :: OfKid(db, a, kid) && Describes(db, a, st)
  }

  ghost predicate Describes(db: Db, a: nat, st: AgentStatus)
  {
    && a < |db.agents|
    && st.kid == db.agents[a].kid && st.updatedAt == db.agents[a].createdAt
    && (st.ueid.Some? <==> exists d: nat :: d < |db.devices| && db.agents[a].device == Some(d))
    && (st.ueid.Some? ==> exists d: nat ::
          d < |db.devices| && db.agents[a].device == Some(d) && st.ueid.value == db.devices[d])
    && ShowsSome(db, a, st.manifests)
  }

  /** The latest of the first n holdings per component, over all agents. */
  function Tops(db: Db, n: nat): map<Bytes, nat>
    requires n <= |db.holdings|
  {
    if n == 0 then map[]
    else
      var tops := Tops(db, n - 1);
      var row := db.holdings[n - 1];
      if row.deleted || row.manifest >= |db.manifests| then tops
      else
        var c := db.manifests[row.manifest].component;
        if c in tops && tops[c] < |db.holdings| && row.createdAt <= db.holdings[tops[c]].createdAt then tops
        else tops[c := n - 1]
  }

  /** Every top so far ranks, and no holding so far is later than its top. */
  ghost predicate RanksBelow(db: Db, tops: map<Bytes, nat>, n: nat)
  {
    && (forall c :: c in tops ==> tops[c] < n && Ranks(db, tops[c], c))
    && (forall h: nat, c :: h < n && Ranks(db, h, c) ==>
          c in tops && db.holdings[h].createdAt <= db.holdings[tops[c]].createdAt)
  }

  /** The next holding takes the first rank of its component unless it is no later. */
  lemma RanksOneMore(db: Db, tops: map<Bytes, nat>, n: nat, component: Bytes)
    requires RanksBelow(db, tops, n) && Ranks(db, n, component)
    ensures component in tops && db.holdings[n].createdAt <= db.holdings[tops[component]].createdAt ==>
      RanksBelow(db, tops, n + 1)
    ensures component in tops ==> tops[component] < n
    ensures component !in tops || db.holdings[n].createdAt > db.holdings[tops[component]].createdAt ==>
      RanksBelow(db, tops[component := n], n + 1)
  {
    forall h: nat, c | h < n + 1 && Ranks(db, h, c) ensures h == n ==> c == component {
    }
  }

  lemma RanksSkipped(db: Db, tops: map<Bytes, nat>, n: nat)
    requires RanksBelow(db, tops, n) && n < |db.holdings|
    requires db.holdings[n].deleted || db.holdings[n].manifest >= |db.manifests|
    ensures RanksBelow(db, tops, n + 1)
  {
    assert forall c :: !Ranks(db, n, c);
  }

  lemma AllRanked(db: Db, tops: map<Bytes, nat>)
    requires RanksBelow(db, tops, |db.holdings|)
    ensures RanksFirst(db, tops)
  {
  }

  lemma {:induction false} TopsRankFirst(db: Db, n: nat)
    requires n <= |db.holdings|
    ensures RanksBelow(db, Tops(db, n), n)
    ensures n == |db.holdings| ==> RanksFirst(db, Tops(db, n))
  {
    if n > 0 {
      TopsRankFirst(db, n - 1);
      var before := Tops(db, n - 1);
      var row := db.holdings[n - 1];
      if !row.deleted && row.manifest < |db.manifests| {
        RanksOneMore(db, before, n - 1, db.manifests[row.manifest].component);
      } else {
        RanksSkipped(db, before, n - 1);
      }
      hide RanksBelow;
    }
    hide RanksBelow, RanksFirst;
    if n == |db.holdings| { AllRanked(db, Tops(db, n)); }
  }

  method RankHoldings(db: Db) returns (tops: map<Bytes, nat>)
    ensures RanksFirst(db, tops)
  {
    tops := map[];
    for h := 0 to |db.holdings|
      invariant tops == Tops(db, h)
    {
      TopsRankFirst(db, h);
      var row := db.holdings[h];
      if !row.deleted && row.manifest < |db.manifests| {
        var c := db.manifests[row.manifest].component;
        if c !in tops || db.holdings[tops[c]].createdAt < row.createdAt {
          tops := tops[c := h];
        }
      }
    }
    TopsRankFirst(db, |db.holdings|);
  }

  method GetAgentStatus(db: Db, kid: Bytes) returns (status: Option<AgentStatus>)
    ensures Answers(db, kid, status)
  {
    var a := 0;
    while a < |db.agents| && db.agents[a].kid != kid
      invariant a <= |db.agents| && forall b :: 0 <= b < a ==> db.agents[b].kid != kid
    {
      a := a + 1;
    }
    if a == |db.agents| {
      return None;
    }
    var tops := RankHoldings(db);
    var manifests := ListFirst(db, a, tops);
    var agent := db.agents[a];
    status := Some(AgentStatus(agent.kid, UeidOf(db, agent), agent.createdAt, manifests));
    assert ShowsSome(db, a, manifests);
    assert OfKid(db, a, kid) && Describes(db, a, status.value);
  }

  /** The entries of the agent among the first n holdings. */
  function Listing(db: Db, agent: nat, tops: map<Bytes, nat>, n: nat): seq<Overview>
    requires n <= |db.holdings|
  {
    if n == 0 then []
    else
      var row := db.holdings[n - 1];
      Listing(db, agent, tops, n - 1)
      + (if !row.deleted && row.manifest < |db.manifests| && row.agent == agent
            && db.manifests[row.manifest].component in tops && tops[db.manifests[row.manifest].component] == n - 1
         then [OverviewOf(db, n - 1)] else [])
  }

  /** The entries are those of the first n holdings. */
  ghost predicate ShowsBelow(db: Db, agent: nat, tops: map<Bytes, nat>, manifests: seq<Overview>, n: nat)
  {
    && (forall i :: 0 <= i < |manifests| ==>
          var c := manifests[i].component;
          && c in tops && tops[c] < n && Ranks(db, tops[c], c) && db.holdings[tops[c]].agent == agent
          && manifests[i] == OverviewOf(db, tops[c]))
    && (forall i, j :: 0 <= i < j < |manifests| ==> manifests[i].component != manifests[j].component)
    && (forall c :: c in tops && tops[c] < n && tops[c] < |db.holdings| && db.holdings[tops[c]].agent == agent ==>
          Lists(manifests, c))
  }

  lemma OneMoreEntry(db: Db, agent: nat, tops: map<Bytes, nat>, manifests: seq<Overview>, n: nat, component: Bytes)
    requires RanksFirst(db, tops) && ShowsBelow(db, agent, tops, manifests, n)
    requires Ranks(db, n, component) && db.holdings[n].agent == agent && component in tops && tops[component] == n
    ensures ShowsBelow(db, agent, tops, manifests + [OverviewOf(db, n)], n + 1)
  {
    var more := OverviewOf(db, n);
    ListsMore(manifests, more);
    assert more.component == component;
    forall c | c in tops && tops[c] < n + 1 && db.holdings[tops[c]].agent == agent
      ensures Lists(manifests + [more], c)
    {
      assert Ranks(db, tops[c], c);
    }
  }

  lemma NoMoreEntry(db: Db, agent: nat, tops: map<Bytes, nat>, manifests: seq<Overview>, n: nat)
    requires RanksFirst(db, tops) && ShowsBelow(db, agent, tops, manifests, n)
    requires forall c :: c in tops && tops[c] == n ==> n < |db.holdings| && db.holdings[n].agent != agent
    ensures ShowsBelow(db, agent, tops, manifests, n + 1)
  {
  }

  lemma {:induction false} ListingShows(db: Db, agent: nat, tops: map<Bytes, nat>, n: nat)
    requires RanksFirst(db, tops) && n <= |db.holdings|
    ensures ShowsBelow(db, agent, tops, Listing(db, agent, tops, n), n)
  {
    hide ShowsBelow, RanksFirst;
    if n == 0 {
      NothingBelow(db, agent, tops);
    } else {
      ListingShows(db, agent, tops, n - 1);
      var manifests := Listing(db, agent, tops, n - 1);
      var row := db.holdings[n - 1];
      TopsRank(db, tops);
      if !row.deleted && row.manifest < |db.manifests| && row.agent == agent
         && db.manifests[row.manifest].component in tops && tops[db.manifests[row.manifest].component] == n - 1
      {
        OneMoreEntry(db, agent, tops, manifests, n - 1, db.manifests[row.manifest].component);
      } else {
        NoMoreEntry(db, agent, tops, manifests, n - 1);
        assert Listing(db, agent, tops, n) == manifests;
      }
    }
  }

  lemma NothingBelow(db: Db, agent: nat, tops: map<Bytes, nat>)
    ensures ShowsBelow(db, agent, tops, [], 0)
  {
  }

  lemma TopsRank(db: Db, tops: map<Bytes, nat>)
    requires RanksFirst(db, tops)
    ensures forall c :: c in tops ==> Ranks(db, tops[c], c)
  {
  }

  lemma ListingIsShown(db: Db, agent: nat, tops: map<Bytes, nat>)
    requires RanksFirst(db, tops)
    ensures Shows(db, agent, tops, Listing(db, agent, tops, |db.holdings|))
  {
    ListingShows(db, agent, tops, |db.holdings|);
    hide Listing;
  }

  /** The joined rows of the agent, one by one. */
  method ListFirst(db: Db, agent: nat, tops: map<Bytes, nat>) returns (manifests: seq<Overview>)
    requires RanksFirst(db, tops)
    ensures Shows(db, agent, tops, manifests)
  {
    manifests := [];
    for h := 0 to |db.holdings|
      invariant manifests == Listing(db, agent, tops, h)
    {
      var row := db.holdings[h];
      if !row.deleted && row.manifest < |db.manifests| && row.agent == agent {
        var c := db.manifests[row.manifest].component;
        if c in tops && tops[c] == h {
          manifests := manifests + [OverviewOf(db, h)];
        }
      }
    }
    ListingIsShown(db, agent, tops);
  }

  lemma ListsMore(manifests: seq<Overview>, more: Overview)
    ensures forall c :: Lists(manifests, c) ==> Lists(manifests + [more], c)
    ensures Lists(manifests + [more], more.component)
  {
    forall c | Lists(manifests, c) ensures Lists(manifests + [more], c) {
      var i :| 0 <= i < |manifests| && manifests[i].component == c;
      assert (manifests + [more])[i].component == c;
    }
    assert (manifests + [more])[|manifests|] == more;
  }

  // ---- what an answer means ----

  ghost predicate HeldElsewhere(db: Db, agent: nat, component: Bytes, h: nat)
  {
    Ranks(db, h, component) && db.holdings[h].agent != agent
  }

  /** Every entry is a manifest the agent is believed to hold, with the sequence number it was
      registered under; no component is listed twice. */
  lemma EntriesAreBelieved(db: Db, agent: nat, manifests: seq<Overview>)
    requires OneActive(db) && ShowsSome(db, agent, manifests)
    ensures forall i :: 0 <= i < |manifests| ==>
      var c := manifests[i].component;
      && c in Believed(db, agent) && OfComponent(db, Believed(db, agent)[c], c)
      && var stored := db.manifests[Believed(db, agent)[c]].sequenceNumber;
      && manifests[i].sequenceNumber == if stored < 0 then stored + 0x1_0000_0000_0000_0000 else stored
    ensures forall i, j :: 0 <= i < j < |manifests| ==> manifests[i].component != manifests[j].component
  {
    var tops: map<Bytes, nat> :| RanksFirst(db, tops) && Shows(db, agent, tops, manifests);
    forall i | 0 <= i < |manifests|
      ensures var c := manifests[i].component;
        Maps(Believed(db, agent), c, db.holdings[tops[c]].manifest)
    {
      var c := manifests[i].component;
      assert ActiveFor(db, tops[c], agent, c);
      BelievedIffHolds(db, agent, c, db.holdings[tops[c]].manifest);
    }
  }

  /** What one answer shows of a component the agent holds by holding h: nothing if some other
      holding is later, and the component if every other is earlier. */
  lemma ShownUnlessLater(db: Db, agent: nat, manifests: seq<Overview>, component: Bytes, h: nat)
    requires OneActive(db) && ShowsSome(db, agent, manifests) && ActiveFor(db, h, agent, component)
    ensures LaterElsewhere(db, agent, component, h) ==> !Lists(manifests, component)
    ensures EarlierElsewhere(db, agent, component, h) ==> Lists(manifests, component)
  {
    var tops: map<Bytes, nat> :| RanksFirst(db, tops) && Shows(db, agent, tops, manifests);
    assert Ranks(db, h, component);
    var top := tops[component];
    assert Ranks(db, top, component);
    if db.holdings[top].agent == agent {
      assert ActiveFor(db, top, agent, component);
      OnlyOneActive(db, agent, component, h, top);
    } else {
      assert HeldElsewhere(db, agent, component, top);
    }
  }

  /** Some other agent's holding of the component is strictly later. */
  ghost predicate LaterElsewhere(db: Db, agent: nat, component: Bytes, h: nat)
    requires h < |db.holdings|
  {
    exists k: nat :: HeldElsewhere(db, agent, component, k) && db.holdings[k].createdAt > db.holdings[h].createdAt
  }

  /** Every other agent's holding of the component is strictly earlier. */
  ghost predicate EarlierElsewhere(db: Db, agent: nat, component: Bytes, h: nat)
    requires h < |db.holdings|
  {
    forall k: nat :: HeldElsewhere(db, agent, component, k) ==> db.holdings[k].createdAt < db.holdings[h].createdAt
  }

  /** A holding no other of its component is later than may rank first, whoever the agent. */
  lemma MayRankFirst(db: Db, component: Bytes, h: nat)
    requires Ranks(db, h, component)
    requires forall k: nat :: Ranks(db, k, component) ==> db.holdings[k].createdAt <= db.holdings[h].createdAt
    ensures exists tops: map<Bytes, nat> :: RanksFirst(db, tops) && component in tops && tops[component] == h
  {
    TopsRankFirst(db, |db.holdings|);
    var tops := Tops(db, |db.holdings|)[component := h];
    assert RanksFirst(db, tops);
  }

  /** An answer in which holding h ranks first lists the component exactly for h's agent. */
  lemma FirstDecides(db: Db, agent: nat, component: Bytes, h: nat) returns (manifests: seq<Overview>)
    requires Ranks(db, h, component)
    requires forall k: nat :: Ranks(db, k, component) ==> db.holdings[k].createdAt <= db.holdings[h].createdAt
    ensures ShowsSome(db, agent, manifests)
    ensures Lists(manifests, component) <==> db.holdings[h].agent == agent
  {
    MayRankFirst(db, component, h);
    var tops: map<Bytes, nat> :| RanksFirst(db, tops) && component in tops && tops[component] == h;
    manifests := Listing(db, agent, tops, |db.holdings|);
    ListingIsShown(db, agent, tops);
    hide Listing;
  }

  /** Of a component the agent holds: every answer the query may give lists it if and only if
      every holding of it elsewhere is strictly earlier, and every answer omits it if and only
      if some holding elsewhere is strictly later.  On a tie the query may do either. */
  lemma ShownExactly(db: Db, agent: nat, component: Bytes, h: nat)
    requires OneActive(db) && ActiveFor(db, h, agent, component)
    ensures (forall manifests: seq<Overview> :: ShowsSome(db, agent, manifests) ==> Lists(manifests, component))
      <==> EarlierElsewhere(db, agent, component, h)
    ensures (forall manifests: seq<Overview> :: ShowsSome(db, agent, manifests) ==> !Lists(manifests, component))
      <==> LaterElsewhere(db, agent, component, h)
  {
    hide ShowsSome, Lists, OneActive;
    forall manifests: seq<Overview> | ShowsSome(db, agent, manifests)
      ensures LaterElsewhere(db, agent, component, h) ==> !Lists(manifests, component)
      ensures EarlierElsewhere(db, agent, component, h) ==> Lists(manifests, component)
    {
      ShownUnlessLater(db, agent, manifests, component, h);
    }
    assert Ranks(db, h, component);
    TopsRankFirst(db, |db.holdings|);
    var top := Tops(db, |db.holdings|)[component];
    if db.holdings[top].agent == agent {
      assert top == h by { TopIsOwn(db, agent, component, h, top); }
    }
    var first := FirstDecides(db, agent, component, top);
    if !LaterElsewhere(db, agent, component, h) {
      forall k: nat | Ranks(db, k, component) ensures db.holdings[k].createdAt <= db.holdings[h].createdAt {
        if k != h { assert top == h || HeldElsewhere(db, agent, component, top); }
      }
      var own := FirstDecides(db, agent, component, h);
    }
    if !EarlierElsewhere(db, agent, component, h) {
      var k: nat :| HeldElsewhere(db, agent, component, k) && db.holdings[k].createdAt >= db.holdings[h].createdAt;
      var other := if top == h then k else top;
      var omitting := FirstDecides(db, agent, component, other);
    }
  }

  lemma TopIsOwn(db: Db, agent: nat, component: Bytes, h: nat, top: nat)
    requires OneActive(db) && ActiveFor(db, h, agent, component)
    requires Ranks(db, top, component) && db.holdings[top].agent == agent
    ensures top == h
  {
    assert ActiveFor(db, top, agent, component);
    OnlyOneActive(db, agent, component, h, top);
  }

  /** In particular nothing is missing of a component no other agent holds. */
  lemma UncontestedIsShown(db: Db, agent: nat, manifests: seq<Overview>, component: Bytes)
    requires OneActive(db) && ShowsSome(db, agent, manifests) && component in Believed(db, agent)
    requires forall other: nat :: other != agent ==> component !in Believed(db, other)
    ensures Lists(manifests, component)
  {
    BelievedIffHolds(db, agent, component, Believed(db, agent)[component]);
    var h: nat :| ActiveFor(db, h, agent, component);
    forall k: nat | HeldElsewhere(db, agent, component, k) ensures false {
      var other := db.holdings[k].agent;
      assert ActiveFor(db, k, other, component);
      assert Holds(db, other, component, db.holdings[k].manifest);
      BelievedIffHolds(db, other, component, db.holdings[k].manifest);
    }
    hide Believed, OneActive;
    ShownUnlessLater(db, agent, manifests, component, h);
  }
}
