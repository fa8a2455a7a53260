/**
 What a key stored on the word of an SGX bundle is bound to: the raw report data whose digest
 the quote carries names the key, and a challenge the TAM issued.
 */
module SgxTrust {
  import opened Wrappers
  import opened Tables
  import opened Protocol
  import opened Machine
  import opened RequestFacts
  import opened Delivery
  import opened Authentication
  import Trust
  import SgxBundle

  ghost predicate Arrived(actions: seq<Action>, input: Input)
  {
    exists k :: 0 <= k < |actions| && actions[k] == Arrive(input)
  }

  ghost predicate AllArrived(actions: seq<Action>, s: Sys)
  {
    forall i :: 0 <= i < |s.threads| ==> Arrived(actions, s.threads[i].req.input)
  }

  lemma ArrivedStill(actions: seq<Action>, last: Action, input: Input)
    ensures Arrived(actions, input) ==> Arrived(actions + [last], input)
    ensures last == Arrive(input) ==> Arrived(actions + [last], input)
  {
    if k :| 0 <= k < |actions| && actions[k] == Arrive(input) {
      assert (actions + [last])[k] == Arrive(input);
    }
    assert (actions + [last])[|actions|] == last;
  }

  lemma StepArrives(w: World, s: Sys, actions: seq<Action>, action: Action)
    requires AllFaithful(w, s) && AllArrived(actions, s)
    ensures AllArrived(actions + [action], Step(w, s, action))
  {
    hide Arrived, Advance, Apply, Launch, Faithful;
    forall input: Input ensures Arrived(actions, input) ==> Arrived(actions + [action], input) {
      ArrivedStill(actions, action, input);
    }
    match action
    case Arrive(input) => LaunchKeepsInput(input); ArrivedStill(actions, action, input);
    case Tick(_) =>
    case Run(i, ev) => if i < |s.threads| { KeepsInput(w, s.now, s.db, s.threads[i], ev); }
  }

  /** Every request of a run arrived in it. */
  lemma {:induction false} ExecuteArrives(w: World, s0: Sys, actions: seq<Action>)
    requires AllFaithful(w, s0) && s0.threads == []
    ensures AllArrived(actions, Execute(w, s0, actions))
    decreases |actions|
  {
    hide AllFaithful, Arrived, Step;
    if actions != [] {
      var before, last := actions[..|actions| - 1], actions[|actions| - 1];
      ExecuteArrives(w, s0, before);
      RunFaithful(w, s0, before);
      StepArrives(w, Execute(w, s0, before), before, last);
      assert before + [last] == actions;
    }
  }

  /** An affirming verdict on an SGX bundle is what is read from the payload. */
  predicate ReadFromBundle(lib: SgxBundle.Libraries, input: Input)
  {
    input.Signed? && input.message.format.SgxBundleFormat? && input.verdict.Affirming? ==>
      && input.message.payload.Some?
      && SgxBundle.IsReading(lib, input.message.payload.value, input.verdict)
  }

  ghost predicate ArrivalsRead(lib: SgxBundle.Libraries, actions: seq<Action>)
  {
    forall k :: 0 <= k < |actions| && actions[k].Arrive? ==> ReadFromBundle(lib, actions[k].input)
  }

  /** Bytes 368 to 416 of the quote are the digest of raw report data made of the coordinates of
      the key and, after them, the challenge. */
  predicate QuoteNames(lib: SgxBundle.Libraries, quote: Bytes, raw: Bytes, key: Key, challenge: Bytes)
  {
    && |quote| >= 432 && quote[368..416] == lib.sha384(raw)
    && |raw| > 64 && raw[64..] == challenge && lib.ec2Key(raw[..32], raw[32..64]) == Some(key)
  }

  /** The request's bundle is quoted for this key and the challenge it consumed. */
  predicate QuotedFor(lib: SgxBundle.Libraries, req: Request, key: Key)
  {
    && req.input.Signed? && req.input.message.payload.Some? && req.challenge.Some?
    && var bundle := SgxBundle.Decode(lib, req.input.message.payload.value);
    && bundle.Some? && QuoteNames(lib, bundle.value.quote, bundle.value.rawReportData, key, req.challenge.value)
  }

  lemma IntroducedIsQuoted(lib: SgxBundle.Libraries, w: World, s: Sys, req: Request, agent: AgentRow)
    requires Trust.Proves(w, s, req, agent) && ReadFromBundle(lib, req.input)
    ensures req.input.message.format.SgxBundleFormat? ==> QuotedFor(lib, req, agent.publicKey)
  {
    hide QueryRecorded, Spent;
    if req.input.message.format.SgxBundleFormat? {
      var bundle := SgxBundle.Decode(lib, req.input.message.payload.value).value;
      SgxBundle.ClaimsAreFunctionOfQuote(lib, bundle.quote, bundle.rawReportData, bundle.rawReportData);
      hide SgxBundle.Binds;
    }
  }

  /** In every reached state of a run in which affirming verdicts on SGX bundles are what is read
      from them, each stored key was proved by some request of the run; and if that request
      carried an SGX bundle, its quote names that key and the challenge the request consumed. */
  lemma SgxKeysAreQuoted(lib: SgxBundle.Libraries, w: World, now: int, signingKeys: seq<SigningKeyRow>,
                         devices: seq<Bytes>, actions: seq<Action>, a: nat)
    requires a < |Reached(w, now, signingKeys, devices, actions).db.agents| && ArrivalsRead(lib, actions)
    ensures var s := Reached(w, now, signingKeys, devices, actions);
      exists i ::
        && 0 <= i < |s.threads| && Trust.Proves(w, s, s.threads[i].req, s.db.agents[a])
        && (s.threads[i].req.input.message.format.SgxBundleFormat? ==>
              QuotedFor(lib, s.threads[i].req, s.db.agents[a].publicKey))
  {
    hide Execute, Trust.Proves, QuotedFor, ReadFromBundle;
    var s := Reached(w, now, signingKeys, devices, actions);
    Trust.TrustedKeysWereProved(w, now, signingKeys, devices, actions, a);
    var i :| 0 <= i < |s.threads| && Trust.Proves(w, s, s.threads[i].req, s.db.agents[a]);
    ExecuteArrives(w, Initial(now, signingKeys, devices), actions);
    assert Arrived(actions, s.threads[i].req.input);
    IntroducedIsQuoted(lib, w, s, s.threads[i].req, s.db.agents[a]);
  }
}
