/**
 What a failing store does to a request: nothing is written, and the request goes on as if the
 row looked for were not there, or is refused.
 */
module Faults {
  import opened Wrappers
  import opened Tables
  import opened Protocol
  import opened Machine
  import opened RequestFacts

  const NOTHING_STORED: Db := EmptyDb([], [])

  /** Lookups whose failure is taken for an answer without a row. */
  predicate TakenForAbsence(pc: Pc)
  {
    match pc
    case Matching(at) => !at.FindQuery?
    case Attesting(at) => at.ConsumeChallenge? || at.FindByChallenge? || at.FindDevice?
    case Reporting(at) => at.FindReport? || at.FindFailure?
    case Administering(at) => at.RegisterKey?
    case _ => false
  }

  predicate Written(pc: Pc)
  {
    pc.Reporting? && (pc.report.Reflect? || pc.report.AddFailure?)
  }

  /** Nobody finds anything in an empty store. */
  function Calm(): Event
  {
    Choose(None, None)
  }

  /** A failed lookup reads as an absent row; after a failed search among the QueryRequests the
      Updates are not searched either; a report that cannot be recorded is passed over like a
      recorded one; and any other failure refuses the request. */
  lemma FaultsReadAsAbsence(w: World, now: int, db: Db, th: Thread, ev: Event)
    requires Faithful(w, th) && ev.fault
    ensures Advance(w, now, db, th, ev).0 == Nothing
    ensures TakenForAbsence(th.pc) ==>
      Advance(w, now, db, th, ev).1 == Advance(w, now, NOTHING_STORED, th, Calm()).1
    ensures th.pc == Matching(FindQuery) ==>
      Advance(w, now, db, th, ev).1 == Advance(w, now, NOTHING_STORED, th.(pc := Matching(FindUpdate)), Calm()).1
    ensures Written(th.pc) ==>
      Advance(w, now, db, th, ev).1.pc == Advance(w, now, db, th, Calm()).1.pc
    ensures !TakenForAbsence(th.pc) && !Written(th.pc) && th.pc != Matching(FindQuery) && !th.pc.Done? ==>
      Advance(w, now, db, th, ev).1 == th.(pc := Done(Refused(Fatal)))
  {
    hide AllGrounded, Counts, ComponentSet, NextCounted, HoldCollides, Introduces;
    match th.pc
    case Matching(at) => MatchFault(w, now, db, th, ev); hide Advance;
    case Attesting(at) => AttestFault(w, now, db, th, ev); hide Advance;
    case Reporting(at) => ReportFault(w, now, db, th, ev); hide Advance;
    case _ => hide DeliverStep, IssueStep;
  }

  lemma MatchFault(w: World, now: int, db: Db, th: Thread, ev: Event)
    requires Faithful(w, th) && ev.fault && th.pc.Matching?
    ensures Advance(w, now, db, th, ev).0 == Nothing
    ensures th.pc != Matching(FindQuery) ==>
      Advance(w, now, db, th, ev).1 == Advance(w, now, NOTHING_STORED, th, Calm()).1
    ensures th.pc == Matching(FindQuery) ==>
      Advance(w, now, db, th, ev).1 == Advance(w, now, NOTHING_STORED, th.(pc := Matching(FindUpdate)), Calm()).1
  {
    hide AllGrounded, Counts, Dispatch, AfterAuthentication, Envelopes;
  }

  lemma AttestFault(w: World, now: int, db: Db, th: Thread, ev: Event)
    requires Faithful(w, th) && ev.fault && th.pc.Attesting?
    ensures Advance(w, now, db, th, ev).0 == Nothing
    ensures TakenForAbsence(th.pc) ==>
      Advance(w, now, db, th, ev).1 == Advance(w, now, NOTHING_STORED, th, Calm()).1
    ensures !TakenForAbsence(th.pc) ==> Advance(w, now, db, th, ev).1 == th.(pc := Done(Refused(Fatal)))
  {
    hide AllGrounded, Counts, AfterChallenge, Respond, NewAgent;
  }

  lemma ReportFault(w: World, now: int, db: Db, th: Thread, ev: Event)
    requires Faithful(w, th) && ev.fault && th.pc.Reporting?
    ensures Advance(w, now, db, th, ev).0 == Nothing
    ensures TakenForAbsence(th.pc) ==>
      Advance(w, now, db, th, ev).1 == Advance(w, now, NOTHING_STORED, th, Calm()).1
    ensures Written(th.pc) ==> Advance(w, now, db, th, ev).1.pc == Advance(w, now, db, th, Calm()).1.pc
  {
    hide AllGrounded, Counts, NextCounted, HoldCollides, DigestKey, Counted;
  }
}
