/** Replay of stored records into the open-intent set: which records a segment
    may hold, and what they mean. */
module Lifecycle {
  import opened Types

  datatype Fault =
    | NoBinding
    | DuplicateIntent
    | InconsistentCheckpoint
    | IntentOfClosed
    | CheckpointOfClosed
    | DoubleOutcome
    | OutcomeWithoutIntent
    | ReceiptForClosed
    | OrphanReceipt
    | ReceiptInconsistentWithIntent
    | ReceiptCheckpointBesideIntent
    | RedeemedWithoutIssued
    | VerifierCollision
    | ConflictingReceipt
    | InconsistentTransition
    | Corrupt
    | TooLarge

  datatype Result<+T> = Ok(value: T) | Err(fault: Fault)

  /** The open set together with the correlation ids already closed. */
  datatype Life = Life(opens: Opens, closed: set<string>)

  const EMPTY := Life(map[], {})

  /** Does some open intent carry a receipt with this verifier? */
  predicate VerifierInUse(opens: Opens, verifier: string) {
    exists c :: c in opens && opens[c].receipt.Some? && opens[c].receipt.value.verifier == verifier
  }

  predicate BoundToIntent(r: Receipt, it: Intent) {
    r.actorUid == it.actor.uid && r.verb == it.operation && r.resource == it.resource
  }

  /** Equal but for the state and the accept time of the transition. */
  predicate SameIdentity(a: Receipt, b: Receipt) {
    a == b.(state := a.state, acceptedUs := a.acceptedUs)
  }

  function ApplyReceipt(opens: Opens, s: Stored): (r: Result<Opens>)
    requires s.ReceiptRecord? && s.cid in opens
  {
    var it := opens[s.cid];
    var n := s.receipt;
    if !BoundToIntent(n, it) then
      Err(ReceiptInconsistentWithIntent)
    else if s.checkpoint && !it.fromCheckpoint then
      Err(ReceiptCheckpointBesideIntent)
    else if it.receipt.None? then
      if !s.checkpoint && n.state.Redeemed? then
        Err(RedeemedWithoutIssued)
      else if VerifierInUse(opens, n.verifier) then
        Err(VerifierCollision)
      else
        Ok(opens[s.cid := it.(receipt := Some(n))])
    else
      var o := it.receipt.value;
      if !SameIdentity(o, n) then
        Err(ConflictingReceipt)
      else if n.state == o.state then
        if n.acceptedUs != o.acceptedUs then Err(ConflictingReceipt) else Ok(opens)
      else if o.state.Issued? && n.state.Redeemed? then
        Ok(opens[s.cid := it.(receipt := Some(o.(state := Redeemed, acceptedUs := n.acceptedUs)))])
      else
        Err(InconsistentTransition)
  }

  function Opened(s: Stored): Intent
    requires s.IsOpener()
  {
    Intent(s.binding, s.actor, s.operation, s.resource, s.scope, s.Checkpoint?, None)
  }

  function Apply(l: Life, s: Stored): (r: Result<Life>) {
    if s.IsOpener() then
      if s.binding == "" then
        Err(NoBinding)
      else if s.cid in l.opens then
        var it := l.opens[s.cid];
        if s.IsIntent() then Err(DuplicateIntent)
        else if it.binding != s.binding || it.actor != s.actor then Err(InconsistentCheckpoint)
        else Ok(l)
      else if s.cid in l.closed then
        Err(if s.IsIntent() then IntentOfClosed else CheckpointOfClosed)
      else
        Ok(l.(opens := l.opens[s.cid := Opened(s)]))
    else if s.IsOutcome() then
      if s.cid !in l.opens then
        Err(if s.cid in l.closed then DoubleOutcome else OutcomeWithoutIntent)
      else
        Ok(Life(l.opens - {s.cid}, l.closed + {s.cid}))
    else if s.ReceiptRecord? then
      if s.cid !in l.opens then
        Err(if s.cid in l.closed then ReceiptForClosed else OrphanReceipt)
      else
        match ApplyReceipt(l.opens, s)
        case Ok(opens) => Ok(l.(opens := opens))
        case Err(e) => Err(e)
    else
      Ok(l)
  }

  function Replay(recs: seq<Stored>): (r: Result<Life>) {
    if recs == [] then
      Ok(EMPTY)
    else
      match Replay(recs[..|recs| - 1])
      case Err(e) => Err(e)
      case Ok(l) => Apply(l, recs[|recs| - 1])
  }

  lemma ReplaySnoc(recs: seq<Stored>, s: Stored)
    ensures Replay(recs + [s]) ==
            match Replay(recs) case Err(e) => Err(e) case Ok(l) => Apply(l, s)
  {
    assert (recs + [s])[..|recs|] == recs;
  }
}
