/** The values the broker keeps in memory and on disk: peer identities, effect
    receipts, open intents, quota entries, and the facts recovered from one
    stored line. Strings hold one character per byte. */
module Types {

  datatype Option<+T> = None | Some(value: T) {
    predicate IsFailure() { None? }
    function PropagateFailure<U>(): Option<U> requires None? { None }
    function Extract(): T requires Some? { value }
  }

  type Byte = x: int | 0 <= x < 256

  // Buffer capacities (each counts a terminating NUL).
  const CID_MAX := 64
  const BINDING_MAX := 33
  const META_MAX := 128
  const SCOPE_MAX := 32
  const BOOT_ID_MAX := 40
  const STARTTIME_MAX := 24
  const PHASE_MAX := 16

  const UID_LIMIT := 0x1_0000_0000
  const U64_LIMIT := 0x1_0000_0000_0000_0000

  const PHASE_INTENT := "intent"
  const PHASE_OUTCOME := "outcome"
  const PHASE_PREVIEW := "preview"
  const PHASE_NOOP := "noop"

  /** Reconstruction refuses a larger segment. */
  const MAX_SEGMENT_BYTES := 1024 * 1024 * 1024

  datatype Config = Config(
    maxOpenPerUid: nat,
    maxOpenGlobal: nat,
    rateWindowSec: nat,
    rateMaxInWindow: nat,
    rateMaxBytesPerUid: nat,
    rateMaxBytesGlobal: nat,
    rotateBytes: nat,
    retainSegments: nat,
    retainBytes: nat,
    receiptTtlSec: nat)
  {
    /** The combinations the broker refuses to start with. */
    predicate Valid() {
      && (retainBytes != 0 && rotateBytes != 0 ==> retainBytes >= rotateBytes)
      && (rateMaxBytesPerUid != 0 ==> rateMaxInWindow != 0)
      && 0 < receiptTtlSec <= 30 * 24 * 60 * 60
    }

    function Window(): nat { rateWindowSec * 1000000 }

    /** Entries stamped before this instant have left the window. */
    function Threshold(now: nat): nat {
      if now > Window() then now - Window() else 0
    }
  }

  /** Every field takes part in actor equality. */
  datatype Actor = Actor(uid: nat, gid: nat, pid: int, bootId: string, starttime: string)

  datatype ReceiptState = Issued | Redeemed

  datatype Receipt = Receipt(
    state: ReceiptState,
    verifier: string,
    actorUid: nat,
    verb: string,
    resource: string,
    planSchema: int,
    planHash: string,
    issueUs: nat,
    ttlUs: nat,
    bootId: string,
    acceptedUs: nat)

  datatype Intent = Intent(
    binding: string,
    actor: Actor,
    operation: string,
    resource: string,
    scope: string,
    fromCheckpoint: bool,
    receipt: Option<Receipt>)

  type Opens = map<string, Intent>

  /** One accepted append in a uid's rate window. */
  datatype Entry = Entry(ts: nat, bytes: nat)

  /** The facts recovered from one stored line. */
  datatype Stored =
    | Audit(phase: string, cid: string, binding: string, actor: Actor, time: nat,
            operation: string, resource: string, scope: string)
    | Checkpoint(cid: string, binding: string, actor: Actor, time: nat,
                 operation: string, resource: string, scope: string)
    | Rate(uid: nat, entries: seq<Entry>)
    | ReceiptRecord(cid: string, checkpoint: bool, receipt: Receipt)
  {
    predicate IsIntent() { Audit? && phase == PHASE_INTENT }
    predicate IsOutcome() { Audit? && phase == PHASE_OUTCOME }
    predicate IsOpener() { IsIntent() || Checkpoint? }

    /** Does the record open, carry, grant or close an operation? */
    predicate Lifecycle() { IsOpener() || IsOutcome() || ReceiptRecord? }
  }

  lemma {:induction false} SubsetSize<T>(a: set<T>, b: set<T>)
    requires a <= b
    ensures |a| <= |b|
  {
    if a != {} {
      var x :| x in a;
      SubsetSize(a - {x}, b - {x});
    }
  }
}
