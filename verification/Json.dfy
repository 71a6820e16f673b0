/** The JSON trees the broker builds and reads back. Text is not modelled here;
    member names are the constructors of `Key`. */
module Json {
  import opened Types
  import opened Utf8

  /** One constructor per member name the broker knows; `Other` is any name not
      listed. */
  datatype Key =
    | SchemaVersion | RecordType | CorrelationId | PhaseKey | Host | Pid | ActorKey | TimeKey | Broker
    | Peer | UidKey | Gid | BootId | Starttime | BindingKey | AcceptedTimeUs
    | Operation | ResourceKey | ScopeKey | OutcomeKey | AuditScope | AuthorizedVia | CompletionMethod
    | JobResult | ObservedReason | PreviewKey | EffectIssued | Changed | StateChanged | ObservedFailed
    | Elapsed | Observed
    | TimesUs | BytesKey
    | StateSchemaVersion | CheckpointKey | State | Verifier | ActorUid | Verb | PlanSchema | PlanHash
    | IssueBoottimeUs | TtlUs
    | TypeKey | RecordKey | EffectKey | EffectReceipt | PrincipalUid | RequiredKey
    | Other(name: string)

  /** A real is mantissa * 10^exponent. */
  datatype Json =
    | Null
    | Bool(b: bool)
    | Int(i: int)
    | Real(mantissa: int, exponent: int)
    | Str(s: string)
    | Arr(elems: seq<Json>)
    | Obj(members: map<Key, Json>)

  /** Members by name; the order they are printed in is not part of the tree. */
  type Members = map<Key, Json>

  function Get(ms: Members, k: Key): Option<Json> {
    if k in ms then Some(ms[k]) else None
  }

  /** No member outside the allowed names. */
  predicate OnlyKeys(ms: Members, allowed: set<Key>) { ms.Keys <= allowed }

  // ---- trees a text can tell apart ----

  function NameOf(k: Key): string {
    match k
    case SchemaVersion => "schema_version"
    case RecordType => "record_type"
    case CorrelationId => "correlation_id"
    case PhaseKey => "phase"
    case Host => "host"
    case Pid => "pid"
    case ActorKey => "actor"
    case TimeKey => "time"
    case Broker => "broker"
    case Peer => "peer"
    case UidKey => "uid"
    case Gid => "gid"
    case BootId => "boot_id"
    case Starttime => "starttime"
    case BindingKey => "binding"
    case AcceptedTimeUs => "accepted_time_us"
    case Operation => "operation"
    case ResourceKey => "resource"
    case ScopeKey => "scope"
    case OutcomeKey => "outcome"
    case AuditScope => "audit_scope"
    case AuthorizedVia => "authorized_via"
    case CompletionMethod => "completion_method"
    case JobResult => "job_result"
    case ObservedReason => "observed_reason"
    case PreviewKey => "preview"
    case EffectIssued => "effect_issued"
    case Changed => "changed"
    case StateChanged => "state_changed"
    case ObservedFailed => "observed_failed"
    case Elapsed => "elapsed"
    case Observed => "observed"
    case TimesUs => "times_us"
    case BytesKey => "bytes"
    case StateSchemaVersion => "state_schema_version"
    case CheckpointKey => "checkpoint"
    case State => "state"
    case Verifier => "verifier"
    case ActorUid => "actor_uid"
    case Verb => "verb"
    case PlanSchema => "plan_schema"
    case PlanHash => "plan_hash"
    case IssueBoottimeUs => "issue_boottime_us"
    case TtlUs => "ttl_us"
    case TypeKey => "type"
    case RecordKey => "record"
    case EffectKey => "effect"
    case EffectReceipt => "effect_receipt"
    case PrincipalUid => "principal_uid"
    case RequiredKey => "required"
    case Other(name) => name
  }

  ghost predicate ProperKey(k: Key) {
    k.Other? ==> WellEncoded(k.name) && forall known: Key :: !known.Other? ==> NameOf(known) != k.name
  }

  /** Each name is written one way, each real has one mantissa, and every string
      is well-formed. */
  ghost predicate Proper(j: Json) {
    match j
    case Real(mantissa, exponent) => if mantissa == 0 then exponent == 0 else mantissa % 10 != 0
    case Str(s) => WellEncoded(s)
    case Arr(elems) => forall i :: 0 <= i < |elems| ==> Proper(elems[i])
    case Obj(members) => forall k :: k in members ==> ProperKey(k) && Proper(members[k])
    case _ => true
  }
}
