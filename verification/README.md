# A verified model of the audit broker

The broker is a small write-ahead log. Clients open an intent, may be granted a
single-use effect receipt for it, and close it with an outcome; every change is
appended to a segment file and synced before it is installed or acknowledged.
Segments are rotated by carrying the open state forward, and after a restart the
state is rebuilt by replaying the current segment. This project models that
system from the poll loop down to the bytes on disk and proves what it keeps
over every run: any mix of requests, append faults, rotations, deaths of the
process between any two file operations or inside an append, restarts, and power
failures that take away whatever is not synced: bytes at the end of the sink, or
the rename of a rotation.

The central idea is the *history*: every client line kept since the beginning,
with rotations and restarts left out. Four facts carry most of the project.

1. Everything the live checks admit makes a history on which the lifecycle,
   quota, receipt and cap guarantees hold (`History`, `Guarantees`).
2. Every reachable state's history is such a history, and the current segment,
   however often rotated or torn, recovers to that history's meaning (`Machine`,
   `Safety`, `Rotation`, `Runs`).
3. Which lines of the history no failure can take is known exactly, and a
   receipt is spent once for good even where its redeemed line was lost, and only
   as it was issued (`Durability`, `Exposure`, `Spending`, `Receipts`).
4. The imperative broker, its handlers and its startup only ever take steps of
   that machine, so what a reply promises holds over every session of calls,
   failures and restarts. What the disk does is an input, so each method also says
   what it leaves for every way the disk behaves: nothing is refused, given up or
   left undone without the reason named (`Broker`, `Handlers`, `Startup`,
   `Sessions`).

## Layout

| file | contents |
|---|---|
| `Types`, `Utf8`, `Json`, `Decimal` | values, well-formed strings, JSON trees, decimal and hex text |
| `Records`, `Requests` | stored-record builders and strict parser; request grammar and parser |
| `Shapes`, `Reading` | the stored records, the client records and the recoverable segments written out member by member, and that the parser and startup accept exactly these |
| `Lines`, `Lifecycle`, `Grammar` | segment bytes and lines, replay, the declared grammar replay accepts |
| `Rates`, `UidRing`, `Limits` | quota windows as values, the ring buffer that implements them, and when a history is over a limit |
| `Tables`, `OpenSet`, `Installs`, `Indexed` | chained hash tables, the open-intent set over three of them, every admitted line carried out on it, and the broker serving requests beside it |
| `History`, `Guarantees`, `Witness` | what admission lets in, what therefore holds, and a lifecycle it lets in |
| `Recovery`, `Carry`, `AuditLines` | reconstruction, the segments rotation writes, and the audit lines requests write |
| `Machine`, `Safety`, `Rotation`, `Runs`, `Paths` | the machine over single file operations, its invariant, and whole runs |
| `Durability`, `Exposure` | which lines survive every failure, as a condition on the state and on the steps |
| `Spending`, `Receipts` | no correlation id is redeemed twice, over power failures too, and a receipt stays what it was issued as |
| `WitnessRun` | a run that keeps an acknowledged line through a rotation and a power failure, and one that loses one |
| `Unreadable` | lines the strict parser refuses, and exactly when they keep the broker from starting |
| `Retention` | pruning of archives |
| `Broker`, `Writes`, `Handlers`, `Startup`, `Sessions` | the imperative broker: append, rotate, requests, startup, and many calls over many lifetimes |
| `Frames`, `Reactor` | wire framing and the poll loop |

## Hypotheses

- The text layer is a parameter: printing a proper JSON tree gives one non-empty
  line that reads back as the same tree, and only proper trees are read
  (`Recovery.Faithful`). A tree is proper if no member name the broker knows is
  spelled as an unknown one, every real is in lowest form and every string is
  well-formed UTF-8 (`Json.Proper`).
- Which file operations fail is an input to every method that makes them
  (`Broker.Luck`, `Startup.Opening`), as is what each read and write of a socket
  does. A successful sync of a file makes all its bytes durable, one of the
  directory all its names. A power failure takes bytes that are not synced from
  the end of the file, and undoes a rename that is not synced or leaves it. A cut
  that a startup made is not undone. Without a power failure every process sees
  what was written last.
- Clock readings are non-decreasing 64-bit numbers. The bound of twice the global
  byte quota also needs a positive clock: `Rates.TwiceQuotaIffPositiveClock` proves
  that it holds if and only if the stamps are positive, however long the lines up
  to half the quota, and `Rates.GlobalQuotaAnyClock` bounds the excess for every clock.
- Minted correlation ids were never minted before and minted bindings are new
  among the open intents. That both are well-formed is proved
  (`Records.MintedIdsFit`); of the boot id and the process start time it is
  assumed. Verifiers are not assumed unique: the code checks them.
- A machine that comes up after a power failure has a boot id it never had, and
  the boot id a handler reads is the machine's. Receipts are issued only by the
  request that opens their intent, as the daemon does.
- One valid configuration across restarts; no allocation fails; counters do not
  overflow, except that the clock difference in the global window wraps at 64 bits.
- The digest is any function from strings to 32 bytes.

## Metadata that does not fit

An ordinary request may carry an operation or resource of 128 bytes or more, or a
scope of 32 or more. The code accepts it, keeps the fields cut to their buffers,
and writes a line that the strict parser refuses at startup. The model does the
same, and nothing is assumed about the lengths. The history guarantees hold
regardless. Startup succeeds exactly when the segment is within the size limit and
no such line was appended since the last rotation and is still there
(`Unreadable.StartupNeedsReadableLines`); a rotation writes the cut fields and so
starts afresh. `Unreadable.LongOpenStopsStartup` gives a request that the parser
accepts and whose line stops the next startup.

A cut can also split a character. Such a field cannot be written again, so the
intent has no checkpoint and no rotation succeeds while it is open.
`Carry.CheckpointBuilds` and `Handlers.OpensCarriable` say exactly when.

## Acknowledged lines that can be lost

If the directory cannot be synced after the rename, the broker poisons itself and
acknowledges nothing more; or the process dies before the sync. The remedy is a
restart, and a restart opens the sink without syncing the directory. From then on, until a rotation creates its pending
file or a power failure settles the matter, whatever is acknowledged goes into a
file that a power failure may still replace by the old one. The same holds if the
sink was created and the directory sync failed.
`WitnessRun.AcknowledgedOutcomeIsLost` is such a run. `Durability.SurvivesIffSafe`
and `Exposure.SafeIffNotExposed` prove that these are exactly the acknowledged
lines that can be lost, `Sessions.ToldSurvives` says the same of replies, and
`Sessions.RedeemOkAtMostOnce` and `Sessions.RedemptionIsAsIssued` that even then
no receipt is redeemed twice or for anything but what it was issued for.

## Where the code and its documentation differ

The model follows the code.

- `src/broker.h` says nothing is appended on a typed error. An effect open whose
  receipt cannot be issued replies an error with its intent durably open, and a
  rotation whose directory sync fails replies an error after the line is durable.
  `Handlers.HandleOpen` and `Handlers.Handle` state exactly which errors leave
  something behind.
- The cleanup after a failed `link` removes the archive name even if an earlier
  rotation created it; `Machine.DoLinkFail` does the same.

## Model

| member | source | states |
|---|---|---|
| Runs.RecoveryRebuildsHistory | src/broker.c:1479-1565 | At every point of every run where the broker is down, startup succeeds exactly when the segment is within the size limit and every line parses; it then rebuilds the open intents with all receipt fields and the in-window charges of the whole history, and otherwise reports exactly which of the two failed. |
| Runs.SinkReplaysToLiveState | src/broker.c:462-493 | At every point of every run where the broker is up, replaying the sink gives the live open set, up to the flag that says how an intent reached the segment; after a failed append it gives that set, or exactly that set with the line installed when the whole line landed, and a landed part is the torn tail. |
| Runs.EitherSegmentRecovers | src/broker.c:709-820 | As long as a rename may be rolled back, also over restarts, the old file recovers exactly the history at the rename and the new one the history now, each if its lines parse; until a line is appended the new one does, and both give the same intents, receipts and windows. |
| Durability.SurvivesIffSure | src/sink.c:74-95 | A line, acknowledged or not, is in every later history if and only if it lies within the synced bytes and, while a rename is in doubt, before that rename. |
| Durability.SurvivesIffSafe | src/broker.c:796-806 | An acknowledged line survives every continuation if and only if no rename or creation of the sink is in doubt or the line is older. |
| Durability.AcknowledgedSurvives | src/broker.c:462-493 | Such a line stays in the history at its place for the rest of the run, and every later recovery is of a history that contains it. |
| Durability.HistoryOnlyGrows | src/broker.c:462-493 | Over any stretch of any run the lines that are sure only grow, and without a power failure the whole history and the acknowledgements do. |
| Exposure.SafeIffNotExposed | src/broker.c:1641-1664 | An acknowledged line is safe if and only if it was not appended after a restart that found the rename or the creation unsynced, with no directory sync and no power failure since. |
| Exposure.FailureIsAllOrNothing | src/broker.c:1498-1563 | A dying process leaves the line in flight wholly in or wholly out of the history and loses nothing; a power failure leaves a prefix with everything that was sure, exactly the history at the rename if that is undone; what starts recovers precisely what is left. |
| Runs.RunInv | src/broker.c:462-820 | The invariant tying history, files and memory holds in every state of every run, through each file operation of a rotation, with whatever a failed append left in the sink, for every cut of the bytes not synced and for the file a power failure may bring back. |
| Runs.RunHistory | src/broker.c:846-1073 | Every reachable history is one the live checks admit line by line. |
| Spending.RedeemedOnceOverRun | src/broker.c:1934-1998 | Over a whole run no correlation id is redeemed twice, also where a power failure took the first redeemed line away again. |
| Spending.RedeemableNotSpent | src/broker.c:1936-1953 | A receipt that is still issued and carries the machine's boot id was never redeemed before. |
| Receipts.ReceiptStaysAsIssued | src/broker.c:1259-1325 | From the moment a receipt is issued, through every continuation of the run, the receipt of its intent has the same verifier, uid, verb, resource, plan, issue time, lifetime and boot id, as long as the intent has one. |
| Receipts.GrantedHolds | src/broker.c:1756-1876 | An open intent for which the history holds a receipt line has a receipt, so no second one can be issued for it. |
| Runs.QuotaOverRun | src/broker.c:501-540 | At every point of a run, restarts, rotations and power failures included, no uid exceeds its count or byte quota in any interval one window long of the lines kept. |
| Runs.EffectBackedOverRun | src/broker.c:988-993 | Over a whole run an outcome claiming an effect on a receipt-bearing intent follows that receipt's redemption, by the same actor, for the verb and resource of the audited intent. |
| Runs.GlobalQuotaOverLifetime | src/broker.c:309-321 | Within one lifetime and a positive clock, any interval one window long holds at most twice the global byte quota. |
| Limits.ChecksExact | src/broker.c:255-321 | Wherever the broker is up, the three live checks refuse exactly when the history is full: the uid has its number of lines stamped within the last window, or the bytes of those lines and the new one pass the quota of the uid, or the bytes of the current global window of this lifetime pass the global quota. |
| Limits.CapExact | src/broker.c:870-881 | The caps checked on the live open set are the caps of what the history leaves open. |
| Limits.ChargedIsPaid | src/broker.c:237-252 | Every line clients write is charged once, with its whole size at its accept time, to its peer, or for a receipt line to the uid the receipt is for. |
| Unreadable.StartupNeedsReadableLines | src/record.c:648-654 | At every down point of every run, startup succeeds exactly when the segment is within the size limit and no line that does not parse was appended since the last rotation and is still there. |
| Unreadable.SpoilIsTold | src/broker.c:709-820 | Which unreadable lines each file holds is told by the steps alone, for every cut of the bytes not synced: appends add one, a rotation leaves none, a power failure takes lines away or brings the old ones back. |
| Unreadable.FitRunsStart | src/broker.c:837-844 | If every line written in a run parses, startup never fails but for the size limit. |
| Unreadable.StartupNeedsMetaFits | src/record.c:648-654 | After any number of audit lines is appended to a healthy segment, startup succeeds if and only if every one's metadata fits the stored buffers, and then means exactly those lines. |
| Unreadable.LongOpenStopsStartup | src/broker.c:837-844 | A request the parser accepts whose line makes any segment fail as corrupt. |
| Sessions.RedeemOkAtMostOnce | src/broker.c:1934-1998 | Over any session of calls, with failures that may take the redeemed line away, restarts, rotations and other requests between them, a correlation id gets at most one redemption reply. |
| Sessions.RedemptionIsAsIssued | src/broker.c:1936-1953 | Over any session, a redemption reply for a correlation id comes after the call that opened it, from root, for the uid that opened, with a token of the same digest as the one returned, for the operation, resource, plan schema and plan hash requested then, under the same boot id, and with a boot time between that of the open and that plus the configured lifetime. |
| Sessions.ToldSurvives | src/broker.c:462-493 | A success reply leaves the line with its correlation id, or the outcome of the intent its binding names, and for a token the line with its digest; these are in every later history, and so in every later recovery, if and only if no rename or creation is in doubt after the call. |
| Sessions.StartAndServe | src/broker.c:1154-1177 | Starting on whatever a run left behind and serving a request is a call of the session; the broker stays down exactly when a file operation failed or the segment is not recoverable, which is said of its lines without replaying them. |
| Grammar.ReplayAcceptsGrammar | src/broker.c:1329-1401 | Replay accepts a segment exactly when each correlation id's records lie in the declared grammar and no receipt is installed while another open intent holds its verifier. |
| Grammar.CellRunIsGrammar | src/broker.c:1259-1325 | The step-by-step rules for one correlation id compute exactly the declared grammar: opened once, identical carries, consistent receipts, at most one outcome, nothing after it. |
| Grammar.ReplayCells | src/broker.c:1200-1220 | What replay leaves open and closed is, id by id, what that id's own records say. |
| Grammar.ReorderingChangesNothing | src/broker.c:1242-1401 | With distinct verifiers, two segments with the same order within each correlation id are accepted alike and mean the same. |
| History.HistoryReplays | src/broker.c:1329-1401 | Nothing the live checks admit can make replay fail. |
| History.AdmittedReplays | src/broker.c:1329-1401 | Replaying one more admitted line installs exactly what the live path installs. |
| Guarantees.OutcomeFollowsItsIntent | src/broker.c:962-1025 | Every outcome follows exactly one intent with its correlation id and full actor, and is that id's only outcome. |
| Guarantees.EmitChangesNothing | src/broker.c:1032-1073 | An emitted line opens and closes nothing. |
| Guarantees.RedeemedAtMostOnce | src/broker.c:1934-1998 | No history redeems a correlation id twice. |
| Guarantees.EffectClaimIsBacked | src/broker.c:988-993 | Between an issued line and an outcome of the same id claiming an effect there is a redeemed line. |
| Guarantees.RedemptionMatchesIntent | src/broker.c:1259-1325 | A redeemed line carries the opener's uid, the operation and the resource of its intent line. |
| Guarantees.QuotaHoldsOverHistory | src/broker.c:221-306 | Both per-uid quotas hold in every interval one window long of every history. |
| Guarantees.CapsAndIdsHold | src/broker.c:870-881 | At every point of every history both open caps hold and bindings and verifiers of open intents are unique. |
| Witness.LifecycleIsHistory | src/broker.c:846-1025 | The guarantees are not empty: an intent, its receipt issued and redeemed, and an outcome claiming the effect are a history under any quotas that leave room for four lines. |
| WitnessRun.RotationSurvivesCrash | src/broker.c:709-820 | Runs are not empty: with any text layer that prints within the size limit a request is served, the segment rotated, the power fails and the broker comes up again on the new segment with the line acknowledged. |
| WitnessRun.AcknowledgedOutcomeIsLost | src/broker.c:796-806 | After a rename that could not be synced and a restart, an outcome is acknowledged, the power fails, and what is recovered has its intent still open. |
| Rates.SlidingQuotaHolds | src/broker.c:219-292 | If every entry passed the check at its own time, every closed interval one window long is within both quotas. |
| Rates.EvictedRingsAgree | src/broker.c:229-235 | Two rings that agree on the recent entries agree exactly after eviction at any later threshold. |
| Rates.QuotaExact | src/broker.c:255-281 | For entries in time order both per-uid checks pass exactly when the entries stamped no earlier than one window before now leave room. |
| Rates.GlobalExact | src/broker.c:282-321 | The global check passes exactly when the entries since the current tumbling window began, or none if a whole window has passed, leave room. |
| Rates.TumblingWindowWithinQuota | src/broker.c:282-321 | With a positive clock the global counter is the byte total of its tumbling window and never over the quota. |
| Rates.GlobalQuotaTwice | src/broker.c:282-321 | Any interval one window long holds at most twice the global quota. |
| Rates.ZeroClockDefeatsGlobalQuota | src/broker.c:309-321 | With the clock stuck at zero any number of lines of up to half the quota is accepted within one window. |
| Rates.TwiceQuotaIffPositiveClock | src/broker.c:282-321 | However long the lines, up to half the quota, twice the quota bounds every window of accepted lines if and only if their stamps are positive. |
| Rates.GlobalQuotaAnyClock | src/broker.c:282-321 | With any non-decreasing clock an interval one window long holds at most twice the global quota plus the bytes stamped zero. |
| UidRing.Ring.constructor | src/broker.c:193-217 | A new ring is empty; a limit of zero still has one slot. |
| UidRing.Ring.Evict | src/broker.c:227-235 | Eviction in the circular buffer is eviction of the entries it holds, and the running byte sum stays exact. |
| UidRing.Ring.Push | src/broker.c:237-252 | A push appends, dropping the oldest entry when full, with the sum exact. |
| UidRing.Ring.Copy | src/broker.c:519-523 | Copying out for a rotation yields the entries in order. |
| UidRing.Ring.RateAllowed | src/broker.c:255-265 | On a buffer in time order the count check passes exactly when there is no limit or fewer entries than the limit are stamped within the last window; the others are evicted. |
| UidRing.Ring.BytesAllowed | src/broker.c:270-281 | On a buffer in time order the byte check through the running sum passes exactly when there is no limit or the bytes stamped within the last window leave room for the line. |
| Lines.ScanEncode | src/broker.c:1493-1507 | Scanning written newline-free records gives exactly those records. |
| Lines.ScanIsExact | src/broker.c:1493-1507 | Every byte string is exactly its complete lines followed by its torn tail. |
| Lines.CrashedAppend | src/sink.c:74-95 | After any byte prefix of an append, the record is wholly there or the landed bytes are exactly the torn tail. |
| Lines.ScanSegment | src/broker.c:1493-1507 | The newline loop finds exactly the complete lines, and `keep` is their total length. |
| Lines.TornBytesNeverJoin | src/broker.c:1557-1563 | Over any number of crashes and restarts no record joins torn bytes and none is lost. |
| Decimal.U64RoundTrip | src/record.c:313-325 | Every 64-bit number survives decimal text. |
| Decimal.ParseU64Strict | src/record.c:313-325 | The digit loop with its overflow test accepts exactly the digit strings below 2^64, with their value. |
| Decimal.HexEncode | src/broker.c:1720-1727 | The loop writes the one lowercase hex text of the bytes. |
| Decimal.HexDecode | src/broker.c:1744-1754 | The loop succeeds exactly on lowercase hex and inverts encoding. |
| Decimal.SameDigestSameText | src/broker.c:1744-1754 | Comparing decoded digests is comparing hex texts. |
| Records.AuditRoundTrip | src/record.c:89-139 | What startup keeps of an audit line, its phase, ids, actor, time and metadata, is exactly what it was built from if the metadata fits, and the line is refused otherwise, whatever the client sent. |
| AuditLines.TreeReports | src/record.c:89-139 | The tree of an audit line has every member the client sent with its value and no other member of the allowlist; beside these it has exactly the schema version, record type, ids, phase, host, pid, actor, time text and the extension, whose members are given too. |
| AuditLines.AuditReports | src/record.c:89-139 | The text of an audit line loads as that tree. |
| Shapes.StoredExact | src/record.c:390-654 | A tree is accepted as a stored record, with these facts, exactly when it has the shape of that kind: an object of schema version 1 and this record type, with the members, types, lengths, digits and cross-checks each kind demands, written out member by member; any other record type is refused. |
| Shapes.RecordExact | src/json.c:26-126 | A client record is valid exactly when every member is on the list of sixteen with its type or null, and operation and outcome are present and not null. |
| Reading.DecodeExact | src/record.c:390-654 | A line decodes to a record exactly when its text is a tree of that shape; its size counts the newline and its claim is the effect flag. |
| Records.CheckpointRoundTrip | src/record.c:141-172 | A checkpoint line reads back as its exact inputs. |
| Records.RateRoundTrip | src/record.c:174-212 | A rate line reads back as its uid and every timestamp and size. |
| Records.ReceiptRoundTrip | src/record.c:214-277 | A receipt line reads back as its exact inputs. |
| Records.ReceiptParserAsStrictAsBuilder | src/record.c:470-577 | The parser accepts only receipts the builder would write. |
| Records.ClientCannotOverwriteStamp | src/json.c:103-126 | No record that passes the allowlist changes any member outside it, in particular no stamped one. |
| Records.MintedIdsFit | src/id.c:34-66 | Every correlation id and binding the broker can mint, from any time and random bytes, is well-formed and fits its buffer, as the handlers ask. |
| Records.BuildRate | src/record.c:174-212 | The loop builds the two parallel arrays of the rate record. |
| Records.ReadEntries | src/record.c:450-461 | The loop pairs times and sizes, refusing the record at the first bad pair. |
| Requests.ParseIsGrammar | src/json.c:216-378 | A body is accepted as a request exactly when it is that request's one tree, well formed, with no nine containers inside one another. |
| Requests.UnknownIsUnnamed | src/json.c:216-378 | A body is answered as an unknown request exactly when it is a shallow object whose type is a string other than the five names. |
| Requests.DepthIsChain | src/json.c:47-75 | The depth bound is broken exactly by a chain of that many containers and one more. |
| Requests.EffectExact | src/json.c:166-184 | The effect object is accepted exactly in its one form. |
| Requests.PlanExact | src/json.c:192-213 | The redemption plan object is accepted exactly in its one form. |
| Recovery.TracksAppend | src/broker.c:1508-1546 | A segment that stands for a history still does after one admitted line is appended to both. |
| Recovery.AppendedLine | src/sink.c:74-95 | A readable line appended to a clean file recovers as one more record. |
| Recovery.Truncating | src/broker.c:1557-1563 | Cutting off the torn tail leaves exactly the same lines, so the same recovery. |
| Recovery.CorruptMeansUnread | src/broker.c:1510-1515 | Recovery stops as corrupt only at a line that does not parse, and passes no such line. |
| Carry.CarryOne | src/broker.c:721-759 | Writing an intent's checkpoint and receipt into the new segment adds exactly that intent to what it recovers. |
| Carry.CarryRate | src/broker.c:501-540 | Writing a uid's rate record adds exactly its window to what the new segment recovers. |
| Carry.CarriedTracks | src/broker.c:709-767 | A segment holding all intents and all windows stands for the whole history, in whatever order they were written. |
| Carry.HistoryIntentsOk | src/broker.c:721-759 | Every intent a history leaves open has ids, metadata and receipt that fit their buffers, both caps hold and ids are unique. |
| Carry.CheckpointBuilds | src/record.c:49-87 | An intent a history leaves open can be written as a checkpoint if and only if the three fields kept of it are well-formed. |
| Utf8.CutIsUtf8 | src/broker.c:837-844 | Cutting a well-formed string leaves one if and only if no character is split. |
| Handlers.OpensCarriable | src/broker.c:837-844 | A request opens an intent that rotation can carry if and only if none of its three fields is cut inside a character. |
| Retention.RetentionMeetsItsBounds | src/broker.c:662-688 | With successful unlinks the segment count holds, the byte budget holds or no archive is left, and with one archive more a bound would have been broken. |
| Retention.KeptIsNewest | src/broker.c:569-576 | What is kept is a newest-first suffix of the archives. |
| Retention.SortArchives | src/broker.c:569-661 | Sorting the listing yields every archive once, oldest first. |
| Retention.ApplyRetention | src/broker.c:662-688 | Oldest first, each archive is removed exactly if in its turn those left are too many or with the active segment too large, and its unlink succeeds; a failed unlink still counts. |
| Tables.Find | src/broker.c:338-346 | Walking one chain finds a slot with the key exactly when the table holds one, for any hash. |
| Tables.Insert | src/broker.c:370-374 | Linking at the head adds exactly that slot, whether or not another has its key. |
| Tables.Unlink | src/broker.c:377-386 | Unlinking removes exactly that node's slot. |
| OpenSet.OpenSet.FindCid | src/broker.c:338-346 | Finds the set's node for the id exactly when it is open. |
| OpenSet.OpenSet.FindBinding | src/broker.c:325-336 | Finds an open intent with the binding exactly when there is one, and the only one where ids are unique. |
| OpenSet.OpenSet.FindVerifier | src/broker.c:354-365 | Finds an open intent whose receipt has the verifier exactly when there is one, and the only one where ids are unique. |
| OpenSet.OpenSet.Add | src/broker.c:388-414 | The three indexes and both counts agree with the set plus the new intent. |
| OpenSet.OpenSet.Remove | src/broker.c:416-442 | They agree with the set without the intent. |
| OpenSet.OpenSet.IndexReceipt | src/broker.c:370-374 | They agree with the set in which the intent has the receipt. |
| OpenSet.OpenSet.MarkRedeemed | src/broker.c:1986-1987 | They agree with the set in which the receipt is redeemed. |
| OpenSet.CountsAddUp | src/broker.c:408-412 | The per-uid counts sum to the number of open intents. |
| Indexed.ServeIndexed | src/broker.c:325-442 | Serving any request and making the change its reply calls for on the three tables, found through them, keeps every index exact and the tables equal to the broker's open set. |
| Installs.Install | src/broker.c:917-1020 | Carrying out any admitted line on the three-table set keeps every index exact, gives the set that line means, and keeps both counts true. |
| Broker.Broker.AppendLine | src/broker.c:466-493 | A synced line is in the file and the history, installed and charged; any failure leaves some part of the line or all of it in the file, poisons, and installs nothing. |
| Broker.Broker.Rotate | src/broker.c:709-820 | Unless something failed the new segment is exactly one checkpoint per open intent and one rate record per uid with entries, the archive is the old segment and the old file cannot come back; every other end names the operation that failed, or the intent that cannot be written or the archive name already taken, and what it left. It is a path of machine steps and leaves the open set as it was. |
| Broker.Broker.SwapIn | src/broker.c:768-820 | Locking, linking, renaming and syncing in this order: which of them failed decides what is in the sink, the archives and the pending file, and whether the broker is poisoned. |
| Broker.NothingFailed | src/broker.c:709-820 | A rotation in which no operation fails, every intent can be written and the archive name is free ends rotated. |
| Broker.Broker.CarryIntents | src/broker.c:721-759 | The pending file is exactly one checkpoint, with its receipt, per open intent in the order given; or it is gone, and then the write that failed, or the intent that cannot be written, is the one after those done. |
| Broker.Broker.CarryWindows | src/broker.c:501-540 | Every window is evicted and the pending file gains exactly one rate record per uid that still has entries, or it is gone because a write failed. |
| Broker.Broker.StartPending | src/broker.c:715-719 | Creating the pending file syncs the directory, so the last rename can no longer be undone. |
| Broker.Broker.LinkArchive | src/broker.c:783-790 | The archive is the old segment under a new name, unless the link failed or the name was taken, which removes the pending file and that name. |
| Broker.Broker.SyncDirectory | src/broker.c:798-805 | The old file can no longer come back, or the sync failed and the broker is poisoned. |
| Broker.Broker.Retain | src/broker.c:812-818 | Pruning changes nothing but the archives, and leaves those retention leaves, or all if the listing failed or there is no bound. |
| Broker.Broker.Commit | src/broker.c:905-931 | The line is at the end of the file, in the history, installed and charged, unless the append failed; then the segment is rotated exactly if it is over the limit, with the end that rotation names, and the reply is acknowledged unless that left the rename unsynced. Failure means poisoned with nothing acknowledged. |
| AuditLines.AuditDecodes | src/record.c:89-139 | The audit line the broker writes reads back as the record it is charged for, including its effect claim, exactly when nothing had to be cut, and otherwise does not parse. |
| Writes.WriteAudit | src/broker.c:897-931 | Success means the line is the last of the sink, or of the archive if the segment was rotated, and its text reports exactly what the client sent; each refusal has its reason: over a quota by the history, a failed append or directory sync, or a line that cannot be printed. |
| Writes.WriteReceipt | src/broker.c:1820-1868 | The same for a receipt transition, whose line says exactly this record, charged to the receipt's opener. |
| Writes.RefuseLimited | src/broker.c:889-904 | A request that fails a live check changes nothing of the history and is over a quota by it. |
| Handlers.HandleEmit | src/broker.c:1032-1073 | Success puts exactly this record in the file and leaves the open set; an error changes nothing or poisons, and has its reason. |
| Handlers.HandleOutcome | src/broker.c:962-1025 | Success closes the intent with the binding, for its opener, with any effect claim backed, its line in the file; no such binding, another actor and an unbacked claim each give their code exactly then, and any other error is a write refused for its reason. |
| Handlers.OpenIntent | src/broker.c:866-936 | Success opens exactly this intent within both caps, its line in the file; rate limited means over a cap or a quota, and any other error a write refused for its reason. |
| Handlers.HandleOpen | src/broker.c:846-960 | Success means the intent, and for an effect its receipt bound to the operation and resource as sent, are in the file; an error leaves nothing, or for an effect at most the open intent, and has its reason: a field too long to bind, a cap or quota, the disk, no boot reading, no usable token, or a line that cannot be built. |
| Handlers.MintToken | src/broker.c:1797-1816 | The bounded loop returns a drawn token that differs from the binding and whose verifier is unused, and fails only if no such draw came in time. |
| Handlers.IssueReceipt | src/broker.c:1756-1876 | A token is returned only with its digest durably bound to the intent's opener, verb, resource, plan, this boot time and boot id and the configured lifetime, and is refused only for a reason named. |
| Handlers.TokenMatches | src/broker.c:1907-1922 | The byte comparison of decoded digests is equality of verifiers. |
| Handlers.RedeemReceipt | src/broker.c:1880-1999 | Each refusal is given exactly in its case, first reason first: not root, no receipt, another principal, another token, another plan, already redeemed, outside the lifetime by boot id and boot time, then quota and disk; success durably marks exactly this receipt redeemed. |
| Handlers.HandleRedeem | src/broker.c:1094-1152 | Success implies root, the opener as principal, equal plan, the boot id of the issue and a boot time from the issue up to the end of the lifetime, and an expired reply the contrary; "unauthorized" and "invalid" are given exactly for a non-root peer and an unknown token; every other error has its reason. |
| Handlers.Handle | src/broker.c:1154-1177 | Keeps the invariant and states of each reply what it means: the intent opened and the receipt bound to the returned token, the one intent closed, the record emitted, or the receipt redeemed, for this actor and request, its line in the file, acknowledged and nothing else; an error leaves nothing but possibly an effect's open intent and is one the request called for, and a poisoned broker does nothing. |
| Handlers.ServeBody | src/main.c:333-350 | A body that does not load, that does not parse, or that parses is told apart; every request the parser accepts meets what the handlers ask and its reply means the same for the request that was parsed; any other body changes nothing. |
| Startup.TakeLine | src/broker.c:1508-1551 | One line is parsed, applied and noted, or its fault is reported; it is corrupt exactly when it is the text of no record. |
| Startup.Reconstruct | src/broker.c:1479-1565 | The loop succeeds exactly when the segment is recoverable: within the size limit, every non-empty line the text of a record, each correlation id within its grammar, no verifier installed twice; it then has the open set and windows of those records and where the last durable one ends, and otherwise the fault of the first bad line. |
| Reading.StartupExact | src/broker.c:1479-1565 | Recovery of a segment gives these records exactly when it is recoverable to them, said without parsing or replaying. |
| Startup.CutTail | src/broker.c:1466-1477 | The torn tail is cut off if the cut succeeds, and the file known to be synced if the sync does too. |
| Startup.OpenSink | src/sink.c:34-72 | A missing sink is created and the directory synced; an existing one is opened with nothing synced, so a rename in doubt stays so; it fails only if an operation failed. |
| Startup.OpenBroker | src/broker.c:1569-1664 | The broker comes up exactly when the segment can be read and is recoverable, the torn tail, if any, is cut and synced, and the sink opened, and if new its directory synced; it refuses exactly a segment that is read and not recoverable, with the fault of recovery. Coming up or failing is a path of machine steps. |
| Startup.StartsValid | src/broker.c:1569-1664 | Whatever starts from a state a run left behind satisfies the broker's invariant, and what does not start is over the size limit or holds a line that does not parse. |
| Frames.FrameRoundTrip | src/proto.c:88-105 | Every body up to the maximum reads back from its frame, whatever follows. |
| Frames.OnlyFramesRead | src/proto.c:44-86 | A stream reads as a frame only if it begins with exactly that frame. |
| Frames.ReadFull | src/proto.c:9-26 | Exactly n bytes despite short reads and signals, or all there were and why. |
| Frames.ReadFrame | src/proto.c:44-86 | The blocking reader returns the verdict of the whole stream. |
| Frames.Receiver.Receive | src/main.c:246-298 | Over any number of calls and any cutting of the stream, the first result other than "more" is the one-shot verdict, with the same body, and "more" is returned only with the frame incomplete and a read that would block. |
| Frames.FrameResponse | src/main.c:303-329 | A response is framed if and only if it fits, and then reads back as itself. |
| Frames.Sender.Send | src/main.c:354-369 | The peer always has a prefix of the response, never a byte twice, and all of it exactly when done; each call writes all the socket takes and stops short only where it would block, or gives up only where it failed. |
| Reactor.Reactor.Reap | src/main.c:523-530 | Closes exactly the connections past their deadline. |
| Reactor.Reactor.CountUid | src/main.c:372-380 | Counts exactly the uid's connections. |
| Reactor.Reactor.FindFree | src/main.c:410-419 | Below the global cap there is a free slot, so the loop never runs off the end. |
| Reactor.Reactor.AcceptNew | src/main.c:385-427 | Takes the offers in order until the slots are full, gives each uid of those as many connections as it asked for up to its cap, and touches no slot in use. |
| Reactor.Reactor.BuildPoll | src/main.c:532-557 | The listener first and only below the cap, then every connection in use exactly once. |
| Reactor.Reactor.Process | src/main.c:578-643 | Every event meets the very connection it was polled for, unchanged since the poll, and does what is due: a whole frame holding a request calls the broker, a whole frame or a refused header has its response queued with a new deadline, more to come changes nothing, all else closes; and it does so in the log for that connection alone. The slots that were free hold what the listener brought. |
| Reactor.AfterMoves | src/main.c:590-641 | What the loop does with an event is what is due for the connection's direction, its event and what its peer sends. |
| Reactor.Hear | src/main.c:246-298 | The resumable receiver of a connection reports that more is to come or the verdict on the whole stream, which is all the loop goes by. |
| Reactor.Reactor.Turn | src/main.c:519-643 | One turn keeps the invariant and changes nothing recorded; it polls exactly the connections that are before their deadline, each is dealt with as its event asks, those past it are gone for good, and if there is room the waiting peers are taken in. |
| Reactor.Reactor.Loop | src/main.c:519-643 | Over any number of turns every connection polled is before a deadline fixed when it was accepted or when its response was queued, whatever progress it made. |
| Reactor.InvariantMeans | src/main.c:519-643 | The count is the number of slots in use, both caps hold, no connection calls the broker or queues a response twice, only one whole frame holding a request reaches the broker, and every deadline is the one fixed at acceptance or queueing. |
| Reactor.EventGood | src/main.c:590-641 | Whatever an event does to a connection keeps the count, the caps, the deadlines and the once-only records. |

## Left out

- JSON text: Jansson's parsing and printing are a parameter, and so is the order of members in a printed object.
- Times as text: the human-readable time is an opaque string.
- SHA-256, constant-time comparison and wiping of buffers: an uninterpreted function and plain equality.
- A stray pending file that cannot be unlinked: the model's pending file is always a new one.
- Media faults: a sync that reports success is believed, also after an earlier one failed.
- Peer credentials, id minting, free-space checks and the connection-attempt limiter: their results are parameters or free choices.
- Archive names: archives are keyed by their timestamp, and parsing the suffix from a directory listing is not modelled.
- Deadline-aware blocking reads and writes in `src/proto.c`: they repeat the loops of the receiver and sender with a timeout.
- Response bodies other than their framing, the capability reply, signals, command line, socket activation and the test seams.
- Allocation failure, and the machine-width limits of counters other than the clock and the values stored as decimal text.
- Reactor.Reactor.Turn: what sending comes to is a free choice; `Frames.Sender.Send` proves what the peer then has.
- Broker.Broker.Rotate: the two hash-table walks are an arbitrary enumeration of the open set and of the uids, and one checkpoint with its receipt is one step.
- Handlers.HandleOutcome: lookups are made on the open set as a value; `OpenSet` proves the hash tables give the same answers and `Indexed.ServeIndexed` that they stay equal to the broker's set over its requests, but the broker object does not itself hold them.
- Writes.WriteAudit: the rate windows are values here; `UidRing` proves the ring buffer computes the same checks and contents, but the broker object does not itself hold the rings.
- Startup.Reconstruct: the lines are found first and replayed after, where the code does both in one pass; a fault stops the replay at the same line.
