# Marmot in Dafny: replication, publishing, sequence map, lease, routing and pool

Marmot is a leaderless replicator for SQLite. Triggers record each local write in
a change log; a publisher drains that log, oldest change first, into sharded
JetStream logs; every node replays every shard into its own tables. This project
models that pipeline and the stateful pieces it rests on, proves what it
promises where the code keeps the promise, and says which settings, steps and
rows break it where the code does not.

The files build on each other:

| file | what it holds |
|---|---|
| `Store.dfy` | rows, changes and logs of changes; last writer wins; replay and interleaving laws |
| `Tables.dfy` | column information, primary-key maps, the two replicated statements, down to one row |
| `ChangeLog.dfy`, `Publisher.dfy` | the table logs and the global log, and the publisher with crashes, failed marks and concurrent writers |
| `Cluster.dfy`, `Convergence.dfy`, `Replicas.dfy` | any number of nodes and shards as a step system, its invariant, and convergence |
| `Provenance.dfy`, `Restores.dfy` | where log entries, saved sequences and snapshots come from, what a boot does, and restoring a peer's snapshot |
| `Schedules.dfy` | single steps put together, and the schedule that brings a whole cluster to one state |
| `Gaps.dfy` | the exact law of what a listener that resumes somewhere makes of each row |
| `Anomalies.dfy` | runs in which the code as it stands does not converge, for every configuration that allows them |
| `Refinement.dfy`, `Simulation.dfy` | every run of the publisher is a run of the cluster model; convergence from trigger to tables |
| `Routing.dfy`, `Deployment.dfy` | the shard of an event, and the cluster with hash routing |
| `Cbor.dfy`, `SequenceMap.dfy` | the sequence file, byte by byte (sections 3 and 4.1 of RFC 8949) |
| `Replicator.dfy` | stream map, publishing with its snapshot trigger, and the listener loop |
| `Lease.dfy`, `Pool.dfy` | the snapshot lease and the connection pool |
| `Basics.dfy` | names, options, arrangements of sets |

## Reading the cluster model

A run is any list of actions; an action that is not enabled does nothing, so a
statement about all lists is a statement about all runs. `Consume` carries three
free choices: whether the stream accepted the message, whether the
acknowledgement came back and its sequence was recorded, and whether the call
ended without a retryable error. So refused messages, lost acknowledgements and
saves that fail before they touch the map are all runs. `Mark` may roll back.
`Restart` is a crash or an exit at any point, followed by a boot with its restore
decision. Here a node's sequence map and its file are one; how they come apart
when a write fails is module SequenceMap's subject.

`Track` holds history variables. No step reads them to decide what a node does;
they name the circumstances the theorems speak about, and the laws of
`Provenance.dfy` and `Gaps.dfy` do without them: `gapped` (the listener
position has passed an entry the tables lack), `lost` (rows changed here whose
change reached no log), `origins` (whose unsent changes the tables may hold),
`ordered` (changes were consumed oldest first).

## What the code guarantees, and what it does not

The documentation says that all mutations eventually converge
(docs/src/pages/intro.mdx:75-76). For a replicating node whose run has no restore,
no lost change and in-order streams, `Anomalies.SoundExactly` says when that
holds: if and only if the node does not both publish and take snapshots. The
default settings do both (cfg/config.go:127-135). In detail:

- Publish and Listen share one sequence map when snapshots are enabled, and a
  publish that runs ahead of the listener makes the listener skip entries.
  `Anomalies.SharedMapLosesUpdate` gives, for every such node and every row, a run
  in which nothing fails and the last update is lost; `Gaps.SkippedRow` says
  exactly which rows a skip gets wrong.
- A restore replaces the whole database when one shard is behind, and keeps the
  saved sequences. `Anomalies.StaleRestoreLosesRow` is a losing run for every
  configuration with two shards in use; `Gaps.RestoredNodeRow` and
  `Gaps.StaleRestoreRow` say exactly which rows a restore gets wrong.
- A publish error other than the two retryable ones is logged and the change is
  marked all the same. `Publisher.DropCause` and `Publisher.DroppedExactly` say
  which changes are dropped, and `Anomalies.DroppedChangeDiverges` is a diverging
  run for every configuration.
- The update trigger records only the new row, so an update of a primary key
  leaves the old key on every other node (`Anomalies.MovedKeyStaysBehind`).
- Nothing else goes wrong with the last two: in every run an ungapped, caught-up
  node is right about every row that is neither lost nor unsent
  (`Convergence.CaughtUpRow`).
- A failed mark with another change queued behind it costs the order in which
  changes enter the logs, and no other failed mark does
  (`Publisher.FailedMarkExactly`). If the two are changes of one row, the log ends
  on the older value while a primary keeps the newer one for good
  (`Anomalies.FailedMarkDiverges`).
- A failed write of the sequence file leaves the map ahead of the file, and
  saving the same sequence again succeeds without writing
  (`SequenceMap.ReplicationState.Save`).
- The lease keeps two nodes apart if and only if recorded times never go back
  (`Lease.ExclusionExactly`), and one acquisition keeps it so if and only if the
  time it writes is not before the time it has just read (`Lease.WriteExactly`):
  a guard the code does not have. One acquisition at a time on a clock that does
  not go back is enough (`Lease.LeaseExclusion`); two at once on one node are not
  (`Lease.ConcurrentAcquisitionsOverlap`), and `ContextRefreshingLease` makes them
  possible, since each snapshot starts its own refresher.

Where the conditions hold, convergence is not only reached when things happen to
end well: from every lossless run of sound nodes, over streams that discard
nothing, publishers and listeners alone can bring all nodes to the same tables
(`Schedules.ClusterConverges`).

Two smaller disagreements with the documentation, where the model follows the
code: a publisher records its sequence only when snapshots are enabled
(logstream/replicator.go:151-152, against docs/src/pages/internals.mdx:91-93), and
the global table is `__marmot___change_log_global` (db/change_log.go:127-129,
against docs/src/pages/internals.mdx:11).

## Model

| member | source | states |
|---|---|---|
| `Store.OverlappingReplay` | logstream/replicator.go:195-213 | Replaying a shard log from any resume point at or before a snapshot's position, over that snapshot, gives the tables of the whole log; for every log, position and overlap |
| `Store.InterleavingDecides` | logstream/replicator.go:170-222 | Any merge of the shard logs that keeps each shard's order leaves in every row what that row's own shard says last |
| `Store.InterleavingIndependence` | logstream/replicator.go:170-222 | Hence any two such merges end in the same database |
| `Store.FoldDecides` | db/change_log.go:559-603 | The fold of the shard logs agrees, row by row, with the last entry for the row in its shard |
| `Store.EveryMergeIsFold` | logstream/replicator.go:170-222 | One shard after another is itself such a merge, so every merge ends in the fold |
| `Store.TailDecides` | logstream/replicator.go:179-213 | A row that holds x when a log is read from some point on ends up right if and only if the rest mentions it or x was right at that point |
| `Store.RowSurvives` | logstream/replicator.go:224-243 | A row of a snapshot at one position, replayed from another on either side, ends up right if and only if the rest of the log has it or nothing between the two points changed it |
| `Store.RestoredRow` | logstream/replicator.go:224-243 | The same for a database over many shards and any interleaving, row by row |
| `Store.RestoreThenReplay` | logstream/replicator.go:224-243 | A snapshot at any position per shard, replayed from any resume points in any interleaving, ends in the fold if and only if every row survives between the two points; it does when no resume point is past the snapshot |
| `Cluster.ReplicaFrame` | logstream/replicator.go:170-222 | A database that is right up to a log position stays so while logs grow and other nodes move |
| `Convergence.StepEvolves` | db/change_log.go:349-412 | In every step logs only grow, and a row whose change is on its way stays accounted for until a log gets an entry for it |
| `Convergence.StepKeepsInv` | marmot.go:178-233 | Every action keeps the invariant: each ungapped node, ordered primary and trusted snapshot is right about every row, or a later entry or an unsettled change will say |
| `Convergence.RunKeepsInv` | marmot.go:178-233 | The invariant holds in every run of every cluster |
| `Convergence.CaughtUpRow` | docs/src/pages/intro.mdx:75-76 | In every run an ungapped, caught-up node holds what the logs say about every row that is not lost or unsent where its tables came from |
| `Convergence.CaughtUpIsFold` | docs/src/pages/intro.mdx:75-76 | Hence with nothing unsettled its tables are exactly the fold of the shard logs |
| `Convergence.PrimaryRow` | docs/src/pages/intro.mdx:110-115 | A sole publisher that does not replicate and took its changes oldest first is right about every settled row, at every moment |
| `Convergence.PrimaryIsFold` | docs/src/pages/intro.mdx:110-115 | Hence it holds the fold once its changes are sent |
| `Replicas.HealthyNeverGapped` | logstream/replicator.go:179-213 | On a node whose listener alone moves its sequence map, with in-order delivery of retained entries and restores of snapshots that are not behind, no crash ever opens a gap |
| `Replicas.ReplicaConverges` | logstream/replicator.go:170-243 | Such a node, caught up and settled, holds the fold, restores included |
| `Replicas.ReplicasAgree` | logstream/replicator.go:170-243 | Two such nodes agree, also across two runs (one without crashes, say) that left the same logs |
| `Replicas.EventualConsistency` | docs/src/pages/intro.mdx:75-76 | Whatever other nodes do, through crashes and failed marks: a sound node that lost no change, sent what it captured and read its streams in order to the end holds the fold |
| `Replicas.CrashRepeatsAtMostOne` | logstream/replicator.go:195-213 | A crash keeps the tables and leaves at most one applied message per shard to be applied again |
| `Replicas.PrimaryStaysOrdered` | db/change_log.go:378-411 | A primary that takes its changes oldest first and updates no key stays ordered, and its snapshots can be trusted; that it takes them so is derived in `Simulation.PlaysArePrimary` |
| `Replicas.PrimaryAndReplicaAgree` | docs/src/pages/intro.mdx:110-115 | One primary, many replicas: if the primary takes its changes oldest first, once settled the primary and every caught-up replica hold the same tables, the fold; `Anomalies.FailedMarkDiverges` shows it must |
| `Replicas.NoRestoreMeansRetained` | logstream/replicator.go:229-240 | If the boot check asks for no restore, every entry after the saved sequence is retained; it asks exactly when an entry is missing or the next one is the first retained |
| `Replicas.CatchUpFrom` | logstream/replicator.go:170-222 | From any listening state there is a schedule of deliveries and saves that reads every shard to its end |
| `Replicas.NoGapWithoutRestore` | logstream/replicator.go:224-243 | After a boot without restore such a schedule exists and ends in the fold of the whole logs |
| `Provenance.ChangeLogFrom` | db/table_change_log_script.tmpl:16-45 | In every run a node's change log holds, in the order of its writes, exactly what writes of that node captured |
| `Provenance.LogFrom` | logstream/replicator.go:146-149 | In every run, for every outcome of a call, each shard log is exactly what the writes captured whose change-log entries were published to it, in the order of the publishes |
| `Provenance.EntryWritten` | db/change_log.go:464-520 | Every log entry is a row as an earlier write of some node left it in that node's tables |
| `Provenance.SavedIsRecorded` | logstream/replication_state.go:48-72 | In every run a saved sequence is the largest one recorded by publisher or listener, through crashes and restores |
| `Provenance.SnapshotIsTables` | snapshot/db_snapshot.go:36-56 | In every run the stored snapshot is the tables of the node that took it last, as they were at that moment; none is stored before one is taken |
| `Provenance.KeepsLast` | logstream/replicator.go:350-363 | A stream delivers exactly its last entries, as many as its bound |
| `Provenance.BootExactly` | logstream/replicator.go:224-243 | A boot takes the snapshot, tables and change log, if and only if the node replicates, has snapshots on, one is stored and some shard's saved sequence is before the first kept entry; the sequence map stays and the listeners resume there |
| `Restores.PeerSnapshotGood` | snapshot/db_snapshot.go:58-88 | A healthy replicating node's snapshot is good to restore for every node whose saved sequences are not past those of that node then |
| `Restores.PeerRestoreConverges` | docs/src/pages/internals.mdx:96-107 | A node that restores a healthy peer's snapshot that way holds the fold once it has caught up and both have sent what they captured |
| `Schedules.ClusterConverges` | docs/src/pages/intro.mdx:75-76 | From every lossless run of any number of sound nodes, however far each has come, over streams that discard nothing, a schedule of publishing, marking, delivering and saving leaves every node drained with the same tables, the fold |
| `Gaps.ResumedRow` | logstream/replicator.go:179-213 | A row whose listener resumes at its cursor and reads to the end is right then if and only if the entries after the cursor mention it or it was right at the cursor, whatever the other nodes do meanwhile |
| `Gaps.RestoredNodeRow` | logstream/replicator.go:229-240 | After a restore a row ends up right if and only if an entry after the kept sequence mentions it or the snapshot was right about it there |
| `Gaps.StaleRestoreRow` | logstream/replicator.go:229-240 | Of a snapshot at a position, exactly the rows that survive between there and the kept sequence |
| `Gaps.SkippedRow` | logstream/replicator.go:210-213 | When Publish has moved the map ahead of a handled message, a row of the stream ends up right if and only if an entry after the stored sequence mentions it or the tables had it as it was there |
| `Anomalies.SharedMapLosesUpdate` | logstream/replicator.go:151-152 | For every node that publishes, replicates and takes snapshots, every row and any two values, a run without failure, loss, reordering or restore that ends caught up and drained on the older value |
| `Anomalies.SoundExactly` | logstream/replicator.go:151-152 | A replicating node converges in every such run if and only if it does not both publish and take snapshots |
| `Anomalies.DroppedChangeDiverges` | db/change_log.go:397-408 | For every configuration, node and new row, a marked change that no shard accepted leaves the node caught up, drained and different from the logs |
| `Anomalies.FailedMarkDiverges` | db/change_log.go:405-408 | For every publisher that does not replicate, every row and two values, a failed mark leaves the older value last in the log and the newer one in the tables, whatever follows short of another write |
| `Anomalies.MovedKeyStaysBehind` | db/change_log.go:153 | For every publisher and replica, an update of a primary key leaves the old key on the replica: both end caught up and drained, and they differ |
| `Anomalies.StaleRestoreLosesRow` | logstream/replicator.go:229-240 | For every configuration with two shards in use and every new row, a restore for one shard takes the row of another away for good |
| `Refinement.CaptureRefines` | db/table_change_log_script.tmpl:16-45 | A captured write is one unsent change at the end of the outbox |
| `Refinement.SendRefines` | db/change_log.go:396-403 | Accepting an entry flags that change and no other |
| `Refinement.MarkRefines` | db/change_log.go:414-445 | Marking an entry removes that change and no other |
| `Refinement.ProcessTurn` | db/change_log.go:378-411 | One turn of a publish pass flags and removes exactly its own entry, according to verdict and mark |
| `Refinement.ClusterTurn` | db/change_log.go:378-411 | A Consume and a Mark of the cluster do the same to a node's outbox, and the shard's log gets exactly the recorded change, if it was accepted |
| `Simulation.EveryPlayCoupled` | db/change_log.go:349-412 | For a node with any settings, in every interleaving of triggers, scans, turns, failed marks, cleanups, crashes and the rest of the cluster, the change log is the outbox of a run of the cluster model |
| `Simulation.CrashResumes` | logstream/replicator.go:179 | After a crash in a play the listeners stand where the sequence map does |
| `Simulation.TurnPublishes` | db/change_log.go:464-520 | A turn publishes the change its log row records, to that row's shard and no other, exactly when the stream accepts |
| `Simulation.LogHoldsTriggers` | db/table_change_log_script.tmpl:16-45 | In every play a log entry of this node is what one of its triggers recorded |
| `Simulation.NothingDroppedIsLossless` | db/change_log.go:397-408 | If the publisher dropped nothing, that run loses nothing |
| `Simulation.DrainedNodeConverges` | db/change_log.go:349-412 | From trigger to tables: nothing dropped, change log drained, listeners caught up, then the tables of a sound node are the fold of the shard logs |
| `Simulation.PlaysArePrimary` | db/change_log.go:378-411 | If no mark fails with a change queued behind it, every change a node consumes is its oldest |
| `Simulation.DrainedPrimaryAgrees` | docs/src/pages/intro.mdx:110-115 | One primary, many replicas, from trigger to tables: no mark failed with a change behind it, nothing dropped, change log drained, then the primary and every caught-up replica hold the fold |
| `Deployment.HashRoutedNodesAgree` | db/change_log_event.go:73-100 | With Marmot's own routing, for any hash and value encoding, two drained and caught-up nodes agree |
| `ChangeLog.CapturedLinked` | db/table_change_log_script.tmpl:16-45 | A trigger keeps global entries and pending log rows in one-to-one correspondence |
| `ChangeLog.MarkedLinked` | db/change_log.go:414-445 | So does a mark, which removes its own entry only |
| `ChangeLog.CleanedLinked` | db/change_log.go:89-121 | So does a cleanup, which touches no global entry |
| `ChangeLog.CaptureAppends` | db/table_change_log_script.tmpl:23-43 | A captured change joins the end of the outbox; other entries keep their changes |
| `ChangeLog.CleanupKeeps` | db/change_log.go:97-118 | A cleanup takes no change out of the outbox |
| `Publisher.EveryRunGood` | db/change_log.go:378-394 | In every run the logs are linked, the "row not found" panic is not reached, and every captured change is in the global log, was accepted or was dropped |
| `Publisher.DropCause` | db/change_log.go:396-408 | In every run a change is dropped if and only if some step marked it and no shard accepted it in any step |
| `Publisher.DroppedExactly` | db/change_log.go:378-411 | In every run the dropped changes are exactly the captured ones that left the global log though no shard ever accepted them |
| `Publisher.DropError` | db/change_log.go:397-403 | With publishing on, every step that marked a dropped change ended in an error outside the two retryable ones |
| `Publisher.SentInOrder` | db/change_log.go:378-411 | If no mark fails with a change queued behind it, changes reach the shards in capture order; crashes and other failed marks only repeat the change in flight |
| `Publisher.FailedMarkReorders` | db/change_log.go:405-408 | With a change queued behind a failed mark, the successor is sent and then the change, accepted before or not, for every queue of two or more at the front of any log |
| `Publisher.FailedMarkExactly` | db/change_log.go:398-408 | Of a publisher that has kept the order, a failed mark keeps it in every orderly continuation if and only if nothing was queued behind it or the error was retryable |
| `Publisher.PassDrainsOldest` | db/change_log.go:311-332 | An undisturbed pass sends and removes exactly the min(limit, n) smallest ids |
| `Publisher.PassesDrain` | db/change_log.go:349-412 | With a positive limit repeated passes empty the global log, every change sent once, in order |
| `Publisher.StreamDB.constructor` | db/change_log.go:208-254 | A new stream database has empty, linked logs |
| `Publisher.StreamDB.Trigger` | db/table_change_log_script.tmpl:16-45 | Application writes are captured; writes of Marmot's own connections are not |
| `Publisher.StreamDB.CleanupChangeLogs` | db/change_log.go:89-121 | Removes and counts exactly the rows that are published and no newer than the given time; all others stay as they are |
| `Publisher.StreamDB.PublishChangeLog` | db/change_log.go:349-412 | A pass equals the specified pass whatever others do in it, keeps linkage and accounting, never panics, and does nothing while another pass holds the lock |
| `Publisher.StreamDB.HandleChange` | db/change_log.go:378-411 | One turn of the pass, lookup, consumption, mark, break or return, with writes and cleanups of others before the lookup and between consumption and mark |
| `Tables.GetTableInfo` | db/sqlite.go:248-280 | Every table information has a key column; rowid is added exactly when none is declared |
| `Tables.GetPrimaryKeyMap` | db/change_log.go:192-206 | Exactly the key columns, each with the event's value, Null where the event has none; none for a table that is not watched |
| `Tables.SameKeyExactly` | db/change_log.go:199-203 | Two rows have one key if and only if they hold the same value in every key column |
| `Tables.KeyMapNotEmpty` | db/change_log.go:192-206 | The key map of a watched table is never empty |
| `Tables.ReplicateUpsert` | db/change_log.go:571-593 | The row becomes exactly the event's columns for every iteration order of its map; no other row changes; foreign columns are an error |
| `Tables.StoredAt` | db/change_log.go:571-593 | Each column of a stored row has the event's value, or the declared default if the event has none |
| `Tables.DeleteRemovesOneRow` | db/change_log.go:595-603 | A delete by key map removes exactly the row with that key |
| `Tables.ReplicateRow` | db/change_log.go:559-569 | Every stored row that differs from the event in a key column stays as it is; a delete leaves no row with the event's key, an upsert of a whole row leaves exactly that one; any other type is an error |
| `Tables.Replicate` | db/change_log.go:165-190 | The same for the catalog, other tables untouched; it is applying the event's change to the rows, applying it again changes nothing, and the three error cases are exactly these |
| `Routing.LeExactly` | db/change_log_event.go:117 | Names are ordered by prefix, else by the first differing byte |
| `Routing.SortSorts` | db/change_log_event.go:117 | Sorting yields a sorted permutation |
| `Routing.SortedUnique` | db/change_log_event.go:117 | There is only one |
| `Routing.DeclarationOrderIrrelevant` | db/change_log_event.go:111-117 | Sorted key columns depend on the set of key columns alone |
| `Routing.ColumnCache.GetSortedPKColumns` | db/change_log_event.go:102-124 | Answers the same with any coherent cache, and keeps it coherent |
| `Routing.Hash` | db/change_log_event.go:73-100 | The hashed bytes are the indefinite array of table name and key pairs, which `Routing.HashedExactly` shows to be the row's identity |
| `Routing.RoutingAgreement` | db/change_log_event.go:73-124 | The shard is a function of table and primary-key values: column order and other columns do not matter |
| `Routing.PreimageInjective` | db/change_log_event.go:73-100 | For every prefix-free value encoding, equal hash inputs have the same table, key columns and key values |
| `Routing.HashedExactly` | db/change_log_event.go:73-124 | Two events, on any nodes, are hashed alike if and only if they are of the same row |
| `Routing.Route` | logstream/replicator.go:128-135 | Any node, with any cache history, sends an event to its row's shard, which is between 1 and the shard count |
| `Cbor.HeadRoundTrip` | logstream/replication_state.go:66 | Shortest-form heads decode to their major type and argument |
| `Cbor.SmallNumbers` | logstream/replication_state.go:66 | Encodings listed in Appendix A of RFC 8949 come out as listed |
| `Cbor.TextRoundTrip` | logstream/replication_state.go:66 | Text strings decode back, leaving the following bytes |
| `Cbor.MapRoundTrip` | logstream/replication_state.go:45 | An encoded map decodes back for every iteration order, also when other bytes follow |
| `Cbor.OneEntry` | logstream/replication_state.go:66 | The map from a to 1 is the bytes a1 61 61 01 |
| `Cbor.EncodingMonotone` | logstream/replication_state.go:65-66 | Adding keys and raising values never shortens the encoding, whatever the two iteration orders |
| `SequenceMap.AnyOrderLength` | logstream/replication_state.go:66 | All iteration orders give encodings of one length |
| `SequenceMap.LengthGrows` | logstream/replication_state.go:55-66 | That length grows with the map |
| `SequenceMap.DecodesBack` | logstream/replication_state.go:45 | A file that is one encoding of a map decodes to it |
| `SequenceMap.Overwritten` | logstream/replication_state.go:59-66 | An encoding written over any file decodes to its map, and leaves no tail if and only if the file was not longer |
| `SequenceMap.ReplicationState.Init` | logstream/replication_state.go:21-46 | Loads the map its file encodes; an empty file is an empty map; what does not start with an encoded map is an error |
| `SequenceMap.ReplicationState.Save` | logstream/replication_state.go:48-72 | The four outcomes, from any state; a successful advance leaves a file that decodes to the map, and is exactly one encoding of it if and only if the file was not longer before, which earlier saves guarantee though nothing truncates |
| `SequenceMap.SaveAll` | logstream/replication_state.go:48-72 | After any history of saves the file is exactly one encoding of the map |
| `SequenceMap.RestartReadsBack` | logstream/replication_state.go:21-72 | The next process loads the map the last one saved, for every history of saves |
| `Replicator.StreamNamesDistinct` | logstream/replicator.go:383-390 | Shards never share a stream name, nor do compressed and uncompressed streams |
| `Replicator.CursorFollowsMap` | logstream/replicator.go:179-213 | For any delivery, redelivery, reordering, interleaved publish saves and failing saves: handled messages strictly increase, and each one saved leaves the cursor at the largest sequence put into the map by either path |
| `Replicator.ReceiveKeeps` | logstream/replicator.go:195-213 | One message keeps that invariant |
| `Replicator.TriggersExactly` | logstream/replicator.go:157-158 | A snapshot starts exactly at the multiples of MaxEntries / shards, and only in shard 1 |
| `Replicator.WindowTriggers` | logstream/replicator.go:157-158 | Any MaxEntries consecutive sequences of shard 1 hold a snapshot trigger |
| `Replicator.DiscardedAfterSnapshot` | logstream/replicator.go:151-165 | If each acknowledged sequence is the one `save` returns, a snapshot was started at or after every entry before it was discarded |
| `Replicator.MapAheadSkipsTriggers` | logstream/replicator.go:152-158 | Otherwise, for every MaxEntries and shard count with a cadence of two or more, there is an order of all saves, each at most one place early or late, that starts no snapshot at all |
| `Replicator.Replicator.constructor` | logstream/replicator.go:49-101 | One stream for each shard from 1 to the shard count: an existing one is attached to as it is, a missing one is added, and no other is touched |
| `Replicator.Replicator.Publish` | logstream/replicator.go:128-168 | The invalid-shard panic is not reached; the message ends up last in its shard's stream, after those of other nodes, and in no other; when it fails (refused, acknowledgement lost, save failed), what is saved, and when a snapshot starts |
| `Replicator.Replicator.Listen` | logstream/replicator.go:170-222 | The loop does what the listener of `CursorFollowsMap` does and touches no other stream's sequence |
| `Replicator.Handle` | logstream/replicator.go:195-213 | One turn of the loop: skip, end on a failing callback or a failing save, or apply and save |
| `Lease.MetaStore.AcquireLease` | logstream/replicator_meta_store.go:44-83 | Acquires exactly when the record it read left the lease free to it and nobody wrote in between; appends exactly that record |
| `Lease.AcceptedUnchanged` | logstream/replicator_meta_store.go:55-80 | In every run a write that is accepted found the register exactly as its attempt had last read it, and appended that attempt's record |
| `Lease.RunAcquires` | logstream/replicator_meta_store.go:44-83 | A read and the next write of an attempt, with anything between, do what AcquireLease does when the records that landed meanwhile are its others |
| `Lease.EveryRunHandsOver` | logstream/replicator_meta_store.go:73-80 | In every run a change of owner raises the recorded time by at least the duration |
| `Lease.DisciplineKeepsTime` | logstream/replicator_meta_store.go:45-49 | With one acquisition at a time per node on clocks that do not go back, recorded times follow the clocks |
| `Lease.WriteExactly` | logstream/replicator_meta_store.go:73-80 | An acquisition that finds the lease free keeps every later one of another node disjoint if and only if the time it writes is not before the time it read |
| `Lease.ExclusionExactly` | logstream/replicator_meta_store.go:44-83 | In every run exclusion holds at each moment if and only if recorded times never go back |
| `Lease.LeaseExclusion` | logstream/replicator_meta_store.go:44-83 | With one acquisition at a time per node on clocks that do not go back, recorded times never go back and the windows of any two different nodes are disjoint across the whole history |
| `Lease.ConcurrentAcquisitionsOverlap` | logstream/replicator_meta_store.go:85-118 | Two acquisitions at once on one node let another node in: a run for every pair of nodes, duration and times that allow it |
| `Lease.LeaseContinuity` | logstream/replicator_meta_store.go:85-118 | If refreshes land in time until the context is cancelled, no other node acquires from the first acquisition until then, for any number of refreshes and whatever happens later |
| `Pool.SQLiteConnection.Init` | pool/connection_pool.go:48-64 | Opens a closed connection for its pool or leaves it closed; an open one is left alone |
| `Pool.NewSQLitePool` | pool/connection_pool.go:80-98 | A pool of distinct idle connections, all open or all closed; an eager one fails if and only if some connection cannot be opened |
| `Pool.SQLitePool.Borrow` | pool/connection_pool.go:100-110 | Lends the first idle connection, open and answering to this pool, or replaces it and fails; idle plus lent stays the pool size |
| `Pool.SQLitePool.Dispose` | pool/connection_pool.go:112-119 | A return of a lent connection always finds room; one of another pool is refused; one that is not lent waits on a full channel or puts the pool out of order |
| `Pool.UsePool` | pool/connection_pool.go:80-119 | Through any borrows and returns of any clients: loans are distinct, open, answer to this pool and are not idle, and with the idle ones make up the pool |

## Left out

- NATS itself: connections, the embedded server, TLS, discovery. A stream is an append-only, bounded, numbered log; the bucket of the lease is a revisioned register.
- Snapshot storage and file copying: a snapshot is a table state at a known position per shard, and restoring it is one step.
- A crash inside the write of the sequence file: a process dies before or after a save. Short writes that return an error are modelled.
- In the cluster model a node's sequence map and its file are one: a boot after a write error, when the file lags or does not decode, is covered only by module SequenceMap.
- SQL text, goqu and SQLite: a table is a map from key to row. Secondary UNIQUE constraints, NULL in primary keys, transactions over several rows and schema changes are outside the model.
- Publisher.PassDrainsOldest: a scan limit of zero scans nothing here; what the query builder makes of a zero limit is outside the model.
- zstd and the CBOR form of events, with the wrapping of times: taken as an invertible codec. Decoding a text string does not check UTF-8.
- The arithmetic of FNV-1: routing holds for every hash function.
- Callback retries: a message whose callback fails after its retries ends the listener, which is how a failing callback is modelled; the seven attempts are one.
- Timers, telemetry, logging, configuration loading, comparison of stream configurations: they carry no property of interest here.
- Convergence.CaughtUpRow: one direction; a row that is lost or unsent can agree with the logs by chance. The exact law for gaps is `Gaps.ResumedRow`.
- Convergence.PrimaryRow: one direction; a primary that took changes out of order can still be right, as when they are of different rows.
- SequenceMap.ReplicationState.Init: the decoder reads maps and strings of definite length, which is what Marmot writes; indefinite-length ones, which the library also takes, are errors here.
- Simulation.EveryPlayCoupled: consuming a change and marking it are one step of a play, so a listener or a write between the two is covered by the cluster model, and by `Publisher.StreamDB.HandleChange` for the change log; boots that restore are left to the cluster model, since a restore replaces the change log too; writes keep their primary key, as `Anomalies.MovedKeyStaysBehind` shows they must.
- Restores.PeerRestoreConverges: for peers that replicate and do not share their sequence map; a primary's snapshots are `Replicas.PrimaryAndReplicaAgree`, and a node that shares its map can be gapped, which makes its snapshot wrong.
- Lease.LeaseContinuity: assumes that no clock runs ahead of the time at which writes land; that a refresh is written in time is its hypothesis, the ticker is not modelled.
- Pool.SQLitePool.Borrow: a caller that finds the channel empty waits; the contract starts when there is a connection to receive.
