# RDMA snapshot isolation: model and proofs

A Dafny model of the transaction protocols of the repository and proofs about every run of them.

**The one-sided protocol** (TPC-C NewOrder and Payment directly on remote memory) is a state machine in `Protocol`. Per
record it has the head (timestamp word and row), the timestamp list and the circular buffer of older versions; besides, the
oracle's vector, the snapshot readers' copies of it, and per client its phase, snapshot, local copies and lock results. An
action is the memory effect of one RDMA verb or one local decision, and a run is any interleaving of the actions of any number
of clients and readers. The history of every record, the log of decided transactions and the assigned order ids are auxiliary:
no action reads them. `Theorems`, `Conservation`, `Accounts` and `Lookups` state what holds in every reachable state. They rest on an
invariant of all actions (`Core`, `Steps`) and on further layers: snapshots (`Snapshots`), version chains (`Chains`), rows as
replays of operations (`Ledger`), transactions as their carts ask for (`Carts`), decided transactions and aborts (`Commits`),
order ids (`OrderIds`), drawn timestamps (`Draws`). What the committed carts call for is compared with what the rows show in
`Accounts`, and with the order ids given out in `OrderTakers` and `IdRuns`; `DrawRuns` is about all draws of a run, `Causality` and
`Freshness` about what a snapshot includes. `Progress` shows that undisturbed transactions commit; `Anomalies` and `StaleReads`
give runs for what the protocol does not guarantee. `Client` is the sequential program of one client, with the other clients'
steps in between.

**The two-sided protocol** (TPC-W over IPoIB) is a second state machine with its resource manager, in `TwoSided`; `GrantOrder` says when
its timestamps follow its serial order.
**The server's order index** is a class in `OrderIndex`, kept in agreement with the log of registrations. **Supporting
arithmetic**: the timestamp object (`Words`, `Timestamps`), a client's counters and order-line buffer (`Buffers`), the mapping
of keys to table slots (`KeySlots`); `OrderLines` follows order lines from the client's buffer to the index's last-orders query.

Assumptions of the one-sided model: reads and writes of one record, one list or the vector are atomic, and waiting for send
completions is a full barrier; snapshots are complete and copied before any record is read; a reader's first vector is zero;
timestamps are drawn before the 32-bit counter is exhausted, that is while (epoch + 1) times the number of clients is at most
2^32; there are at most 256 old versions and 65536 clients; money is in whole cents; random choices (carts) and the moments
at which others act are parameters. A database is any map of records to rows. Carts have quantities 1 to 10 and no item twice,
as the generator makes them, and any number of lines.

What turned out not to hold is stated with its exact condition:

- `isLocked` answers wrongly on a word that is both locked and deleted, and on no other (`Timestamps.FlagTests`).
- The search of a timestamp list finds the snapshot's newest version unless the head was locked over that version before it was
  listed (`Lookups.ListLookup`; as far as the reader can see it: `Lookups.WarnedLookup`; a run: `StaleReads.LockedVersionMissed`).
  Seeing it takes two old versions per record: with one, the reader gets the same view either way (`Lookups.OneVersionBlind`).
- The old version is fetched from the ring slot numbered by its list position. The copy is the snapshot's newest version exactly
  when that version's own slot has this number and the ring still holds it (`Lookups.RingLookup`; a run that passes the second
  check with an older one: `StaleReads.OlderThanFound`).
- Ids stay gapless through every step but an install that writes back a D_NEXT_O_ID read before it moved
  (`OrderIds.GaplessStep`), and over a run exactly if it holds no such install (`IdRuns.GaplessExactly`). Mixing atomic adds with Payments on one district allows that step (`Anomalies.PaymentReusesIds`).
- A delivery pops the oldest queued order whatever id it names (`OrderIndex.Index.RegisterDelivery`; two orders of which the
  wrong one goes: `OrderIndex.DeliverLater`).
- Two-sided commit timestamps need not follow the serial order (a run: `TwoSided.TimestampsCanFall`). On an item they do, in any
  run, exactly if every grant of its mutex that led to an install met an item older than the transaction
  (`GrantOrder.FollowsExactly`).
- S_REMOTE_CNT takes a line for remote if warehouse 0 supplies it. A line is counted rightly exactly if it is supplied by
  warehouse 0 if and only if it is supplied from elsewhere (`Ledger.FlagRightExactly`); the column is right, before it can wrap,
  exactly if all its lines were (`Conservation.RemoteConserved`; a run: `Anomalies.RemoteMiscounted`).

## Model

| member | source | states |
|---|---|---|
| Theorems.SnapshotReads | src/benchmarks/TPC-C/one-sided-architecture/client/queries/new-order/NewOrderTransaction.cpp:93-267 | In every run, each record a validated transaction has read is a published version inside its snapshot together with all earlier ones. Each stock, each item and each other record not replaced by an older version is the newest version its snapshot holds, so these reads come from one committed cut. |
| Causality.SnapshotsAreClosed | src/benchmarks/TPC-C/one-sided-architecture/client/DBExecutor.cpp:313-340 | In every run, a snapshot that includes a version is at least the snapshot that version was computed from, at every place (for the client's own versions: at every place but its own). |
| Causality.ReadsAreCausal | src/benchmarks/TPC-C/one-sided-architecture/client/DBExecutor.cpp:313-340 | A client that sees a version sees every version its writer's snapshot covered, the writer's own earlier ones included. |
| Causality.NextCausal | src/benchmarks/TPC-C/one-sided-architecture/client/DBExecutor.cpp:313-397 | Every action keeps the vector, the readers' copies and the clients' snapshots closed in this sense. |
| Theorems.SnapshotsAreAtomic | src/benchmarks/TPC-C/one-sided-architecture/client/DBExecutor.cpp:313-340 | A snapshot that includes a commit of another client includes that commit's version of every record it wrote. |
| Freshness.SeesPublished | src/benchmarks/TPC-C/one-sided-architecture/client/DBExecutor.cpp:313-340 | A published commit is in the snapshot of every transaction that begins, whatever happens in between, after its snapshot reader has refreshed, with its version of every record it wrote. |
| Theorems.PublishedIsInstalled | src/benchmarks/TPC-C/one-sided-architecture/client/queries/new-order/NewOrderTransaction.cpp:476-568 | A decided transaction covered by the oracle's vector has a version of every record of its write set. |
| Theorems.InstalledIsDecided | src/benchmarks/TPC-C/one-sided-architecture/client/queries/new-order/NewOrderTransaction.cpp:324-400 | Every version but the populated one belongs to a transaction that obtained all its locks and names the record. |
| Theorems.FirstCommitterWins | src/benchmarks/TPC-C/one-sided-architecture/client/queries/new-order/NewOrderTransaction.cpp:245-348 | Whoever wrote a version had all earlier versions of the record in its snapshot and computed the row from the version right before: of two concurrent writers one aborts, and no update is lost. |
| Theorems.CommitTimestampsDistinct | src/benchmarks/TPC-C/one-sided-architecture/client/queries/BaseTransaction.cpp:69-74 | Timestamps of decided transactions are nonzero, never shared by two clients, and increasing per client. |
| Theorems.LockedHeads | src/benchmarks/TPC-C/one-sided-architecture/client/DBExecutor.cpp:1549-1581 | A locked head belongs to exactly the client its word names, and its timestamp is ahead of the oracle's entry for that client and of every other client's snapshot. |
| Theorems.OnlyHolderWrites | src/benchmarks/TPC-C/one-sided-architecture/client/queries/new-order/NewOrderTransaction.cpp:288-348 | No action of another client changes a record while its lock is held, apart from D_NEXT_O_ID. |
| Theorems.RevertGivesBack | src/benchmarks/TPC-C/one-sided-architecture/client/DBExecutor.cpp:1583-1618 | Reverting a lock leaves word, row, list and ring exactly as the lock found them, under any interleaving. |
| Theorems.AbortLeavesNoTrace | src/benchmarks/TPC-C/one-sided-architecture/client/queries/new-order/NewOrderTransaction.cpp:352-372 | No version of a transaction that is being reverted exists anywhere, and when it ends its client holds no lock. |
| Theorems.ChainRefinesHistory | src/benchmarks/TPC-C/one-sided-architecture/client/DBExecutor.cpp:1620-1708 | While a warehouse or stock is unlocked, its list is the newest-first sequence of its overwritten words, as many as fit, unused entries behind, and the ring slot each word names holds that version. |
| Core.CasFindsNewest | src/benchmarks/TPC-C/one-sided-architecture/client/queries/new-order/NewOrderTransaction.cpp:298-348 | A compare-and-swap that succeeds on an accessible copy has found the record's newest version, unlocked, equal to the copy. |
| Core.OneHolder | src/benchmarks/TPC-C/one-sided-architecture/client/DBExecutor.cpp:1549-1581 | Two clients never hold the lock of one record. |
| Steps.NextKeeps | src/benchmarks/TPC-C/one-sided-architecture/client/queries/new-order/NewOrderTransaction.cpp:93-568 | Every action keeps the invariant: who may hold a lock, what heads, locks and copies mean, that only a record's newest version can be unpublished, and that snapshots trail the oracle. |
| Steps.InitInv | src/oracle/vector-snapshot-oracle/Oracle.cpp:47-50 | The populated database with a zero vector satisfies the invariant. |
| Steps.AllPublished | src/benchmarks/TPC-C/one-sided-architecture/client/queries/new-order/NewOrderTransaction.cpp:201-348 | A record is locked for overwriting only when all its versions are published. |
| Steps.DrawnStamp | src/benchmarks/TPC-C/one-sided-architecture/client/queries/BaseTransaction.cpp:69-74 | Before exhaustion the truncated 32-bit timestamp is the exact one and the next is larger. |
| DrawRuns.DrawnOnce | src/benchmarks/TPC-C/one-sided-architecture/client/queries/BaseTransaction.cpp:69-74 | No timestamp is drawn twice in a run, whether its transaction commits or aborts, and each client's draws grow. |
| DrawRuns.CommitsAreDrawn | src/benchmarks/TPC-C/one-sided-architecture/client/queries/BaseTransaction.cpp:69-74 | The draws of a run include the timestamp of every decided transaction. |
| Draws.DrawsDiffer | src/benchmarks/TPC-C/one-sided-architecture/client/queries/BaseTransaction.cpp:69-74 | Equal timestamps were drawn by the same client at the same epoch. |
| Steps.NextSlot | src/benchmarks/TPC-C/one-sided-architecture/client/queries/new-order/NewOrderTransaction.cpp:483-484 | The 8-bit increment and modulus step through the ring slots in turn for up to 256 versions. |
| Snapshots.NextSnaps | src/benchmarks/TPC-C/one-sided-architecture/client/OracleReader.cpp:69-98 | Every action keeps: no version newer than an unreplaced copy enters its reader's snapshot, snapshots and reader vectors are prefixes of every history, and writers had seen all they overwrote. |
| Chains.NextChains | src/benchmarks/TPC-C/one-sided-architecture/client/DBExecutor.cpp:1620-1708 | Every action keeps lists and rings equal to the listed and ringed part of the history, at every stage of every lock holder, and what was copied of them valid. |
| Chains.SlotIsModulo | src/benchmarks/TPC-C/one-sided-architecture/client/DBExecutor.cpp:1665-1708 | The i-th version of a record lies in slot i modulo VERSION_NUM. |
| Chains.ShiftExtendsList | src/benchmarks/TPC-C/one-sided-architecture/client/DBExecutor.cpp:1625-1634 | Shifting right and putting the old head's word in front turns the list of m overwritten versions into that of m + 1. |
| Chains.StoreExtendsRing | src/benchmarks/TPC-C/one-sided-architecture/client/DBExecutor.cpp:1665-1708 | Storing the old head in the slot its word names turns the ring of m versions into that of m + 1. |
| Protocol.FindValid | src/benchmarks/TPC-C/one-sided-architecture/client/queries/BaseTransaction.cpp:61-67 | The first accessible entry of a list, or -1 only if no entry is accessible. |
| Lookups.FoundIsNewestListed | src/benchmarks/TPC-C/one-sided-architecture/client/queries/BaseTransaction.cpp:42-67 | On a list of m versions the search returns the place of the snapshot's newest one among them, and -1 exactly when there is none or it has dropped off. |
| Lookups.ListLookup | src/benchmarks/TPC-C/one-sided-architecture/client/queries/new-order/NewOrderTransaction.cpp:203-243 | In every run, the entry found for an inaccessible warehouse or stock names the snapshot's newest version if and only if the head was not locked over a version of the snapshot still missing from the list. |
| Lookups.RingLookup | src/benchmarks/TPC-C/one-sided-architecture/client/DBExecutor.cpp:434-470 | The copy a client has after fetching by list position is its snapshot's newest version if and only if that version's own slot is the position found and the ring holds it; no other copy changes. |
| StaleReads.LockedVersionMissed | src/benchmarks/TPC-C/one-sided-architecture/client/queries/new-order/NewOrderTransaction.cpp:203-213 | For all carts sharing just the warehouse, a run in which the search misses the newest version because it is locked and not yet listed. |
| StaleReads.OlderThanFound | src/benchmarks/TPC-C/one-sided-architecture/client/queries/new-order/NewOrderTransaction.cpp:203-275 | For all carts sharing just the warehouse, a run in which the search finds the newest version, the fetched copy is an older one, and the second check is passed with it. |
| Conservation.StockConserved | src/benchmarks/TPC-C/one-sided-architecture/client/queries/new-order/NewOrderTransaction.cpp:483-494 | On every reachable stock row S_YTD is the total quantity ordered and S_ORDER_CNT the number of orders, up to their widths; S_REMOTE_CNT is that number for a stock of warehouse 0 and zero for any other; the quantity is in 10..100 and is the initial one less the total, modulo 91. |
| Accounts.PaymentsArrive | src/benchmarks/TPC-C/one-sided-architecture/client/queries/payment/PaymentTransaction.cpp:313-332 | In every run, whenever no Payment is between its decision and its install on the record, W_YTD of a warehouse or D_YTD of a district has grown by exactly the amounts of the committed Payments made there. |
| Accounts.MoneyConserved | src/benchmarks/TPC-C/one-sided-architecture/client/queries/payment/PaymentTransaction.cpp:189-352 | Whenever no Payment is in the middle of its installs on a warehouse and its districts, W_YTD has grown by the growth of the districts together; with none still to install on the warehouse, by the amounts of the committed Payments made there. |
| Accounts.NextLaw | src/benchmarks/TPC-C/one-sided-architecture/client/queries/new-order/NewOrderTransaction.cpp:324-514 | Every action keeps, for every record and every measure of operations: what is installed plus what decided transactions still have to install is what their carts ask for. |
| Accounts.YtdBalanced | src/benchmarks/TPC-C/one-sided-architecture/client/queries/payment/PaymentTransaction.cpp:313-352 | If W_YTD is the sum of D_YTD in the populated database it is so at every such moment, and with none still to install it is the populated value plus the amounts of the committed Payments. |
| Accounts.CustomerPays | src/benchmarks/TPC-C/one-sided-architecture/client/queries/payment/PaymentTransaction.cpp:328-332 | C_YTD_PAYMENT has grown and C_BALANCE has fallen by the amounts of the committed Payments of the customer at their home warehouse; C_PAYMENT_CNT has grown by their number, up to its width. |
| Accounts.OrdersTakeStock | src/benchmarks/TPC-C/one-sided-architecture/client/queries/new-order/NewOrderTransaction.cpp:476-494 | S_YTD is the total quantity of the committed order lines on the stock and S_ORDER_CNT their number, up to the column widths; S_QUANTITY is in 10..100 and the initial one less that total, modulo 91. |
| Accounts.RemoteOrdersCounted | src/benchmarks/TPC-C/one-sided-architecture/client/queries/new-order/NewOrderTransaction.cpp:476-494 | S_REMOTE_CNT is the number of committed lines on the stock if warehouse 0 supplies it, else zero. It is the number of lines from another warehouse exactly if the wrongly counted ones are a multiple of 2^16. |
| OrderIds.GaplessStep | src/benchmarks/TPC-C/one-sided-architecture/client/queries/new-order/NewOrderTransaction.cpp:409-428 | A step keeps a district's ids at exactly 0..D_NEXT_O_ID-1 if and only if it is not an install writing back an outdated D_NEXT_O_ID. |
| IdRuns.LockedIdsGapless | src/benchmarks/TPC-C/one-sided-architecture/client/queries/new-order/NewOrderTransaction.cpp:288-428 | With commutative updates off, after every run a district has given out exactly 0 .. D_NEXT_O_ID - 1, in order; with nobody committing, as many as there are committed NewOrders on it. |
| IdRuns.AddedIdsGapless | src/benchmarks/TPC-C/one-sided-architecture/client/DBExecutor.cpp:821-853 | With commutative updates on, the same for a district on which the run starts no Payment. |
| OrderTakers.OrderTookOneId | src/benchmarks/TPC-C/one-sided-architecture/client/queries/new-order/NewOrderTransaction.cpp:409-428 | In every run, in either mode, each committed NewOrder that is published took exactly one id of its district. |
| OrderTakers.IdsAreOrders | src/benchmarks/TPC-C/one-sided-architecture/client/queries/new-order/NewOrderTransaction.cpp:409-428 | Every id a district has given out was taken by a decided NewOrder on that district. |
| OrderTakers.AsManyIdsAsOrders | src/benchmarks/TPC-C/one-sided-architecture/client/queries/new-order/NewOrderTransaction.cpp:409-428 | With nobody committing, a district has given out as many ids as there are committed NewOrders on it. |
| OrderTakers.NextTakers | src/benchmarks/TPC-C/one-sided-architecture/client/queries/new-order/NewOrderTransaction.cpp:324-428 | Every action keeps who took which id in agreement with the log. |
| Anomalies.PaymentReusesIds | src/benchmarks/TPC-C/one-sided-architecture/client/queries/payment/PaymentTransaction.cpp:313-352 | From every state where a Payment and a NewOrder with atomic adds on one district could each run undisturbed, an interleaving leads to a D_NEXT_O_ID already given out. |
| Anomalies.IdsCanRepeat | src/benchmarks/TPC-C/one-sided-architecture/client/DBExecutor.cpp:821-853 | For every such pair of carts there is a database and a run from its start that does so. |
| Progress.UncontendedCommits | src/benchmarks/TPC-C/one-sided-architecture/client/queries/new-order/NewOrderTransaction.cpp:93-568 | From every reachable state, a transaction whose records are unlocked and inside its snapshot commits when it runs alone, adding one version of exactly the records its cart changes and publishing its timestamp. |
| Client.Cluster.DoOne | src/benchmarks/TPC-C/one-sided-architecture/client/queries/new-order/NewOrderTransaction.cpp:93-572 | Whatever the others do in between, every verb is possible when issued. A commit is logged with its cart, published, and has a version of every record the cart changes; a NewOrder has exactly one id. An abort commits nothing, and no lock remains. |
| Client.Cluster.CheckAll | src/benchmarks/TPC-C/one-sided-architecture/client/queries/new-order/NewOrderTransaction.cpp:201-253 | The first check passes exactly on the carts of Theorems.FirstCheck. |
| Client.Cluster.LockAll | src/benchmarks/TPC-C/one-sided-architecture/client/queries/new-order/NewOrderTransaction.cpp:288-348 | Every lock of the write set is tried, and the flag says whether all were obtained. |
| Client.Cluster.LockOne | src/benchmarks/TPC-C/one-sided-architecture/client/queries/new-order/NewOrderTransaction.cpp:288-322 | One lock is tried, whatever the others do just before; nothing else of the client changes. |
| Client.Cluster.RevertAll | src/benchmarks/TPC-C/one-sided-architecture/client/queries/new-order/NewOrderTransaction.cpp:352-372 | All obtained locks are given back, and the client ends idle with nothing committed. |
| Client.Cluster.InstallAll | src/benchmarks/TPC-C/one-sided-architecture/client/queries/new-order/NewOrderTransaction.cpp:476-514 | Every record of the write set gets its new version. |
| Client.Cluster.PublishResult | src/benchmarks/TPC-C/one-sided-architecture/client/DBExecutor.cpp:375-397 | The commit timestamp becomes the client's own entry of the oracle's vector. |
| Client.IsRecordAccessible | src/benchmarks/TPC-C/one-sided-architecture/client/queries/BaseTransaction.cpp:42-59 | True exactly for words neither locked nor deleted whose writer is the client itself or covered by its snapshot. |
| Client.FindValidVersion | src/benchmarks/TPC-C/one-sided-architecture/client/queries/BaseTransaction.cpp:61-67 | The loop returns the first accessible position, or -1. |
| Client.UpdatePointers | src/benchmarks/TPC-C/one-sided-architecture/client/DBExecutor.cpp:1625-1634 | The array is shifted in place, its last entry dropped and the old head's word put in front. |
| Words.SameBitsMeansEqual | src/basic-types/timestamp.cpp:112-120 | Within the field widths two raw words are equal if and only if the timestamps are. |
| Timestamps.FlagTests | src/basic-types/timestamp.cpp:28-58 | The composed status byte; `isDeleted` is exact; `isLocked` is exact if and only if not both flags are set; a locked or deleted word is never accessible. |
| Timestamps.DecodesRaw | src/basic-types/timestamp.cpp:21-26 | Decoding the raw little-endian word by shifts gives the fields back. |
| Timestamps.RawOfDecoded | src/basic-types/timestamp.cpp:21-26 | Every 64-bit value is the raw word of what it decodes to. |
| Timestamps.SwapIsLittle | src/util/utils.hpp:83-89 | Swapping the bytes of a big-endian reading gives the little-endian reading of the same memory. |
| Timestamps.BitStringIsBig | src/basic-types/timestamp.cpp:91-106 | The bit string of some bytes denotes their big-endian value. |
| Timestamps.Timestamp.ToUul | src/basic-types/timestamp.cpp:91-95 | Swapped and decoded, the returned value gives the timestamp back. |
| Timestamps.Timestamp.SerializeAsBinary | src/basic-types/timestamp.cpp:97-106 | The string is the bits of the object's bytes in memory order. |
| Timestamps.Timestamp.IsEqual | src/basic-types/timestamp.cpp:112-120 | True exactly when the raw words are equal. |
| Timestamps.Timestamp.FromUnsigned | src/basic-types/timestamp.cpp:21-26 | The object built from a 64-bit value has this raw word. |
| Timestamps.Timestamp.SetAll | src/basic-types/timestamp.cpp:80-89 | The object holds the given flags, offset, client and timestamp. |
| Timestamps.Timestamp.MarkLocked | src/basic-types/timestamp.cpp:72-74 | Sets the locked flag of a composed word and nothing else. |
| Timestamps.Timestamp.MarkUnlocked | src/basic-types/timestamp.cpp:76-78 | Clears the locked flag of a composed word and nothing else. |
| Timestamps.Timestamp.MarkDeleted | src/basic-types/timestamp.cpp:68-70 | Sets the deleted flag of a composed word and nothing else. |
| Buffers.Inside | src/benchmarks/TPC-C/one-sided-architecture/client/queries/BaseTransaction.cpp:123-131 | Every reservation is contiguous and inside the client's buffer. |
| Buffers.NotOverwritten | src/benchmarks/TPC-C/one-sided-architecture/client/queries/BaseTransaction.cpp:115-131 | An order's lines are disjoint from those of the client's next ORDER_BUFFER_PER_CLIENT - 2 orders, for any sizes and line counts. |
| Buffers.OverwrittenNext | src/benchmarks/TPC-C/one-sided-architecture/client/queries/BaseTransaction.cpp:115-131 | The bound is tight: of full orders the next one takes the first one's place. |
| Buffers.Session.InsertOrder | src/benchmarks/TPC-C/one-sided-architecture/client/queries/new-order/NewOrderTransaction.cpp:410-412 | The cursors yield the order's slot and the first slot of its lines in the sequence of all orders of the client. |
| Buffers.Session.NewCommitTimestamp | src/benchmarks/TPC-C/one-sided-architecture/client/queries/BaseTransaction.cpp:69-74 | Until the 32 bits are exhausted the timestamp is the epoch times the number of clients plus the client's id, nonzero, above all the client drew before, and different from whatever another client draws. |
| OrderIndex.Index.RegisterOrder | src/benchmarks/TPC-C/tables/TPCCDB.cpp:197-220 | All three address maps, the largest order and the queue again agree with the log, which grew by this registration. |
| OrderIndex.Index.LargestOrder | src/benchmarks/TPC-C/tables/TPCCDB.cpp:154-173 | Fails exactly if the customer registered nothing; else it names the customer's maximum id and, with unique ids, addresses of that one registration. |
| OrderIndex.Index.OldestUndelivered | src/benchmarks/TPC-C/tables/TPCCDB.cpp:271-291 | None exactly if the queue is empty; else the least queued id and, with unique ids, addresses of its registration. |
| OrderIndex.DeliverLater | src/benchmarks/TPC-C/tables/NewOrderTable.hpp:122-131 | Of two orders registered with falling ids the first is delivered: the second is popped, and the delivered one stays queued. |
| OrderIndex.Index.RegisterDelivery | src/benchmarks/TPC-C/tables/NewOrderTable.hpp:122-131 | Pops the least queued id, registered being queued plus popped; the order named leaves the queue if and only if it is the least. |
| OrderIndex.Index.LastOrders | src/benchmarks/TPC-C/tables/TPCCDB.cpp:222-269 | Succeeds exactly if every id below D_NEXT_O_ID and at most twenty below it is registered, and then lists, ascending, exactly the items in the slots of their last registrations, counted from the region of the client that ordered. |
| OrderLines.LastItems | src/benchmarks/TPC-C/tables/TPCCDB.cpp:241-252 | If each client's region holds the lines of its orders where its cursor put them, the items listed are exactly those of the last twenty orders, as long as these stand. |
| OrderLines.LineStands | src/benchmarks/TPC-C/one-sided-architecture/client/DBExecutor.cpp:2037-2070 | After any number of inserts each line of an order is at the slot reserved for it, as long as at most ORDER_BUFFER_PER_CLIENT - 2 orders followed. |
| OrderLines.LineSlotsApart | src/benchmarks/TPC-C/one-sided-architecture/client/DBExecutor.cpp:2037-2070 | Lines of different clients, or of orders of one client that stand, never share a slot of a table with at most 2^32 slots. |
| OrderIndex.LargestIsMax | src/benchmarks/TPC-C/tables/OrderTable.hpp:120-141 | The value kept per customer is the maximum of the registered ids, absent exactly if there is none. |
| TwoSided.RepliesTellTheTruth | src/benchmarks/TPC-W/two-sided/IPoIB/IPTradTrxManager.cpp:105-233 | In every run a transaction is reported committed exactly if it was so decided, is then installed at every resource manager, and at none if reported aborted. |
| TwoSided.AllOrNone | src/benchmarks/TPC-W/two-sided/IPoIB/IPTradTrxManager.cpp:130-218 | Whatever is installed was decided, and a decided transaction is installed at each resource manager its thread is done with. |
| TwoSided.SerialInDecisionOrder | src/benchmarks/TPC-W/two-sided/IPoIB/IPTradResManager.cpp:49-95 | Whenever an item's mutex is free, its stock is the replay of the committed transactions on it in decision order: the initial stock less all they sell, plus a number of restocks by 20. |
| TwoSided.StockInBand | src/benchmarks/TPC-W/two-sided/BaseTradResManager.cpp:61-69 | With quantities 1 to 10 an item that starts with ten pieces or more never has fewer, and never more than it had or 29. |
| TwoSided.InstallSells | src/benchmarks/TPC-W/two-sided/BaseTradResManager.cpp:61-69 | An install takes the quantity off the stock and adds 20 exactly if fewer than ten would remain; it lowers the stock exactly if ten or more remain. |
| TwoSided.TimestampsAreDealt | src/benchmarks/TPC-W/two-sided/BaseTradTrxManager.cpp:38-43 | Commit timestamps are dealt 1, 2, 3, ... in the order transactions begin. |
| TwoSided.MutexHasOneOwner | src/benchmarks/TPC-W/two-sided/BaseTradResManager.cpp:51-58 | An item's mutex has one owner, between its grant and its release. |
| TwoSided.NextKeeps | src/benchmarks/TPC-W/two-sided/IPoIB/IPTradTrxManager.cpp:97-233 | Every message and decision keeps mutexes with their owners and every item equal to the replay of its installs. |
| TwoSided.TimestampsCanFall | src/benchmarks/TPC-W/two-sided/BaseTradTrxManager.cpp:38-43 | A run in which an item's write timestamp decreases; exactly when, see GrantOrder. |
| TwoSided.DecideAll | src/benchmarks/TPC-W/two-sided/IPoIB/IPTradTrxManager.cpp:112-206 | The abort flag is set exactly if some lock was refused, and each resource manager is told to install, unlock or do nothing accordingly. |
| TwoSided.ResourceManager.LockItem | src/benchmarks/TPC-W/two-sided/BaseTradResManager.cpp:51-53 | Granted exactly if the mutex was free, and then held. |
| TwoSided.ResourceManager.HandleWrite | src/benchmarks/TPC-W/two-sided/IPoIB/IPTradResManager.cpp:68-95 | As the request says, the item is untouched, unlocked, or installed (stock less the quantity, plus 20 if fewer than ten remain, with the new timestamp) and unlocked. |
| TwoSided.ResourceManager.DecrementItemStock | src/benchmarks/TPC-W/two-sided/BaseTradResManager.cpp:60-68 | Stock less the quantity, plus 20 if fewer than ten remain, and the new write timestamp. |
| KeySlots.SlotsInside | src/benchmarks/TPC-C/one-sided-architecture/server/TPCCServer.cpp:52-58 | Every customer and stock slot lies inside the table the server allocates. |
| KeySlots.CustomersApart | src/benchmarks/TPC-C/tables/CustomerTable.hpp:139-141 | Two customers on one server in one slot are the same. |
| KeySlots.StocksApart | src/benchmarks/TPC-C/tables/StockTable.hpp:103-105 | Two stocks on one server in one slot are the same. |
| KeySlots.CustomerAt | src/benchmarks/TPC-C/tables/WarehouseTable.hpp:58-65 | Every slot of a customer table is some customer's. |
| KeySlots.CustomersInOrder | src/benchmarks/TPC-C/tables/CustomerTable.hpp:139-147 | Customers lie in the order they are populated, from slot zero, district by district and warehouse by warehouse. |
| KeySlots.StocksInOrder | src/benchmarks/TPC-C/tables/StockTable.hpp:103-105 | So do the stocks, item by item and warehouse by warehouse. |
| KeySlots.StockAt | src/benchmarks/TPC-C/tables/WarehouseTable.hpp:58-65 | Every slot of a stock table is some stock's. |
| Client.Cluster.ReadAll | src/benchmarks/TPC-C/one-sided-architecture/client/queries/new-order/NewOrderTransaction.cpp:104-131 | The read phase leaves copies of exactly the records the cart names and every list that may be needed, whatever runs beside it. |
| Client.Cluster.FetchAll | src/benchmarks/TPC-C/one-sided-architecture/client/queries/new-order/NewOrderTransaction.cpp:203-243 | Every inaccessible copy is replaced by a version its record's ring held, during the phase, at the first accessible position of the list read; the other copies stay. |
| Client.Cluster.FetchOne | src/benchmarks/TPC-C/one-sided-architecture/client/queries/new-order/NewOrderTransaction.cpp:203-243 | One such replacement. |
| Client.Cluster.ValidateAll | src/benchmarks/TPC-C/one-sided-architecture/client/queries/new-order/NewOrderTransaction.cpp:255-275 | The second check passes exactly when every record the cart names has an accessible copy; then the timestamp drawn is the epoch times the number of clients plus the client's id, and the records to lock are those the cart changes. |
| Client.Cluster.DecideOn | src/benchmarks/TPC-C/one-sided-architecture/client/queries/new-order/NewOrderTransaction.cpp:324-385 | The transaction is decided to commit, and logged, exactly if every lock was obtained. |
| Client.Cluster.AppendLists | src/benchmarks/TPC-C/one-sided-architecture/client/queries/new-order/NewOrderTransaction.cpp:391-400 | The overwritten word of every record of the write set goes to its list. |
| Client.Cluster.AppendRings | src/benchmarks/TPC-C/one-sided-architecture/client/queries/new-order/NewOrderTransaction.cpp:391-400 | The overwritten version of every record of the write set goes to its ring. |
| Client.Cluster.AppendToList | src/benchmarks/TPC-C/one-sided-architecture/client/queries/new-order/NewOrderTransaction.cpp:391-400 | Whatever the others do just before, one list is extended: the record moves on and nothing else of the client changes. |
| Client.Cluster.AppendToRing | src/benchmarks/TPC-C/one-sided-architecture/client/queries/new-order/NewOrderTransaction.cpp:391-400 | The same for one ring: the slot is inside it. |
| Client.Cluster.InstallOne | src/benchmarks/TPC-C/one-sided-architecture/client/queries/new-order/NewOrderTransaction.cpp:476-514 | The same for one install, which needs the order id taken before. |
| Client.Cluster.RevertOne | src/benchmarks/TPC-C/one-sided-architecture/client/queries/new-order/NewOrderTransaction.cpp:352-372 | The same for one lock given back: nothing is committed meanwhile in the client's name. |
| Client.Cluster.TakeOrderId | src/benchmarks/TPC-C/one-sided-architecture/client/queries/new-order/NewOrderTransaction.cpp:414-420 | Where the district is not locked, an order id is taken by an atomic add: it is the D_NEXT_O_ID the add found, now the last of the district's ids, and the counter is one above it. |
| Records.StockWritesExact | src/benchmarks/TPC-C/one-sided-architecture/client/queries/new-order/NewOrderTransaction.cpp:476-494 | A cart writes each of its stocks once, with that line's quantity, and no other stock. |
| Records.TxnOfExact | src/benchmarks/TPC-C/one-sided-architecture/client/queries/new-order/NewOrderTransaction.cpp:104-295 | Which records a cart's transaction reads and writes, which it may replace by an older version (NewOrder: its warehouse, district and customer), and whether its district counter is updated under the lock or by an atomic add. |
| Theorems.FirstCheck | src/benchmarks/TPC-C/one-sided-architecture/client/queries/new-order/NewOrderTransaction.cpp:201-253 | The first check lets a NewOrder go on exactly if every line's stock and item is accessible and each of its warehouse, district and customer is accessible or has an accessible list entry; a Payment exactly if its three records are accessible. Exactly the inaccessible records are then to be replaced. |
| Theorems.HoldsItsRecords | src/benchmarks/TPC-C/one-sided-architecture/client/queries/new-order/NewOrderTransaction.cpp:104-348 | Past both checks a client holds accessible copies of exactly the records its cart names, and locks exactly those its cart changes. |
| Theorems.CommitsWriteTheirCarts | src/benchmarks/TPC-C/one-sided-architecture/client/queries/new-order/NewOrderTransaction.cpp:324-514 | The write set of a decided transaction is what its cart changes. |
| Steps.StampExact | src/benchmarks/TPC-C/one-sided-architecture/client/queries/BaseTransaction.cpp:69-74 | The truncated timestamp is the exact one if and only if it is below 2^32. |
| Theorems.RunGood | src/benchmarks/TPC-C/one-sided-architecture/client/queries/new-order/NewOrderTransaction.cpp:93-568 | All invariants together hold after every run. |
| Commits.NextLog | src/benchmarks/TPC-C/one-sided-architecture/client/queries/new-order/NewOrderTransaction.cpp:380-568 | Every action keeps decided transactions either published and installed everywhere or still under way, and every version owed to one of them. |
| Commits.LockExcludes | src/benchmarks/TPC-C/one-sided-architecture/client/DBExecutor.cpp:1549-1581 | No action of another client changes a record that a client holds. |
| Commits.NextAbort | src/benchmarks/TPC-C/one-sided-architecture/client/queries/new-order/NewOrderTransaction.cpp:288-372 | Every action keeps each lock that may still be reverted restorable to the record it was taken on. |
| Draws.NextDraws | src/benchmarks/TPC-C/one-sided-architecture/client/queries/BaseTransaction.cpp:69-74 | Every action keeps the log's timestamps drawn ones, growing per client. |
| Ledger.NextLedger | src/benchmarks/TPC-C/one-sided-architecture/client/queries/new-order/NewOrderTransaction.cpp:483-494 | Every action keeps each row the previous one with its writer's operation applied. |
| Ledger.StockLaw | src/benchmarks/TPC-C/one-sided-architecture/client/queries/new-order/NewOrderTransaction.cpp:485-494 | On any such history the stock columns are as stated for Conservation.StockConserved. |
| OrderIds.NextOid | src/benchmarks/TPC-C/one-sided-architecture/client/queries/new-order/NewOrderTransaction.cpp:288-428 | With locked counters only, every action keeps the counter in a copy of the newest district version current. |
| OrderIds.HeldIsNotOlder | src/benchmarks/TPC-C/one-sided-architecture/client/queries/new-order/NewOrderTransaction.cpp:203-305 | A transaction that fell back to an older version never gets that record's lock. |
| Progress.DecideAlone | src/benchmarks/TPC-C/one-sided-architecture/client/queries/new-order/NewOrderTransaction.cpp:93-385 | An undisturbed transaction gets all its locks and is decided to commit. |
| Timestamps.MemoryIsRaw | src/basic-types/timestamp.hpp:27-32 | The bytes of the fields in layout order, read little-endian, are the raw word. |
| Timestamps.Marks | src/basic-types/timestamp.cpp:68-78 | Each mark sets or clears its own flag of a composed status byte. |
| Timestamps.RawIsEncode | src/basic-types/timestamp.hpp:27-32 | The raw word is the one the protocol's compare-and-swap compares. |
| Timestamps.Timestamp.constructor | src/basic-types/timestamp.cpp:28-36 | The object holds the given flags, offset, client and timestamp. |
| Timestamps.Timestamp.Increment | src/basic-types/timestamp.cpp:108-110 | Adds one to the raw word; at the largest timestamp it falls back to zero without a carry into the client id. |
| Buffers.Session.ReserveOrderLines | src/benchmarks/TPC-C/one-sided-architecture/client/queries/BaseTransaction.cpp:123-131 | The reservation starts at the cursor if it fits and else at the beginning, inside the buffer. |
| Buffers.Session.IncrementAll | src/benchmarks/TPC-C/one-sided-architecture/client/queries/BaseTransaction.cpp:107-117 | The cursors step to the place of the next order. |
| Buffers.Session.constructor | src/benchmarks/TPC-C/one-sided-architecture/client/SessionState.hpp:18-21 | All cursors start at zero and the epoch at one. |
| OrderIndex.Index.constructor | src/index/hash/HashIndex.hpp:45-48 | An empty index agrees with the empty log. |
| OrderIndex.LatestIsUnique | src/benchmarks/TPC-C/tables/OrderTable.hpp:143-149 | With unique ids the address kept for an id is that of its only registration. |
| OrderIndex.Push | src/benchmarks/TPC-C/tables/NewOrderTable.hpp:95-106 | The place at which the queue stays ordered by id. |
| OrderIndex.AddLines | src/benchmarks/TPC-C/tables/TPCCDB.cpp:247-251 | Adds to an ascending set exactly the items in the slots of an order's lines, counted from its client's region. |
| TwoSided.ResourceManager.UnlockItem | src/benchmarks/TPC-W/two-sided/BaseTradResManager.cpp:55-58 | The mutex is free and nothing else changes. |
| GrantOrder.FollowsExactly | src/benchmarks/TPC-W/two-sided/IPoIB/IPTradTrxManager.cpp:97-218 | In any run, an item's installs have increasing commit timestamps if and only if every grant of its mutex that led to an install met an item older than the transaction. |
| GrantOrder.LowersExactly | src/benchmarks/TPC-W/two-sided/BaseTradResManager.cpp:60-68 | An install lowers the item's write timestamp if and only if the item was the newer one when its mutex was granted. |
| GrantOrder.HeldStays | src/benchmarks/TPC-W/two-sided/BaseTradResManager.cpp:51-58 | While a mutex is held, no action but its holder's write touches the item, and the holder keeps its timestamp. |
| IdRuns.GaplessExactly | src/benchmarks/TPC-C/one-sided-architecture/client/queries/new-order/NewOrderTransaction.cpp:409-428 | Over any run a district's ids are gapless throughout if and only if no action was a stale install on it. |
| Lookups.WarnedLookup | src/benchmarks/TPC-C/one-sided-architecture/client/queries/new-order/NewOrderTransaction.cpp:203-243 | Unless the head is locked, the first entry is the one found and the head's slot is the one after its slot, the entry found is the snapshot's newest version; if so, it is when the version under the lock is outside the snapshot and, with two or more old versions kept, only then. |
| Lookups.OneVersionBlind | src/benchmarks/TPC-C/one-sided-architecture/client/queries/new-order/NewOrderTransaction.cpp:203-243 | With one old version kept, the same list and head offset come from a history on which the entry found is the snapshot's newest version and from one on which it is not. |
| Lookups.MissingExactly | src/benchmarks/TPC-C/one-sided-architecture/client/DBExecutor.cpp:1625-1634 | If the snapshot's newest version is missing from a list that has some entry of the snapshot, the search finds the first entry and its slot is the one before that version's; with two or more old versions kept, only if it is missing. |
| Conservation.RemoteConserved | src/benchmarks/TPC-C/one-sided-architecture/client/queries/new-order/NewOrderTransaction.cpp:476-494 | In every run S_REMOTE_CNT is the number of remote orders, up to its width, if and only if the wrongly flagged ones are a multiple of 2^16, and before it can wrap if and only if none was flagged wrongly. |
| Ledger.RemoteCountExact | src/benchmarks/TPC-C/one-sided-architecture/client/queries/new-order/NewOrderTransaction.cpp:478-494 | The same for any history of a stock row. |
| Ledger.FlagRightExactly | src/benchmarks/TPC-C/one-sided-architecture/client/queries/new-order/NewOrderTransaction.cpp:478-478 | The flag of a line is right if and only if warehouse 0 supplies it exactly when another warehouse than the ordering one does. |
| Anomalies.RemoteMiscounted | src/benchmarks/TPC-C/one-sided-architecture/client/queries/new-order/NewOrderTransaction.cpp:478-494 | For every new order with a wrongly flagged line, a run that commits it and leaves a wrong count. |
| Theorems.ReplacedIsFallback | src/benchmarks/TPC-C/one-sided-architecture/client/queries/new-order/NewOrderTransaction.cpp:203-253 | Only warehouse, district and customer copies are ever replaced by older versions, never a stock or an item. |
| Buffers.DrawsGrow | src/benchmarks/TPC-C/one-sided-architecture/client/queries/BaseTransaction.cpp:69-74 | Before exhaustion a client's later draw is the larger one. |
| Buffers.DrawsApart | src/benchmarks/TPC-C/one-sided-architecture/client/queries/BaseTransaction.cpp:69-74 | Before exhaustion equal draws were made by the same client at the same epoch. |

## Left out

- RDMA verbs, queue pairs, sockets, threads, completion polling, statistics: only the memory effects are modelled.
- Torn reads: a READ of a record, a list or the vector is atomic in the model.
- Delivery, OrderStatus and StockLevel as one-sided transactions, and the last-name index: Delivery does not keep version offsets and writes the deleted new-order to another slot than it locked, so the chain and lock claims do not carry over.
- Timestamp lists of districts and customers: Payment reads the customer's list into the district's buffer, so what a client reads there is left open; their rings, locks and rows are modelled.
- D_NEXT_O_ID of old district versions: only the current value and the value last read at the head are kept.
- Inserts of orders, order lines and history rows, and index registration, as steps of the protocol's runs; their slots and their index are modelled on their own.
- Snapshots restricted to the read set, and non-cluster mode, where the vector may be read after records.
- The recovery log, and the other TPC-W variants, which repeat the protocol.
- Rounding of amounts, and string columns.
- OrderIndex.Index.RegisterDelivery: requires a non-empty queue, because popping an empty one is undefined in the source.
- OrderIndex.Index.LastOrders: requires D_NEXT_O_ID below 2^31, because the source converts it to a signed 32-bit number.
- Client.Cluster.DoOne: reads all heads before all lists, one of the orders the state machine allows.
- The library's priority queue and ordered set: sorted sequences; `HashIndex` is a map, and its locking is left out.
- The two-sided transaction manager's loops over its sockets: steps of the state machine; its decision loop is `TwoSided.DecideAll`.
- TwoSided: item-info requests, which change nothing, and the order in which a thread serves its sockets, of which the model allows all.
