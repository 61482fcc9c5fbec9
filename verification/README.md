# Chain replication for a bank, verified

Each bank keeps its accounts on a chain of servers. Clients send updates to the head and queries to
the tail. An update runs down the chain, the tail answers the client, and acks run back up. A master
notices crashes and tells the survivors how to repair the chain. A new server can join behind the
tail, and a transfer moves money from one bank's chain to another's.

This project models that protocol as src-cpp implements it, and the joining of a server as both src-cpp and
src-da implement it, and proves what it is for: whatever crashes, the servers together behave as one sequential
bank that never loses an answered update, and money is neither lost nor made.

## How it is built

| file | content |
|---|---|
| `Bank.dfy` | The single bank: a fold over a log of updates with duplicate detection, and its own laws. |
| `Replicas.dfy` | What each server handler does, as functions on values; `Refines` ties a server's state to the log it has applied. |
| `ChainServer.dfy` | The server class with its fields and loops, each method proved to compute the function of `Replicas.dfy` or `Extension.dfy`. |
| `Masters.dfy` | The master's server lists: functions on values, and the classes that search and edit a list in place and tell all banks of a new head. |
| `Orders.dfy` | The master's orders as a server meets them: handled in the order sent, none trips an assertion. |
| `Chains.dfy`, `ChainSteps.dfy` | One chain as a state machine with FIFO channels, crashes and repair in separate steps; the invariant, kept by every step. |
| `ChainResults.dfy`, `ChainRepair.dfy`, `ChainRest.dfy`, `Convergence.dfy` | What the invariant gives over whole runs: safety, completion of repairs and how it is reached, termination of delivery. |
| `Transfers.dfy`, `TransferResults.dfy`, `TransferEnds.dfy` | Two chains with transfers in both directions; conservation of money; how transfers come to an end. |
| `Extension.dfy`, `HandOver.dfy`, `StepDown.dfy` | A server joins: snapshot, replay and hand-over of the tail role, with restarts; the old tail afterwards, and the failure of the joining server. |

A step of the chain is one handler run to its end on one message. Between any two steps any server may
crash, as long as one lives. A crash and the master's noticing it are two steps, and so are S+ reporting its number, the
master passing the report on and S- sending its entries again. What a dead server left in a channel stays deliverable, in any
order relative to other channels, and any number of repairs may be under way at once.

## What is assumed

* Handlers are atomic, failures are fail-stop, the master does not fail and detects only real crashes, and one
  server always lives (project.txt:148-156, 288-289).
* A failed assertion stops its server, as a crash does. In the chain only the assertion on queries ever fails; the others are proved to hold.
* One request id names one account within a bank. The sent-list lookup compares only ids (src-cpp/server/server.cc:656),
  although project.txt:119-128 speaks of an id "for this account". `SharedIdSplitsChain` shows what goes
  wrong otherwise, and `LookupExactly` says exactly when the lookup is right.
* A client's request id belongs to one bank; the other bank sees it only on a forwarded transfer.
* Transfers go to another bank (project.txt:136), and a chain that sends transfers does not lose its tail.
  `PromotionForgesMoney` shows why; `ToBeTailExactly` and `PromotionPaysExactly` give the exact conditions.
* The reports of the S+ servers of one bank reach the master in the order they were sent. A report overtaken by a later
  one for the same S- would link S- to a server that has died since.
* Every server knows every bank, so the assertion at src-cpp/server/server.cc:859 holds; `ReceiveNewHead` has the other case.
* A joining server gets its messages in one FIFO order, those of a dead tail before those of its successor.
* Money is `int`, sequence numbers are `nat`, identifiers are numbers compared for equality. Amounts must be
  positive only where a result says so (project.txt:146). An account that does not exist counts as balance 0, since a query at the tail
  creates an empty account there only.

## Where the code falls short of its intent

| where | what happens | what is proved instead |
|---|---|---|
| src-cpp/server/server.cc:656 | The sent-list lookup ignores the account. | `Replicas.LookupExactly`, `Replicas.SharedIdSplitsChain` |
| src-cpp/server/server.cc:490, src-da/chain.da:300 | A query asserts that its server is the tail. A client is told of a new tail while the order to be tail is still on its way, and of a joined tail only after the old one has stepped down, so a query sent in good faith can stop a server, even the last one. | `ChainResults.QueryFailsExactly`, `ChainResults.LostExactly`, `ChainRepair.QueryAtNamedTail`, `ChainRest.QueryOvertakes`, `HandOver.HandOverExact`, `HandOver.QueryTrips` |
| src-cpp/server/server.cc:104-122 | A promoted tail forwards refused and repeated transfers and does not record transfers as processed. | `Replicas.ToBeTailExactly`, `TransferResults.PromotionPaysExactly`, `TransferResults.PromotionForgesMoney` |
| src-cpp/server/server.cc:345, 353 | The new tail's number is the greatest it has seen, which misses trailing repeats; the next update then trips the gap assertion. src-da sends the number. | `HandOver.SequenceExactly`, `HandOver.RepeatFallsShort`, `HandOver.HandOverExact` |
| src-cpp/server/server.cc:378-385 | When the joining server fails after the hand-over, the sent list is dropped unrecorded, and a resend is paid again. src-da records it. | `StepDowns.FailKeepsExactly`, `StepDowns.DroppedIsPaidTwice`, `StepDowns.AbortKeeps` |
| src-cpp/server/server.cc:864-866 | The handler of a new head asserts that a tail's sent list holds only transfers, but an extending tail keeps every update there. One update during the transfer and one head crash at any bank abort the tail. src-da has no such assertion. | `HandOver.HandOverExact`, `HandOver.NewHeadTrips` |

## Model

| member | source | states |
|---|---|---|
| Bank.HistoryIsFirsts | src-cpp/server/server.cc:636-669 | For any log, a key is in the history if and only if it is in the log, and its record is that of its first occurrence. |
| Bank.JudgedByFirst | src-cpp/server/server.cc:606-713 | An entry is new exactly when no earlier one has its id and account. Otherwise it is a resend exactly when it equals the first that has in every field, and gets that one's reply; any other is turned away with the balance of that moment. Every reply names its request's id and account. |
| Bank.FirstsOnce | src-cpp/server/server.cc:636-669 | The log reduced to first occurrences has each key of the log exactly once. |
| Bank.ExactlyOnce | src-cpp/server/server.cc:606-669 | Resends and conflicting resends leave no trace: the reduced log gives the same balances, and the same request and reply under every key. |
| Bank.NeverNegative | src-cpp/server/server.cc:730-755 | With amounts that are not negative, no balance is ever negative. |
| Bank.SumOfBalances | src-cpp/server/server.cc:730-755 | The sum of all balances is effective deposits and incoming transfers minus effective withdrawals and outgoing transfers, each first occurrence counted once. |
| Bank.BalanceIsChanges | src-cpp/server/server.cc:730-755 | Each balance is the sum of that account's own effective requests. |
| Bank.RefusedExactly | src-cpp/server/server.cc:606-633 | A new request is refused exactly when it takes more than the account holds; its reply shows the balance after it. |
| Replicas.LookupExactly | src-cpp/server/server.cc:636-669 | Processed map, then sent list, find the record of the log's first entry with that id and account if and only if the map has it or the first sent entry with the id, if any, names the same account; a server that first opens the account is right too. |
| Replicas.TwoLevelLookup | src-cpp/server/server.cc:636-669 | With one account to an id the lookup is always right, however acks have split the history. |
| Replicas.SharedIdSplitsChain | src-cpp/server/server.cc:655-665 | One id for two accounts makes head and tail disagree on a balance. |
| Replicas.UpdateReplyRefines | src-cpp/server/server.cc:606-633 | A server judges and answers a request as the single bank run on its log does. |
| Replicas.RelayRefines | src-cpp/server/server.cc:547-553 | Head and internal servers extend their log by the request, put its record in the sent list and send exactly that record on. |
| Replicas.ConcludeRefines | src-cpp/server/server.cc:573-594 | Tail and single servers extend their log by the request; every reply and every forwarded transfer is a record of that log. |
| Replicas.AnsweredUnlessPending | src-cpp/server/server.cc:573-594 | A tail answers every update at once, except a successful transfer with an entry of its id and account in the sent list. |
| Replicas.RepeatedTransfer | src-cpp/server/server.cc:772-802 | A transfer sent again changes nothing and is not forwarded; it is answered with the reply it got when new, unless it is still pending. |
| Replicas.ReceiveUpdateRefines | src-cpp/server/server.cc:487-531 | An update extends the log by one if the server is the head or the number is the next one, is ignored if old, and the assertion fails on a gap only. |
| Replicas.AcknowledgeRefines | src-cpp/server/server.cc:475-485 | The popping loop moves entries from sent list to processed map in log order and changes nothing else. |
| Replicas.AckPassedOn | src-cpp/server/server.cc:475-485 | The handler of an ack keeps the log, counts as acked what the number says, and passes that number on unless it is the head. |
| Replicas.ToBeTailRefines | src-cpp/server/server.cc:99-138 | Without transfers a promoted tail keeps its log, has everything processed and acks its last number. |
| Replicas.ToBeTailExactly | src-cpp/server/server.cc:99-122 | A promoted tail's processed map is the whole history if and only if its sent list has no transfer that is a first occurrence. |
| Replicas.ToBeTailSplits | src-cpp/server/server.cc:99-138 | Whatever it held: a promoted tail's sent list is the transfers it held, each once and in order, and it forwards exactly these; its processed map gains exactly the keys of the other entries; it acks only if no transfer is left. |
| Replicas.AboveIsRun | src-cpp/server/server.cc:162-179 | S- sends again exactly the entries above the reported number, in log order without a gap. |
| Replicas.TransferReplyExactly | src-cpp/server/server.cc:830-852 | The destination's reply answers exactly the pending requests with its id and destination account, in order, keeps the others in order, and is acked once nothing is left. |
| Replicas.NewHeadForwards | src-cpp/server/server.cc:855-871 | On a new head a tail forwards exactly its entries for that bank, in order, and aborts exactly if its sent list holds anything but transfers; other servers do nothing. |
| Masters.CrashRepair | src-cpp/master/master.cc:135-222 | For the crashed server's own bank: the list loses exactly that server, keeps its order and its shape; exactly the due messages go out, each once and an order to be head or tail before anything else; NEW_PRE_SERVER joins the two servers adjacent afterwards. |
| Masters.BanksRepair | src-cpp/master/master.cc:135-222 | Over all banks: no other list changes, and the other banks' servers, all but the joining ones, hear of a new head and of nothing else; no message goes out twice, and an order to be head or tail goes first. |
| Masters.JoinExtends | src-cpp/master/master.cc:80-94 | A joining server comes after the tail; exactly one message goes out, the order to extend to the server just before it, and head and tail stay. |
| Masters.RosterSafe | src-cpp/master/master.cc:80-222 | Over every sequence of crashes, joins one at a time and finishes the list is that of the survivors in the order in which they came, duplicate-free, head first, tail last or just before the joining server. |
| Masters.BankServerChain.constructor | src-cpp/master/master.h:64-71 | A fresh list has the right shape. |
| Masters.BankServerChain.Find | src-cpp/master/master.h:73-78 | The search loop, which tests the element before the bound, stops inside the list at the first occurrence. |
| Masters.BankServerChain.RemoveNode | src-cpp/master/master.h:73-80 | Removes the first occurrence in place. |
| Masters.BankServerChain.SuccServerAddr | src-cpp/master/master.h:100-108 | Finds the successor without leaving the list. |
| Masters.BankServerChain.PreServerAddr | src-cpp/master/master.h:110-118 | Finds the predecessor without leaving the list. |
| Masters.BankServerChain.TakeOut | src-cpp/master/master.cc:135-221 | Takes the crashed server out of the list in place and names the repair messages to its own bank's servers, an order to be head or tail first. |
| Masters.BankServerChain.ReceiveJoin | src-cpp/master/master.cc:80-94 | The joining server is appended and marked; the server before it, the tail, is told to extend. |
| Masters.BankServerChain.ReceiveExtendFinish | src-cpp/master/master.cc:97-102 | The joining server becomes the tail. |
| Masters.Master.BroadcastNewHead | src-cpp/master/master.cc:155-163 | The two nested loops tell every listed server of every bank, all but the joining ones. |
| Masters.Master.NotifyServerCrash | src-cpp/master/master.cc:135-222 | The in-place reaction to a crash computes the lists and the messages of all banks that `BanksRepair` is about. |
| ChainServers.ChainServer.constructor | src-cpp/server/server.h:36-37 | A new server refines the empty log. |
| ChainServers.ChainServer.GetOrCreateAccount | src-cpp/server/server.cc:672-688 | Creates the account with balance 0 exactly when it is missing. |
| ChainServers.ChainServer.UpdateBalance | src-cpp/server/server.cc:730-755 | Computes the bank's move of money in place. |
| ChainServers.ChainServer.SearchSentList | src-cpp/server/server.cc:655-665 | The loop finds the first sent entry with the id. |
| ChainServers.ChainServer.CheckUpdateRequest | src-cpp/server/server.cc:636-713 | Opens the account and compares the request, in every field but id and account, with the earlier one the two-level lookup knows; a server that refines its log gives the bank's verdict. |
| ChainServers.ChainServer.UpdateRequestReply | src-cpp/server/server.cc:606-633 | Computes `UpdateReply` in place. |
| ChainServers.ChainServer.InsertProcessedList | src-cpp/server/server.cc:759-769 | Inserts unless the key is present. |
| ChainServers.ChainServer.HandleTransfer | src-cpp/server/server.cc:772-802 | Computes the tail's treatment of a transfer in place: forwards a new successful one, answers any other unless an entry of its id and account is pending. |
| ChainServers.ChainServer.RelayUpdate | src-cpp/server/server.cc:547-603 | The head and internal handlers compute `Relay` in place. |
| ChainServers.ChainServer.ConcludeUpdate | src-cpp/server/server.cc:556-594 | The single and tail handlers compute `Conclude` in place. |
| ChainServers.ChainServer.ReceiveRequest | src-cpp/server/server.cc:495-531 | Update requests: computes `ReceiveUpdate` in place, and a server that refines its log refines the log extended by what it accepted; the assertion fails on a gap only. |
| ChainServers.ChainServer.ReceiveQuery | src-cpp/server/server.cc:487-493 | Queries: the assertion fails exactly at a server that is not the tail; a tail answers with the bank's balance on its log. |
| ChainServers.ChainServer.ReceiveAck | src-cpp/server/server.cc:475-485 | The popping loop computes `Acknowledge`, passes the ack on and keeps the log. |
| ChainServers.ChainServer.BecomeHead | src-cpp/server/server.cc:92-96 | Changes the role and nothing else. |
| ChainServers.ChainServer.BecomeTail | src-cpp/server/server.cc:99-138 | The erasing loop computes `ToBeTail`; without transfers it keeps the log and empties the sent list. |
| ChainServers.ChainServer.ReceiveNewPreServer | src-cpp/server/server.cc:141-159 | Reports the length of the log. |
| ChainServers.ChainServer.ReceiveNewSuccServer | src-cpp/server/server.cc:162-179 | The loop sends again the end of the log above the reported number. |
| ChainServers.ChainServer.ReceiveTransferReply | src-cpp/server/server.cc:830-852 | The erasing loop computes `TransferReply`; it refuses a reply that does not say processed. |
| ChainServers.ChainServer.ReceiveNewHead | src-cpp/server/server.cc:855-871 | The loop forwards again every transfer to that bank, unless an assertion fails. |
| ChainServers.ChainServer.OrderExtension | src-cpp/server/server.cc:182-195 | Starts extending exactly when the sent list is empty. |
| ChainServers.ChainServer.SendSnapshot | src-cpp/server/server.cc:198-275 | The two walks send every account and every history entry once. |
| ChainServers.ChainServer.SendSentList | src-cpp/server/server.cc:276-321 | Sends the sent list in order, then the final message, steps down and extends no more. |
| ChainServers.ChainServer.ReceiveExtendMsg | src-cpp/server/server.cc:324-375 | Computes `ReceiveExtend` in place; it fails exactly on a second message for an account, and no message but the first drops or changes a history entry. |
| ChainServers.ChainServer.ExtendFailed | src-cpp/server/server.cc:378-385 | Drops the sent list; the server still refines its log if and only if all of it was processed. |
| Orders.OrdersObeyed | src-cpp/master/master.cc:135-222 | After any crash, the letters to any server, handled in the order in which they were sent, trip no assertion; the server keeps its log and has the role and the predecessor the repaired list gives it. A new tail is tail, with nothing in its sent list, before it is told to extend. Without transfers; the two cases it excludes, a new head while the tail extends and a joining server that fails after the step-down, are those of `NewHeadTrips` and `FailKeepsExactly`. |
| ChainSteps.StepKeeps | src-cpp/server/server.cc:487-603 | Every step of the chain keeps the invariant: requests and queries at any live server, deliveries, crashes, repair, notices of new heads at any bank. No assertion but the one on queries ever fails. |
| ChainSteps.InitialKeeps | src-cpp/server/server.h:36-37 | The chain before its first request satisfies the invariant. |
| ChainResults.RunKeeps | src-cpp/server/server.cc:487-669 | Every reachable state satisfies the invariant. |
| ChainResults.ServersRunPrefixes | src-cpp/server/server.cc:487-669 | In every reachable state each live server's balances, lists and lookups are those of the bank run on the first `seqNo` requests of the accepted log, and later servers hold shorter prefixes. |
| ChainResults.LogsGrow | src-cpp/server/server.cc:487-531 | A step only appends to a surviving server's log, by at most one request. |
| ChainResults.CommittedNeverLost | src-cpp/master/master.cc:135-222 | Over every run the committed log only grows and never changes, through any head, tail and internal crashes. |
| ChainResults.RepliesAreSequential | src-cpp/server/server.cc:534-594 | Every reply ever given is the single bank's on the committed log: an update's is the record of its entry, a query's the balance after a prefix. |
| ChainResults.QueryFailsExactly | src-cpp/server/server.cc:487-493 | The assertion on queries fails exactly at a live server that is not the tail; that server stops and answers nothing, and the bank is lost if it was the last. |
| ChainResults.LostExactly | src-cpp/server/server.cc:487-493 | A bank is lost exactly by a query to its one living server while that is not yet the tail. |
| ChainResults.WrongHeadIgnores | src-cpp/server/server.cc:514-517 | A client's update at a server that is not the head changes no server. |
| ChainResults.NewHeadNoticed | src-cpp/server/server.cc:855-871 | Told of a new head of a bank, its own or another, a tail forwards again exactly what its sent list holds for that bank; any other server does nothing. |
| ChainResults.QueryIsCurrent | src-cpp/server/server.cc:534-544 | A query at the tail is answered from the whole committed log of its moment. |
| ChainResults.RequestComesAfter | src-cpp/server/server.cc:497-503 | A client's request enters the log after everything answered so far. |
| ChainResults.SentListCovers | src-cpp/server/server.cc:475-485 | A server before the tail has in its sent list, in order, every entry some later server lacks; what it dropped, all later servers have applied. |
| ChainResults.LinkedDrained | src-cpp/server/server.cc:141-179 | Once S- is linked to S+ and the channel is empty, S+ holds exactly S-'s log, whatever dead servers left in other channels. |
| ChainResults.ChainRefinesOutline | src-cpp/server/server.cc:487-594 | Every step refines a log that grows or loses its uncommitted end, with a committed mark that never falls. |
| ChainRepair.StepMends | src-cpp/master/master.cc:135-235 | In every state the messages on their way, once delivered, link each live server to its neighbours and leave a head and a tail. |
| ChainRepair.QueryAtNamedTail | src-cpp/master/master.cc:167-185 | A query at the server the master names as tail fails only while the order to be tail is on its way to it. |
| ChainRepair.RepairCompletes | src-cpp/master/master.cc:135-235 | However crashes and repairs interleaved: when nothing is on its way, the live servers are linked both ways from head to tail and all hold the same log. |
| ChainRest.RepairReachable | src-cpp/master/master.cc:135-235 | From every reachable state in which the bank is not lost, some run of detections and deliveries alone reaches that point. |
| ChainRest.AnsweredWhenTaken | src-cpp/server/server.cc:573-594 | Whatever a tail adds to its log it answers in the same step, all but transfers. |
| ChainRest.QueryOvertakes | src-cpp/master/master.cc:167-185 | A chain of two, the tail crashed, and a query that overtakes the order to be tail: the last server stops. |
| Convergence.StepCalm | src-cpp/server/server.cc:428-485 | Without failures, each delivery lowers the work left, and acks on their way carry what the next server counts as acked. |
| Convergence.DeliveryTerminates | src-cpp/server/server.cc:428-485 | There are never more deliveries than the work the queues hold. |
| Convergence.CanDrain | src-cpp/server/server.cc:428-485 | A state with nothing left to deliver can be reached by deliveries alone. |
| Convergence.DeliveryConverges | src-cpp/server/server.cc:428-603 | After any run without failures, deliveries end; then all servers hold the head's log and every sent list is empty. |
| Transfers.ForwardedUnique | src-cpp/server/server.cc:804-827 | Two forwarded transfers with one id are the same. |
| Transfers.ForwardedMayArrive | src-cpp/server/server.cc:804-827 | What is forwarded is always acceptable to the destination's head, so no forwarded transfer is shut out by the assumptions. |
| Transfers.PairStepKeeps | src-cpp/server/server.cc:772-871 | Every step of either chain, and every reply between them, keeps the invariant on pending and applied transfers in both directions. |
| TransferResults.LogsConserve | src-cpp/server/server.cc:730-755 | For any two logs that take transfers only from each other: balances plus what is in flight both ways are deposits minus withdrawals. |
| TransferResults.MoneyConserved | src-cpp/server/server.cc:730-871 | Over every run of two chains that send transfers to each other, with crashes, repeated and lost forwards: the balances at the two last live servers plus the transfers one has committed and the other not, both ways, are both banks' deposits minus withdrawals. |
| TransferResults.PaidInOnce | src-cpp/server/server.cc:772-852 | No transfer is paid in twice, and each one paid in is a successful transfer of the source, with that transfer's id, amount, bank and account. |
| TransferResults.HeldUntilApplied | src-cpp/server/server.cc:588-593 | A successful transfer that a chain has committed stays in the sent list of every live server of that chain until the other bank has applied it. |
| TransferEnds.TransfersComplete | src-cpp/server/server.cc:772-871 | From every reachable state in which neither bank is lost, some run of detections, deliveries, arrivals of forwarded transfers and replies brings both chains to rest with every committed transfer between them in the logs of all living servers of both banks and none of them pending. |
| TransferEnds.ServeOne | src-cpp/server/server.cc:804-852 | With both chains at rest, a pending transfer forwarded again reaches every server of the other bank, is answered, and leaves the tail's sent list. |
| TransferEnds.PendingWaits | src-cpp/server/server.cc:588-593 | Nothing but the other bank's reply takes a pending transfer out of the tail's sent list. |
| TransferResults.TransferReplySaysProcessed | src-cpp/server/server.cc:830-831 | The destination's reply to a transfer always says processed, so the assertion holds. |
| TransferResults.NewHeadForwardsPending | src-cpp/server/server.cc:855-871 | On a new head of a bank a tail forwards only transfers forwarded before, and all of them that the bank lacks; the assertion holds. |
| TransferResults.PromotionPaysExactly | src-cpp/server/server.cc:117-122 | What the other bank pays for a promoted tail's forwards is never less than what the successful transfers took, and equals it if and only if every forwarded request has the key of a successful transfer or of a request the bank knew already. |
| TransferResults.PromotionForgesMoney | src-cpp/server/server.cc:117-122 | A refused transfer in a promoted tail's sent list is paid in at the destination. |
| HandOver.LoadCpp | src-cpp/server/server.cc:324-349 | The snapshot's pieces, in any order the maps are walked and after any leftovers, rebuild the tail's balances and history; the number is that of the last new update, the predecessor the sender, and nothing else changes. |
| HandOver.LoadDa | src-da/chain.da:476-498 | The same for src-da's account-by-account pieces, with the tail's number. |
| HandOver.ReplayCpp | src-cpp/server/server.cc:350-362 | Replaying the sent list brings a server at any point of the log since the order to the whole log; what it has already changes nothing. |
| HandOver.ReplayDa | src-da/chain.da:501-511 | The same for src-da, which skips by number. |
| HandOver.HandStepKeeps | src-cpp/server/server.cc:182-385 | Every step of the hand-over - updates, queries, notices of new heads, the old tail becoming head, a sending thread that gives up, crashes of either server - keeps the invariant, and the old tail aborts exactly in the steps that trip one of two assertions. |
| HandOver.HandOverExact | src-da/chain.da:439-515 | Over every run the old tail is down at the end if and only if it was not replaced since src-cpp's tail was told of a new head while it had taken updates, or either program's got a query after stepping down; no other assertion fails and nothing is lost. The two are never tail at once; the new one is tail exactly when the final message has arrived. Then the two are linked both ways, the old one extends no more, and the new one has its balances and history; in src-da, and in src-cpp if an update came in meanwhile, its number too. |
| HandOver.NewHeadTrips | src-cpp/server/server.cc:864-866 | An order to extend, one deposit and a new head at any bank abort src-cpp's tail. |
| HandOver.QueryTrips | src-da/chain.da:299-302 | In both programs, the transfer of an empty bank and a query at the old tail after it has stepped down abort it. |
| HandOver.HandOverCompletes | src-cpp/server/server.cc:198-375 | From every state of the hand-over it can be completed; no crash, abort or failed send leaves it stuck. |
| HandOver.RestartsDoNotMatter | src-cpp/master/master.cc:189-196 | Any number of transfers cut short and then a complete one give the same new tail as a single clean transfer of the same log. |
| HandOver.SequenceExactly | src-cpp/server/server.cc:337-362 | In src-cpp the number is right if and only if an update came in during the transfer, the log is empty, or its last update was new; the next update trips the assertion exactly otherwise. |
| HandOver.RepeatFallsShort | src-cpp/server/server.cc:342-349 | One deposit sent twice leaves the new tail one number short. |
| HandOver.PredecessorTakesOver | src-cpp/master/master.cc:167-196 | The crashed tail's predecessor, once promoted, meets the conditions for carrying on. |
| StepDowns.StepDownAhead | src-cpp/server/server.cc:314-319 | A tail that steps down with its sent list kept is an internal server whose processed map is ahead of that list; src-da's is an ordinary internal server. |
| StepDowns.StepDownIsNotRefined | src-cpp/server/server.cc:314-319 | With a new update taken during the transfer, src-cpp's old tail is not an ordinary internal server at first. |
| StepDowns.RelayAhead | src-cpp/server/server.cc:597-603 | It relays updates, judged as the bank on its log judges them, and stays ahead by the same. |
| StepDowns.AckAhead | src-cpp/server/server.cc:475-485 | An ack of all that is processed makes it an ordinary internal server; a lesser one leaves it ahead. |
| StepDowns.AheadSendsAgain | src-cpp/server/server.cc:162-179 | Told of a new successor before that, it sends again exactly what the successor lacks. |
| StepDowns.AheadToBeTail | src-cpp/server/server.cc:99-138 | Made tail again before that, without transfers, it keeps its log, has everything processed and nothing pending. |
| StepDowns.StepDownSettles | src-cpp/server/server.cc:475-603 | After any updates relayed, any acks and any repairs around it its lookups are right, and from the first ack that covers what it had processed on stepping down it is an ordinary internal server of the same log as the new tail; src-da's is one throughout. |
| StepDowns.TailAgain | src-cpp/server/server.cc:588-592 | Made tail again after any such events, by src-cpp's order to be tail or by src-da's abort, and without transfers, it is a tail as before: the next update is answered and acked at once and not kept in the sent list. |
| StepDowns.FailKeepsExactly | src-cpp/server/server.cc:378-385 | For a tail, for an internal server and for an old tail at any time after stepping down: dropping the sent list loses nothing if and only if every dropped request is processed already. |
| StepDowns.DroppedIsPaidTwice | src-cpp/server/server.cc:378-385 | A deposit relayed after stepping down, the failure of the joining server and a resend: the deposit is paid twice. |
| StepDowns.AbortKeeps | src-da/chain.da:396-421 | src-da's abort never loses anything, acks the last entry it takes as processed, and leaves a tail that extends no more. |

## Left out

- Sockets, message framing, protobuf encoding, JSON configuration, command lines, logging and the crash hooks for testing: channels and crash steps stand in for them.
- The client: it may send or resend any request at any time, and any reply may be lost. It may send them to any live server of the chain, but not to a joining one, of which it has not been told.
- Heartbeats and timeouts: the master notices a crash some time after it happened, and never otherwise.
- Threads running inside a handler, floating-point rounding, and wrap-around of 32-bit sequence numbers.
- Replies to clients are recorded but not delivered; NEW_HEAD and NEW_TAIL notices to clients are not sent.
- The way of a forwarded transfer: it may reach any head of the other bank at any later time, any number of times or never. NEW_HEAD notices about other banks may come at any time; those about a chain's own head come from its own master.
- That transfers do come to an end in every run: a reply lost on its way is never asked for again (src-cpp/server/server.cc:445-448), so without a new head at the other bank the tail withholds its acks for ever (src-cpp/server/server.cc:588-589). `TransfersComplete` shows that they can come to an end, `PendingWaits` that they do so by a reply only.
- Transfers to a third bank count as in flight for ever; money is followed between two banks, and no third one sends to them.
- Transfers within one bank, promotion of a source's tail while transfers are pending, and transfers during extension: the code does not guarantee them.
- The crash of the old tail between the final message and the master's learning of it.
- Extension is modelled around one tail and one joining server, not inside the chain's state machine; `PredecessorTakesOver` and `StepDownSettles` give the two ends. An aborted tail takes no more steps there until its predecessor replaces it.
- src-da's servers are modelled on values, and only for extension; its other handlers follow the same protocol as src-cpp's.
- src-da's transfer handlers and the pseudo-code of phase1.
- Servers are numbered along the initial chain, so chain order is number order; a joined server is not renumbered into it.
- RestartsDoNotMatter: compares balances and histories, not sequence numbers, since src-cpp's may fall short.
