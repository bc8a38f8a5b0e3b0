# RdkPppManager: the event machine and the texts it reads

RdkPppManager sits between PPP clients, a data model that other components read
and set, and the WAN manager. One event thread handles messages from the clients
and delivers queued events to the WAN manager; any number of API threads enable,
disable and reset interfaces. They share the interface table, one recursive lock
per row, and a bounded queue.

The project has two halves.

* **The machine.** `Program.dfy` writes the handlers as programs, one instruction
  per lock, field update, send or test; `Machine.dfy` lets all threads step through
  them in any order. `Manager.dfy` has the same handlers as class methods that
  update entries, locks and queue in place. `Outcomes.dfy` states what a handler
  does under its lock without its steps; both forms are proved against it
  (`Outcomes.dfy`, `Sections.dfy`, `Alone.dfy` and `HandlerRuns.dfy` for the
  programs, the methods' own contracts for the class). `Effects.dfy` says the same in
  fields and events, for every interleaving and every outcome of the sends.
* **The texts.** The IPCP addresses (`StrTok.dfy`, `Tokens.dfy`, `Ipcp.dfy`), the
  vendor message (`VendorScan.dfy`), the names of the WAN manager's parameters
  (`Paths.dfy`) and the search for the WAN slot (`WanLookup.dfy`), the search in
  process command lines (`ProcSearch.dfy`), instance numbers (`Instances.dfy`) and
  saved configuration (`Persist.dfy`), both over the table's entries (`Entries.dfy`),
  which start-up hands to the manager (`Manager.StartUp`).

## Reading the main results

A state is *reachable* if a run of the machine leads to it from a start-up state. In
every reachable state:

* no thread holds two interfaces' locks, nested acquisitions re-enter, everything is
  given back, and the WAN manager is only set with no lock held (`Safety.dfy`);
* a free interface whose Status is Up was last announced Up, one whose connection was
  lost was last announced Down, and one last announced IPCP Up holds the addresses of
  the IPCP message stored last; a client or a slot is stored only beside an
  authentication protocol (`Safety.dfy`);
* when everything sent has been delivered, the WAN manager agrees, **if and only if**
  no two interfaces share a parameter of the WAN manager. In the unified build they
  never do; in the other build they do exactly if two interfaces sit on one WAN
  interface, since that build's names leave out the virtual interface
  (`Agreement.dfy`, `Collision.dfy`). The parameters are texts: a delivery sets the one
  under the object that names the event's own interface (`Delivery.dfy`);
* as long as queued and still owed events fit the queue, some thread can step and
  everything started ends (`Progress.dfy`); beyond that bound the machine can get stuck
  for good (`Scenarios.dfy`);
* critical sections are atomic in every interleaving; hence a reset offers its three
  Downs and its start event in order, and these Downs reach the WAN manager before the
  client is launched again (`Sections.dfy`, `ResetOrder.dfy`);
* from a message's arrival to the next receive the event thread touches only the lowest
  row that carries the message's pid when it is tested, and offers exactly what the
  message asks for, while the row shows it, whatever the other threads do meanwhile
  (`Routing.dfy`).

## Assumptions

* The interface count does not change and is at most 128 (the size of the table).
  Tables start zeroed. The locks are recursive
  (`source/TR-181/middle_layer_src/pppmgr_dml_ppp_apis.c:634-638`).
* The queue holds 100 events, is first in first out (one priority), and a full queue
  makes a sender wait: it is opened without O_NONBLOCK (mq_send in POSIX.1-2017,
  System Interfaces). Opening or sending may fail; then the event is *offered* but not
  *accepted*. A state is `clean` while no send and no set has failed.
* Pids in messages are not zero. Calls to the outside return; whether they succeed
  and what they give (is the old client alive, are the credentials set, is the lower
  layer known, the pid of a new client, the WAN manager's answers) is chosen freely.
* The WAN manager's tables stay fixed while the machine runs.
* Octets are 0..255 (the low eight bits of the number read); numbers are not bounded
  by the width of `int`, beyond which the C library leaves `atoi` undefined.
* Texts are shorter than the fixed buffers of the source, with three exceptions that
  are modelled: the 32-byte scratch buffers of the DNS parser, the interface identifiers
  of IPv6CP, and the 10-byte buffer of the reload.

## What the source does and one might not expect

* `find_strstr` is documented as finding the substring, but it rejects every text that is
  no longer than the pattern, does not go back after a mismatch and skips the mismatching
  character. It never finds a pattern in itself (`ProcSearch.NotInItself`), and it is
  right on all other texts exactly for patterns made of one repeated character
  (`ProcSearch.RightIffUniform`).
* Two rows may carry one pid; the lowest wins (`Routing.MessageInAnyInterleaving`).
* The accepted IPCP message leaves the event's action unset, which is the value of a
  parameter set; the model sends a parameter set.
* A launch stores the pid before the WAN slot. On a row's first launch a nonzero pid
  stands, in between, beside a slot half of which is missing (`Scenarios.PidBeforeSlot`);
  in all other reachable states a nonzero pid means the right slot
  (`Safety.PidMeansPlaced`).
* A start event for a number beyond the table would crash the event thread
  (`Safety.StrayEventCrashes`); none is ever queued.
* The stop path announces its Downs after it has released its own acquisition; that the
  clear and the Downs are still one unit rests on the setter's outer acquisition.

## Model

| member | source | states |
|---|---|---|
| Tokens.ToksAreTheRuns | source/PppManager/pppmgr_ipc.c:388-408 | the tokens of a text are exactly its maximal nonempty delimiter-free stretches, all of them and in order (section 7.24.5.8 of ISO/IEC 9899:2011) |
| StrTok.Tokenizer.Next | source/PppManager/pppmgr_ipc.c:396 | one `strtok` call: cuts the first token out of the text in place and leaves the rest behind the save pointer; a call with a text starts afresh whatever the save pointer was |
| Ipcp.DmlSetIp4Param | source/PppManager/pppmgr_ipc.c:388-408 | the octet loop stores exactly the first four tokens' octets, fails exactly on a fifth token, and never writes past the fourth octet |
| Ipcp.CopyServer | source/PppManager/pppmgr_ipc.c:734-739 | a server name is copied up to 31 characters and terminated |
| Ipcp.SplitServers | source/PppManager/pppmgr_ipc.c:727-741 | the first DNS pass takes the first two comma-separated names, however many there are, and counts them |
| Ipcp.StoreAddresses | source/PppManager/pppmgr_ipc.c:695-761 | clear, then parse both addresses and up to two servers; verdict and the arrays' contents for accepted and for rejected messages |
| Ipcp.ParsePrintIp | source/TR-181/middle_layer_src/pppmgr_dml.c:2046-2068 | parsing a printed address restores it, for every address |
| Ipcp.DottedQuad | source/TR-181/middle_layer_src/pppmgr_dml.c:2046-2068 | the text of octets a, b, c, d is "a.b.c.d", and parsing it stores them in this order |
| Ipcp.ParsePrintDns | source/TR-181/middle_layer_src/pppmgr_dml.c:2070-2096 | parsing a printed server list restores every pair of servers, a zero second one included |
| Ipcp.StoredDataSurvives | source/TR-181/middle_layer_src/pppmgr_dml.c:2046-2096 | what the getters print for stored data is an acceptable message, and storing it gives the same data |
| Ipcp.PrintParseIp | source/PppManager/pppmgr_ipc.c:388-408 | printing a parsed canonical address gives the text back |
| Ipcp.CanonicalIsPrinted | source/TR-181/middle_layer_src/pppmgr_dml.c:2046-2068 | every printed address is canonical |
| Ipcp.PrintParseDns | source/PppManager/pppmgr_ipc.c:729-761 | printing a parsed canonical list of one address, or of two with a nonzero second, gives the text back |
| Ipcp.BlankInDns | source/PppManager/pppmgr_ipc.c:727-761 | up to sixteen blanks of any kind behind the comma of a server list do not matter |
| Ipcp.LimitsMean | source/PppManager/pppmgr_ipc.c:734-739 | a part beyond 255 keeps its low eight bits, a server's name its first 31 characters |
| VendorScan.FirstMatchIsLeftmostLongest | source/PppManager/pppmgr_ipc.c:420 | the search reports the leftmost longest match of the expression from the cursor on, or there is none (section 9.1 of the POSIX.1-2017 Base Definitions) |
| VendorScan.LeftmostLongestUnique | source/PppManager/pppmgr_ipc.c:439 | there is only one such match, and the search reports it |
| VendorScan.Search | source/PppManager/pppmgr_ipc.c:439-440 | the searching loop finds that match |
| VendorScan.KeyedNumber | source/PppManager/pppmgr_ipc.c:452-464 | the number is taken exactly if the match's key ends in the wanted three letters, and it is the match's number |
| VendorScan.DmlSetVendorParams | source/PppManager/pppmgr_ipc.c:416-471 | the scanner with its moving cursor, at most two matches; rates without a match stay as the caller set them |
| VendorScan.RatesAreLastNumbers | source/PppManager/pppmgr_ipc.c:572-586 | for every text, SRU (and SRD) is the number of the last of the first two matches whose key ends in SRU (SRD), or 0 |
| VendorScan.FirstMatchesExist | source/PppManager/pppmgr_ipc.c:437-467 | every text has such a list of first matches |
| VendorScan.RatesOfText | source/PppManager/pppmgr_ipc.c:416-471 | "SRU=n#SRD=m#" yields (n, m) for all n and m |
| WanLookup.GetWanIfaceInstance | source/TR-181/middle_layer_src/pppmgr_dml_ppp_apis.c:195-265 | the nested search loops: found with both outputs set, absent with both -1, failed with the outputs untouched |
| WanLookup.FoundIffFirst | source/TR-181/middle_layer_src/pppmgr_dml_ppp_apis.c:228-260 | the search answers (i, v) if and only if (i, v) is the first virtual interface, in table order, that names the PPP interface, the queries up to it succeeding |
| WanLookup.AbsentIffNone | source/TR-181/middle_layer_src/pppmgr_dml_ppp_apis.c:261-263 | with all queries answered, the search reports absence if and only if no virtual interface names the PPP interface |
| WanLookup.SlotsDistinct | source/TR-181/middle_layer_src/pppmgr_dml_ppp_apis.c:195-265 | under one table, different PPP interfaces get different slots |
| Discipline.InvNext | source/PppManager/pppmgr_ipc.c:1036-1058 | every step of every thread keeps the lock discipline, the row agreement and the range of queued events |
| Discipline.InvReachable | source/TR-181/middle_layer_src/pppmgr_data.c:218-240 | every reachable state satisfies that invariant |
| Safety.OneLockPerThread | source/TR-181/middle_layer_src/pppmgr_data.c:218-240 | no thread ever holds two different interfaces' locks |
| Safety.NestedLocksReenter | source/TR-181/middle_layer_src/pppmgr_dml_ppp_apis.c:428-463 | a thread that owns a lock only re-enters or releases that lock, touches only its row, and has not finished |
| Safety.NothingOwnedAtTheEnd | source/PppManager/pppmgr_ipc.c:622-648 | a thread that has finished, is back at the receive, is about to lock, or is setting the WAN manager owns no lock |
| Safety.DepthIsCounted | source/TR-181/middle_layer_src/pppmgr_data.c:218-240 | a lock's owner and depth are exactly what its owner has counted |
| Safety.StartNeverCrashes | source/TR-181/middle_layer_src/pppmgr_dml_ppp_apis.c:290-292 | the unchecked use of the row on the start path is safe in every reachable state, for queued events name interfaces of the table; row i always carries number i + 1 |
| Safety.StrayEventCrashes | source/TR-181/middle_layer_src/pppmgr_dml_ppp_apis.c:290-292 | a queued start event with a number beyond the table would crash the event thread: the safety above rests on what is queued |
| Safety.UpWasOffered | source/PppManager/pppmgr_ipc.c:500-641 | whenever an interface's lock is free and its Status is Up, the link state last offered for it is Up |
| Safety.LostWasOffered | source/PppManager/pppmgr_ipc.c:500-641 | whenever an interface's lock is free and its connection is Unconfigured, Disconnected or AuthenticationFailed, the link state last offered for it is Down |
| Safety.IpcpUpMeansStored | source/PppManager/pppmgr_ipc.c:697-778 | whenever an interface's lock is free and its last offered IPCP event is Up, its addresses are the parse of the IPCP message stored last, with no stop since |
| Safety.StatusIsConsistent | source/PppManager/pppmgr_ipc.c:500-611 | on a free interface Status is Up if and only if the connection is Connected, and then no error is recorded |
| Safety.ClientMeansAuth | source/TR-181/middle_layer_src/pppmgr_dml_ppp_apis.c:307-417 | in every reachable state, locked or not, a row with a pid or with half of a slot has an authentication protocol |
| Safety.PidMeansPlaced | source/TR-181/middle_layer_src/pppmgr_dml_ppp_apis.c:414-419 | in every reachable state a row's slot is the one the lookup gives if and only if both its halves are set; so "a nonzero pid means the right slot" fails exactly where a pid is stored and half of the slot is not, and there the event thread owns the row and is about to store it |
| Scenarios.PidBeforeSlot | source/TR-181/middle_layer_src/pppmgr_dml_ppp_apis.c:414-417 | a run to a state in which a pid is stored and the slot is not yet: the excepted states are reached |
| Progress.StepCost | source/PppManager/pppmgr_ipc.c:1036-1058 | every step but the start of something new lowers a measure and does not raise queued plus owed events |
| Progress.NoDeadlock | source/PppManager/pppmgr_ipc.c:1036-1058 | unless all is finished, some thread can step, if queued plus owed events fit the queue |
| Progress.RunsEnd | source/TR-181/middle_layer_src/pppmgr_dml.c:831-868 | runs without new operations are no longer than the measure |
| Progress.Drain | source/PppManager/pppmgr_ipc.c:1036-1058 | from every such state the started operations can be finished and the queue emptied |
| Progress.ReachableProgress | source/TR-181/middle_layer_src/pppmgr_dml_ppp_apis.c:428-480 | the three facts for every reachable state within the bound |
| QueueFacts.FirstInFirstOut | source/PppManager/pppmgr_ipc.c:109-140 | the accepted events, in order, are those taken from the queue and then those in it; each queued event names an interface of the table |
| QueueFacts.OccupancyBound | source/PppManager/pppmgr_ipc.c:633-646 | over a run from an empty queue at most k + t + 1 events are queued, for k API sends accepted in the run and t messages that got their second event accepted in it, both counted from the run |
| QueueFacts.ApiCounterMeans | source/PppManager/pppmgr_ipc.c:109-140 | the machine's counter of API sends is the number of accepted API sends in the history |
| QueueFacts.MessageCounterMeans | source/PppManager/pppmgr_ipc.c:633-646 | the machine's counter of doubled messages has grown, over any run, by the number of messages of the run that got two events accepted (for a message in progress at the start: its second one) |
| QueueFacts.NoSendBlocks | source/PppManager/pppmgr_ipc.c:128-133 | as long as k + t is at most 99 no send waits |
| QueueFacts.NEventsNIterations | source/PppManager/pppmgr_ipc.c:1036-1058 | without further input n queued events leave in order in exactly n turns, and the parameter events have then been told in order |
| QueueFacts.JamForEver | source/PppManager/pppmgr_ipc.c:128-133 | once the queue is full and the event thread waits to send, nothing is delivered any more unless a send of its own fails |
| Scenarios.CanJam | source/PppManager/pppmgr_ipc.c:128-133 | such a state can be reached: the bound of the progress theorem is needed |
| Agreement.EndToEnd | source/PppManager/pppmgr_ipc.c:947-985 | with successful sends and sets and distinct parameters, once nothing is queued or in progress: the WAN manager stores for each of an interface's four parameters what was last offered, if it stores anything; Status Up implies that its link value is Up; a connection lost or never configured, that it is not Up; and its IPCP value Up implies the stored addresses are those of the last stored IPCP message |
| Delivery.NamedEndToEnd | source/TR-181/middle_layer_src/pppmgr_dml_ppp_apis.h:77-95 | the same with the names written out: the values stand under the slot of the virtual interface that the tables give the interface |
| Delivery.DeliverySets | source/PppManager/pppmgr_ipc.c:957-980 | in every reachable state a successful delivery changes one parameter, whose name is written out for both builds: it carries the two numbers that the event's row holds and ends as the event says; if the row has a slot, the WAN manager's PPP.Interface entry of that very virtual interface names the event's interface |
| Paths.UnifiedNames | source/TR-181/middle_layer_src/pppmgr_dml_ppp_apis.h:75-81 | in the unified build the status parameters and the PPP.Interface entry of slot (w, v) have the same object in front, and LCP and link status are one |
| Paths.OtherNames | source/TR-181/middle_layer_src/pppmgr_dml_ppp_apis.h:87-90 | in the other build the four names carry the WAN interface only |
| Paths.StatusNamesApart | source/TR-181/middle_layer_src/pppmgr_dml_ppp_apis.h:77-90 | two status parameters have one name if and only if leaf, WAN interface and, in the unified build, virtual interface are the same |
| Agreement.WhenDistinct | source/TR-181/middle_layer_src/pppmgr_dml_ppp_apis.h:77-95 | no two interfaces share a parameter if and only if the build is the unified one or no two of them are on one WAN interface |
| Collision.Misled | source/PppManager/pppmgr_ipc.c:974-980 | a run in which two interfaces share a parameter and the WAN manager ends up believing the one that is up to be down |
| Collision.AgreedIffDistinct | source/PppManager/pppmgr_ipc.c:947-985 | the agreement holds in all such states if and only if no two interfaces share a parameter |
| ResetOrder.Atomic | source/TR-181/middle_layer_src/pppmgr_data.c:218-240 | from taking an interface's lock to releasing it, in every interleaving, the row and the history written under the lock change as if the thread had run alone |
| ResetOrder.ResetInOrder | source/TR-181/middle_layer_src/pppmgr_dml_ppp_apis.c:428-480 | a successful reset of an enabled interface records under its lock exactly clear, LCP Down, IPCP Down, IPv6CP Down, start, in this order with nothing in between, and ends enabled and down, without addresses |
| ResetOrder.ToldBefore | source/PppManager/pppmgr_ipc.c:1051-1056 | when an event is taken from the queue, every parameter event accepted before it has been told, in order |
| ResetOrder.DownsBeforeRelaunch | source/TR-181/middle_layer_src/pppmgr_dml.c:855-868 | a successful reset's own three Downs and start event are accepted in order behind everything accepted before it; and in any continuation, once its start event has been taken from the queue the WAN manager has been sent those very Downs, in order and behind every parameter event accepted before the reset |
| ResetOrder.OneVerdict | source/PppManager/pppmgr_ipc.c:692-778 | from taking to releasing the row's lock, in every interleaving, the IPCP handler of a message whose texts are all present offers exactly one IPCP verdict, Up if and only if it is acceptable, and then its addresses are stored |
| Effects.Disabled | source/TR-181/middle_layer_src/pppmgr_dml_ppp_apis.c:428-462 | switching off, from lock to release, in every interleaving and for every outcome of the sends: exactly the clear, LCP Down, IPCP Down, IPv6CP Down; every field of the row afterwards |
| Effects.StartAsked | source/TR-181/middle_layer_src/pppmgr_dml_ppp_apis.c:146-182 | switching on, likewise: exactly one start event, and enabled if it was accepted |
| Effects.WasReset | source/TR-181/middle_layer_src/pppmgr_dml.c:855-868 | a reset, likewise: nothing unless enabled and asked for, otherwise the four items of switching off and one start event; enabled again exactly if that was accepted |
| Effects.OnlyLooked | source/TR-181/middle_layer_src/pppmgr_dml.c:381-388 | renumbering and reading leave no trace |
| Effects.StateMeans | source/PppManager/pppmgr_ipc.c:500-611 | status, connection, error, rates and protocol after each reported state, field by field |
| Effects.ErrorMeans | source/PppManager/pppmgr_ipc.c:550-566 | which exit reasons give which error |
| Effects.StateTold | source/PppManager/pppmgr_ipc.c:495-650 | the state handler, from lock to release, in every interleaving: Up announced for IfUp alone, nothing on the way up, on the way down and with the completed authentication, Down for every other state |
| Effects.AddressesLeft | source/PppManager/pppmgr_ipc.c:697-761 | the IPCP handler, likewise: the fields an accepted and a rejected message leave, and no others changed |
| Effects.Ipv6cpTold | source/PppManager/pppmgr_ipc.c:802-852 | the IPv6CP handler, likewise: one verdict, Up if and only if completed; given identifiers stored up to 45 characters, others kept |
| Effects.Launched | source/TR-181/middle_layer_src/pppmgr_dml_ppp_apis.c:286-421 | the launch, likewise: pid and slot stored if and only if the old client is gone, a protocol is configured and both answers are good; a refused launch leaves pid 0 and the slot |
| Routing.MessageInAnyInterleaving | source/PppManager/pppmgr_ipc.c:862-945 | from a message's arrival to the next receive, in every interleaving with every other thread: the event thread writes and offers nothing before its pid test succeeds, the row it succeeds on has the message's pid and no lower row has, from then on it writes only that row and offers events only about it, and the row shows what is offered (Up with Connected, addresses with IPCP Up, the given identifiers up to 45 characters with IPv6CP Up); back at the receive the message has been answered completely: IPCP by exactly one IPCP verdict, Up if and only if completed and acceptable, IPv6CP by exactly one IPv6CP verdict, Up if and only if completed, announced link states by both link parameters (the second behind an accepted first), all others by nothing |
| Routing.NoLowerMatch | source/TR-181/middle_layer_src/pppmgr_utils.c:625-650 | in every reachable state in which the event thread is looking at a row or is about to enter a handler, no lower row carries the message's pid, and the handler's row carries it unless it has been stopped meanwhile |
| Outcomes.PlayState | source/PppManager/pppmgr_ipc.c:495-650 | the state handler's steps leave the row, the announcements and the way on that a table over the reported states gives |
| Outcomes.PlayIpcp | source/PppManager/pppmgr_ipc.c:692-778 | the IPCP handler's steps store the parsed addresses, also for rejected messages, and offer one verdict |
| Outcomes.PlayIpv6cp | source/PppManager/pppmgr_ipc.c:802-852 | the IPv6CP handler's steps store the given identifiers, clipped, and offer one verdict |
| Outcomes.PlayStart | source/TR-181/middle_layer_src/pppmgr_dml_ppp_apis.c:290-421 | the launch leaves a living client alone, otherwise clears the pid, and stores pid and slot exactly if authentication, credentials and lower layer are there |
| Outcomes.PlayApi | source/TR-181/middle_layer_src/pppmgr_dml.c:831-874 | enable, disable, reset and renumbering: row and offers, for every outcome of every send |
| Alone.EntryRuns | source/TR-181/middle_layer_src/pppmgr_data.c:218-240 | every critical section can be run to its end by its thread alone, and its effect on the shared state is its outcome |
| HandlerRuns.MessageRuns | source/PppManager/pppmgr_ipc.c:862-945 | handling a message, scan and routing included, is a run of the event thread's steps with the effect the class method has |
| HandlerRuns.ApiRuns | source/TR-181/middle_layer_src/pppmgr_dml.c:831-874 | an API call is a run of an API thread's steps with the effect the class method has |
| HandlerRuns.TellRuns | source/PppManager/pppmgr_ipc.c:957-985 | delivering a parameter event is a run: the row's slot is read under the lock, the parameter set without it |
| HandlerRuns.LaunchRuns | source/PppManager/pppmgr_ipc.c:987-993 | delivering a start event is a run with the effect the class method has |
| Entries.Interface.constructor | source/TR-181/middle_layer_src/pppmgr_data.c:76-81 | a fresh entry is zeroed |
| Manager.PppManager.constructor | source/TR-181/middle_layer_src/pppmgr_data.c:165-216 | over the table made at start-up: free locks, empty queue |
| Manager.StartUp | source/TR-181/middle_layer_src/pppmgr_data.c:165-216 | allocates the table zeroed, loads and numbers it, and sets the manager up over these entries: numbered by position, idle, and with the values of the records; it fails exactly if some row's records cannot be read |
| Manager.PppManager.GetIfaceDataLocked | source/TR-181/middle_layer_src/pppmgr_data.c:218-232 | the entry with its lock taken once more, or nothing for a number outside the table |
| Manager.PppManager.GetIfaceDataRelease | source/TR-181/middle_layer_src/pppmgr_data.c:234-240 | gives one acquisition back |
| Manager.PppManager.SendDataToQ | source/PppManager/pppmgr_ipc.c:109-140 | appends the event exactly if opening and sending succeed |
| Manager.PppManager.SetStatusDown | source/PppManager/pppmgr_ipc.c:280-352 | the three Down senders |
| Manager.PppManager.GetIfaceDataWithPid | source/TR-181/middle_layer_src/pppmgr_utils.c:625-650 | the number of the lowest row with the pid, or -1; all locks as before |
| Manager.PppManager.ProcessStateChangedMsg | source/PppManager/pppmgr_ipc.c:478-653 | row, queue, history and locks after a state message, for every state and every outcome of the sends |
| Manager.StoreState | source/PppManager/pppmgr_ipc.c:500-611 | the switch: fields stored in place and the link state to announce |
| Manager.LinkLost | source/PppManager/pppmgr_ipc.c:541-568 | the fields after a lost link, with the recorded reason |
| Manager.Authenticated | source/PppManager/pppmgr_ipc.c:570-594 | rates and authentication protocol after LCP authentication |
| Manager.PppManager.ProcessIpcpParams | source/PppManager/pppmgr_ipc.c:659-782 | the whole handler, with the rejection that is sent without the lock |
| Manager.StoreIpcp | source/PppManager/pppmgr_ipc.c:695-761 | the entry's addresses after the locked part, and the verdict |
| Manager.PppManager.ProcessIpv6cpParams | source/PppManager/pppmgr_ipc.c:788-856 | the whole IPv6CP handler |
| Manager.PppManager.ProcessPppState | source/PppManager/pppmgr_ipc.c:862-945 | finds the interface by pid and routes the message |
| Manager.OnlyTheMatch | source/TR-181/middle_layer_src/pppmgr_utils.c:625-650 | the handling as a whole, with nobody else running: it changes only the lowest row with its pid, offers events only about it, and without a match changes nothing |
| Manager.FirstInRange | source/TR-181/middle_layer_src/pppmgr_utils.c:632-646 | the row found has the pid and no earlier row has it; none is found exactly if no row has it |
| Manager.RoutedIpcpAnswered | source/PppManager/pppmgr_ipc.c:659-782 | the handling as a whole, with nobody else running: a routed IPCP message is answered by exactly one IPCP verdict, Up if and only if completed and acceptable |
| Manager.PppManager.SendPppdStartEventToQ | source/TR-181/middle_layer_src/pppmgr_dml_ppp_apis.c:146-169 | a start event, and enabled exactly if it was accepted or was before |
| Manager.PppManager.StopPppClient | source/TR-181/middle_layer_src/pppmgr_dml_ppp_apis.c:428-462 | the cleared entry and the three Downs after the inner release |
| Manager.PppManager.EnableIf | source/TR-181/middle_layer_src/pppmgr_dml_ppp_apis.c:171-193 | start or stop |
| Manager.PppManager.IfReset | source/TR-181/middle_layer_src/pppmgr_dml_ppp_apis.c:465-480 | stop, then start: one outcome out of two |
| Manager.PppManager.SetParamBoolValue | source/TR-181/middle_layer_src/pppmgr_dml.c:831-874 | the setter under the entry's lock: Enable, Reset (refused unless enabled and asked for), and no effect for other names |
| Manager.SettingMeans | source/TR-181/middle_layer_src/pppmgr_dml.c:831-874 | what a setting does, in fields and events: Enable starts or stops, Reset stops and starts an enabled interface if asked to, other names do nothing |
| Manager.PppManager.GetEntry | source/TR-181/middle_layer_src/pppmgr_dml.c:381-388 | renumbering changes nothing |
| Manager.PppManager.StartPppClient | source/TR-181/middle_layer_src/pppmgr_dml_ppp_apis.c:267-424 | lookup, then the locked launch, on the entry in place |
| Manager.PppManager.ProcessPppEvent | source/PppManager/pppmgr_ipc.c:947-997 | a parameter event sets the parameter of the row's slot, a start event launches |
| Manager.PppManager.Turn | source/PppManager/pppmgr_ipc.c:1036-1058 | one turn of the event thread: a message, then at most one event |
| ProcSearch.FindStrStr | source/TR-181/middle_layer_src/pppmgr_utils.c:424-456 | the nested loops, null pointers and lengths included, compute the scan of texts longer than the pattern, and reject all others |
| ProcSearch.SuccessIsRight | source/TR-181/middle_layer_src/pppmgr_utils.c:437-452 | success implies the pattern occurs |
| ProcSearch.FoundIfNotSkipped | source/TR-181/middle_layer_src/pppmgr_utils.c:437-452 | an occurrence is found if every earlier attempt mismatches strictly before it |
| ProcSearch.NotInItself | source/TR-181/middle_layer_src/pppmgr_utils.c:431-434 | a pattern is never found in itself |
| ProcSearch.RightIffUniform | source/TR-181/middle_layer_src/pppmgr_utils.c:414-424 | on all texts but the pattern itself the function answers whether the text contains the pattern, if and only if the pattern is not empty and all its characters are the same |
| ProcSearch.Witness | source/TR-181/middle_layer_src/pppmgr_utils.c:437-452 | "ab" is missed in "aab" |
| Instances.IncreasingIffRoom | source/TR-181/middle_layer_src/pppmgr_data.c:194-212 | presets stay; the numbers are strictly increasing if and only if each preset exceeds the one before it (0 in front of row 0) by at least their distance |
| Instances.CountsOn | source/TR-181/middle_layer_src/pppmgr_data.c:194-212 | each row's number counts on from the last preset up to it |
| Instances.ZeroedTable | source/TR-181/middle_layer_src/pppmgr_data.c:192-204 | a zeroed table is numbered 1, 2, 3, ... |
| Persist.Initialize | source/TR-181/middle_layer_src/pppmgr_data.c:190-212 | the start-up loop, in place: every row loaded and the table numbered, other fields untouched; it gets through exactly if every row's records can be read |
| Persist.ReadNumber | source/TR-181/middle_layer_src/pppmgr_dml_ppp_apis.c:716-717 | the ten-byte scratch buffer and what is read through it |
| Persist.ReadBackIff | source/TR-181/middle_layer_src/pppmgr_dml_ppp_apis.c:711-737 | a printed number is read back if and only if it is below 10^9; longer ones run over the buffer |
| Persist.KeysApart | source/TR-181/middle_layer_src/pppmgr_dml.h:50-51 | keys of different interfaces or different fields differ |
| Persist.LoadedFrom | source/TR-181/middle_layer_src/pppmgr_dml_ppp_apis.c:679-737 | what a loaded row shows, by the names of the records; "CHAP" and "DML_PPP_CONN_ERROR_NONE" are the only texts recognised |
| Persist.Psm.SetParamFromPSM | source/TR-181/middle_layer_src/pppmgr_dml_ppp_apis.c:526-548 | a commit writes the two records under the entry's number |
| Persist.Psm.SetAndCommit | source/TR-181/middle_layer_src/pppmgr_dml.c:1223-1235 | a request sets the two values of its entry and commits them; entries and records are those of the specification |
| Persist.Psm.GetIfEntry | source/TR-181/middle_layer_src/pppmgr_dml_ppp_apis.c:679-737 | a row's authentication protocol, last error, idle time and MRU from the records of index + 1; missing records leave them alone |
| Persist.RecordsOf | source/TR-181/middle_layer_src/pppmgr_dml.c:1223-1235 | after any commits an interface's records are those of its last commit, untouched by the others; other records are never touched |
| Persist.CommitThenReload | source/TR-181/middle_layer_src/pppmgr_dml_ppp_apis.c:526-548 | for every sequence of commits: an interface that was committed can be reloaded if and only if its own last values have at most nine digits, and then gets exactly them; one that was not is reloaded as before |
| Persist.RestartRestores | source/TR-181/middle_layer_src/pppmgr_data.c:190-212 | start-up, any requests, start-up: the second start-up can read every row if and only if each requested row's last idle time is below 10^9, and then restores the whole table, numbers by position included |
| Persist.TooLongOverruns | source/TR-181/middle_layer_src/pppmgr_dml_ppp_apis.c:716-717 | the bound on the idle time is exact |

## Left out

- Sockets, the message bus, sysevent, syscfg, /proc, files and shell commands: only their outcomes are modelled, as free choices.
- Process start-up, registration tables and one-field accessors (`pppmgr_ssp_*.c`, `pppmgr_dml_plugin_main.c`, most of `pppmgr_dml.c`): no property that spans operations.
- Fields that no property depends on: LastChange, ACName, the IPCPEnable and IPv6CPEnable flags, alias, link type, user name and password (their presence is one free choice), MRU in the running row.
- The session id: it is written under an unformatted key (`source/PppManager/pppmgr_ipc.c:534`) and read under a formatted one, so no round trip is claimed; the parse of /proc/net/pppoe would add only easy members.
- Command lines for pppd and rp-pppoe, DUID files, statistics and uptime.
- Scheduling: the half-second sleeps and the five-second sleep after an IPv6CP report take no part; a step may be delayed without bound.
- Manager.PppManager.SendDataToQ: demands room in the queue for an event that will be accepted, because a send that waits does not return; waiting itself is in the machine (`Machine.Ready`), not in the class. The class is what one thread does while no other runs; `HandlerRuns.dfy` shows that these are runs of the machine.
- Manager.PppManager.SetStatusDown: demands room in the queue, for the same reason.
- Manager.PppManager.GetIfaceDataLocked: demands that no other thread holds the lock, because a call that waits does not return; waiting is in the machine.
- Manager.PppManager.GetIfaceDataWithPid: demands free locks, since it takes every row's lock in turn.
- Manager.PppManager.ProcessStateChangedMsg: demands a free lock and room for two events.
- Manager.PppManager.ProcessIpcpParams: demands a free lock and room for its event.
- Manager.PppManager.ProcessIpv6cpParams: demands a free lock and room for its event.
- Manager.PppManager.ProcessPppState: demands free locks and room for two events.
- Manager.PppManager.SendPppdStartEventToQ: demands room for its event, and a caller that holds the row, as all callers in the source do.
- Manager.PppManager.StopPppClient: demands room for three events, and a caller that holds the row, as all callers in the source do.
- Manager.PppManager.EnableIf: demands room for three events and a caller that holds the row.
- Manager.PppManager.IfReset: demands room for four events and a caller that holds the row.
- Manager.PppManager.SetParamBoolValue: demands a free lock and room for four events.
- Manager.PppManager.StartPppClient: demands a free lock and a number in the table; beyond the table the source uses a missing entry, which the machine shows as a crash (`Safety.StrayEventCrashes`).
- Manager.PppManager.ProcessPppEvent: demands a free lock and a number in the table, for the same reason.
- Manager.PppManager.Turn: is one turn of the event thread's endless loop, not the loop; demands free locks and room for two events.
- Entries.Interface.constructor: the entry's four addresses are values of the entry; the octet arrays the parser fills in place are the locals of `Manager.ParseMessage`, copied in afterwards.
- WanLookup.GetWanIfaceInstance: takes the number of WAN interfaces as given; the two builds ask for it by different names.
- Persist.Psm.GetIfEntry: does not read the names, the link type and the credentials, which are texts the model has no fields for; a record with a negative number, which no commit writes, counts as unreadable.
- VendorScan.DmlSetVendorParams: rates are unbounded numbers; beyond 2^31 the C library leaves the conversion undefined.
