# A verified model of the MRCCSC chat cluster

MRCCSC runs several chat server processes behind a load balancer. Each process
keeps a map from user id to TCP connection. All processes share one database
(accounts with an online/offline state, stored messages, groups) and one Redis
broker with a channel per user id. A chat message is written to a socket of the
sender's own process, or stored, or published; a process that reads a published
message for a user who has left stores it. This project models the handlers, the
broker, the tables and the client, and proves what the cluster keeps over every
run: for any number of processes, users, connections and events.

## How the project is laid out

- `Types.dfy`: requests (a JSON object is a record of optional fields and is
  itself the message that is stored, published or delivered), table rows, broker
  inboxes, socket writes (`Frame`) and the state of the cluster. A `Copy` is one
  message on its way to one user, so a multiset of copies speaks about every user
  at once.
- `Tables.dfy`, `Redis.dfy`, `Service.dfy`: the classes of the server. Each method
  makes the updates in the order the source makes them and is proved equal to a
  function from what it reads to what it leaves. The broker class keeps channels
  as printed text, as the source does; `Decimal.dfy` proves the text is read back.
- `Cluster.dfy`, `Sessions.dfy`: each handler as one step of one process, runs,
  and the agreement of maps, user table and subscriptions.
- `LoginRules.dfy`, `Groups.dfy`, `Registry.dfy`: what requests mean, field by field,
  and what follows over runs: who is let in, who owns a group, that accounts are for
  good, who is a member of what.
- `Accounting.dfy`, `Mailbox.dfy`, `Drain.dfy`, `Delivery.dfy`, `Notify.dfy`,
  `Restart.dfy`: exactly-once by refinement to a single mailbox, draining, no
  misdelivery, fan-out, order, the notify loop, shutdowns.
- `SmallStep.dfy`: login, logout and close cut at every access to shared state, with
  the mutex of each process held as long as the source holds it. `Uniqueness.dfy`:
  session uniqueness under every interleaving. `SmallStepInv.dfy`, `Ledger.dfy`: who is
  subscribed, exactly, and from it the exact ledger of lost and duplicated messages.
  `Settling.dfy`: mutual exclusion and no deadlock. `FineDelivery.dfy`: no misdelivery while handlers
  interleave. `Shortfalls.dfy`: interleavings that do lose, double and leave behind.
- `Command.dfy`, `Client.dfy`, `Interleaved.dfy`: the client's command line, its two
  threads, and the composition of clients, FIFO pipes and servers, over the atomic
  handlers and over the interleaved ones.

## What the results rest on

- The database and the broker do what they are told, and at once: subscribing and
  unsubscribing take effect at the call, a publication reaches the current
  subscribers' queues, queued messages survive an unsubscription, stored rows
  come back in insertion order. The only database failure is a name that is taken.
  Keys the database chooses are parameters, fresh and positive.
- In the atomic layer (`Allowed`) no login passes its check over a connection that
  carries a user. `ClientSystem` proves this of the client program;
  `SystemIsExactlyOnce` is exactly-once with nothing assumed about logins.
- In the small-step layer no login passes its check while another of the same id is
  between its check and its insert (`NoOverlap`), since `login` checks the state and
  writes it without a lock. This is exact: a check it turns away overlaps a login that
  has not marked its user yet (`NoOverlapExactly`), and then, on another process whose
  lock is free, some schedule ends in two maps (`OverlapEndsInTwoMaps`), and on the
  same process one ends with the user mapped and offline (`OverlapEndsOffline`).
  Refused logins are not excluded. Session uniqueness and the balance of the ledger
  rest on nothing else but fresh account keys.
- Who is subscribed, and so when exactly messages are lost and doubled, is proved where
  moreover no login passes its check over a connection that carries a user, and no
  logout takes out a user between the insert and the subscription of its login
  (`Permitted`). A logout in just that moment leaves a subscription behind
  (`LogoutOfInsertedLeavesSubscription`); at any other moment it may come from any
  connection. The server checks neither; `InterleavedSystem` proves both of the client
  program. The handlers of one connection do not overlap, since one I/O thread serves it.
- The close scan increments an iterator it has erased (src/server/service.cpp:147-154).
  The model is the intended scan, in any order over the keys.

Where the code falls short of what one would expect, the exact condition is proved,
and that it is met by some run:

- a close keeps the agreement exactly when its connection carried at most one user
  (`CloseKeepsAgreementExactly`), and two logins over one connection make it carry two
  (`TwoLoginsOnOneConnection`);
- a shutdown keeps it exactly when no other process maps anyone
  (`ShutdownKeepsAgreementExactly`), and can leave a user with two sessions
  (`ShutdownAllowsTwoSessions`);
- a step loses or doubles a message exactly when `LostExactlyWhen` and
  `ExtraExactlyWhen` say, and each of these happens (`SendIntoLoginIsLost`,
  `RowStoredMeanwhileIsLost`, `SendDuringLogoutIsDoubled`); with shutdowns
  `DuplicatesExactlyWhen` says when;
- a group name survives the command line exactly when it has no colon
  (`CreateGroupRoundTrip`); a typed id exactly when it fits 32 bits (`ChatRoundTrip`).

## Model

| member | source | states |
|---|---|---|
| `Sessions.RunKeepsInv` | src/server/service.cpp:110-118 | maps, user table and subscriptions agree, and no connection carries two users, after any run of logins, logouts, closes, sends and receives |
| `Sessions.ReachableAgree` | src/server/service.cpp:256-275 | the same from a fresh start, so in every reachable state |
| `Sessions.ThreeWayAgreement` | src/server/service.cpp:110-118 | a user is online exactly when one process maps it; a process is subscribed exactly to the users it maps; the broker counts one subscriber, or none when offline |
| `Sessions.PublishReachesTheMappingProcess` | src/server/service.cpp:172-179 | a publication is appended to one queue, that of another process, the one that maps the user |
| `Sessions.CloseKeepsAgreementExactly` | src/server/service.cpp:142-160 | a close keeps the agreement if and only if the connection carried at most one user |
| `Sessions.LoginKeepsAgree` | src/server/service.cpp:41-129 | a login keeps the agreement whatever its connection already carries |
| `Sessions.TwoLoginsOnOneConnection` | src/server/service.cpp:142-160 | two accepted logins put two users on one connection, and its close then always breaks the agreement |
| `Sessions.ShutdownKeepsAgreementExactly` | src/server/model/usermodel.cpp:59-67 | a shutdown keeps the agreement if and only if no other process maps anyone |
| `LoginRules.MappedByPassword` | src/server/service.cpp:41-129 | whoever is mapped after a run was mapped to that connection before, or logged in over it with the password its account had; nothing else ever lets anybody in |
| `LoginRules.MappedByPasswordInterleaved` | src/server/service.cpp:41-129 | the same under every interleaving, overlapping logins and hostile requests included |
| `LoginRules.AcceptedExactly` | src/server/service.cpp:47-67 | a login is accepted if and only if it names a registered offline account and its password |
| `LoginRules.RefusedLogin` | src/server/service.cpp:42-126 | the three refusals in order, each one reply and nothing else: no such user, wrong password, already online; an incomplete request changes nothing |
| `LoginRules.AcceptedLogin` | src/server/service.cpp:72-118 | the reply carries the name of the account and all its stored messages, which are then gone and nobody else's are; what else changes, and that nothing more does |
| `SessionUniqueness.SessionsAreUnique` | src/server/service.cpp:41-287 | from any quiet agreeing state, no user is ever in two maps and every mapped user is marked online, under every interleaving in which no login passes its check while another of its id is between check and insert; all other requests may be hostile |
| `SessionUniqueness.ExecuteKeepsCore` | src/server/service.cpp:59-160 | the invariant behind it: whoever stands for a user alone, in no map, with the state its stage says, and a login under way has read a prefix of the stored rows |
| `SessionUniqueness.OverlappingLoginsBreakUniqueness` | src/server/service.cpp:59-110 | two overlapping logins of one id on two processes can leave it in two maps, from any quiet state |
| `SessionUniqueness.NoOverlapExactly` | src/server/service.cpp:59-110 | the excluded checks are exactly those that pass while a login of the same id has not marked its user yet |
| `SessionUniqueness.OverlapEndsInTwoMaps` | src/server/service.cpp:59-118 | wherever such a check comes on another process and both locks are free, a schedule leaves the user in two maps |
| `SessionUniqueness.OverlapEndsOffline` | src/server/service.cpp:59-254 | on one process such an overlap and a logout can leave the user mapped and marked offline |
| `SmallStepSafety.QuietMeansAgree` | src/server/service.cpp:110-118 | with no handler running, the invariant of the interleavings is the agreement of the atomic layer |
| `SmallStepSafety.ExecuteKeepsInv` | src/server/service.cpp:41-287 | besides, when accepted logins come over free connections and no logout falls between the insert and the subscription of its user: lock holders, map entries and, exactly, every subscription, at every point of every interleaving |
| `Settling.MutualExclusion` | src/server/service.cpp:113-287 | while a logout or a close holds the lock of a process nobody else changes its map, and no chat message is sent or received there |
| `Settling.HandlersCanFinish` | src/server/service.cpp:113-154 | no deadlock: from any state of those interleavings finitely many steps of the handlers under way, and of nothing else, leave nothing running and the processes in agreement |
| `LossLedger.StepLedger` | src/server/service.cpp:107-118 | the balance of one step of any interleaving in which logins of one id do not overlap |
| `LossLedger.Ledger` | src/server/service.cpp:41-287 | over every such interleaving, hostile requests included: there before + sent + extra = delivered + stored + queued + lost |
| `LossLedger.SubscribersExactly` | src/server/service.cpp:110-158 | how many processes a publication reaches, exactly, from the handlers under way |
| `LossLedger.FateOfAPublishedCopy` | src/server/service.cpp:172-179 | when a published copy is lost, and how many extra copies it gets |
| `LossLedger.LostExactlyWhen` | src/server/service.cpp:73-158 | a step loses something if and only if a login deletes rows stored after it read them, or a publication falls between 110 and 118 of a login or 152 and 158 of a close with no logout between 250 and 252 |
| `LossLedger.ExtraExactlyWhen` | src/server/service.cpp:249-252 | a step duplicates something if and only if it publishes to a user online again while an earlier logout of it is between 250 and 252, or, in one of the gaps above, while two are |
| `LossLedger.QuietIsSplit` | src/server/service.cpp:245-254 | what the two results below start from holds whenever no handler is running |
| `LossLedger.SplitLogoutLosesNothing` | src/server/service.cpp:245-254 | with only logouts split, whoever asks for them, nothing is lost |
| `LossLedger.SplitLogoutIsExactlyOnce` | src/server/service.cpp:245-254 | if moreover no login of the user passes its check on another process before its logout ends, every copy is delivered, stored or queued exactly once |
| `Shortfalls.SendIntoLoginIsLost` | src/server/service.cpp:110-118 | a private chat sent once a login has marked its user online and before it subscribes is lost |
| `Shortfalls.RowStoredMeanwhileIsLost` | src/server/service.cpp:73-108 | a message stored between the query and the delete of a login is deleted unread |
| `Shortfalls.SendDuringLogoutIsDoubled` | src/server/service.cpp:249-252 | a user who logs in elsewhere between the offline mark and the unsubscription of its logout is sent every message of a third process twice |
| `Shortfalls.LogoutOfInsertedLeavesSubscription` | src/server/service.cpp:115-118 | wherever a logout falls between the insert and the subscription of its user, three more steps leave the user offline, unmapped and still subscribed |
| `Shortfalls.ForeignLogoutLeavesSubscription` | src/server/service.cpp:115-118 | a logout by another connection between the insert and the subscription of a login ends with nothing running, the user offline and unmapped, and the process still subscribed to it |
| `InterleavedSystem.MovesArePermitted` | src/client/main.cpp:118-182 | with real clients over FIFO pipes, whatever is typed and whenever connections end, every step of every interleaving meets the conditions above if no login passes its check while another of its id is between check and insert |
| `InterleavedSystem.MoveKeepsNet` | src/server/service.cpp:41-287 | each move of a client, a handler, the notify thread or a closing connection keeps the invariant of clients, pipes and handlers under way |
| `InterleavedSystem.NetLedger` | src/server/service.cpp:41-287 | the exact ledger with real clients, with the exact conditions under which the next step loses or doubles something |
| `InterleavedSystem.PipesCarry` | src/client/main.cpp:118-351 | both directions of every connection that stays, while handlers interleave: asked is started and then still in the pipe, written is read and then still in the pipe |
| `InterleavedSystem.NetStarts` | src/server/main.cpp:6-11 | the invariant holds of a started cluster before any client connects |
| `Mailbox.StepSimulates` | src/server/service.cpp:142-287 | every step of the cluster is one enabled step of a single mailbox that knows no processes and hands messages only to online users |
| `Mailbox.RunSimulates` | src/server/service.cpp:142-287 | every run of the cluster is a run of that mailbox |
| `Mailbox.ExactlyOnce` | src/server/service.cpp:72-118 | after any run, delivered, stored and queued copies together are exactly those sent, for every user |
| `Drain.ReadAllQueues` | src/server/redis/redis.cpp:86-97 | any run can be extended, by receives alone, to one that has emptied every queue |
| `Drain.EveryMessageCanBeDrained` | src/server/service.cpp:245-254 | from any reachable state a finite schedule leaves no copy for a registered user undelivered |
| `Drain.SentCanBeDelivered` | src/server/service.cpp:107-108 | so after any run a user can be handed exactly what was ever sent to it |
| `Delivery.GroupUsersCount` | src/server/model/groupmodel.cpp:55-68 | the query lists each other member as often as it has rows, and never the sender |
| `Delivery.SendLands` | src/server/service.cpp:224-241 | where each copy of a fan-out lands: socket, stored rows or queues |
| `Delivery.GroupFanOut` | src/server/service.cpp:218-242 | each other user gains one copy per membership row, the sender none, and no session or membership changes |
| `Delivery.StepDeliversRight` | src/server/service.cpp:163-184 | every write of a step goes to a connection that carries, at that moment, only the user the message content names |
| `Delivery.NoMisdelivery` | src/server/service.cpp:277-287 | the same after any run: no chat message, direct, published or in a login reply, is misdelivered |
| `FineDelivery.FineStepIsRight` | src/server/service.cpp:107-184 | the same for one step of any interleaving: a reply goes to the connection whose login it answers, a chat message to a connection that carries only its user |
| `FineDelivery.NoMisdeliveryInterleaved` | src/server/service.cpp:41-287 | the same for every next step after any interleaving |
| `Delivery.PublishedInOrder` | src/server/redis/redis.cpp:86-97 | while a user stays on one process, delivered then still queued equals what was there plus everything published since, in publication order |
| `Delivery.SendersKeepTheirOrder` | src/server/redis/redis.cpp:86-97 | of what one process published to the user, what was read followed by what is still queued is all of it, in the order that process published it |
| `NotifyLoop.LoopIsRun` | src/server/redis/redis.cpp:86-97 | the notify loop is as many turns of the cluster's notify step as its queue has messages |
| `NotifyLoop.LoopWrites` | src/server/service.cpp:277-287 | it writes each mapped user its queued messages, in queue order, and nobody else anything |
| `NotifyLoop.LoopStores` | src/server/service.cpp:277-287 | it stores each unmapped user's queued messages, in queue order, and no others |
| `NotifyLoop.LoopWritesToMapped` | src/server/service.cpp:280-282 | every write goes to the connection its user is mapped to |
| `NotifyLoop.LoopKeepsTotal` | src/server/redis/redis.cpp:86-97 | no copy is lost or made |
| `NotifyLoop.LoopEmptiesQueue` | src/server/redis/redis.cpp:86-97 | the queue is empty afterwards; other queues, subscriptions, accounts and groups are as they were |
| `Restart.RunKeepsBacked` | src/server/main.cpp:6-11 | with shutdowns of any processes, an online user is still mapped and subscribed somewhere |
| `Restart.AgreeingIsBacked` | src/server/main.cpp:6-11 | so runs with shutdowns may start in any agreeing state |
| `Restart.OnlyUnreadMessagesAreLost` | src/server/service.cpp:186-188 | the only copies shutdowns lose are those queued at the ending process; the exact number of duplicates is stated |
| `Restart.DuplicatesExactlyWhen` | src/server/service.cpp:172-179 | a step duplicates something if and only if it publishes to a user whom two or more processes map |
| `Restart.ShutdownAllowsTwoSessions` | src/server/model/usermodel.cpp:59-67 | after a shutdown a user of another process can log in again and is then mapped and published to twice |
| `Restart.SoloNeverPublishes` | src/server/service.cpp:172-179 | with one process the publish branch is never taken |
| `Restart.SoloRun` | src/server/main.cpp:6-11 | with one process, agreement and exactly-once hold across any number of restarts |
| `GroupOwnership.StepKeepsOwned` | src/server/service.cpp:198-215 | no event changes a group's name, description or admin, a failed create cannot disturb any group, and a new one has the creator, name and description asked for; only the keys the database picks for groups are assumed fresh |
| `GroupOwnership.GroupsBelongToTheirCreators` | src/server/model/groupmodel.cpp:9-33 | after any run every group has exactly one admin row, its creator's, and the name and description of the request that created it |
| `GroupOwnership.GroupNamesStayUnique` | src/server/model/groupmodel.cpp:9-21 | no two groups ever have one name |
| `Registry.StepWritesRows` | src/server/service.cpp:198-215 | for every group and user, a step adds exactly the membership rows its request names, and takes none away |
| `Registry.MembershipsAreCounted` | src/server/model/groupmodel.cpp:23-33 | over any run, exactly those of its joins and creations |
| `Registry.JoinerGetsOneMore` | src/server/service.cpp:210-242 | after a join, every message to the group by another user brings the joiner one more copy than before |
| `Registry.StepKeepsAccounts` | src/server/service.cpp:16-37 | a registration with a new name stores that name and password, offline; nothing else adds, removes or renames an account or changes a password |
| `Registry.AccountsAreForGood` | src/server/model/usermodel.cpp:6-67 | over any run, shutdowns included, every account keeps the name and password it was registered with |
| `Registry.NamesStayUnique` | src/server/model/usermodel.cpp:6-18 | no two accounts ever have one name |
| `Registry.RegisteredCanLogIn` | src/server/service.cpp:16-129 | whoever registers can log in on any process with that password and is greeted by that name; any other password is refused |
| `ClientSystem.SystemStarts` | src/client/main.cpp:84-111 | the invariant holds before any client connects |
| `ClientSystem.ServedLoginFindsFree` | src/client/main.cpp:118-182 | a login request reaches its handler only over a connection that carries no user |
| `ClientSystem.CloseLeavesNothing` | src/server/service.cpp:142-160 | a close leaves no entry for the connection and its user offline |
| `ClientSystem.ConnectionsCarryOneUser` | src/client/main.cpp:118-182 | over every run of clients, pipes and servers no connection is the value of two map entries |
| `ClientSystem.SystemIsExactlyOnce` | src/server/service.cpp:72-118 | exactly-once with real clients, from request to socket write, with nothing assumed about when clients log in |
| `ClientSystem.WritesAreRead` | src/client/main.cpp:187-305 | while a connection stays open, what is written to it is what its client has read and then what is in the pipe, in order |
| `ClientSystem.RequestsAreServed` | src/client/main.cpp:142-351 | while a connection stays open, what its user asked for is what its process was handed and then what is in the pipe, in order |
| `ClientSystem.TypedChatIsSent` | src/client/main.cpp:364-380 | a line `chat:to:msg` puts one message into the pipe that, served anywhere, is sent to `to` alone |
| `ClientSystem.SessionUsesReply` | src/client/main.cpp:223-280 | what is typed in a session goes out under the id and the name of the login reply |
| `ClientSystem.RefusalIsFinal` | src/client/main.cpp:281-287 | one refused login ends the reader thread: over that connection no session ever opens again |
| `ClientSystem.DeafForGood` | src/client/main.cpp:160-172 | and a client that asks once more waits for good |
| `ClientSystem.BadNumberStops` | src/client/main.cpp:366-366 | an id outside 32 bits ends the program before it sends anything |
| `ClientSystem.StoppedForGood` | src/client/main.cpp:366-366 | and it sends nothing afterwards |
| `CommandLine.ColonSplits` | src/client/main.cpp:365-367 | cutting at the first colon undoes joining with one, if and only if the first part has none |
| `CommandLine.NoColon` | src/client/main.cpp:337-350 | without a colon both parts are the whole line |
| `CommandLine.ChatRoundTrip` | src/client/main.cpp:335-380 | a chat line sends its addressee, its sender and its whole message, colons included, for every id that fits 32 bits; otherwise `stoi` throws |
| `CommandLine.GroupChatRoundTrip` | src/client/main.cpp:422-439 | the same for a group message |
| `CommandLine.CreateGroupRoundTrip` | src/client/main.cpp:395-408 | a group creation line is read back if and only if the name has no colon |
| `CommandLine.JoinGroupRoundTrip` | src/client/main.cpp:410-420 | the same for joining, for ids that fit 32 bits |
| `CommandLine.AddContactRoundTrip` | src/client/main.cpp:382-393 | the same for adding a contact |
| `CommandLine.SessionRequests` | src/client/main.cpp:335-355 | the first part of a line alone decides the command; no line sends a login; a logout names the session's own user, as does the sender field of every other request |
| `SmallStep.LoginCollapses` | src/server/service.cpp:41-129 | the six steps of a login run undisturbed are the atomic handler |
| `SmallStep.LogOutCollapses` | src/server/service.cpp:245-254 | the same for a logout |
| `SmallStep.CloseCollapses` | src/server/service.cpp:142-160 | the same for a close, however many users its connection carries and in whatever order the scan meets them |
| `SmallStep.RequestCollapses` | src/server/service.cpp:163-242 | every other request is one step, the same as the atomic handler |
| `SmallStep.ReadCollapses` | src/server/service.cpp:277-287 | the same for a receive |
| `Accounting.SendLedger` | src/server/service.cpp:218-242 | a send to any list of users adds exactly its copies, less those published to nobody, plus one for every further subscriber |
| `Accounting.RowsSplit` | src/server/offlinemessagemodel.cpp:18-46 | what a login reads and what its delete leaves make up the table |
| `Accounting.QueuedPublish` | src/server/redis/redis.cpp:38-46 | a publication adds one queued copy per subscriber |
| `Accounting.ChatIsFanOut` | src/server/service.cpp:163-184 | a private chat routes its copy as a group chat routes each of its own |
| `ChatServer.ChatService.OnLogin` | src/server/service.cpp:41-129 | the refusals in order, or the reply with the stored messages followed by delete, mark, insert if absent, subscribe; the friend and group lists of the reply are left out |
| `ChatServer.ChatService.EraseEntriesOf` | src/server/service.cpp:145-155 | the scan erases and unsubscribes every entry of the connection, in any order, and returns the last or -1 |
| `ChatServer.ChatService.ClientCloseException` | src/server/service.cpp:142-160 | after the scan only the last user erased is marked offline |
| `ChatServer.ChatService.OnPrivateChat` | src/server/service.cpp:163-184 | one copy to the local socket, the stored messages or the broker; nothing without a recipient |
| `ChatServer.ChatService.OnGroupChat` | src/server/service.cpp:218-242 | the inlined loop has the same result as routing one copy to each listed member in turn |
| `ChatServer.ChatService.OnLogOut` | src/server/service.cpp:245-254 | a mapped user is erased, offline and unsubscribed; an unmapped one changes nothing |
| `ChatServer.ChatService.RedisNotifyMessageHandler` | src/server/service.cpp:277-287 | a published message goes to the mapped socket, or is stored |
| `ChatServer.ChatService.ReceiveMessage` | src/server/redis/redis.cpp:86-97 | the notify loop handles every queued message in order and leaves the queue empty |
| `ChatServer.ChatService.OnCreateGroup` | src/server/service.cpp:198-207 | the admin row is written even when the group was not created |
| `ChatServer.ChatService.OnJoinGroup` | src/server/service.cpp:210-215 | a normal row is written without any check |
| `ChatServer.ChatService.OnReg` | src/server/service.cpp:16-37 | registration inserts an offline account unless the name is taken; its acknowledgement is left out |
| `ChatServer.ChatService.OnMessage` | src/server/server.cpp:40-53 | the handler is chosen by type, an unknown or missing type does nothing, and a logout without an id throws with nothing changed |
| `ChatServer.ChatService.Reset` | src/server/service.cpp:186-188 | all accounts offline |
| `ChatClientModel.ChatClient.MenuLogin` | src/client/main.cpp:142-163 | menu choice 1 sends the request and waits |
| `ChatClientModel.ChatClient.MainMenuLine` | src/client/main.cpp:335-355 | a line in a session sends its request; a logout also ends the session |
| `ChatClientModel.ChatClient.OnFrame` | src/client/main.cpp:187-305 | an accepted login opens the session, a refused one ends it and the reader thread, a chat message changes nothing |
| `RedisBroker.Redis.PublishTo` | src/server/redis/redis.cpp:38-46 | printing the channel delivers to exactly the inboxes subscribed to that integer, at the end of their queues |
| `RedisBroker.Redis.SubscribeTo` | src/server/redis/redis.cpp:49-67 | the process gains that one channel |
| `RedisBroker.Redis.UnsubscribeFrom` | src/server/redis/redis.cpp:69-84 | the process loses that one channel and keeps what is queued |
| `RedisBroker.Redis.NextReply` | src/server/redis/redis.cpp:86-97 | the oldest message leaves the queue with its channel parsed back to the integer it was published on |
| `DecimalText.PrintedIntReadsBack` | src/client/main.cpp:366-366 | every integer printed in decimal is read back by `strtol`, whatever non-digit text follows |
| `DecimalText.PrintedChannelReadsBack` | src/server/redis/redis.cpp:91-91 | the channel printed with `%d` is the integer `atoi` reads, and `stoi` accepts it exactly when it fits 32 bits |
| `OfflineTable.OfflineMsgModel.Insert` | src/server/offlinemessagemodel.cpp:5-16 | one row more, at the end |
| `OfflineTable.OfflineMsgModel.Query` | src/server/offlinemessagemodel.cpp:18-33 | all and only the messages of that user, in insertion order |
| `OfflineTable.OfflineMsgModel.Remove` | src/server/offlinemessagemodel.cpp:35-46 | the rows of that user go, the others keep their order |
| `GroupTable.GroupModel.Create` | src/server/model/groupmodel.cpp:9-21 | a taken name fails and leaves the id -1; otherwise the group is stored under the database's key |
| `GroupTable.GroupModel.Join` | src/server/model/groupmodel.cpp:23-33 | one membership row more, even if the same row is already there |
| `GroupTable.GroupModel.QueryGroupUsers` | src/server/model/groupmodel.cpp:55-68 | the other members, one entry per membership row |
| `UserTable.UserModel.Insert` | src/server/model/usermodel.cpp:6-18 | a new account starts offline under the key the database picks, unless the name is taken, which leaves the table alone and the id -1 |
| `UserTable.UserModel.Query` | src/server/model/usermodel.cpp:20-45 | a missing row reads as id -1 and offline |
| `UserTable.UserModel.UpdateStateOf` | src/server/model/usermodel.cpp:47-57 | only the state of that row changes; a missing row stays missing |
| `UserTable.UserModel.Reset` | src/server/model/usermodel.cpp:59-67 | every account is offline, whichever process its user was on |

## Left out

- MySQL, hiredis, muduo and socket calls, and their failures; SQL text, buffer sizes, quoting and column lengths: tables are maps and sequences, the broker a list of inboxes, messages fit.
- The JSON text format: a request is a record, and one read holds one whole request (src/server/server.cpp:44-46 has no framing). A field of the wrong type makes the library throw and is not modelled.
- The acknowledgements a subscription puts in the reply stream, which the notify loop skips, and the wait for the write buffer to drain in `subscribe` and `unsubscribe`.
- Friend lists, group lists in the login reply, registration replies, display times, the fixed group name, console output and logging: they reach no message.
- The client's registration dialogue; a client that registers waits on the same semaphore and sends nothing else.
- `SmallStep`: group and registration requests and each whole send or receive are one step there, and writing a login's reply and deleting the rows it lists are one step; a process does not end in this layer.
- `ClientSystem` and `InterleavedSystem`: processes do not shut down while clients are connected; a request still unread when the server sees its connection end is not served.
- ChatServer.ChatService.OnLogin: the friend and group lists of the reply are left out, because no handler reads them and no message depends on them.
- ChatServer.ChatService.OnReg: the acknowledgement with the new id is not written to the connection, because no other handler depends on it.
- ChatServer.ChatService.OnMessage: an add-contact request changes nothing, because the friend table is left out; that a logout without an id throws is stated, but not that the exception then ends the process.
- ClientSystem.SystemIsExactlyOnce: a copy counts as delivered once it is written to a socket, because the server learns nothing of what becomes of it; `WritesAreRead` follows it to the client while the connection stays open.
- Several processes reading `t_offlineMessage` through transactions of different isolation: every query sees all earlier updates.
