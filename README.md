# NetQuiz core, modelled in Dafny

NetQuiz is a peer-to-peer study application. An administrator runs a server. Students connect to it as clients, chat, exchange files and take quizzes, and the administrator keeps a leaderboard. This project models the parts of that application that decide what happens to messages and results:

- **the relay server** (`Network.Server`): its connection list, its username and heartbeat tables, broadcasting with dead-connection cleanup, peer-list announcements, per-type routing of client messages, removal of peers and the heartbeat monitor's sweep;
- **the message processors and their registry** (`Processors`): which callback each of the nine processors makes for a message, and dispatch by message type;
- **the file transfer manager** (`FileTransfers`): the client and named-connection tables, fan-out to "all", sending to one named peer, transfer progress and shutdown;
- **the controllers** (`Controllers`): starting, stopping and broadcasting through the server; sending group, broadcast and direct chat messages; starting quizzes, submitting answers and sending results;
- **quizzes** (`QuizModel`): questions, answer sheets, timing and grading;
- **the leaderboard** (`Leaderboard`): per-user results, the board sorted by average score, ranks and the printed table;
- **the utilities**: address and port validation (`NetUtil`), file extensions and the byte branch of file-size formatting (`FileUtil`).

## How the model is built

- Java objects whose fields change are Dafny classes with `modifies` clauses: `Server`, `FileTransferManager`, `TransferStatus`, the three controllers' state, `Quiz`, `QuizAnswer`, `LeaderboardManager` and the processor `Registry`. Immutable Java values are datatypes, for example `Message`, `QuizQuestion`, `QuizResult` and leaderboard `Entry`.
- A `PeerConnection` is an identifier. The server's `peers` map gives each identifier an open/closed flag and the sequence of messages written to it. Closing a socket and `sendMessage` (a no-op on a closed connection) are the methods `Server.Close` and `Server.Send`.
- Calls that re-enter the server are kept: `broadcast` → `broadcastPeerList` → `broadcast` is mutual recursion among methods. It terminates because every nested broadcast follows the removal of a username.
- `HashMap` and `ConcurrentHashMap` iteration order is left open. The model takes an arbitrary ordering of the keys (`Seqs.IsOrderingOf`), so each property holds for every iteration order.
- The clock (`System.currentTimeMillis`), the UUID of a transfer and the result of each job handed to the executor (`outcome`) are parameters. Logger and listener callbacks become logs (sequences of lines or events).
- Java `int` wrap-around is modelled in these places: `JavaLang.Wrap32` for the leaderboard's total score and the quiz's remaining time. The quiz's point sums are not wrapped (see "Left out"). Truncating division is `JavaLang.JavaDiv` and `FileTransfers.TruncDiv`.
- `Message.java` and `Client.java` are not part of this model beyond the fields and calls the core uses. `Message` is a datatype with the fields the core reads, and a `Client` link is a `ClientPeer` value.

## Model

Source paths are relative to the repository root.

| member | source | states |
|---|---|---|
| Network.Server.constructor | src/main/java/main/network/Server.java:27-35 | A new server is stopped, with an empty connection list, empty username and heartbeat tables, and the given port and own username. |
| Network.Server.Start | src/main/java/main/network/Server.java:40-46 | Starting sets the server running and changes no table, so a second start does nothing further. |
| Network.Server.Accept | src/main/java/main/network/Server.java:83-86 | An accepted socket is a fresh open connection. It is appended to the list and stamped with the current time in the heartbeat table. It has no username yet. |
| Network.Server.Close | src/main/java/main/network/PeerConnection.java:99-109 | Closing marks only that connection closed and keeps what was written to it. |
| Network.Server.Send | src/main/java/main/network/PeerConnection.java:68-78 | A message reaches exactly that connection, and only if it is open. |
| Network.Server.Stop | src/main/java/main/network/Server.java:105-131 | Every connection open at the start receives the shutdown notice, possibly followed by peer lists. Then every listed connection is closed. The list and both tables are left empty and the server is not running. |
| Network.Server.Broadcast | src/main/java/main/network/Server.java:148-174 | The message reaches every open listed connection. Every closed connection leaves the list and the username table. The further messages are peer lists, exactly one for each closed listed connection that had a username, so there are none when no listed connection was closed. The heartbeat table and the delivery log are unchanged. |
| Network.WriteToAll | src/main/java/main/network/Server.java:150-160 | The message is written to every open target and nowhere else. The closed targets are returned in list order. |
| Network.Server.WriteAll | src/main/java/main/network/Server.java:150-160 | The first loop of a broadcast. No closed connection is found exactly when the list holds none, and no connection's state changes. |
| Network.Server.RemoveClosed | src/main/java/main/network/Server.java:162-173 | The cleanup loop is itself a broadcast of peer lists only, exactly one per closed listed connection that had a username. Its end state has no closed connection in the list. |
| Network.Server.VisitClosed | src/main/java/main/network/Server.java:164-171 | One turn of the cleanup loop keeps its account of which closed connections are gone and which peer lists were sent. |
| Network.Server.DropClosed | src/main/java/main/network/Server.java:165-171 | A closed connection leaves the list. If it had a username, it leaves the table, and a peer list of the remaining table is broadcast first. One more peer list follows for each named closed connection that broadcast sweeps away. |
| Network.Server.PeerListing | src/main/java/main/network/Server.java:275-278 | The peer-list text is every username followed by a comma, in some iteration order of the table. |
| Network.Server.BroadcastPeerList | src/main/java/main/network/Server.java:273-284 | The first message sent is the PEER_LIST of the table as it was, from "Server" to "all". Everything sent is a peer list: that one, then one per closed listed connection that had a username. |
| Network.ListingIsJoin | src/main/java/main/network/Server.java:275-278 | The peer-list text is the usernames joined by commas, plus one trailing comma. |
| Network.PeerListSplit | src/main/java/main/network/Server.java:275-278 | A client splitting a peer list on commas gets back exactly the usernames, in order. This holds when names are non-empty and comma-free. |
| Network.Server.HandleClientMessage | src/main/java/main/network/Server.java:179-268 | The handler sees each message once, and CLASS_JOIN and CLASS_LEAVE a second time. The message is then routed by its type. |
| Network.Server.Route | src/main/java/main/network/Server.java:183-267 | Routing per type:<br>- USER_JOIN names the connection, then announces.<br>- USER_LEAVE unnames it, then announces.<br>- PEER_TO_PEER and FILE are forwarded by receiver name.<br>- HEARTBEAT is stamped and answered with a pong.<br>- CLASS_JOIN and CLASS_LEAVE change nothing.<br>- Every other type is rebroadcast. |
| Network.Server.Join | src/main/java/main/network/Server.java:184-194 | The sender's name is recorded for the connection. The join message and then a peer list of the updated table reach every open connection. |
| Network.Server.Leave | src/main/java/main/network/Server.java:257-261 | The connection's name is dropped. The leave message and then the peer list of the remaining table reach every open connection. |
| Network.Server.Announce | src/main/java/main/network/Server.java:190-193 | Shared tail of join and leave: a rebroadcast followed by a peer-list broadcast. |
| Network.Server.Direct | src/main/java/main/network/Server.java:196-226 | A message for "Server" or for the server's own user (ignoring case) stays on the server. Otherwise it goes unchanged to one connection whose username equals the receiver exactly, or nowhere if none does. |
| Network.ForServerIgnoresLatin1Case | src/main/java/main/network/Server.java:201-205 | A message for "JOSÉ" stays on a server whose user is "josé", while one for "jose" does not: case is ignored beyond ASCII. |
| Network.Server.AnswerHeartbeat | src/main/java/main/network/Server.java:236-241 | Only the sender's connection is stamped with the current time, and only it receives the pong. |
| Network.Server.RemovePeerConnection | src/main/java/main/network/Server.java:289-305 | The connection leaves the list and both tables. If it was named, a peer list and then a "<name> has left the chat" USER_LEAVE are broadcast (`Removed`). If it was not named, nothing else changes. |
| Network.Server.ForgetNamed | src/main/java/main/network/Server.java:291-303 | For a named connection: its name and heartbeat go, and then the departure broadcasts follow. |
| Network.Server.Depart | src/main/java/main/network/Server.java:298-303 | The peer list of the table comes first, then the leave notice, each as a broadcast with its own cleanup. |
| Network.Server.CloseListed | src/main/java/main/network/Server.java:126-128 | Every listed connection is closed, and no other connection changes. |
| Network.Server.MonitorSweep | src/main/java/main/network/Server.java:332-357 | A sweep of a running server does these things:<br>- It evicts exactly the connections whose last heartbeat is more than 90000 ms old (`ClientTimeout`).<br>- Each evicted connection ends closed, unlisted and unnamed.<br>- The heartbeat table loses exactly those connections.<br>- Every other socket stays as open as it was, and no outbox loses a message (`Swept`).<br>- Every open listed connection that did not time out stays listed, and every open named one keeps its name.<br>- For each evicted connection that was open and named when the sweep began, the USER_LEAVE notice for that name reaches every open connection still listed.<br>A stopped server's sweep changes nothing. |
| Network.Server.Expired | src/main/java/main/network/Server.java:337-351 | The collected connections are exactly the timed-out ones. |
| Network.Server.Evict | src/main/java/main/network/Server.java:354-357 | An eviction is `removePeerConnection` (`Removed`) followed by closing the socket. The evicted connection ends closed, unlisted and unnamed, and earlier evictions stay in effect. For everyone else it is an `EvictStep`: only that socket closed, no outbox lost a message, open connections kept their place and their names, and a named connection's USER_LEAVE notice reached every open listed connection. |
| Network.BroadcastCompose | src/main/java/main/network/Server.java:148-174 | Two broadcasts in a row act as one broadcast of both message lists. |
| Network.BroadcastLeavesNoDead | src/main/java/main/network/Server.java:162-173 | After a broadcast, no closed connection is left in the list. |
| Network.BroadcastShrinks | src/main/java/main/network/Server.java:148-174 | A broadcast opens and closes no socket. It only shrinks the list and the username table. |
| Network.StopCloses | src/main/java/main/network/Server.java:113-129 | The shutdown broadcast followed by the closing loop is a shutdown of the original list. |
| Network.AnnouncedInTwo | src/main/java/main/network/Server.java:190-193 | A rebroadcast followed by a peer-list broadcast is an announcement that lists the final table. |
| Network.DepartedInTwo | src/main/java/main/network/Server.java:298-303 | A peer-list broadcast followed by the leave notice is a departure. |
| Network.SentToTrans | src/main/java/main/network/Server.java:148-174 | Writing one message list and then another to the same open connections is writing their concatenation. |
| Network.WriteKeepsDead | src/main/java/main/network/Server.java:153-160 | Writing opens and closes nothing. The closed connections it skipped are exactly the closed ones of the list. |
| Network.WriteThenClean | src/main/java/main/network/Server.java:148-174 | Writing to the open connections and then cleaning up is a broadcast of the message followed by the cleanup's peer lists. |
| Network.NestedCleanup | src/main/java/main/network/Server.java:164-171 | A nested broadcast removes the remaining closed connections of the outer snapshot, and no others. |
| Network.NestedCount | src/main/java/main/network/Server.java:164-171 | When the cleanup drops a named closed connection, its nested peer-list broadcast brings the peer lists sent so far to exactly one per named closed connection of the snapshot. |
| Network.CountSplit | src/main/java/main/network/Server.java:164-171 | The named closed connections split into those already gone, the one being dropped, and the rest, so the counts add up. |
| Network.BroadcastKeeps | src/main/java/main/network/Server.java:148-174 | A broadcast loses no message from any outbox. Every open connection still listed got exactly the broadcast messages. Open connections keep their place in the list and their usernames. |
| Network.NamedDeparting | src/main/java/main/network/Server.java:289-305 | Removing a named connection leaves every other open connection listed and named, and its USER_LEAVE notice reaches every open connection still listed. |
| Network.RemovedThenClosed | src/main/java/main/network/Server.java:354-357 | `removePeerConnection` followed by closing the socket is an `EvictStep`, whether or not the connection was named. |
| Network.SweptStep | src/main/java/main/network/Server.java:336-357 | One more eviction keeps the sweep's account (`Swept`) of liveness, outboxes, the list, the names and the leave notices. |
| Network.LeavesStep | src/main/java/main/network/Server.java:336-357 | Leave notices already delivered stay in the outboxes of the connections still open and listed, and the newly evicted connection's notice is added. |
| Processors.HandledTypeInjective | src/main/java/main/processor/MessageProcessorRegistry.java:25-27 | No two processors claim the same type, so registering all nine fills nine entries. |
| Processors.Run | src/main/java/main/processor/QuizStartProcessor.java:28-35 | A processor is silent exactly when its guard fails (missing quiz, answer or result, or an empty peer list). It makes at most two callbacks, two only for a quiz start or a quiz result, where the status line comes first. |
| Processors.RunIgnoresReceiver | src/main/java/main/processor/BroadcastMessageProcessor.java:20-23 | No processor depends on the receiver field. |
| Processors.StatusIgnoresContent | src/main/java/main/processor/UserJoinProcessor.java:24-28 | The join and the leave processor report the sender whatever the content. |
| Processors.ChatLogsEvenEmpty | src/main/java/main/processor/TextMessageProcessor.java:20-23 | A text, broadcast or direct chat message always logs one line, even with empty content, and the line ends with the content. |
| Processors.PeerListVerbatim | src/main/java/main/processor/PeerListMessageProcessor.java:24-29 | A non-empty peer list is passed on unchanged, trailing comma included. |
| Processors.AnswerAttributedToSender | src/main/java/main/processor/QuizAnswerProcessor.java:25-31 | An answer sheet is credited to the message's sender. |
| Processors.Registry.constructor | src/main/java/main/processor/MessageProcessorRegistry.java:17-19 | A new registry is empty. |
| Processors.Registry.Register | src/main/java/main/processor/MessageProcessorRegistry.java:25-27 | The processor is stored under its own type, replacing any earlier one. |
| Processors.Registry.Process | src/main/java/main/processor/MessageProcessorRegistry.java:34-41 | The processor registered for the message's type runs once. With none registered, no callback is made. |
| Processors.Registry.HasProcessor | src/main/java/main/processor/MessageProcessorRegistry.java:48-50 | True exactly when a processor is registered for the type. |
| Processors.Registry.Unregister | src/main/java/main/processor/MessageProcessorRegistry.java:56-58 | Only that type's entry is removed. |
| Processors.RegisterThenDispatch | src/main/java/main/processor/MessageProcessorRegistry.java:25-41 | After registering a processor, messages of its type are handled by it. |
| Processors.UnregisterThenDispatch | src/main/java/main/processor/MessageProcessorRegistry.java:34-58 | After unregistering a type, its messages make no callback, and every other type is handled as before. |
| Processors.UnhandledTypeIsSilent | src/main/java/main/processor/MessageProcessorRegistry.java:36-40 | A type with no processor makes no callback. |
| FileTransfers.TransferStatus.constructor | src/main/java/main/network/FileTransferManager.java:36-42 | A new status has nothing sent and is neither completed nor failed. |
| FileTransfers.ProgressBounds | src/main/java/main/network/FileTransferManager.java:44-47 | While no more than the file has been sent, progress lies in 0..100. For a non-empty file it is 100 exactly when everything was sent. |
| FileTransfers.ProgressIsQuotient | src/main/java/main/network/FileTransferManager.java:44-47 | Within the file's size, neither truncation toward zero nor the narrowing to `int` changes the percentage. |
| FileTransfers.ProgressMonotone | src/main/java/main/network/FileTransferManager.java:44-47 | Sending more never lowers the progress. |
| FileTransfers.FileTransferManager.constructor | src/main/java/main/network/FileTransferManager.java:50-55 | A new manager has no clients, connections or transfers. |
| FileTransfers.FileTransferManager.RegisterPeer | src/main/java/main/network/FileTransferManager.java:60-64 | A client link is appended unless it is already present, so no link appears twice. |
| FileTransfers.FileTransferManager.RegisterPeerConnection | src/main/java/main/network/FileTransferManager.java:69-71 | The connection is stored under the name, replacing any earlier one. |
| FileTransfers.FileTransferManager.UnregisterPeer | src/main/java/main/network/FileTransferManager.java:76-78 | The link is gone, and the others keep their order. |
| FileTransfers.FileTransferManager.UnregisterPeerConnection | src/main/java/main/network/FileTransferManager.java:83-85 | Only that name is removed. |
| FileTransfers.FileTransferManager.SendFile | src/main/java/main/network/FileTransferManager.java:90-111 | A send to "all" is a fan-out. Any other recipient gets at most one attempt at the specific target. The status carries the file's name and size. The transfer is registered only while the send runs. On a shut-down pool the fan-out fails with the pool's rejection message as the status's error. |
| FileTransfers.FileTransferManager.SendToAllPeers | src/main/java/main/network/FileTransferManager.java:116-165 | The send makes one attempt per client and one per registered name other than the sender's. It succeeds exactly when every attempt is delivered, and the status records completion. A shut-down pool rejects the first submission: nothing is attempted, and the status is failed with the rejection's message as its error. |
| FileTransfers.FileTransferManager.PlanFanOut | src/main/java/main/network/FileTransferManager.java:120-147 | The planned attempts are every client in list order, then every other registered name once. |
| FileTransfers.AwaitAll | src/main/java/main/network/FileTransferManager.java:150-159 | The send succeeds exactly when every planned attempt was delivered. |
| FileTransfers.FanOutCount | src/main/java/main/network/FileTransferManager.java:116-147 | A fan-out makes one attempt per client plus one per registered name other than the sender. |
| FileTransfers.FanOutNobody | src/main/java/main/network/FileTransferManager.java:116-165 | With nobody else to send to, a send to "all" makes no attempt and reports success. |
| FileTransfers.NamedNames | src/main/java/main/network/FileTransferManager.java:135-146 | The names attempted are distinct and are exactly the registered names other than the sender. |
| FileTransfers.SpecificTarget | src/main/java/main/network/FileTransferManager.java:172-192 | The target is the connection registered under the recipient's name. Failing that, it is the first client link, whoever it leads to. There is none exactly when neither exists. |
| FileTransfers.FileTransferManager.SendToSpecificPeer | src/main/java/main/network/FileTransferManager.java:170-200 | The send makes one attempt at the specific target. With no target it fails with "Recipient not found". |
| FileTransfers.FileTransferManager.ConnectedPeerNames | src/main/java/main/network/FileTransferManager.java:219-231 | The result is "host:port" for every client in order, then every registered name once. |
| FileTransfers.ClientNames | src/main/java/main/network/FileTransferManager.java:223-225 | One "host:port" name per client, in list order. |
| FileTransfers.FileTransferManager.Shutdown | src/main/java/main/network/FileTransferManager.java:243-253 | The pool stops and the transfer table is emptied. The tables of peers are kept. |
| Controllers.AdminTest | src/main/java/main/controller/ChatController.java:129-132 | "ADMIN"/"admin" and "Admin"/"admin" are administrators and "admin"/"ADMIN" is not: the user name is compared ignoring case, the password exactly. Every administrator has a five-letter name and the password "admin". |
| Controllers.ServerController.constructor | src/main/java/main/controller/ServerController.java:20-24 | A new controller has no server and is not running. |
| Controllers.ServerController.StartServer | src/main/java/main/controller/ServerController.java:32-54 | Starting is refused while running and for a port outside 1024..65535, each with its own status line. Otherwise a fresh, running server on that port becomes the controller's server. |
| Controllers.ServerController.StopServer | src/main/java/main/controller/ServerController.java:59-68 | Only a running server is stopped, with the server's shutdown semantics. Otherwise an error line is reported and the server is untouched. |
| Controllers.ServerController.Broadcast | src/main/java/main/controller/ServerController.java:74-78 | The message is broadcast only while running with a server. Otherwise nothing changes. |
| Controllers.SendGroupMessage | src/main/java/main/controller/ChatController.java:42-60 | Blank content does nothing. Otherwise a TEXT to "all" leaves through the first client link, or "not connected" is logged when there is none. |
| Controllers.SendBroadcast | src/main/java/main/controller/ChatController.java:66-84 | Blank content does nothing. Otherwise a BROADCAST to "all" leaves through the first client link, or "not connected" is logged. |
| Controllers.SendP2PMessage | src/main/java/main/controller/ChatController.java:91-123 | Blank content or a missing recipient does nothing. The administrator sends straight to the recipient's connection. Anyone else sends through the first client link. |
| Controllers.P2PFailureCases | src/main/java/main/controller/ChatController.java:105-121 | The administrator fails exactly for an unregistered name ("Peer not found"). Anyone else fails exactly without a client link ("Not connected"). |
| Controllers.GroupAndBroadcastAgree | src/main/java/main/controller/ChatController.java:42-84 | A group message and a broadcast of the same content succeed or fail together, leave by the same route, and differ only in type. |
| Controllers.SentLineEndsWithContent | src/main/java/main/controller/ChatController.java:54-60 | Every chat line logged for a send ends with the content sent. |
| Controllers.ClientP2PIsRoutedByName | src/main/java/main/controller/ChatController.java:114-118 | A student's direct message reaches the server as PEER_TO_PEER for that receiver, which the server forwards by name and does not rebroadcast. |
| Controllers.QuizController.constructor | src/main/java/main/controller/QuizController.java:27-35 | A new controller has no active quiz. |
| Controllers.QuizController.StartQuiz | src/main/java/main/controller/QuizController.java:41-64 | Only the administrator can start a quiz. The quiz becomes active and QUIZ_START goes once to every registered connection. Anyone else gets an error line and nothing is sent. |
| Controllers.SendToEveryConnection | src/main/java/main/controller/QuizController.java:58-60 | One send per registered name, in the table's iteration order. |
| Controllers.SendsToEveryName | src/main/java/main/controller/QuizController.java:58-60 | Every registered connection receives the message, and exactly one message per name is sent. |
| Controllers.SendsTo | src/main/java/main/controller/QuizController.java:58-60 | Each name of the order gets one send through its own connection. |
| Controllers.QuizController.SubmitQuizAnswer | src/main/java/main/controller/QuizController.java:70-88 | QUIZ_ANSWER to "admin" leaves through the first client link, or "not connected" is logged. |
| Controllers.QuizController.SendQuizResult | src/main/java/main/controller/QuizController.java:95-119 | Only the administrator can send a result, and only to a registered name. Exactly one QUIZ_RESULT then goes to that name's connection. |
| Controllers.QuizController.SetActiveQuiz | src/main/java/main/controller/QuizController.java:133-137 | A received quiz replaces the active one and is logged. |
| QuizModel.QuizAnswer.constructor | src/main/java/main/model/QuizAnswer.java:18-23 | A new answer sheet is empty. |
| QuizModel.QuizAnswer.AddAnswer | src/main/java/main/model/QuizAnswer.java:25-27 | The answer for that question is recorded or overwritten. |
| QuizModel.OneAcceptedAnswer | src/main/java/main/model/QuizQuestion.java:24-26 | A question accepts exactly one answer value. |
| QuizModel.Quiz.constructor | src/main/java/main/model/Quiz.java:20-26 | The id is "QUIZ_" followed by the creation time. A new quiz has no questions and is inactive. |
| QuizModel.Quiz.AddQuestion | src/main/java/main/model/Quiz.java:28-30 | The question is appended. |
| QuizModel.Quiz.Start | src/main/java/main/model/Quiz.java:32-35 | The quiz becomes active, timed from now. |
| QuizModel.Quiz.Stop | src/main/java/main/model/Quiz.java:37-39 | The quiz becomes inactive. |
| QuizModel.InactiveQuiz | src/main/java/main/model/Quiz.java:45-49 | An inactive quiz is never expired and has no time left. |
| QuizModel.ExpiredMeansNoTimeLeft | src/main/java/main/model/Quiz.java:72-76 | An expired quiz has no time left. |
| QuizModel.RunningQuizTimeLeft | src/main/java/main/model/Quiz.java:72-76 | Before expiry, the time left is the duration minus the elapsed whole seconds, within 0..duration. |
| QuizModel.Quiz.GetTotalPoints | src/main/java/main/model/Quiz.java:82-88 | The total is the sum of the questions' points. |
| QuizModel.Quiz.GradeQuiz | src/main/java/main/model/Quiz.java:90-106 | The result counts the correctly answered questions and the points they earn. It carries the quiz id, the user, the question count and the total points. |
| QuizModel.CorrectCountIsCardinality | src/main/java/main/model/Quiz.java:94-102 | The correct count is the number of distinct questions answered correctly. |
| QuizModel.CorrectCountBounded | src/main/java/main/model/Quiz.java:94-102 | No more answers are correct than there are questions. |
| QuizModel.EarnedAtMostTotal | src/main/java/main/model/Quiz.java:94-102 | With no negative points, the earned points lie between 0 and the total. |
| QuizModel.AllCorrectEarnsAll | src/main/java/main/model/Quiz.java:94-102 | A sheet with every answer correct gets every question right and earns every point. |
| QuizModel.GradeIgnoresOtherKeys | src/main/java/main/model/Quiz.java:94-102 | Answers filed under an index that is not a question change nothing in the grade. |
| Leaderboard.PercentageBounds | src/main/java/main/model/QuizResult.java:28-29 | A result's percentage lies in 0..100. It is 100 exactly when every question of a non-empty quiz was answered correctly. |
| Leaderboard.LeaderboardManager.constructor | src/main/java/main/controller/LeaderboardManager.java:14-16 | A new manager holds no results. |
| Leaderboard.LeaderboardManager.AddResult | src/main/java/main/controller/LeaderboardManager.java:24-26 | The result is appended to that user's list, which is created when missing. |
| Leaderboard.AddedResult | src/main/java/main/controller/LeaderboardManager.java:24-26 | After adding a result, that user has one more quiz and the score wraps in the new points. Every other user is unchanged. |
| Leaderboard.LeaderboardManager.UserResults | src/main/java/main/controller/LeaderboardManager.java:33-35 | An unknown user has an empty list. A known user has their recorded list. |
| Leaderboard.LeaderboardManager.GetLeaderboard | src/main/java/main/controller/LeaderboardManager.java:41-61 | The board has one summary entry per user, in some order of the users, sorted best average first. |
| Leaderboard.BoardSize | src/main/java/main/controller/LeaderboardManager.java:41-61 | The board has as many entries as there are users with results. |
| Leaderboard.BoardMembers | src/main/java/main/controller/LeaderboardManager.java:43-58 | Every entry is the summary of a user with results. |
| Leaderboard.BoardCoversUsers | src/main/java/main/controller/LeaderboardManager.java:41-61 | Every user with results appears on the board. |
| Leaderboard.BoardDistinct | src/main/java/main/controller/LeaderboardManager.java:41-61 | No user appears twice. |
| Leaderboard.EmptyBoardIffNoResults | src/main/java/main/controller/LeaderboardManager.java:68-72 | The board is empty exactly when no results are recorded. |
| Leaderboard.RankOrder | src/main/java/main/controller/LeaderboardManager.java:59 | A better-ranked user never has a lower average. |
| Leaderboard.SortByAverage | src/main/java/main/controller/LeaderboardManager.java:59 | The sorted board is ordered best average first and is a permutation of its input. |
| Leaderboard.InsertSorted | src/main/java/main/controller/LeaderboardManager.java:59 | Inserting into a sorted board keeps it sorted. |
| Leaderboard.AverageBounds | src/main/java/main/controller/LeaderboardManager.java:47-50 | With sensible results, a user's average lies in 0..100. |
| Leaderboard.TotalScoreWraps | src/main/java/main/controller/LeaderboardManager.java:53-55 | The total score is the true sum of earned points wrapped to 32 bits. It equals the sum when that fits. |
| Leaderboard.LeaderboardManager.FormattedLeaderboard | src/main/java/main/controller/LeaderboardManager.java:67-91 | With no results the text is "No quiz results yet". Otherwise it is the banner followed by one ranked row per board entry, ranks counting from 1. |
| Leaderboard.AppendRows | src/main/java/main/controller/LeaderboardManager.java:80-88 | The row loop appends each entry's row, ranked from 1 in board order. |
| Leaderboard.FormattedLineCount | src/main/java/main/controller/LeaderboardManager.java:74-88 | The printed board is four banner lines plus one line per user. This holds when names and averages contain no line breaks. |
| Leaderboard.BannerLineCount | src/main/java/main/controller/LeaderboardManager.java:75-78 | The banner takes four lines. |
| Leaderboard.RowIsOneLine | src/main/java/main/controller/LeaderboardManager.java:82-87 | A row is one line when the name and the average text contain no line breaks. |
| Leaderboard.PadRight | src/main/java/main/controller/LeaderboardManager.java:76-77 | The text is left-aligned and padded with spaces to the column width, and never truncated. |
| Leaderboard.LeaderboardManager.GetUserRank | src/main/java/main/controller/LeaderboardManager.java:98-106 | The rank is -1 exactly for a user with no results. Otherwise it is the user's 1-based place on the board. |
| Leaderboard.FindRank | src/main/java/main/controller/LeaderboardManager.java:100-105 | The search returns the 1-based place of the first entry with that name, or -1 when there is none. |
| Leaderboard.LeaderboardManager.ClearResults | src/main/java/main/controller/LeaderboardManager.java:111-113 | No results remain. |
| NetUtil.IsValidIPAddress | src/main/java/main/util/NetworkUtil.java:48-69 | The loop's answer is exactly the acceptance rule: a non-empty text that splits on dots into four fields, each of which parses to a value in 0..255. |
| NetUtil.DottedQuadAccepted | src/main/java/main/util/NetworkUtil.java:53-65 | Every address written as four numbers in 0..255 is accepted. |
| NetUtil.QuadFieldsAreOctets | src/main/java/main/util/NetworkUtil.java:59-63 | Each field of such an address is a dot-free octet. |
| NetUtil.AcceptedFieldsInRange | src/main/java/main/util/NetworkUtil.java:53-65 | Every accepted address has four fields with values in 0..255. |
| NetUtil.NoDotRejected | src/main/java/main/util/NetworkUtil.java:53-56 | A text without a dot is never accepted. |
| NetUtil.PortGuardIsValidPort | src/main/java/main/util/NetworkUtil.java:74-76 | `isValidPort` accepts exactly 1024..65535 (NetworkConstants MIN_PORT..MAX_PORT), so the server controller's port guard rejects exactly the ports `isValidPort` rejects. |
| NetUtil.TrailingDotAccepted | src/main/java/main/util/NetworkUtil.java:53-56 | As written, "a.b.c.d." is accepted (see Findings). |
| NetUtil.StrictRejectsTrailingDot | src/main/java/main/util/NetworkUtil.java:53-56 | The corrected rule rejects a trailing dot. |
| NetUtil.StrictIsStricter | src/main/java/main/util/NetworkUtil.java:53-65 | Everything the corrected rule accepts, the code as written accepts too. |
| FileUtil.FileExtension | src/main/java/main/util/FileUtil.java:30-36 | The extension has no dot. When it is non-empty, the name is a non-empty base, a dot and the extension. |
| FileUtil.NoExtensionCases | src/main/java/main/util/FileUtil.java:31-35 | The extension is empty exactly when there is no dot, the last dot comes first, or the last dot comes last. |
| FileUtil.ExtensionOfAppended | src/main/java/main/util/FileUtil.java:30-36 | Appending "." and a dot-free extension to a non-empty name gives that extension back. |
| FileUtil.HiddenFileHasNoExtension | src/main/java/main/util/FileUtil.java:32 | A dot-free name, or one whose only dot comes first, has no extension. |
| FileUtil.FormatFileSizeReadsBack | src/main/java/main/util/FileUtil.java:41-43 | Below 1024, the size text is a decimal number followed by " B", and the number parses back to the size. |
| JavaLang.ParseIntToString | src/main/java/main/util/NetworkUtil.java:60 | `Integer.parseInt` reads back the decimal text of every `int`. |
| JavaLang.SplitJoin | src/main/java/main/util/NetworkUtil.java:53 | Splitting fields joined by a separator gives them back, when they contain no separator and the last is non-empty. |
| JavaLang.BlankIffAllControl | src/main/java/main/controller/ChatController.java:43 | `trim().isEmpty()` holds exactly when every character is at most a space. |

## Left out

- Sockets, streams, the accept loop's thread and the connection monitor's thread, `Thread.sleep`, interrupts and TLS (`SSLUtil`) are left out. The accept loop is `Server.Accept` and one monitor pass is `Server.MonitorSweep`, each called explicitly.
- Concurrency is left out. Each method runs alone. `CopyOnWriteArrayList` and `ConcurrentHashMap` are plain sequences and maps.
- `onConnectionLost` is not modelled as an event. A lost connection can be reproduced by `Server.Close` followed by `Server.RemovePeerConnection`.
- Console output (`System.out` and `System.err`) and `onServerStatus` lines are left out.
- Network.Server.HandleClientMessage: the message handler is the `delivered` log. What the dashboard then does with a message is not part of this model.
- Network.Server.Broadcast: the messages sent by nested peer-list broadcasts are characterised only as PEER_LIST messages from "Server" to "all". Each nested list's exact contents follow from the table at that moment and are not stated.
- Network.Server.Direct: case folding in `equalsIgnoreCase` is modelled for ASCII and Latin-1 letters and the few other chars that fold onto them (`JavaLang.Fold`). Other scripts (Greek, Cyrillic and so on) are treated as caseless, so a receiver differing from the own username only in the case of such letters is forwarded rather than kept.
- Network.Server.Direct: when several connections carry the receiver's name, the model says one of them receives the message. It does not fix which, because that depends on the map's iteration order.
- Network.Server.Stop: `serverSocket.close()` and the closing status line are left out.
- A null receiver, recipient or username is left out. The source would throw or misbehave on one, and the model's strings are never null. Missing optional fields of a message are `Option` values.
- FileTransfers.FileTransferManager.SendFile: the results of the executor's jobs and `Future` timeouts are an `outcome` function given as a parameter. The message of a shut-down pool's rejection is the parameter `rejection`. The bytes actually written by `PeerConnection.sendFile` are not modelled.
- FileTransfers.ProgressBounds: the `long` overflow of `sentBytes * 100` for files above about 92 petabytes is not modelled.
- The transfer id (a random UUID) is a parameter. `getTransferStatus` and `getActiveTransfers` are plain field reads.
- `FileMessageProcessor` and `FileController` are context, not core, and are left out.
- Controllers.ServerController.StartServer: the `catch` branch for an exception from `server.start()` is left out, because starting in the model cannot fail. The status listener is a sequence of lines.
- QuizModel.Quiz.GetTotalPoints: the sum is over unbounded integers. A Java `int` that wraps when the points exceed 2^31 - 1 is not modelled.
- QuizModel.Quiz.GradeQuiz: the earned points are summed over unbounded integers, as above. The `percentage` and `completionTime` fields of `QuizResult` are left out of the record; the percentage is `Leaderboard.Percentage`.
- Floating point is left out. The percentage and the average score are exact reals rather than `double`. The `%.1f` rendering of the average is a parameter `fmt` of `FormattedLeaderboard`.
- FileUtil.FormatFileSizeReadsBack: only the byte branch of `formatFileSize` is modelled. The KB, MB and GB branches use `%.2f` on a `double`.
- Strings are sequences of Unicode scalar values, while a Java `String` is a sequence of UTF-16 code units. Lengths, indices and widths therefore count code points. They agree with Java's for text in the Basic Multilingual Plane and differ for chars outside it, such as emoji.
- Leaderboard.PadRight: the column width counts code points, while `String.format("%-Ns")` counts UTF-16 code units. A username holding chars outside the Basic Multilingual Plane gets more padding here than in Java.
- `JavaLang.ParseInt` accepts an optional sign and ASCII digits only. The non-ASCII digits that `Integer.parseInt` also accepts are left out.
- `NetworkUtil.getLocalIPAddress` enumerates network interfaces and is left out.
- `Message.java` and `Client.java` are not part of this model beyond the fields and calls the core uses.

## Findings

| source | as written | input that shows it | evidently intended | confidence | as-written member | corrected member |
|---|---|---|---|---|---|---|
| src/main/java/main/util/NetworkUtil.java:53-56 | `split("\\.")` drops trailing empty fields, so an address ending in a dot still has four fields and is accepted | "192.168.1.1." | An address is exactly four dot-separated octets, so a trailing dot is rejected | not executed | NetUtil.TrailingDotAccepted | NetUtil.StrictRejectsTrailingDot |
