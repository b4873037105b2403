# A multi-threaded chat server, and what holds of it

This project models the chat server of the repository and the byte-level
protocol layer under it, and proves what they promise.

**The server as a transition system** (`Chat`, `ChatSteps`, `ChatInvariants`,
`ChatMessages`, `ChatLedger`, `ChatSessions`, `ChatStreams`, `ChatRuns`,
`ChatTheorems`, `ChatProgress`, `ChatRelease`, `ChatHistory`). Any number of client threads, users, rooms and
queues. Every thread has a program counter, and one action is one shared
operation: taking or releasing `Server::m_lock`, `Room::lock` or
`MessageQueue::m_lock`, inserting into or erasing from a room's set, one step of
the broadcast iterator, `push_back`, `sem_post`, `sem_timedwait` succeeding or
failing, `front` with `pop_front`, a send, a receive. Messages live on an
explicit heap, where a cell remembers who holds it and whether it was deleted.
`ChatSteps` says once, seen from outside, how each part of the state moves in one
action; the invariants are preserved from those facts. The theorems speak of
every reachable state and every finite run.

**The server as its users see it** (`AtomicChat`, `Abstraction`, `Refinement`).
People log in, ask and are answered by the rules of their session; they sit in
rooms, a broadcast reaches everyone at once, an inbox is first in, first out: no
threads, locks, semaphores or memory. The atomic chat says when each event may
happen and what each client has been sent. Every run of the transition system is
one of its histories.

**The server's objects in memory** (`ServerObjects`, `Session`). `MessageQueue`,
`User`, `Room` and `Server` as classes whose methods have the statements of the
C++ methods, run to the end by one thread. `Session` is the sender's session as a
fold over what its client sends; the methods here and the threads of the
transition system are both proved to follow that fold.

**The byte stream** (`Rio`, `Connections`, `Messages`, `ClientUtil`). `rio_t` as a
class with its 8192-byte array, index and count over a descriptor whose `read()`
and `write()` consume a finite script of outcomes: chunks of any size, EINTR,
failures. On top of it the line encoder and decoder and the payload splitter.

**Both together** (`Screen`, `EndToEnd`, `Client`, `Replies`): the receiver's
program, the way from the line in which one client asks to speak to the pairs of
sender and text that another client's screen shows, everything one client is sent,
and which replies arrive as one line.

**Integer printing** (`Sio`): `sio_ltoa` and the reversal in place.

## Where code and documentation differ

The model follows the code.

- The length test of `isValidRoomName` cannot fail, so the empty name is a valid
  room name (server.cpp:247).
- A malformed line from a sender is answered twice: its own branch does not leave
  the turn, and the tag has become `err` (server.cpp:136-138, server.cpp:182). The
  replies therefore number the well-formed lines plus twice the malformed ones.
- `receive` trims the whole line, so trailing blanks of the data are lost, and it
  stops at an embedded NUL (connection.cpp:65-66). `OneSendIsOneReceive` gives the
  exact condition under which a message survives: it is an if-and-only-if.
- A line of 256 bytes or more is not rejected. It is cut after 255 bytes, and the
  rest is read as the next line (`LongLineIsCut`, `LongDeliveryIsCut`). The server
  accepts texts that are short enough as a request and too long as a delivery; at
  exactly 256 bytes the client shows the text twice (`ShownTwice`).
- The same happens to replies. The welcome of a name of more than 242 bytes, which
  the server accepts, is read as two lines, and the receiver's program exits
  (`LongNameIsAccepted`); after a join of a room of more than 231 bytes a sender's
  client is one reply behind (`OneReplyBehind`).
- User names are not checked (server.cpp:47-48). A name or a text with a colon
  makes the receiver reject the delivery: `DeliverySplits` is again an
  if-and-only-if.
- `m_last_result` is set only by failures, so it means something only after one
  (connection.cpp:46, connection.cpp:61, connection.cpp:71).
- README.txt claims that there is no deadlock because locks are taken in one
  order. That order is proved here (`LockOrder`), and so is the claim
  (`NoDeadlock`, `SomebodyCanStep`, `CriticalSectionsEnd`).

## Model

| member | source | states |
|---|---|---|
| ClientUtil.BlanksAre | client_util.cpp:10 | the blanks are six bytes, given by number: 32 and 9 to 13 |
| ClientUtil.RTrimUnique | client_util.cpp:17-20 | trimming on the right is pinned down by what it keeps: a prefix, after which there are only blanks, and which does not end in one |
| ClientUtil.LTrimUnique | client_util.cpp:12-15 | trimming on the left keeps exactly the suffix before which there are only blanks and which does not begin with one |
| ClientUtil.RTrimFixpoint | client_util.cpp:17-24 | a text is left alone exactly when it is empty or does not end in a blank |
| Messages.SplitPayload | message.cpp:6-62 | a valid message gives colons + 1 colon-free pieces whose join is the data; an invalid one gives its first complaint alone; for a delivery, three pieces come out exactly when it is valid |
| Messages.PayloadRules | message.cpp:9-44 | what makes a message valid, with the eleven tags word for word, and which complaint an invalid one earns, in which order |
| Messages.SplitJoins | message.cpp:46-61 | the pieces between the colons have no colon, join to the data, and number one more than its colons |
| Messages.JoinInjective | message.cpp:46-61 | colon-free pieces can be recovered from their join in one way only, so splitting is the inverse of joining |
| Rio.RioBuffer.constructor | csapp.c:843-848 | a fresh buffer stands for all that the descriptor will deliver |
| Rio.RioBuffer.Refill | csapp.c:815-826 | the refill loop retries EINTR, ends, and changes nothing about the bytes still to come; 0 means the end of the stream, -1 a hard error with nothing unread |
| Rio.RioBuffer.RioRead | csapp.c:811-836 | at most n bytes of the stream go to the target, the bytes stored and the stream left make up the stream before, nothing else in the target changes |
| Rio.RioBuffer.ReadLineB | csapp.c:877-899 | chunking does not matter: it stores and consumes the first LineLen bytes of the stream, ends them with NUL inside maxlen, returns their number and leaves the rest; -1 exactly when an incomplete line meets a hard error |
| Rio.LineLenIsMinimum | csapp.c:882-898 | the length of a line read is the least of maxlen - 1, the bytes there are, and one past the first newline |
| Rio.RioBuffer.ReadNB | csapp.c:855-870 | it returns min(n, bytes there are), stores exactly those bytes and leaves the rest; -1 exactly when a hard error comes before n bytes |
| Rio.WriteN | csapp.c:781-798 | every byte is written once and in order, however the kernel splits or interrupts the writes; -1 only after a hard error, with a proper prefix written |
| Rio.MakeCalls | csapp.c:855-899 | line reads and block reads mixed in any order on one buffer return exactly the pieces that the stream alone determines |
| Rio.ReturnsArePrefix | csapp.c:855-899 | the concatenation of what such calls return is the beginning of the stream: no byte lost, repeated or moved |
| Rio.EveryScriptIsACut | csapp.c:815-826 | every script of read() outcomes without a hard error is what it delivers, cut into chunks and interrupts of some sizes: a result for all sizes is one for all such scripts |
| Connections.Connection.Send | connection.cpp:40-51 | success means that the encoded line, cut at a NUL, was appended to what was written; it fails only on a hard error, and then sets the last result |
| Connections.Connection.Receive | connection.cpp:53-87 | the outcome, the message, the last result and the rest of the stream depend on the stream alone; a failure leaves the data and sets the tag to `err` |
| Connections.ReceivedIsReceivable | connection.cpp:65-86 | whatever receive accepts has a lower-case tag, data without newline, NUL or trailing blanks, and at most 255 bytes |
| Connections.FramedLine | connection.cpp:65-84 | of blanks, a lower-case tag, a colon, data, blanks and a newline, receive makes that tag and the data trimmed on the right, for all of these |
| Connections.SendableIs | connection.cpp:40-87 | the condition of the next rows, in numbers: letters 97 to 122 in the tag, no byte 10 or 0 in the data, at most 255 bytes with the colon and the newline |
| Connections.ParseEncoded | connection.cpp:40-87 | decoding inverts encoding, up to trailing blanks, for every lower-case tag and clean data |
| Connections.OneSendIsOneReceive | connection.cpp:40-87 | one send is one receive, whatever follows on the stream, exactly when the tag is lower-case, the data has no newline and no NUL, and the line has at most 255 bytes |
| Connections.LongLineIsCut | connection.cpp:56-57 | a line with a newline inside or of more than 255 bytes is never read whole; without a newline inside, exactly 255 bytes are read |
| Connections.ConversationArrives | connection.cpp:40-87 | every sequence of such messages is received complete and in order, and the rest of the stream is untouched |
| Connections.ConversationNeedsFit | connection.cpp:40-87 | as many receives as messages read a conversation of clean messages to its end, and no further, exactly when every line has at most 255 bytes |
| Connections.Converse | connection.cpp:40-87 | the messages are sent through any splitting of writes; what the descriptor took crosses the network cut into chunks and interrupts of any sizes; the reader gets exactly that sequence, and nothing is left over |
| Session.IsValidRoomName | server.cpp:246-254 | the loop is true exactly when every byte is in 48-57, 65-90 or 97-122; the empty name passes |
| Session.OverOnlyByEnding | server.cpp:133-143 | the session is over exactly when a quit or the end of the connection has been received |
| Session.ReplyCount | server.cpp:129-186 | up to and including the end, the replies number the requests plus one more for each malformed line |
| Session.RoomIsLastJoin | server.cpp:146-167 | the current room is that of the last valid join with no later leave; an invalid join changes nothing |
| Session.OkExactlyInRoom | server.cpp:160-180 | sendall and leave earn one reply, and it is `ok` exactly when the session is in a room |
| Session.RepliesAre | server.cpp:133-183 | every reply that a sender can earn, word for word: a join is answered `ok`, naming the room, exactly when the name is valid; a leave names the user and then the room; a quit is answered `ok`; an unknown tag, a malformed line and the end of the connection earn only errors |
| Session.SessionIs | server.cpp:129-186 | a session begins in no room with nothing said, and ends with a line tagged `quit` or with the connection |
| Session.RefusalsAre | server.cpp:192-212 | every answer of a receiver's thread to a first request that is no valid join, word for word: all of them errors |
| Session.AnswersAre | server.cpp:50 | the answer to a login, the answer to a receiver's join, and the complaint about an empty round, word for word |
| Session.AsksGrow | server.cpp:174-180 | a sendall is to be broadcast exactly while the session is in a room, which is that of its last valid join with no later leave |
| ChatSteps.RoomSetStep | room.cpp:16-26 | a room's set gains or loses exactly the thread's own user, and only while that thread holds that room's lock |
| ChatSteps.CountsStep | message_queue.cpp:17-48 | one action moves semaphore and deque apart only by what its thread has begun: pushed and not posted, let through and not popped |
| ChatSteps.DequeStep | message_queue.cpp:17-48 | a deque changes only by a push at the end by a broadcasting thread and a pop at the front by its owner |
| ChatSteps.HeapStep | room.cpp:34-37 | a Message is allocated into a hand, goes from there to a queue, from the queue to its receiver's hand, and is deleted there; no other cell changes |
| ChatSteps.LogStep | room.cpp:28-39 | the log grows exactly when a broadcast gets its room's lock, by the members at that moment |
| ChatSteps.OutcomesDecide | server.cpp:219-239 | a welcome that cannot be sent ends the thread; a wait that succeeds goes on to the deque, one that fails is answered with a complaint; a delivery that is sent goes on, one that fails leads out of the room |
| ChatSessions.DecisionFollowsFold | server.cpp:133-183 | what a sender's thread decides on a request, once carried out, is where the fold goes: same room, same replies, same end |
| ChatLedger.FilterIsExact | room.cpp:31-34 | the log assigns a broadcast to a user exactly when the user was a member and has another name than the sender |
| ChatRuns.InvKept | server.cpp:129-243 | the whole invariant survives every action of every thread |
| ChatTheorems.SemaphoreAgreement | message_queue.cpp:17-48 | in every reachable state deque length = semaphore + pushed and not posted + let through and not popped, and everything ever pushed = posts + not posted |
| ChatTheorems.PopFindsMessage | message_queue.cpp:42-47 | front() and pop_front() never run on an empty deque |
| ChatTheorems.OnePlaceOnly | room.cpp:31-37 | an allocated Message is deleted or in exactly one of: one broadcaster's hand, one position of one deque, one receiver's hand |
| ChatTheorems.DeletedOnce | server.cpp:229-235 | only a live Message is sent and deleted, and a deleted one stays deleted |
| ChatTheorems.NothingLost | server.cpp:219-239 | everything ever enqueued for a user = sent to it ++ at most one dropped by a failed send ++ at most one in hand ++ its deque, in order; a timed-out dequeue loses nothing |
| ChatTheorems.SenderQueueNeverDrains | server.cpp:155 | a sender's user is a member like any other and nobody takes from its queue: the deque is everything ever pushed |
| ChatTheorems.OneRoomAtMost | server.cpp:146-167 | a user is in the set of at most one room, which is its thread's `room`; after the thread has ended it is in none |
| ChatTheorems.SetsFollowSessions | server.cpp:146-167 | a receiver that has been told it has joined, and has lost nothing, is in the set of the room it asked for and of no other; a sender between two turns is in that of its session's room, or in none |
| ChatTheorems.ComplaintsUnreachable | room.cpp:16-26 | the branches "already has user" and "does not have user" are never taken |
| ChatTheorems.SenderSessionIsFold | server.cpp:129-186 | under every interleaving a sender's room and end are those of the fold of its own requests, and what it has been sent is the welcome and the fold's replies; it ends only after a quit or the end of the connection |
| ChatTheorems.ReceiverSession | server.cpp:189-243 | under every interleaving a receiver's session is decided by its one request: a refusal, no room and nothing ever enqueued; or the room of that very name, a welcome, then the Messages it took from its queue and exactly one complaint for each empty round |
| ChatTheorems.QueueIsFilteredLog | room.cpp:28-39 | what a user was ever given, plus the one broadcast in progress that it is still owed, is the broadcast log filtered to where it was a member under another name, in order, each entry once, with the logged contents |
| ChatTheorems.GivenExactly | room.cpp:31-37 | a user has been given a broadcast, or is about to be, exactly when it was a member as the broadcast got its room and has another name than the sender; and it is given `delivery` with room, sender and text in this order |
| ChatTheorems.ClientHearsLog | server.cpp:219-235 | the deliveries in the stream sent to a client are, in order and without gaps, the beginning of what the log assigns to its user |
| ChatTheorems.LogIsWhatWasAsked | server.cpp:129-180 | the log entries of one sender, followed by what it is about to say, are the sendalls that its client sent while in a room: same rooms, same texts, same order, each once |
| ChatTheorems.SameOrder | room.cpp:28-39 | any two users that got the same two broadcasts got them in the same order |
| ChatTheorems.ReceiverHearsOneRoom | server.cpp:214-221 | everything a receiver is ever given carries the name of the one room it joined |
| ChatTheorems.AcknowledgedMeansDelivered | server.cpp:177-178 | when a sender is about to be told "message was sent to all users", every member with another name has been given exactly one copy, and it is posted |
| ChatHistory.AckedBroadcastReached | server.cpp:174-180 | from the moment a broadcast gets its room to its acknowledgement: whoever was a member under another name has exactly one posted copy of that text |
| ChatHistory.JoinedBeforeSendallReached | server.cpp:174-180 | the same from the requests: whoever has joined the room before the sender hears the sendall, under another name, and is not removed before the answer, has exactly one posted copy of that text when the sender is answered |
| ChatHistory.QuietAfterTheEnd | server.cpp:242 | after a user's thread has ended its queue never grows again |
| ChatHistory.BindingsStay | server.cpp:118-127 | a name, once bound to a room, keeps that room in every later state |
| ChatHistory.OneRoomPerName | server.cpp:118-127 | two calls with one name, at any two moments by any two threads, return the same room, the only room of that name; the name is valid |
| ChatProgress.GuardsNeverBite | message_queue.cpp:42-47 | in every reachable state the code can go on exactly when its mutex or semaphore lets it: no null room, no dangling user or message, no empty deque stands in its way |
| ChatProgress.WorldIsFree | message_queue.cpp:33-41 | nothing that the outside world can do is excluded: any request that receive can return, either outcome of a send, a time-out at any time, success of the wait exactly when the semaphore is positive, any member next |
| ChatProgress.LocksAreSections | guard.h:8-14 | each mutex is held by exactly the thread inside its critical section |
| ChatProgress.LockOrder | guard.h:6-20 | a thread waits for a room, the server or the semaphore holding nothing, waits for a queue holding at most its room, and never holds the server's mutex together with another |
| ChatProgress.NoDeadlock | room.cpp:28-39 | whoever waits for a mutex waits for a thread that can step, or for a broadcaster that waits only for a queue whose holder can step |
| ChatProgress.SomebodyCanStep | server.cpp:118-127 | while one thread has not ended, some thread can step |
| ChatProgress.WorkShrinks | room.cpp:31-38 | every step inside a critical section lowers a measure made of the program point and the members still to be visited |
| ChatProgress.CriticalSectionsEnd | room.cpp:28-39 | a stretch inside critical sections lasts a number of the holder's own steps bounded when it begins, however the others are scheduled |
| ChatRelease.SomeContinuationFrees | room.cpp:28-39 | from every reachable state in which a thread waits for a mutex, some continuation frees it: steps of its holder and of whoever that waits for alone, at most three for each step the holder has left, and two more |
| ChatRelease.MeasureDrops | room.cpp:28-39 | each such step is enabled and lowers the measure that gives this bound |
| Refinement.StepRefines | server.cpp:129-243 | every action of every thread is an event that the atomic chat allows, with exactly its effect on what each person has asked, been told, said, lost, where it sits and what it can still expect; the broadcast happens where its lock is acquired |
| Refinement.RunRefines | server.cpp:129-243 | every run of the server is a history of the atomic chat, from the empty one on, with the same streams sent to the clients |
| Refinement.AbsIs | server.cpp:129-243 | the atomic world of a reachable state has the same users with the names, requests and streams of their threads; each sits in the room in whose set it is; one for whom nothing is under way has its deque for an inbox |
| Refinement.EventIs | server.cpp:129-243 | which event each action is: sitting down and getting up are the updates of the set, a broadcast is the acquisition of its room, showing and losing are the two outcomes of a delivery |
| Refinement.StepsAreAllowed | server.cpp:129-180 | told of the threads: the answer that ends a turn continues the prescribed stream, whoever enters a set was last asked to join that room, and a broadcast is what its sender was asked to say next |
| Refinement.ActorMay | server.cpp:129-243 | a sender is answered only as its session prescribes and broadcasts only what it asked to say next, in its room; a receiver is told that it has joined only while it sits in the room it asked for; nobody sits down or gets up unasked |
| Abstraction.InboxStep | room.cpp:28-39 | what a user can still expect grows when a broadcast to it gets its room, shrinks when its first message is sent or lost, and is otherwise the same through push, post, wait and pop |
| ServerObjects.MessageQueue.Enqueue | message_queue.cpp:17-22 | the message comes last, and semaphore and deque agree again |
| ServerObjects.MessageQueue.Dequeue | message_queue.cpp:24-49 | the first message is taken, or none and nothing changes, exactly when the clock fails or the deque is empty |
| ServerObjects.Room.AddMember | room.cpp:16-20 | the set has gained exactly the user and the lock is free again |
| ServerObjects.Room.RemoveMember | room.cpp:22-26 | the set has lost exactly the user and the lock is free again |
| ServerObjects.Room.BroadcastMessage | room.cpp:28-39 | every member whose name differs from the sender's has one more message at the end, `delivery` with room, sender and text; nobody else has; members are unchanged |
| ServerObjects.Server.FindOrCreateRoom | server.cpp:118-127 | an existing room is returned and nothing changes; otherwise a new empty room of that name is bound and every other binding stays |
| ServerObjects.Server.TakeTurn | server.cpp:133-183 | one turn of the loop is one step of the fold; only the caller's own user changes rooms; a sendall in a room puts the message into the queue of every member with another name, and nothing else changes a queue |
| ServerObjects.Server.ChatWithSender | server.cpp:129-186 | the loop answers like the fold over what it heard, which is everything up to the first quit or the end; afterwards the user is in no room, and everybody who sat in a room has got exactly the session's gifts |
| ServerObjects.GiftsGrow | server.cpp:174-180 | a sendall of a session gives one message to whoever sits in the session's room under another name, and nothing to anyone else |
| ServerObjects.ConsumedIs | server.cpp:133-143 | what the loop hears is everything up to the first request that ends it, or everything and then the end of the connection |
| ServerObjects.Server.ChatWithReceiver | server.cpp:189-243 | anything but a valid join earns one refusal and changes no queue; otherwise the thread says that the user has joined, serves its queue round by round, complains once for each empty round, and leaves the room exactly when a message was lost |
| ServerObjects.DrainServes | server.cpp:219-239 | the rounds one by one: a round whose clock works and that finds a message takes the first one left, delivers it if the send succeeds, and otherwise loses it and ends the loop; every other round is empty, and all of them are counted |
| ServerObjects.ServedMeans | server.cpp:229-239 | a message is lost exactly when some round finds one and cannot send it; if every working round can send, the first messages of the queue are delivered, one for each such round |
| ServerObjects.DrainConserves | server.cpp:219-239 | a queue = what the delivery loop sent ++ at most one dropped ++ what is left |
| ServerObjects.DeliveryLoop | server.cpp:219-239 | the loop does exactly that: it fails exactly when some round finds a message and cannot send it, and otherwise delivers what it finds, in order |
| ServerObjects.Server.Worker | server.cpp:28-59 | without a login there is no user; without a login or a welcome no room, no set of members and no queue changes; after `slogin` the replies are the welcome and those of the sender's session, whose sendalls reach whoever sits in its rooms; after `rlogin` they are the welcome and a receiver's, and nobody else's queue changes |
| Screen.ShowNext | receiver.cpp:65-79 | one round of the receiver: receive into the one message variable, split, and show sender and text exactly when there are three pieces; a failed receive changes the tag alone |
| Screen.ShowAll | receiver.cpp:63-79 | what n rounds show depends on the stream alone, not on how it was cut into chunks |
| Screen.RunReceiver | receiver.cpp:42-79 | the same for the whole program: it needs an `ok` for its login and an `ok` for its join, exits with 1 or 2 otherwise, and then loops |
| Screen.ProgramIs | receiver.cpp:42-79 | it exits with 1 unless the first line is a message tagged `ok`, with 2 unless the second is, and otherwise shows what comes after |
| Screen.ShownIs | receiver.cpp:74-77 | of three pieces the second is shown as the sender and the third as the text |
| Screen.ConversationIsShown | receiver.cpp:63-79 | a conversation of sendable messages is shown message by message, whatever was received before and whatever follows |
| Screen.LinesAreShown | receiver.cpp:63-79 | lines of any length are read in pieces of 255 bytes, the last piece of each line being what is left of it, and shown piece by piece |
| EndToEnd.DeliveryArrives | room.cpp:35 | a delivery of a valid room, clean name and clean text is sent and received whole exactly when its line fits into 255 bytes |
| EndToEnd.DeliverySplits | message.cpp:39-61 | of a delivery within the length limit the receiver recovers [room, sender, text] exactly when neither name nor text has a colon |
| EndToEnd.ColonIsNotShown | message.cpp:39-44 | a text with a colon that the server accepts and whose delivery fits, and that no client shows |
| EndToEnd.LongDeliveryIsCut | connection.cpp:53-87 | a delivery whose line does not fit is received with its data cut after 246 bytes and trimmed; the rest, with its newline, is left as the next line |
| EndToEnd.ShownTwice | receiver.cpp:65-79 | every delivery of exactly 256 bytes is shown twice: the newline alone is left, is found invalid, and the old data are shown again |
| EndToEnd.TooLongIsAccepted | server.cpp:174-180 | such texts exist, and the server accepts them |
| EndToEnd.TextReachesScreen | server.cpp:219-235 | whatever a user was ever given, in any reachable state, was asked for by its logged-in sender, and if its line fits it is received unchanged and split into exactly its parts when there is no colon |
| Client.WelcomeArrives | server.cpp:50 | the answer to a login is received whole, and nothing else with it, exactly when the name has at most 242 bytes |
| Client.LongNameDecides | receiver.cpp:42-59 | the client of a longer name takes the first 255 bytes for the answer to its login and the rest of that line for the answer to its join: it enters its loop exactly when that rest reads as an `ok`, and exits with 2 otherwise |
| Client.LongNameIsAccepted | server.cpp:42-50 | the server accepts such a name, of 243 bytes, and its client exits with 2 |
| Client.ClientEnters | receiver.cpp:42-59 | in any reachable state in which a receiver has been told that it has joined: if its name has no colon, its program gets through to the loop exactly when the name has at most 242 bytes |
| Client.ClientShowsLog | receiver.cpp:42-79 | if the name has at most 242 bytes and every delivery sent to the client fits on a line, the program that reads everything its thread has sent, from the answer to the login on, shows exactly sender and text of the first broadcasts that the log assigns to it, in order, without those that have a colon |
| Client.TellingsPlain | receiver.cpp:74-77 | without colons that is sender and text of each of these broadcasts, one by one |
| Client.ClientShowsPieces | receiver.cpp:42-79 | for any name and deliveries of any length: what the program does with everything that its thread has sent is what it does with the lines of that stream cut into pieces of at most 255 bytes |
| Replies.JoinedReplyArrives | server.cpp:156 | the answer to a join arrives as one line exactly when the room name has at most 231 bytes |
| Replies.LeftReplyArrives | server.cpp:164 | the answer to a leave does exactly when user and room name have at most 232 bytes together |
| Replies.FixedReplyArrives | server.cpp:134-182 | the replies with a fixed text always do |
| Replies.SenderHearsReplies | server.cpp:129-186 | in any reachable state a sender's client that receives once for each reply hears every reply in order and is left with nothing exactly when every reply fits on its line |
| Replies.OneReplyBehind | server.cpp:146-157 | with a room name of 232 bytes, which the server accepts, what the client receives after the answer to its join is not the next reply |
| EndToEnd.ServerHearsTrimmed | server.cpp:177 | a sendall is heard by the server as its text trimmed on the right, and such a text is lost by no later trimming |
| Sio.SioReverse | csapp.c:232-241 | the text before the terminator is reversed in place and nothing else changes |
| Sio.ReversedAt | csapp.c:232-241 | position k of the reversal holds character n - 1 - k |
| Sio.StrLen | csapp.c:264-271 | the length is the position of the first NUL |
| Sio.DigitsDenote | csapp.c:252-254 | the digits of the loop, turned round, are a numeral without leading zeros whose value is the number, for every base from 2 to 36 |
| Sio.DigitsAreFew | csapp.c:252-254 | a number below 2 to the k has at most k digits (one, if k is 0) |
| Sio.DigitCodes | csapp.c:253 | the characters for the digits, by number: 48 to 57, then 97 to 122 |
| Sio.PrintsExamples | csapp.c:244-261 | most significant digit first, the sign before it, on four numbers |
| Sio.SioLtoa | csapp.c:244-261 | for every long but the smallest and every base from 2 to 36: the result reads back as the number, and at most 65 bytes are written, sign and NUL included |
| Sio.SioPutl | csapp.c:282-288 | the 128-byte buffer is enough, and what is written out reads back as the number |

## Left out

- Sockets, `accept`, name resolution, thread creation and the constructors of
  `Server` (server.cpp:65-116): foreign calls. A client arrives as an action that
  makes a thread with a fresh `User`.
- In the transition system the login line is part of that arrival; the code of
  `worker` before it is modelled in `ServerObjects.Server.Worker`.
- The clock: `sem_timedwait` fails at any time and succeeds at any time while the
  count is positive; a failing `clock_gettime` is one more way to fail.
- Messages to stderr, `sender.cpp`, and of `receiver.cpp` all but the loop body.
- The capitalised wrappers and the process, signal, memory and stdio wrappers of
  `csapp.c`; `rio_readn`, which nothing here uses.
- Characters are bytes, and letters and digits are those of ASCII: no locale.
- A reply of a chat loop whose send fails counts as sent in the transition system,
  like one that succeeds: the code does not look. `ClientShowsLog` is about a client
  whose connection has not failed.
- ClientShowsLog: assumes a name of at most 242 bytes and deliveries that fit on a
  line, because `LongNameIsAccepted` and `ShownTwice` refute it otherwise;
  `ClientShowsPieces` is the statement without these assumptions.
- After a hard read error the bytes already copied by that call are not accounted
  for; the stream properties are stated for reads that do not end in one.
- A `write()` that returns 0 is not modelled apart from an interrupt or an error:
  the code would go by a stale `errno`.
- Buffer sizes above the largest `int`, which `rio_readlineb` and `rio_read` would
  convert (csapp.c:830, csapp.c:882).
- SioLtoa: does not take the smallest long, whose negation is undefined in C.
- `User` and `Room` objects are never freed by the code, and the model does not
  say that they are.
- A run is finite and scheduling is arbitrary: no fairness is assumed, and nothing
  is said about how long a thread waits for a mutex.
- The methods of `ServerObjects` run one thread at a time: a mutex is a field that
  must be free when it is taken. Interleaving is the subject of the `Chat` modules.
- DeliveryLoop: follows the endless loop for a finite number of rounds.
- ChatWithReceiver: follows its delivery loop for a finite number of rounds.
- The set of a room is walked in any order, not by address.
- `ConnInfo` and the closing of connections when a thread ends.
