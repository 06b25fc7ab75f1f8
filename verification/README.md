# A verified model of PalCrosschat

PalCrosschat relays in-game chat between Palworld servers and Discord. Each server captures chat lines in a hook,
puts them through filters, writes them to one shared MySQL table and shows the rows of all others to its own players.
This project models that path in Dafny, from the chat box of one server to the screens of another, and proves what the
parts promise and what they give together.

`dafny verify dfyconfig.toml` checks everything.

## How the model is built

A `string` is a `std::string`: one `char` for one byte. Code that changes state is a class or a method with a loop, as
in the original; next to it stands a specification (a function, or a transition system), and the laws are proved about
the specification.

* `Text`, `ChatFormat`, `ChatTemplates`: search and replace, blank collapsing, the chat line template.
* `Utf8`, `Sanitize`: stripping, trimming and truncating text.
* `Guids`: the GUID printer and its parser.
* `Queues`: the bounded drop-oldest queue, with everything that went through it.
* `Relay`, `RelaySafety`: any number of servers around one table, as a transition system whose steps interleave
  freely; the invariants of a server and the theorems about whole runs.
* `Replays`: one server's share of such a run. Code that takes part in the protocol keeps this record.
* `DbWorker`: the worker's own code, statement by statement, with the game thread and other servers in between.
* `GameSide`: the game thread's ends of the two queues, with the worker and other servers in between.
* `Linking`: Discord linking by several servers over one players table, and the code of one job.
* `WordFilter`: patterns, lazily expiring mutes and throttled reminders.
* `Audience`: the roster, its weak references and its two cached lists.
* `Delivery`, `Injection`, `ChatLines`, `ChatInject`: who gets which line; what a tick and a run of ticks may do; what
  the lines say; the injecting side of the game thread with its circuit breaker.
* `Relaying`, `ChatCapture`: the lines that passed the gates and wait for a name; the chat hook with its gates.
* `GameThread`: joins, chat lines and frames in any order, on the code of all these, and what holds of every such run.
* `EndToEnd`: theorems about all servers, and the runs in which a row is shown again and again.

## What is assumed

* Ids of the message table increase and become visible in id order; no row is deleted; an INSERT that fails did not
  commit; fetched columns fit their buffers. Servers in the system have different origins.
* A step under a mutex is atomic. Between any two database statements other servers, the game thread and the bot may
  do anything they can do, and so may the worker and the others before each access of the game thread to a queue. A
  cursor write that fails may have been committed. Whether a statement or an engine call succeeds, fails or faults is left open.
* The clock does not go back and never reads zero. One hook call, and one tick, reads it once.
* Weak references: a set of live objects is given to every call that looks; an identity is never reused. The player
  state that the join hook runs on is alive.
* A regular expression is an arbitrary predicate on pattern and text; a search that throws counts as no match.
* The configured batch size and the queue sizes are at least 1. The stop token is a countdown of checks, so that the
  worker's thread ends.
* `NormalizePlatformUserId` is an arbitrary function; so are the names and identities the engine resolves.
* Codes for Discord linking are not empty, issued once and never reissued; codes and account ids are compared as bytes.

## Model

| member | source | states |
|---|---|---|
| RelaySafety.PushedIdsIncrease | src/DbWorker.cpp:464-603 | over any run of any number of servers, the ids a server pushes to its inbound queue strictly increase and none is a row it inserted, although the push precedes the cursor write and any statement may lose the connection |
| RelaySafety.PushedExactlyInWindows | src/DbWorker.cpp:350-403 | over any run, a row of another origin was pushed exactly if its id lies in one of the id windows a connection covered; rows passed over by a reconnect are those between windows |
| RelaySafety.PagedIsUnpaged | src/DbWorker.cpp:464-603 | between a cursor start and the next failure, the rows pushed by all polls are what one unpaged query from that start to the cursor gives: in id order, without gap, for every batch size and any concurrent inserts |
| RelaySafety.ShownAtMostOnce | src/ChatInject.cpp:987-1016 | over any run, a row whose line was never split between Xbox players and others is broadcast at most once on each server |
| RelaySafety.InboundConserved | src/Queues.h:67-95 | over any run, the rows polled are those queued, dropped as oldest, in the game thread's hand and finished, as multisets; the queue never exceeds its maximum, and no more were dropped than were pushed beyond it, so none while 500 rows or fewer were |
| RelaySafety.DrawnInOrder | src/ChatInject.cpp:1000-1015 | on runs in which no row was put back, the rows a server draws to show are rows it polled, in the order of their ids, each once |
| RelaySafety.OutboundConserved | src/DbWorker.cpp:759-787 | over any run, the messages typed are those inserted, queued, in the worker's hand and dropped as oldest, as multisets; the queue is the push history, push-backs included, from the number of pops and drops on, never exceeds its maximum, and drops no more than was pushed beyond it |
| RelaySafety.InsertedInTypingOrder | src/DbWorker.cpp:422-462 | on runs in which no INSERT of a server failed, its rows are in the table in the order they were typed |
| RelaySafety.InsertedWasTyped | src/DbWorker.cpp:422-462 | every row a server inserts carries its own origin and a message its game thread handed over |
| Queues.PushConsistent | src/Queues.h:67-83 | a push keeps the queue equal to the push history from pops plus drops on, keeps the multiset balance and pop order, and never exceeds the maximum; it drops the oldest element exactly if the queue is full |
| Queues.PopConsistent | src/Queues.h:85-95 | so does a pop, which takes the oldest element |
| Queues.BoundedQueue.Push | src/Queues.h:67-83 | the new element is the last of the queue; a full queue loses its oldest element, and the drop is counted; any other queue loses none |
| Queues.BoundedQueue.TryPop | src/Queues.h:85-95 | the queue object gives its oldest element, or none when empty |
| Replays.ReachedInAProtocolRun | src/DbWorker.cpp:268-817 | every state that one server's own steps lead to from its start, with the rows of others in between, is the end of a run of the relay protocol from a start of the protocol |
| DbWorker.Worker.InitCursor | src/DbWorker.cpp:350-403 | a successful start sets the cursor to the largest id of the table as it was at one moment of the call, 0 if it was empty, and stores it in the cursor table; a failure keeps the cursor, may have stored that id, and leaves a state from which the connection is dropped |
| DbWorker.Worker.InsertOutbound | src/DbWorker.cpp:422-462 | an INSERT appends one row of this origin with the message in hand as the last of the table, or fails and appends none |
| DbWorker.Worker.DrainOutbound | src/DbWorker.cpp:759-776 | the messages taken become rows in the order they were taken, until the queue is empty or the worker is to stop; a message whose INSERT failed is the last of the queue again, and ends the drain |
| DbWorker.Worker.PollInbound | src/DbWorker.cpp:464-603 | a successful poll pushes the rows of others between the old cursor and the new one as the table was read, at most the batch size of them, and fewer only if no row of others is beyond; the cursor, here and in the cursor table, is on the last of them; a failed one has pushed a prefix of such a page |
| DbWorker.BatchIsPage | src/DbWorker.cpp:119-135 | what the query answers is such a page: in id order, all rows of others from the cursor to its last, no more than the limit, and fewer only if no row of others is beyond |
| DbWorker.PageMovesCursor | src/DbWorker.cpp:464-603 | whenever a visible row of another origin is beyond the cursor, a page is not empty and ends beyond the cursor; if it is not full, it reaches that row |
| DbWorker.Worker.ThreadMain | src/DbWorker.cpp:722-817 | the thread's loop with back-off and reconnects only moves through states of the relay protocol, and ends disconnected |
| DbWorker.Worker.RunsTheProtocol | src/DbWorker.cpp:268-817 | wherever the worker is, what it and its game thread have done is a run of the relay protocol from a start, so the run theorems hold of it |
| Linking.OneResultEach | src/DbWorker.cpp:605-718 | over any interleaving of several servers and the bot, the jobs a server answered, in order, and the one in its hand are the jobs it popped: exactly one result each |
| Linking.CodeLinksAtMostOnce | src/DbWorker.cpp:692-714 | over any interleaving, on all servers together, a code yields at most one success and is in no row afterwards |
| Linking.AccountsLinkedOnce | src/DbWorker.cpp:619-712 | with faithful conflict answers and no two servers between check and update for one account, no account is ever linked in two rows |
| Linking.CompletingKeepsUniqueIff | src/DbWorker.cpp:692-712 | the UPDATE keeps accounts unique exactly if no other row is linked to the account at that moment |
| Linking.InterleavingLinksTwice | src/DbWorker.cpp:619-712 | with two servers at one account at once, uniqueness fails although every conflict answer is true: a concrete run |
| Linking.MissedConflictLinksTwice | src/DbWorker.cpp:640-648 | with one server, uniqueness fails if the conflict query misses a linked row, which a fetch that reports anything but success does: a concrete run |
| Linking.LinkIsVisible | src/ChatCapture.cpp:228-241 | after a success the account is found by the conflict query, because the user id of a job is never empty |
| Linking.SplitPlatformUserId | src/ChatCapture.cpp:228-241 | the parts are not empty, the first has no underscore, and together with one underscore they are the id |
| Linking.SplitIsTheOnlyReading | src/ChatCapture.cpp:228-241 | every id that has such parts is split into them |
| Linking.LinkWorker.ProcessLinkJob | src/DbWorker.cpp:605-718 | one job, with others acting between its statements, ends with exactly one answer, the one returned, and nothing in hand; missing ids are answered exactly when the code or the account is empty |
| Linking.LinkWorker.CheckConflict | src/DbWorker.cpp:619-649 | "already linked" is only said when a linked row was there; otherwise the job goes on or ends with a database error |
| Linking.LinkWorker.LookUpCode | src/DbWorker.cpp:651-690 | the job goes on only if a row has the code; an invalid code is only said when none has |
| Linking.LinkWorker.Complete | src/DbWorker.cpp:692-714 | success is said exactly if a row had the code when the UPDATE ran, and then every row with the code has the account, the name and no code any more and all other rows are as they were; an invalid code leaves the table alone; when the database fails the UPDATE happened or not |
| WordFilter.MapIsHistory | src/WordFilter.cpp:55-75 | for every timely history of calls, the lazily expiring map says that a key is muted exactly when its last effective mute has not run out, and holds that mute's end and reason |
| WordFilter.RemindersAreFew | src/WordFilter.cpp:155-172 | one mute of m minutes grants fewer than 4 m reminders when they are asked for at 15 seconds or more, whatever else happens in between |
| WordFilter.GrantedIsHistory | src/WordFilter.cpp:155-172 | for every timely history of calls, the map grants a reminder exactly if the history does |
| WordFilter.Filter.IsMuted | src/WordFilter.cpp:77-82 | the object answers as the history of its calls says |
| WordFilter.Filter.MuteRemainingSeconds | src/WordFilter.cpp:84-96 | whole seconds left of the last mute, rounded down, exactly while it lasts |
| WordFilter.Filter.MuteReason | src/WordFilter.cpp:98-108 | the reason of the last mute while it lasts, else nothing |
| WordFilter.Filter.Mute | src/WordFilter.cpp:138-153 | an effective mute silences its key exactly for its minutes from now on and replaces an older one; an empty key or no minutes change nothing, and no other key is touched |
| WordFilter.Filter.TryConsumeMuteNotify | src/WordFilter.cpp:155-172 | a reminder is granted exactly to a muted key that was last told, by its last effective mute or by a reminder granted since, the interval ago, and then it was told now |
| WordFilter.Filter.FindMatch | src/WordFilter.cpp:110-136 | the first pattern, in configured order, that matches a non-empty message; none exactly if none matches |
| WordFilter.CompiledAreUsable | src/WordFilter.cpp:13-38 | the usable patterns, those that are valid and not empty, are kept in their order with their message and minutes and no others, a negative mute counting as none |
| Audience.ListsPartition | src/Audience.cpp:292-310 | the two lists together have no duplicate, hold exactly the players on the roster, and their lengths add up to its size |
| Audience.FormatIsAKey | src/Audience.cpp:33-46 | printed GUIDs are injective, so the string-keyed roster is a map keyed by GUID |
| Audience.Tracker.RebuildLists | src/Audience.cpp:292-310 | whatever order the map is walked in, each list has each player of its kind once and nobody else; Xbox players are those whose platform begins with "gdk_" |
| Audience.Tracker.Upsert | src/Audience.cpp:443-482 | one player is added or refreshed: an empty normalized platform keeps the old one, and so does a weak reference that is not given; everybody else stays; a nil uid changes nothing |
| Audience.Tracker.Forget | src/Audience.cpp:489-509 | exactly that player is gone |
| Audience.Tracker.ForgetMany | src/Audience.cpp:511-544 | exactly those players are gone |
| Audience.Tracker.Snapshot | src/Audience.cpp:546-579 | exactly the players whose player state is gone are removed, and the copies are the two lists of the rest |
| Audience.Tracker.Tick | src/Audience.cpp:393-441 | every join that is ready is on the roster and every other one of a player who is still there waits one tick longer, or is given up at its end; leavers are off the roster |
| Audience.Tracker.EnqueueJoin | src/Audience.cpp:194-218 | a join is queued once for each player state |
| Audience.Tracker.TryBootstrapOnce | src/Audience.cpp:312-378 | every player found whose state can be read is on the roster after the first time, and players are never searched for again |
| Audience.JoinsAtFirstReadableTick | src/Audience.cpp:242-290 | a player who stays joins at the first tick from the 30th on at which the player state can be read; if there is none up to the 180th, the join is given up there |
| Delivery.DeliveryPartition | src/ChatInject.cpp:674-748 | if all calls go well, each non-Xbox player on the roster gets exactly the formatted line with nil uid, each Xbox player exactly the attributed line if the sender is on the roster and nothing otherwise, and nobody else anything, exactly when the lists that are addressed have fewer than 512 players |
| Delivery.RetryRepeatsIff | src/ChatInject.cpp:674-748 | whether a message can be shown and tried again all the same is known before the first call: exactly if Xbox players and others are online and the sender is on the roster |
| Injection.DeliveredIsDual | src/ChatInject.cpp:674-748 | a message leads to a call for the players not on Xbox, if there are any, and then to one for those on Xbox, if there are any and the sender is on the roster, each with its own line; either is made or not |
| ChatLines.RowIsShown | src/ChatInject.cpp:272-287 | with the default template, every formatted line for a row has the prefix of "pal-na", "pal-eu" or "discord", or none for any other origin, then the guild, if there is one, then the name, for prefixes, guilds and names without brackets or odd blanks (and no braces in the first two), and the cleaned text behind a space; a line under a uid has that of its sender, the bare name and the bare text; no line is shown for a row without text or one that a pattern matches |
| ChatLines.ActionIsShown | src/ChatInject.cpp:602-672 | a local line is such a line with the prefix of this server; a notice and a log line have their cleaned text; a private line is from "PalCrosschat" to its receiver alone |
| Injection.InjectionIsSafe | src/ChatInject.cpp:403-508 | over any run of ticks, once the circuit is open nothing more is called, every call comes at least 15 s after the first sight of the game state, and at most one broadcast or notice faults, as the last call of the run |
| Injection.TicksAreCapped | src/ChatInject.cpp:927-985 | over any run of ticks, a tick consumes nothing before 15 s after the first sight or with an open circuit, one action and one row at most before 60 s, and then the configured number of each, at least one |
| Injection.ShownCounts | src/ChatInject.cpp:987-1016 | the rows the protocol counts as shown are those that calls were made for, each as often as calls were made |
| ChatInject.Injector.ResolveGameState | src/ChatInject.cpp:294-334 | only the third fault of the search, or a later one, opens the circuit, and then no game state is given |
| ChatInject.Injector.BroadcastDisplay | src/ChatInject.cpp:417-508 | `false` is answered only before the call; an open circuit drops; a fault opens the circuit and takes exactly the receivers off the roster |
| ChatInject.Injector.BroadcastDual | src/ChatInject.cpp:674-748 | the message goes out as two calls at most, in their order and to the roster seen now, leavers removed, each as far as the engine was ready; the answer is false exactly if one was not ready |
| ChatInject.Injector.BroadcastOne | src/ChatInject.cpp:871-925 | rows that are empty after cleaning or match a pattern are consumed unseen; all others are delivered to the roster of that moment, leavers out, as lines with the tag of their origin, the name, the guild and the cleaned text in their places; whether the row is to be tried again is whether a call was not ready |
| ChatInject.Injector.BroadcastLocalTagged | src/ChatInject.cpp:631-672 | a local line with an empty text is not shown; all others are delivered to the roster of that moment with the tag of this server, and the name, the guild and the cleaned text in their places |
| ChatInject.Injector.ShowServerNotice | src/ChatInject.cpp:768-811 | at most one notice with the cleaned text; none only with an open circuit, if no text is left or if the engine is not ready; `false` only if none was made |
| ChatInject.Injector.SendScreenLog | src/ChatInject.cpp:813-869 | at most one private log line, none only with an open circuit, if no text is left or without the function; true exactly for one without fault; its faults do not open the circuit |
| ChatInject.Injector.CanInjectNow | src/ChatInject.cpp:927-985 | calls are allowed only with a closed circuit and 15 s after the first sight; one action and one row a tick before 60 s, afterwards exactly the configured number, at least one; they are refused only with an open circuit, without the game state or before those 15 s |
| ChatInject.Injector.Perform | src/ChatInject.cpp:602-627 | the calls made for an action are those it asks for: the tagged line to the players on the roster at that moment, the notice to all, the log to its controller, the private line to its receiver alone; a call is left out only if no text is left, the controller is gone, the engine is not ready or the circuit is open |
| ChatInject.Injector.FlushDeferred | src/ChatInject.cpp:587-629 | the oldest actions up to the limit leave the deferred queue in order, whether they could be performed or not; all calls made are those these actions ask for, to the roster as the action before left it |
| ChatInject.Injector.Drain | src/ChatInject.cpp:987-1016 | a tick is a step of `Injection.Ticks`; every call it makes belongs to one of the actions or rows it took, in their order, with its text and to the players on the roster at that moment; a tick that may call takes its full number of actions, and of rows, unless there are no more or one is to be tried again; what the protocol sees of the inbound queue is what was drawn and called |
| ChatInject.Injector.EnqueueLocalTagged | src/ChatInject.cpp:510-530 | the action is the last of the deferred ones, the oldest going exactly when there are 64 |
| ChatInject.Injector.EnqueuePrivateChat | src/ChatInject.cpp:566-585 | so is a private line, unless it has no receiver or no text |
| GameSide.Ends.Type | src/ChatCapture.cpp:770-817 | a line handed over is the step `Type` of the relay protocol, after anything the worker and others may have done |
| GameSide.Ends.Draw | src/ChatInject.cpp:1000-1006 | so is a row popped the step `Draw`; none is popped only from an empty queue |
| GameSide.Ends.Answer | src/ChatInject.cpp:1008-1015 | and a row shown, with the calls made for it, the step `Display`; a row to be tried again goes back to the tail |
| Relaying.TypingOrder | src/ChatCapture.cpp:770-817 | over any run of lines and frames, two lines of one player that were both typed with a readable name, or both without, go out in typing order, although some go at once and some wait; every line heard went out, waits or was dropped as oldest, just once, and no more were dropped than were heard beyond 64 |
| Relaying.LocalLinesInTypingOrder | src/ChatCapture.cpp:770-817 | over any run, local lines enter the deferred queue in typing order too, player by player, and each carries the text, guild, category and uid of its line under the name its message went out with |
| Relaying.PassesIff | src/ChatCapture.cpp:1110-1144 | a line passes a waiting line of its own player exactly if its name is readable: at every hook entry, a player with a waiting line has no usable cached name |
| Relaying.WaitingLinesGoOut | src/ChatCapture.cpp:770-817 | in a frame the waiting lines go out oldest first, each with its own text, guild and sender id: under the name that can be resolved, else, for the first line of a player, under the cached one, and as "Unknown" only if there is neither |
| Relaying.LoopPrefixesCatch | src/ChatCapture.cpp:1070-1090 | the list of prefixes catches exactly the texts that begin with one of the three configured prefixes, or with one in brackets that has none of its own |
| Relaying.OrderIsLostWhenTheNameAppears | src/ChatCapture.cpp:898-909 | a player whose name becomes readable between two lines has them swapped: a concrete run |
| Relaying.EmittedPassesTheGates | src/ChatCapture.cpp:848-1145 | over any run, the text of every message handed to the outbound queue, at once or after waiting, passes the full gate: clean and of legal length, no command, no prefix of ours, no pattern; it is the text of a line heard in the Global channel from a player not muted then, with the guild and sender id of that line, its name if that was readable, and a name of 1 to 64 bytes |
| ChatCapture.TryParseSetDiscord | src/ChatCapture.cpp:192-226 | a text is a link command exactly if a code follows the command word; the code is that stretch without white space |
| ChatCapture.OneCode | src/ChatCapture.cpp:192-226 | a text has at most one code |
| ChatCapture.CodeIsClean | src/ChatCapture.cpp:866-880 | a code that waits is the code in the text, cut to 16 bytes, and cleaning it again does not change it |
| ChatCapture.CodesBecomeJobs | src/ChatCapture.cpp:819-846 | the jobs queued in a frame ask for the codes that waited, each under the name of its player; a player who is there and whose platform id has both parts gets a job for the first command at the latest |
| ChatCapture.ReplacePlaceholder | src/ChatCapture.cpp:284-296 | every leftmost occurrence of the placeholder is replaced and no inserted text is searched again |
| ChatCapture.DurationTells | src/ChatCapture.cpp:265-282 | a duration reads as its number of minutes and seconds, zero parts left out |
| ChatCapture.BannerSays | src/ChatCapture.cpp:980-1000 | for a notice with each placeholder once, a held-back player reads the time of the mute and the message of the pattern in their places, and the message again on a line of its own |
| ChatCapture.Capture.HandleHook | src/ChatCapture.cpp:848-1145 | a line is relayed exactly if its cleaned text passes the gate, the category is Global and the player is not muted, by id or else by name; then one message with its cleaned text and guild is handed over under the name that can be read, else the cached one, with its local line, or it waits as the last line; otherwise neither the waiting lines nor the outbound queue change and at most a banner for its player is deferred; a link command waits with its code; stopped lines are cleared, commands parked, relayed lines cleared if they are shown again with a tag, and all others left alone; speakers are on the roster |
| ChatCapture.Capture.FilterGate | src/ChatCapture.cpp:935-1027 | with patterns configured, exactly the muted and the matching are stopped; a muted player is reminded, with the whole seconds left, exactly when a reminder is granted; a matching line is answered with the banner of the first pattern that matches and mutes its player for that pattern's minutes; a banner is a private line, if the uid is known, and a screen log |
| ChatCapture.Capture.FlushDeferred | src/ChatCapture.cpp:819-846 | after a frame no link command and no line waits; every line that waited was handed over, oldest first, with its own text and guild under the name that is known by then; the jobs queued ask for the codes that waited, under the names of their players; local lines enter the deferred queue in the same order |
| ChatCapture.Capture.ProcessSetDiscord | src/ChatCapture.cpp:650-727 | the name is learned and the platform id cached under the player's uid, the player is on the roster with it, and if the platform id, the cached one first, has both its parts, and only then, the player waits for an answer and one job is queued with the cleaned code, the player's name, that id and its parts |
| ChatCapture.Capture.DeliverLinkResult | src/ChatCapture.cpp:729-768 | a notice goes to the player who waits for its account, as a private line or, without a uid, as a screen log if the player is still there; that player waits no longer, and nobody else is told |
| ChatCapture.Capture.CachePlayerName | src/ChatCapture.cpp:640-648 | a name is kept under a uid unless one of them is empty or the name is "Unknown" |
| EndToEnd.NoSenderShownAtMostOnce | src/ChatInject.cpp:915-924 | over any run of all servers, a row without a sender id, as all from Discord, is broadcast at most once on each server, across failed polls, reconnects and any number of tries |
| EndToEnd.SplitRowIsShownAgain | src/ChatInject.cpp:730-747 | for a sender on the local roster, with Xbox players and others online, at-most-once fails, without any bound: for every n a run from an empty table in which the row is shown n times, with the outcomes of the calls of each attempt |
| GameThread.Game.Assemble | src/PalCrosschat.cpp:20-68 | the objects made for a server that starts satisfy what all of the code asks of them: nothing called, typed, heard or deferred yet, nobody on the roster or waiting to join, all queues empty, the patterns compiled |
| GameThread.Game.Hook | src/ChatCapture.cpp:848-1145 | a chat line reaches the waiting lines and the messages handed over exactly if it is relayed, and makes no call |
| GameThread.Game.Join | src/Audience.cpp:176-218 | a join is queued once for each player state, and nothing else changes |
| GameThread.Game.Update | src/PalCrosschat.cpp:117-147 | a frame first processes the link commands and sends the lines that wait, then takes the joins that are ready, delivers the link results and drains: its calls are made at its time for the actions and rows it took, to an audience that has those who just joined, and it is one more tick; from the 60th second on it takes the configured number of actions, and of rows, while there are any and none is to be tried again |
| GameThread.Game.Run | src/PalCrosschat.cpp:117-147 | any sequence of joins, chat lines and frames, with the worker and other servers acting before each queue access, keeps what the following theorems need |
| GameThread.Game.RunsTheProtocol | src/PalCrosschat.cpp:117-147 | over any such sequence, what went through the queues is a run of the relay protocol from a start; the messages it calls typed are those of the lines relayed, and the rows it calls shown are those called for |
| GameThread.Game.RowIsShownAtMostOnce | src/ChatInject.cpp:987-1016 | over any such sequence, at most one BroadcastChatMessage is called for a row, over all its tries, unless it was tried with its sender on the roster together with Xbox players and others |
| GameThread.Game.NoSenderIsShownAtMostOnce | src/ChatInject.cpp:915-924 | so at most one is ever called for a row without a sender id |
| GameThread.Game.RowReachesEachPlayerOnce | src/ChatInject.cpp:674-748 | over any such sequence, each player gets at most one line for a row, its sender local or not, if every try of it that made a call was done with it and every receiver array was allocated for fewer than 512 players |
| GameThread.Game.RowsAreTriedInOrder | src/ChatInject.cpp:1000-1015 | over any such sequence, as long as no row had to be tried again, rows are tried in the order of their ids, each once |
| GameThread.Game.CallsTell | src/ChatInject.cpp:631-925 | over any such sequence, every call shows the row or the action it was made for: prefix, guild, name and text in their places |
| GameThread.Game.InsertedRowPassedTheGates | src/ChatCapture.cpp:848-1145 | over any such sequence, every row this server inserts carries its origin, a text that passes the full gate, and the text, guild and sender id of one line heard from a player not muted then |
| GameThread.Game.LocalLinesKeepOrder | src/ChatCapture.cpp:770-817 | over any such sequence, the local lines ever deferred keep the typing order, player by player, and each carries the text and guild of its line under the name that went out |
| GameThread.Game.CallsAreSafe | src/ChatInject.cpp:403-508 | over any such sequence, all calls come from the deeds booked, none before the warm-up is over, and at most one broadcast or notice faults, as the last call |
| Guids.ParseOfFormat | src/ChatInject.cpp:45-91 | parsing a printed GUID gives it back, and nothing for the nil GUID |
| Guids.FormatIsInjective | src/ChatCapture.cpp:54-68 | different GUIDs are printed differently |
| Guids.FormatOfParse | src/ChatInject.cpp:45-91 | printing what was parsed from any accepted text gives the same 32 digits in upper case |
| Guids.TryParseGuid | src/ChatInject.cpp:45-91 | the loop over four words with 32-bit shifts accepts and computes what the digits say |
| Text.LeftmostCutsAreSplit | src/ChatFormat.cpp:9-21 | there is one way only to cut a text at leftmost occurrences, and it is the one replacement is defined by |
| Text.SplitCutsLeftmost | src/ChatFormat.cpp:9-21 | the pieces that are joined with the new text are cut at the leftmost occurrences and leave nothing to cut |
| ChatFormat.ReplaceAll | src/ChatFormat.cpp:9-21 | in-place replacement with a moving cursor is cutting at leftmost occurrences and joining with the new text; it ends even if the new text contains the old |
| ChatFormat.CollapseSpaces | src/ChatFormat.cpp:23-53 | the result is the blank-free words of the text with one space between them |
| ChatFormat.WordsOfSpaced | src/ChatFormat.cpp:23-53 | collapsing keeps the words: the words of words joined by single spaces are these words |
| ChatFormat.CleanupEmptyGuildBrackets | src/ChatFormat.cpp:55-62 | the result is the text without its "[]" pairs, each removed once, then without the "[ ]" left, blanks collapsed |
| ChatFormat.PassesAreTwoDeletions | src/ChatFormat.cpp:55-62 | of the four passes, the two that look at a blank beside the pair never change the result |
| ChatFormat.CleanedIsTidy | src/ChatFormat.cpp:55-62 | a cleaned text has no blank at its ends, no two blanks side by side and no tab |
| ChatFormat.BracketsSurviveIff | src/ChatFormat.cpp:55-62 | "[]" is left in the result exactly if, with the pairs gone, an opening bracket is followed by a closing one with nothing but "[ ]" between, as in "[[]]" |
| ChatFormat.MessageBehindColon | src/ChatFormat.cpp:96-124 | the message stands behind a space exactly if the template has a colon and a blank in front of its first `{message}` and the message does not begin with a space |
| ChatFormat.ApplyChatFormat | src/ChatFormat.cpp:65-147 | the sender field depends on template, prefix, guild and player only and is never empty; without a template it is prefix and player with a space between; the message field is the input or one space and the input |
| ChatFormat.ApplyChatFormatAttributed | src/ChatFormat.cpp:149-160 | the player's name, never empty, and the untouched message |
| ChatTemplates.SequentialIsSimultaneous | src/ChatFormat.cpp:125-127 | for every template of brace-free literals and placeholders, every brace-free prefix and guild and any player, the three passes are one simultaneous substitution |
| ChatTemplates.PrefixIsSafeIff | src/ChatFormat.cpp:125-127 | for a fixed prefix, all plain templates, brace-free guilds and players are filled at once exactly if neither "{guild}" nor "{player}" occurs in prefix, m, prefix for any brace-free m |
| ChatTemplates.GuildIsSafeIff | src/ChatFormat.cpp:125-127 | for a fixed guild, all plain templates, brace-free prefixes and players are, exactly if "{player}" does not occur in guild, m, guild |
| ChatTemplates.BracesInPrefixMatter | src/ChatFormat.cpp:125-127 | with a brace in the prefix they are not: a concrete input |
| ChatTemplates.SenderOfTemplate | src/ChatFormat.cpp:96-138 | the sender field of a template is its tokens before the message, without the colon, filled at once, then cleaned |
| ChatTemplates.DefaultLine | src/ChatFormat.cpp:96-138 | the default template, spelled out, gives prefix, guild and player each behind its own bracket, and nothing is left of the brackets of an empty prefix or guild |
| Sanitize.TruncatedIsLongest | src/Sanitize.cpp:33-47 | for well-formed UTF-8 (RFC 3629, section 4) truncation keeps the longest well-formed prefix within the limit |
| Sanitize.SanitizedIsWellFormed | src/Sanitize.cpp:7-57 | cleaning maps well-formed UTF-8 to well-formed UTF-8 |
| Sanitize.SanitizedIsClean | src/Sanitize.cpp:7-57 | for every input and limit: no longer than the limit, no control byte, no leading space |
| Sanitize.FixedPointWhenTrimmed | src/Sanitize.cpp:7-57 | one more pass changes a cleaned text exactly if the stripped text is over the limit and its cut falls behind a space |
| Sanitize.SanitizedSettles | src/Sanitize.cpp:7-57 | the third pass never changes anything |
| Sanitize.OnePassIsNotEnough | src/Sanitize.cpp:7-57 | the second may: a concrete input |
| Sanitize.NoticeIsClean | src/Sanitize.cpp:59-89 | a notice keeps its line ends and loses every other control byte; one that is clean, trimmed and short enough stays as it is |
| Sanitize.StripControlAndTrim | src/Sanitize.cpp:7-31 | the loops drop exactly the control bytes and then the white space at both ends |
| Sanitize.TruncateUtf8 | src/Sanitize.cpp:33-47 | the backward search cuts where the specification does |
| Sanitize.StartsWithAnyPrefix | src/Sanitize.cpp:91-105 | true exactly if a non-empty prefix of the list starts the text |

## Left out

* Unreal reflection, ProcessEvent, FString and TArray memory, allocators and SEH: calls that succeed, fail or fault.
* The MySQL client, bind buffers, schema errors and logging: only the effect of each statement and its success.
* `ThreadMain` in `DbWorker` does not drain link jobs; that part of its loop is `Linking.LinkWorker`, whose own database
  steps do not touch the message table.
* Writing the hook's own parameters (clearing the text, parking the category) is only the effect that was tried.
* Reading configuration, compiling regular expressions, webhooks, UniqueNetId resolution and the hook wiring.
* The capacity of `int` for remaining seconds, and the exception handlers around the hook and the tick.
* Order across a failed INSERT or a failed broadcast: requeueing goes to the tail, so conservation is what holds.
* The queue of link results between worker and game thread: a frame is given the results that came back.
