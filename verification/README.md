# Verification of the grid world server

A Dafny 4.11 model of the game server's state and of its exchange with the hub, with proofs. The server
(`src/transport/server.c`) runs one event loop over WebSocket sessions and one background thread that talks to the
hub; it keeps its tables in fixed arrays, its sessions in an intrusive list, its characters in a store
(`src/store/store.c`) and its rooms and creatures in a small world (`src/world/world.c`).

`dafny verify dfyconfig.toml` checks the whole project.

## How it is built

| part | files |
|---|---|
| strings, sequences, counted arrays | `Text`, `Sequences`, `Buffers`, `Outboxes` |
| federation: one lane per kind of traffic | `Commits`, `Logins`, `Relay`, `Outboxes` |
| federation: worker thread and event loop interleaved | `Federation` (steps), `FederationRuns`, `Passes`, `Polls` (runs), `Worker` (the critical sections on arrays) |
| session list, login states, outgoing messages | `Sessions` |
| packs, characters, items, the store | `Characters`, `Items`, `Store` |
| rooms, creatures, cached gold | `World`, `Passages`, `Caches` |
| what players do | `Commands` (one player), `Game` (all tables), `GameLaws` (every step), `GameRuns`, `Fights`, `Blows`, `Respawns`, `Oaths`, `MarksKept`, `MarksLost`, `Morals`, `Goods`, `Remembrance` (runs), `Outcomes`, `Reach` (what each event does, and to whom), `GameServer` (the handlers on objects) |
| game and federation together | `Standing` |
| traces, rescues | `Traces`, `Rescue` |

Code that changes things in place is a class whose methods are proved against a function of the old value
(`View() == F(old(View()))`, `Contents() == F(old(Contents()))`); the laws are then lemmas about those functions and
about every sequence of steps.

The federation model takes each critical section of the worker's mutex as one atomic step. The worker has a program
counter and the batches it holds locally; the hub is a log of casts and an answer that may be anything; the event loop
takes any enabled step in between. Histories (what was asked for, sent, delivered, lost to a full buffer) are part of
the state. `Federation.System.Inv` is kept by every step (`WorkKeeps`, `EventKeeps`) and `FederationRuns` states what
follows for every run from a fresh worker. A run is the sequence of states passed through, each event leading from one
to the next.

The game model is one record of the server's tables and one step per event: a name typed, a race picked, the hub's
answer, a command, a heartbeat, a lost connection. The clock and random draws are arguments of the events. `Settle`
writes the result of one player's command back to session, store and tide; `GameLaws.StepKeeps` shows the invariant
and the two-state relation of every step.

A session is seen four ways, each with what its part needs: as a node of the intrusive list with its login state
(`Sessions.Session`), as a name with a phase and a claim on a load (`Logins.Conn`), as the player the commands work on
(`Game.players` of `Commands.Player`), and as the object the handlers update (`GameServer.Hero`, whose `P()` is that
player). `Standing` joins the second and the third through the commits they share.

Where code and its own tables or comments disagree, the model follows the code:

- the room table offers `join` and `defend` in the bias checkpoint (`src/world/world.c:198-202`), the handlers refuse
  both outside the market and the checkpoint (`src/transport/server.c:2393-2394`, `src/transport/server.c:2438-2439`):
  `JoinIsHonouredIff`, `DefendIsHonouredIff`;
- a pack that is full pays for dust without getting any (`src/transport/server.c:3708-3709`): `DustIsReceivedIff`;
- morality leaves its range by the use of dust, which subtracts ten unchecked (`src/transport/server.c:3802`), and by
  the hub merge (`src/transport/server.c:2730`), and by nothing else: `StepKeepsRangeIff` for a step,
  `MoralityStaysInRangeIff` for a run;
- a mark on record can be lost when a name is in use twice: `TwinForgets` is a run with two sessions of one name,
  `LateChoiceForgets` one with two connections choosing a life under one name (`src/transport/server.c:1849-1863`).
  `SavingClearsIff`, `ClosingClearsIff` and `PickingClearsIff` say exactly when a write costs its row a mark,
  `LossNeedsABehind` that no step does so otherwise, `BehindNeedsCompany` and `MarksOutlast` that it takes a name
  typed while in use, `TwinsCanForget` that two sessions of one name can bring it about whenever one has not strayed;
- two sessions waiting under one name share one load, and one of them is never answered
  (`src/transport/server.c:1000-1006`): `TwinsStrand` is the run, `JoinStrandsIff` the condition;
- a trace whose world, node or text does not fit its buffer is never recognised again
  (`src/transport/server.c:368-391`): `RepeatMergesIff`;
- a legacy record whose file name has capital letters is imported under a key that is never looked up
  (`src/store/store.c:154-165`, `src/store/store.c:355-383`): `ImportReachable`;
- the 129th forgiveness and the 129th vigil are not remembered and can be repeated for their reward
  (`src/transport/server.c:2203-2214`, `src/transport/server.c:3217-3226`): `ForgivingCountsOnce`,
  `KeepingCountsOnce`.

## Model

| member | source | states |
|---|---|---|
| Buffers.Buffer.Push | src/transport/server.c:851-860 | the outbox append on the array keeps the last entries in order, dropping the oldest when full |
| Buffers.Buffer.PushFront | src/transport/server.c:1248-1264 | the roll insert on the array puts the newest in front and loses only the last |
| Buffers.Buffer.Take | src/transport/server.c:480-494 | a batch of at most cap from the front; batch ++ rest is what was there |
| Buffers.RollIsRecentHistory | src/transport/server.c:1248-1264 | a roll grown only by front inserts is the front of its reversed history |
| Outboxes.PushKeeps | src/transport/server.c:843-867 | a drop-oldest outbox keeps holding the last entries accepted since the last take, and accounts for every drop |
| Outboxes.TakeKeeps | src/transport/server.c:506-523 | taking the batch under the lock loses and reorders nothing |
| Outboxes.SendKeeps | src/transport/server.c:530-543 | neither does sending its head while new entries arrive |
| Outboxes.Delivery | src/transport/server.c:506-543 | what was sent is an in-order subsequence of what was accepted, and all of it is sent, in flight or queued exactly when no interval between takes overflowed |
| Commits.CallKeeps | src/transport/server.c:2752-2783 | coalescing keeps pending names distinct under case folding, the per-name order, and each name's newest sheet present unless evicted |
| Commits.TakeKeeps | src/transport/server.c:480-494 | moving the batch to the worker keeps the trail sent ++ in flight ++ pending |
| Commits.SendKeeps | src/transport/server.c:496-504 | so does each send, even with a newer sheet of the name queued meanwhile |
| Commits.SentInCallOrder | src/transport/server.c:480-504 | the sheets sent for a name are a subsequence of that name's calls, in call order |
| Commits.RefinesLastWrite | src/transport/server.c:2752-2783 | read as a last-write-wins map, the trail equals the calls on every key not evicted |
| Commits.LostOnlyWhenFull | src/transport/server.c:2763-2782 | a name's sheet is given up exactly when a new name meets a full buffer, and then the one that waited longest |
| Commits.CoalesceKeepsPlaces | src/transport/server.c:2763-2782 | a waiting name keeps its slot and spelling and takes the new sheet, a new one goes to the end |
| Logins.JoinKeeps | src/transport/server.c:994-1018 | queueing a load keeps every waiting session covered by a load or an answer, spoiling a name only by eviction or a waiting namesake |
| Logins.PutKeeps | src/transport/server.c:611-620 | filing the answer keeps the cover, whether or not the hub call succeeded |
| Logins.MatchKeeps | src/transport/server.c:1032-1061 | handing an answer to the first waiting session of the name keeps it too |
| Logins.NobodyStranded | src/transport/server.c:994-1061 | a waiting session with an unspoiled name has a load pending, in flight or answered |
| Logins.EntersOnceBeforeCommit | src/transport/server.c:1032-1061 | whoever commits had joined and then entered play, exactly once, before |
| Logins.JoinStrandsIff | src/transport/server.c:1000-1006 | a login leaves one session of its name unprovided exactly when it merges into a queued load and all entries of the name are spoken for |
| Logins.FreshNameIsSafe | src/transport/server.c:994-1018 | joining under a name nobody waits under never spoils it |
| Logins.SpoiledOnlyBy | src/transport/server.c:994-1018 | a name is spoiled by a merge with a waiting namesake, or by being the oldest in a full queue, and by nothing else |
| Logins.LoadIsAnswered | src/transport/server.c:590-621 | a load put to the hub is answered under its own name with just what the hub said, at the end of the queue |
| Logins.MatchEnters | src/transport/server.c:1044-1058 | an answer lets in the first session that waits under its name and changes nothing about any other |
| Logins.TwinsStrand | src/transport/server.c:1000-1052 | the run in which two sessions of one name join, one enters and one waits with nothing on its way |
| Relay.FileKeeps | src/transport/server.c:638-657 | filing a fetched batch, cut short when the 64 slots are full, keeps delivered ++ buffered equal to the hub log up to the cursor |
| Relay.FetchKeeps | src/transport/server.c:638-645 | the batch asked for after the cursor is the next stretch of the log |
| Relay.DrainKeeps | src/transport/server.c:1127-1147 | draining the buffer to the players keeps it |
| Relay.ExactlyOnce | src/transport/server.c:638-657 | delivered casts are a prefix of the log from the starting cursor, all of it up to the cursor once drained, ascending, none repeated |
| Federation.WorkKeeps | src/transport/server.c:722-764 | every atomic step of the worker thread, for any hub answer, keeps all lane invariants and the place where it stands |
| Federation.EventKeeps | src/transport/server.c:843-1061 | every enabled step of the event loop, the hub or the worker keeps them |
| Federation.StartInv | src/transport/server.c:766-795 | a freshly started worker satisfies them for any hub log and cursor |
| FederationRuns.RunFacts | src/transport/server.c:722-764 | after any interleaving the invariant holds, and what each lane was asked for is what the run's events asked: deltas, fallen, prunes, casts, loads, commits, gridcasts, and who joined, entered and committed when |
| FederationRuns.CastRelay | src/transport/server.c:638-657 | in every run, delivered ++ buffered is exactly the hub log from the first cursor to the present one; that the cursor moves is `Polls.PollBringsCasts` |
| FederationRuns.TideConserved | src/transport/server.c:869-899 | in every run the deltas given equal pending + in flight + passed to the hub |
| FederationRuns.FallenDelivery | src/transport/server.c:506-543 | in every run the fallen reach the hub in order, at most once, and all unless an interval overflowed |
| FederationRuns.VoiceDelivery | src/transport/server.c:901-928 | so do the gridcasts the event loop accepted in the run |
| FederationRuns.CommitsCoalesce | src/transport/server.c:2752-2783 | in every run pending names are distinct, the sheets sent for a name are some of those the run's events committed, in order, and the newest of an unevicted name is sent, in flight or pending |
| FederationRuns.LoginsGoThrough | src/transport/server.c:994-1061 | in every run the loads asked for coalesce the same way, nobody with an unspoiled name waits with nothing on its way, once the handshake is quiet all those play, and whoever commits had joined and entered exactly once before |
| FederationRuns.HandshakeEnds | src/transport/server.c:994-1061 | once nobody joins any more the handshake makes boundedly many moves, and quiet means that every session with an unspoiled name plays |
| FederationRuns.GracefulShutdown | src/transport/server.c:797-812 | when the worker has ended, at whatever point it noticed stop, every commit, load, fallen, cast, delta and prune of the run was put to the hub |
| FederationRuns.ShutdownHalts | src/transport/server.c:722-764 | after stop the worker takes a bounded number of steps, so the join returns |
| Passes.EveryPassEnds | src/transport/server.c:722-764 | from any check the worker is back there, or at its end, within 680 of its own steps, whatever the hub and the event loop do |
| Passes.PassDoesAll | src/transport/server.c:722-764 | every pass enters all it has to: the three flushes and the wait, with a poll the ping, the casts and the other reads, and the registration when due |
| Passes.PassPutsEverything | src/transport/server.c:722-764 | by the end of every pass the hub has been given all that each lane held at some moment since it began |
| Passes.PassDelivers | src/transport/server.c:722-764 | so every fallen and gridcast that waited unless one was dropped, all tide and a prune asked for by then or later, and the newest sheet and load of every name not evicted |
| Passes.PollPutsTheRest | src/transport/server.c:732-740 | in a pass that polls so has what came to wait while the worker spoke to the hub |
| Passes.CastsThenFlush | src/transport/server.c:659-660 | and what came to wait while it fetched the casts has been put there before the other reads begin |
| Polls.PollBringsCasts | src/transport/server.c:629-658 | a pass that polls fetches once: of the log beyond the cursor as many casts come in as the hub gave and the buffer had room for, the cursor stands behind the last, and nothing moves when the call failed |
| Polls.DrainShows | src/transport/server.c:1127-1147 | what came in is shown to the players by the next drain, all of it, in order |
| Polls.RefusedIff | src/transport/server.c:629-637 | in every run gridcasts are refused exactly while the last filed answer to a ping was a failure |
| Passes.NothingLost | src/transport/server.c:2752-2783 | in every run whose buffers never fill no commit and no load is given up |
| Passes.PassAnswersLoads | src/transport/server.c:590-621 | after a pass in which nobody logged in no load waits or is under way |
| Passes.HandshakeGetsThere | src/transport/server.c:1032-1061 | from there collecting and matching the answers is all it takes for every session with an unspoiled name to play |
| Worker.FederationWorker.CommitHub | src/transport/server.c:2763-2782 | the scan-and-overwrite loop on the array is the coalescing function |
| Worker.FederationWorker.TakePendingCommits | src/transport/server.c:480-494 | copies out a prefix and closes the gap |
| Worker.FederationWorker.QueueCharLoad | src/transport/server.c:994-1018 | refreshes the waiting load of the name or queues one, dropping the oldest of sixteen |
| Worker.FederationWorker.PutLoadResult | src/transport/server.c:610-618 | files an answer, dropping the oldest of sixteen |
| Worker.FederationWorker.QueueFallen | src/transport/server.c:843-867 | queues a fallen, dropping the oldest of thirty-two |
| Worker.FederationWorker.QueueTideShift | src/transport/server.c:869-899 | the pushes of the event loop so far sum to what was taken and what is pending |
| Worker.FederationWorker.TakeTide | src/transport/server.c:524-525 | after a take the amounts taken so far sum to the pushes so far |
| Worker.FederationWorker.QueueGridcast | src/transport/server.c:901-928 | refused exactly when the hub is known to be unreachable |
| Worker.FederationWorker.FileCasts | src/transport/server.c:646-657 | the filing loop with its early break appends the longest prefix that fits and advances the cursor over it only |
| Worker.FederationWorker.DrainCasts | src/transport/server.c:1127-1147 | everything buffered leaves in order |
| Sessions.SessionList.Register | src/transport/server.c:1445-1454 | a new session becomes the head of an acyclic, duplicate-free list; a listed one stays where it is |
| Sessions.SessionList.Unregister | src/transport/server.c:1456-1466 | removes exactly its node, keeps the order of the rest, does nothing for one not listed |
| Sessions.SessionList.FinishLogin | src/transport/server.c:1796-1813 | to waiting with the worker running, else straight to play, listed once either way |
| Sessions.SessionList.FinishLoginPlaying | src/transport/server.c:1783-1794 | entering play a second time registers nothing twice |
| Sessions.SessionList.HandleInput | src/transport/server.c:4662-4682 | states only move forward; a waiting session ignores its input; the list holds exactly the waiting and playing |
| Sessions.SessionList.HandleAnswer | src/transport/server.c:1044-1058 | the first waiting session of the name enters play and no other changes |
| Sessions.SessionList.Find | src/transport/server.c:1468-1477 | the first playing session of the name |
| Sessions.SessionList.Close | src/transport/server.c:4839-4846 | the connection leaves the open set and the list, nothing else does |
| Sessions.Outgoing.Enqueue | src/transport/server.c:318-336 | appends at the tail of a well-linked queue: written ++ waiting is all that was queued |
| Sessions.Outgoing.WriteOne | src/transport/server.c:4814-4838 | the head leaves only after a full write; a failed write loses nothing |
| Sessions.Outgoing.Free | src/transport/server.c:308-316 | releases every node exactly once, in order |
| Characters.FindInventory | src/transport/server.c:3646-3665 | finds something exactly when an id or a displayed name carried fits the words, and an id spelled out wins |
| Characters.WithoutFirstKeeps | src/store/store.c:336-353 | removal takes exactly one copy and keeps the order of the rest |
| Characters.GiveConserves | src/transport/server.c:3103-3122 | a gift keeps the combined multiset of both packs and their bounds |
| Characters.Pack.HasItem | src/store/store.c:313-323 | the scan decides membership |
| Characters.Pack.AddItem | src/store/store.c:325-334 | appends unless eight slots are full |
| Characters.Pack.RemoveItem | src/store/store.c:336-353 | the nested shifting loops remove the first copy and clear the slot that falls free |
| Characters.Transfer | src/transport/server.c:3103-3122 | in place on two packs: into the receiver's if it has room, then out of the giver's, and between them they carry what they carried |
| Characters.CmdGive | src/transport/server.c:3053-3122 | moves exactly the item found, exactly when the giver carries one, the receiver is somebody else in the room and has a slot free; the two packs keep their combined multiset whatever happens |
| Store.RoundTrip | src/store/store.c:69-150 | reading back what was written gives the character, an empty pack as one shiv and an empty position as standing |
| Store.RoundTripExactly | src/store/store.c:69-150 | the identity exactly for a non-empty pack and position, idempotent for all |
| Store.StoreIsCaseBlindMap | src/store/store.c:355-414 | after any saves a load under any spelling gives the last save of that folded name, and other names what they had |
| Store.ImportOnlyAdds | src/store/store.c:154-225 | after any imports a key holds what it held, or else the first importable file of that stem |
| Store.ImportAgain | src/store/store.c:167-225 | importing the same files at a later start changes nothing, whatever the rows hold by then |
| Store.ReadFits | src/store/store.c:44-117 | whatever a document says, what is read from it fits every buffer and the eight slots |
| Store.EmptyReads | src/store/store.c:69-117 | a document that says nothing reads as a newcomer without a purse |
| Store.ImportReachable | src/store/store.c:154-165 | an imported record is found under its name exactly when that name is in lower case |
| Store.CharacterStore.NameKey | src/store/store.c:29-42 | the key loop folds case, and refuses empty and overlong names |
| Store.CharacterStore.LoadCharacter | src/store/store.c:355-383 | is the lookup of the case-blind map, damaged rows included |
| Store.CharacterStore.ReadInventory | src/store/store.c:96-111 | the inventory loop keeps the first eight strings, and a shiv when there are none |
| World.AtMostTwentyFour | src/world/world.c:7-214 | distinct rooms of the table number at most 24 |
| World.Walk | src/world/world.c:273-283 | the exit loop leads to a table room or nowhere |
| Passages.PassagesLeadBack | src/world/world.c:7-214 | wherever one can go one comes back by going the opposite way |
| Passages.EveryRoomIsReached | src/world/world.c:7-214 | all twenty-four rooms can be walked to from the nexus |
| Passages.UnderTheSky | src/world/world.c:7-214 | which seven rooms lie in the open |
| World.SeedIsPeopled | src/world/world.c:236-259 | the six seeded creatures are alive, whole, and each in a room of its own |
| World.BestiaryIs | src/world/world.c:236-259 | the six creatures' homes, hit points, blows and lessons |
| World.TickKeeps | src/world/world.c:315-331 | a respawn tick keeps: alive iff hit points iff no time of death |
| World.WorldState.Tick | src/world/world.c:315-331 | the loop revives the dead whose time has come, as the value model does; when that is, `Respawns` says over whole runs |
| World.WorldState.FindMob | src/world/world.c:285-299 | the first living creature of that name in that room |
| Caches.NeverFull | src/transport/server.c:2071-2085 | a table of distinct table rooms never fills its 32 slots |
| Caches.AddKeeps | src/transport/server.c:2071-2085 | in a table room adding loses nothing: the silent drop is unreachable |
| Caches.AddLosesIff | src/transport/server.c:2071-2085 | gold is dropped exactly for a new room at a full table |
| Caches.TakeKeeps | src/transport/server.c:2087-2096 | what is taken is what the table no longer holds |
| Caches.CacheTable.Add | src/transport/server.c:2071-2085 | the scan and append on the array |
| Caches.CacheTable.Take | src/transport/server.c:2087-2096 | the scan and reset on the array |
| Commands.MoralArcIsLawful | src/transport/server.c:2253-2283 | the arc lifts no mark, redeems only the strayed who are not the Front's, and announces only the unbranded |
| Commands.DefectIsAnArc | src/transport/server.c:2371-2378 | the shortcut of the defection is what the arc would have done |
| Commands.JoinIsLawful | src/transport/server.c:2387-2434 | the oath keeps every mark, brands only the hunted, keeps morality in range |
| Commands.DefendIsLawful | src/transport/server.c:2436-2465 | so does standing with the refugees |
| Commands.DefectIsLawful | src/transport/server.c:2337-2385 | so does breaking the oath |
| Commands.ForgivenIsLawful | src/transport/server.c:2510-2555 | so does being forgiven, which redeems no ash-sworn |
| Commands.UseBreaksTheFloorIff | src/transport/server.c:3800-3804 | dust keeps the morality floor exactly when morality was at least ten above it |
| Commands.ArcSettles | src/transport/server.c:2253-2283 | asking the moral arc again changes nothing and announces nothing |
| Commands.DustIsReceivedIff | src/transport/server.c:3697-3718 | the dealer takes ten gold and gives dust exactly when the pack has a slot free |
| Commands.JoinIsHonouredIff | src/transport/server.c:2387-2434 | the oath is taken exactly where the room offers it, but not in the bias checkpoint, and besides in the checkpoint |
| Commands.DefendIsHonouredIff | src/transport/server.c:2436-2465 | so is the stand with the refugees |
| Oaths.AskingAnswers | src/transport/server.c:2387-2465 | away from the dais join and defend change something exactly where recruiters stand and the session has not answered; then it has, the side is taken, the tide pushed by ten, the price paid, the hunted branded, and the moral arc follows |
| Oaths.OneOathASession | src/transport/server.c:2387-2465 | in every run at most one of all a session's joins and defends away from the dais is honoured, so that its answers push the tide by -10, 0 or 10 |
| Commands.PledgeThenDefect | src/transport/server.c:2285-2385 | oath and defection cancel in the tide; morality ends where the two clamped shifts lead, the hunted keep the brand, straying and return happen exactly as the low point and the end say |
| Commands.BuyThenSellLoses | src/transport/server.c:3697-3787 | whatever is bought and then sold leaves its trader poorer |
| Outcomes.OwnCommandsAreWrought | src/transport/server.c:4079-4660 | a command that is its player's own changes that player, the store, the tide and the announcements as its turn says, and nothing else of the game |
| Outcomes.Moving | src/transport/server.c:4634-4660 | walking, recall and look: where, when not in a fight, and what is saved |
| Outcomes.Arming | src/transport/server.c:4165-4192 | only a weapon carried is wielded, only what is wielded is put away |
| Outcomes.Stealing | src/transport/server.c:4615-4629 | theft pays twelve at the market for eight of morality, and the moral arc follows |
| Outcomes.Treating | src/transport/server.c:3129-3205 | who is treated at the waystation and who is not, by how much, and for how long it is over then |
| Outcomes.Racing | src/transport/server.c:3989-4077 | each race's trait, its gain and its wait |
| Outcomes.Buying | src/transport/server.c:3697-3745 | what dust and wares cost, and when they are refused |
| Outcomes.Selling | src/transport/server.c:3744-3787 | what the market pays, to friends a fifth more, and what it refuses |
| Outcomes.Dosing | src/transport/server.c:3789-3815 | dust: all wounds, ten of morality, one of addiction, one dose |
| Outcomes.Kneeling | src/transport/server.c:2285-2335 | the pledge is open to those without a side, and what it does |
| Outcomes.Rising | src/transport/server.c:2337-2385 | the defection is open to the Front's at the dais, and what it does |
| GameLaws.SettleKeeps | src/transport/server.c:2216-2283 | writing any lawful turn back keeps the game's invariant |
| GameLaws.OwnIsLawful | src/transport/server.c:4079-4660 | every command that changes only its player is lawful |
| GameLaws.PlayKeeps | src/transport/server.c:4079-4660 | every command of a playing session keeps the invariant and every session's marks |
| GameLaws.CombatKeeps | src/transport/server.c:1884-1987 | so does every round: creatures and players stay within their hit points, experience equals the killing blows' |
| GameLaws.AnsweredKeeps | src/transport/server.c:2718-2738 | so does the hub merge at login, whatever the sheet says |
| GameLaws.NamedKeeps | src/transport/server.c:1827-1847 | so does a name, valid or not, recorded, damaged or new |
| GameLaws.PickedKeeps | src/transport/server.c:1849-1863 | so does the choice of a race |
| Outcomes.Arriving | src/transport/server.c:1827-1847 | a good name on record comes back as saved, in a room of the table, in play or waiting for the hub; a new one is asked for its life; any other changes nothing |
| Outcomes.Picking | src/transport/server.c:1849-1863 | one of seven races makes a newcomer of 30 hit points, 20 gold and a shiv, saved and let in |
| Outcomes.Merging | src/transport/server.c:2718-2738 | field by field what of the hub's record counts at login |
| Outcomes.Filling | src/transport/server.c:2718-2750 | what is committed of a character, and what of it another world takes over |
| Outcomes.ScenesWake | src/transport/server.c:1715-1722 | whoever enters play wakes the dead whose time has come |
| Outcomes.Answering | src/transport/server.c:1032-1061 | the hub's answer, or its failure, lets in who waited and nobody else |
| Outcomes.Leaves | src/transport/server.c:4839-4846 | who plays is saved on leaving, and the list keeps its order |
| GameLaws.EnterKeeps | src/transport/server.c:1796-1813 | so does a login, whose room is repaired to one of the table |
| GameLaws.StepKeeps | src/transport/server.c:4662-4846 | every event keeps the invariant and lets every session continue: marks, name, play, level, the fight it is in; and what it writes to the store is a playing session as it is |
| GameRuns.RunKeeps | src/transport/server.c:4662-4846 | the invariant holds after every sequence of events with clocks after the epoch |
| GameRuns.EveryListRuns | src/transport/server.c:4662-4846 | every list of events with clocks after the epoch has a run: the server refuses none of them |
| GameRuns.MarksLast | src/transport/server.c:2226-2283 | in every run ashsworn, strayed and redeemed are never cleared in a session, and redeemed implies strayed |
| MarksKept.StepKeepsSteady | src/transport/server.c:1827-1863 | as long as no name in use is typed every step leaves store and sessions agreed on every mark, and takes none off a row |
| MarksKept.MarksOutlast | src/transport/server.c:2226-2283 | in every run in which no name in use is typed, over any logouts and logins: rows lose no mark, sessions bear what their row records, and who comes back under a name bears what anybody bore under it before |
| MarksLost.SavingClearsIff | src/store/store.c:385-414 | a save takes a mark off its row exactly when the saved character lacks one the row records |
| MarksLost.ClosingClearsIff | src/transport/server.c:4839-4846 | a closing connection costs its row a mark exactly when it plays and lacks one its row records |
| MarksLost.PickingClearsIff | src/transport/server.c:1849-1863 | choosing a race costs the row a mark exactly when it has one by then |
| MarksLost.LossNeedsABehind | src/transport/server.c:4662-4846 | no step of any kind costs a row a mark while no session lacks one of its row's and nobody chooses a life under a marked name |
| MarksLost.BehindNeedsCompany | src/transport/server.c:1827-1847 | and neither comes about before a name in use is typed |
| MarksLost.TwinForgets | src/transport/server.c:4839-4846 | the run in which the second session of a name closes last and the brand is off the record |
| MarksLost.LateChoiceForgets | src/transport/server.c:1849-1863 | the run in which a second connection picks its race late and the brand is off the record |
| MarksLost.TwinsCanForget | src/transport/server.c:4839-4846 | whenever two sessions play under one name and one has not strayed, the game can go on so that straying is recorded and then lost |
| Morals.StepKeepsRangeIff | src/transport/server.c:2216-2224 | a step keeps every session's and every record's morality in range exactly when it starts no dust below -90 and merges no sheet out of range |
| Morals.MoralityStaysInRangeIff | src/transport/server.c:2216-2224 | on a store in range morality stays in range at every point of a run exactly when every step of it is such |
| GameRuns.ReturnsOnce | src/transport/server.c:2253-2283 | the redeemed flag rises at most once, on a strayed character not of the Front |
| GameRuns.AnnouncementsAreEarned | src/transport/server.c:2226-2251 | no run announces the redemption of an ash-sworn character |
| GameRuns.NobodyExceeds | src/transport/server.c:1884-2003 | in every run creatures and players stay within their hit points and experience is what was brought plus one's killing blows |
| GameRuns.DeathsAreUndoneOrFinal | src/world/world.c:236-331 | a creature's deaths exceed its respawns by at most one; the Ashmonger dies at most once |
| Respawns.StepTreats | src/world/world.c:315-331 | every step leaves a creature that nobody strikes as it was or, if its time has come, whole; a command or heartbeat never leaves it out |
| Respawns.DeadUntilItsTime | src/world/world.c:315-331 | along every run a creature slain at a clock is dead for its 20, 40, 60, 30 or 60 seconds, the Ashmonger for good |
| Respawns.BackFromThen | src/world/world.c:315-331 | and whole after the first command or heartbeat from then on, unless that strikes it at once |
| Respawns.KillsLieApart | src/world/world.c:236-331 | in every run whose clock never runs backwards two kills of one creature lie at least that long apart |
| Goods.GoldIsConserved | src/transport/server.c:3005-3051 | at any point of any run caching and gathering keep all gold, carried and cached |
| Goods.LeftGoldIsFound | src/transport/server.c:3005-3051 | what one leaves the next gathers there, on top of what lay there, and no other room changes |
| Outcomes.Gathering | src/transport/server.c:3036-3051 | gathering takes all the gold of the room, leaves none there, and touches no other room |
| Goods.ItemsAreConserved | src/transport/server.c:3053-3122 | at any point of any run a gift keeps the multiset of everything all sessions carry |
| Reach.GiftHappensIff | src/transport/server.c:3053-3122 | a gift is made exactly when something carried fits the words, the newest session of the name plays in the room as somebody else and has a slot free; then exactly that thing changes hands and both are saved |
| Goods.EverythingFits | src/store/store.c:69-117 | in every run every pack holds at most eight things and every text fits its buffer |
| Remembrance.ForgivingCountsOnce | src/transport/server.c:2192-2214 | forgiving is remembered exactly when the table has room; repeated it pays again exactly when it was not and the subject still bears a mark, and else changes nothing |
| Remembrance.RememberedForGood | src/transport/server.c:2192-2214 | what was once forgiven, and whose memory was kept, stays so along every run |
| Reach.ForgivingHappensIff | src/transport/server.c:2467-2571 | somebody is forgiven exactly when the newest session of the name plays in the room as somebody else, bears something to forgive and was not forgiven by this one; five points for one, two for the other, the way back for the strayed |
| Reach.NobodyElseIsReached | src/transport/server.c:4079-4846 | no event changes a session but its own, except a gift or forgiveness from somebody in its room |
| Outcomes.KeepingVigil | src/transport/server.c:3228-3304 | a vigil is kept for somebody else on the roll, once, for two of morality |
| Remembrance.KeepingCountsOnce | src/transport/server.c:3207-3226 | a vigil can be repeated for its reward exactly when its table is full |
| Remembrance.RescuesAreLogged | src/transport/server.c:3474-3540 | freeing the cells and sheltering at the hub rescue somebody exactly when logged, and else change nothing |
| Outcomes.Freeing | src/transport/server.c:3432-3515 | the cells when full, the pit when the warden is out of the way: points, vial, and who is refused |
| Outcomes.Sheltering | src/transport/server.c:3517-3545 | the stranded at the hub, likewise |
| Outcomes.Leaving | src/transport/server.c:3005-3034 | gold is left exactly from one coin to all one has, for two of morality |
| Remembrance.CagesRefillFirst | src/transport/server.c:1168-1187 | in every run any two rescues from the same cages lie at least a refill apart |
| GameRuns.TideSaturates | src/transport/server.c:2029-2041 | without a hub the tide is the saturating fold of all pushes and stays in its bounds |
| GameRuns.StandingTravelsIff | src/transport/server.c:2718-2750 | a committed sheet merged elsewhere reads the same exactly when it leaves no field blank that the other had and the other bore no brand of its own |
| Standing.HubAgreesWithStore | src/transport/server.c:4839-4846 | of a game and a federation run of one server: once the worker has ended, the hub's last sheet of a name nobody plays under any more is the standing its row records, unless a full buffer pushed it out |
| Fights.StepWears | src/transport/server.c:1884-2003 | no step gives a creature hit points or life back but a respawn |
| Blows.HeartbeatBeats | src/transport/server.c:1884-1987 | a heartbeat of a hunt, for everybody and everything: the creature takes the blow; standing, it wounds the player by just its damage or lays the player down whole in the nexus at the head of the roll; falling, it teaches and hurts nobody; gone, it costs the target |
| Blows.OnlyHeartbeatsWound | src/transport/server.c:4079-4846 | no event lowers a player's hit points but the player's own heartbeat |
| Blows.FightersFallOnTime | src/transport/server.c:1884-1987 | in every run an unrelieved fighter falls at the heartbeat by which the creature's blows add up to the hit points, and not before |
| Blows.BlowsWeigh | src/transport/server.c:1479-1486 | a blow is worth the level and one, three more with a shiv, six with rebar |
| Outcomes.Resting | src/transport/server.c:1989-2003 | a heartbeat out of a fight mends two of a resting player's hit points and nothing else |
| Fights.FightsEnd | src/transport/server.c:1884-1987 | a fighter whose blows are worth d has no target left by the time own heartbeats times d reach the creature's hit points, whoever interferes, unless it respawned |
| Fights.EverybodyIsArmed | src/transport/server.c:1479-1486 | every blow is worth at least two |
| Fights.AttackHunts | src/transport/server.c:4212-4252 | an attack on a creature of the room puts its player on that very creature, alive |
| Outcomes.Attacking | src/transport/server.c:4212-4252 | an attack, when not in a fight, names the creature of the room and changes nothing else |
| Fights.FightersHunt | src/transport/server.c:1884-1898 | at every point of a run whoever has a target has one of the creatures that belong in the room |
| Fights.DeadQuarryEnds | src/transport/server.c:1884-1898 | if it is already dead the next heartbeat ends the fight |
| Fights.EveryFightEnds | src/transport/server.c:1884-1987 | so in every run every fight under way is over by the time the fighter's own heartbeats number half the creature's hit points, and at least one, whoever interferes, unless the creature came back in between |
| GameServer.Hero.ShiftMorality | src/transport/server.c:2216-2224 | in place: the sum held in its range |
| GameServer.Server.ResolveReturn | src/transport/server.c:2226-2251 | in place: redeemed, titled if untitled, saved, announced |
| GameServer.Server.MoralArc | src/transport/server.c:2253-2283 | in place: the moral arc of the value model |
| GameServer.Server.DaisPledge | src/transport/server.c:2285-2335 | in place: the pledge, its cost, the tide, the store, the arc |
| GameServer.Server.DaisDefect | src/transport/server.c:2337-2385 | in place: the defection |
| GameServer.Server.CmdJoin | src/transport/server.c:2387-2434 | in place: the recruiter's oath, once per session, as `Oaths.AskingAnswers` says |
| GameServer.Server.CmdDefend | src/transport/server.c:2436-2465 | in place: the stand, once per session |
| GameServer.Server.PlayJoin | src/transport/server.c:2387-2434 | the oath in the whole server is the model's step |
| GameServer.Server.PlayDefend | src/transport/server.c:2436-2465 | so is the stand |
| GameServer.Server.PlayDefy | src/transport/server.c:2337-2385 | so is the defection |
| GameServer.Server.FindSession | src/transport/server.c:1468-1477 | the newest playing session of the name |
| GameServer.Server.CmdForgive | src/transport/server.c:2467-2571 | in place on two sessions: the whole server changes as the model's step says, which is `Reach.ForgivingHappensIff` |
| GameServer.Server.CmdCache | src/transport/server.c:3005-3034 | in place on session, cache table and store |
| GameServer.Server.CmdGather | src/transport/server.c:3036-3051 | in place on session, cache table and store |
| GameServer.Server.ExchangeBlows | src/transport/server.c:1884-1987 | in place: one round against the living quarry or the end of the chase, as `Blows.HeartbeatBeats` says of the model |
| GameServer.Server.OnTick | src/transport/server.c:1989-2003 | the heartbeat takes the whole server to the model's step |
| Traces.RepeatMergesIff | src/transport/server.c:368-391 | recording twice merges exactly when world, node and text fit their buffers |
| Traces.NoteKeeps | src/transport/server.c:368-391 | traces stay pairwise distinct, each counting the recordings since its last insertion |
| Traces.PruneKeeps | src/transport/server.c:3383-3396 | so does a prune |
| Traces.PruneForgets | src/transport/server.c:3383-3396 | a prune forgets ghosts, passages and recalls, nothing else, and keeps the order |
| Traces.RingIsALedger | src/transport/server.c:368-391 | for any sequence of recordings and prunes |
| Traces.PruneIdempotent | src/transport/server.c:3383-3396 | pruning twice is pruning once |
| Traces.TraceRing.RecordTrace | src/transport/server.c:368-391 | the scan, shift and append on the array |
| Traces.TraceRing.Prune | src/transport/server.c:3383-3396 | the in-place compaction is the stable filter on lasting kinds |
| Traces.TraceRing.Histogram | src/transport/server.c:3402-3418 | the 32-slot histogram counts each kind it lists |
| Traces.HistogramAddsUp | src/transport/server.c:3402-3418 | with the fifteen kinds ever recorded it misses none and sums to the number of traces |
| Rescue.PickRefugees | src/transport/server.c:1270-1291 | for every random draw the names picked are different refugees of the table, as many as asked for and there are |
| Rescue.RememberKeeps | src/transport/server.c:1201-1229 | whatever a player frees, each row is the newest 24 of what its player freed and only a full table leaves anybody out |
| Rescue.RollsAreRecent | src/transport/server.c:1248-1340 | after any run the roll is the newest 64 rescues and each row as above |
| Rescue.Rolls.RememberSaved | src/transport/server.c:1201-1229 | the lookup and the shifting rows of the two-dimensional array |
| Rescue.Rolls.EmitRescued | src/transport/server.c:1324-1340 | the whole batch on the roll, at most eight names in the player's row |

## Left out

- libwebsockets, the HTTP handlers and the hub's RPC calls: an RPC is one step with an arbitrary answer; its failure is one of the answers.
- SQLite, JSON text and files: the database is a map, a document a map of fields.
- Machine integers: hit points, gold, experience, tide and counters are unbounded.
- Text and events sent to players, help, `look` at somebody, `who`, `war`, `reckoning`, `listen`, `ping`, `tell`, `yell`: presentation only; the parsing of a command line into a verb and its argument.
- Deeds, which nothing but the reckoning reads; presence, world list and ledger caches, which the worker overwrites wholesale.
- A hub configured without its worker thread running: direct calls at login, commit and tide shift.
- The hub as the source of the tide: `Poll` sets it to anything, so its bounds are claimed for a standalone world only.
- Gridcasts of a standalone world and the order in which one player's tables of deeds and traces change inside a handler.
- The handlers for give at server level, trade, wielding, rest, movement, healing, rescue, witness, title, ability and travel are modelled on values only (`Commands`, `Game`); what is not captured is the order of their writes in place.
- Respawn ticks of the scenes shown inside a command or heartbeat: a second tick in the same second changes nothing (`World.TickIsIdempotent`).
- Intermediate saves inside one handler: a later save of the same name replaces them in the same step (`GameServer.SaveTwice`).
- FederationRuns.GracefulShutdown: sheets evicted from a full outbox, and entries dropped by a full outbox, are excepted, because the code drops them.
- Polls.PollBringsCasts: how often a pass polls and registers follows the worker's clocks, which are an argument of the step.
- Respawns.KillsLieApart: supposes that the clock never runs backwards; with one that does, a kill can be dated before the one it follows.
- Fights.EveryFightEnds: does not bound a fight across a respawn of its quarry, because a new life has new hit points.
- MarksKept.MarksOutlast: starts from rows that stand under their own character's name, as every row the server saved does; an imported file may hold another name than its stem.
- GameRuns.MarksLast: speaks of one session; `MarksKept.MarksOutlast` speaks of all sessions of a name.
- Standing.HubAgreesWithStore: the two models share their commits only; which connection of the one is which session of the other is not modelled.
- GameRuns.NobodyExceeds: starts from a store whose records read back as living characters, as every record the server wrote does.
