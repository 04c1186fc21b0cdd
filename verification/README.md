# Verified model of wireguard-mesh

wireguard-mesh moves WireGuard traffic between two nodes of a hub network onto a direct LAN
path when that path is faster, and moves it back when it is not. This project models the parts
whose correctness depends on every interleaving, and proves what they keep:

- **The route controller** (`control.go`; `Kernel`, `Journal`, `Recovery`, `Control`, `CrashSafety`).
  A journal guards WireGuard updates that are not atomic. The kernel is a map from peer to settings in
  which a prefix has one owner; a configuration request is carried out update by update, and every
  update, every read and every journal save can fail, take effect and then fail, or crash the process
  or the machine. A failed save can leave either journal on disk. `CrashAnywhere`: wherever a run of
  any commands is cut, and however often recovery itself is cut, one startup without faults ends with
  an empty journal and exactly the configuration it began with. The theorem needs one condition on that
  configuration (`ZeroKeyHidesNothing`), and `ZeroKeyStrands` shows that it is needed. `AnyWriter`: with
  another program writing the interface at any time, every journal file is still one that startup accepts,
  a record leaves the file only after a read that showed it settled, and every request names a managed
  peer, seen as the daemon's own, or the owner recorded for it.
- **The secure session table** (`secure.go`; `Bits`, `Rate`, `Replay`, `Sessions`, `Lives`, `Secure`, `Channel`, `Handshake`, `Envelope`).
  `ChannelSafety`: over every run of two nodes that start again at any time, on a network that loses,
  repeats, reorders, delays and injects packets, every body a node hands out was given to the other to be sealed, in
  exactly one call and for one delivery only, less than 610 seconds before, and not before the process that hands
  it out had started; no counter is used twice under one pair of
  keys, every session ends within 610 seconds of its creation, no two sessions that a process started
  share an ID, no live session is overwritten, and the tables stay within their limits. `Deliver`: through
  the 512-byte envelope a packet reaches exactly the node it names, unchanged, unless that node's budget
  is used up. `HandshakeCarries`: a request answered in time sets up a session, and what either node then seals
  under its ID the other delivers.
- **The route protocol and the in-place key transition** (`mesh.go`, `psk.go`; `Measure`, `Story`, `Mesh`,
  `Steps`, `Reachable`, `MeshPeer`, `Managing`, `TwoNodes`, `Example`). `Converse`: over every run of a
  leader and a follower whose messages are lost, repeated, reordered and delayed, and which fail and start
  again at any event, the nodes agree on every trial and every rekey, a route that either made active was
  measured by both, during that trial, to be better than when it was proposed, and the last that the node had heard
  about it was a recent keep, the controller follows the route, at most one of replacement, previous route and rekey exists, and no message moves a deadline. No
  token that a process retired opens a transaction in that process; one that an earlier process retired can
  open one only by a proposal sent since the restart, and only if it was retired less than a minute before it.
- **The Rosenpass adapter** (`rosenpass_linux.go`, `psk.go`; `Adapter`). `ReadPeerKey`: a key that
  the daemon accepts between two equal status replies was the published key all that time, even if the
  adapter may be restarted in between; and a valid key of the same endpoint is accepted if nothing happens in between.

## How the model is built

`Secure`, `Controller`, `MeshPeer` and `Adapter` are classes with the fields of the Go structs and
methods that update them in the same order. What their methods do to the state is also written as functions
on values (`Sessions`, `Steps`), and the lemmas are about those. Cryptography is ideal: a genuine packet
is one its named sender sent, hashes are injective, and a key proof reveals only whether two nodes hold the
same key for the same operation and token. Time is an integer number of nanoseconds on one nondecreasing
clock. The answers of kernel, disk, key files and health probes are arbitrary
in `MeshPeer` and `Adapter`, and a list of faults in `World`. The field `h` of `MeshPeer` records
the run; no operation reads it, and `TwoNodes` reads it only to decide which messages can arrive. A ghost result such as
`reading`, `seen` or `trouble` says how the environment answered during the call.

`Fit` in `Mesh` is the invariant of the route machine: seven aspects, for the protocol, the truth of
messages, the tokens, the measurements, the LAN replies, the improvements and the peer's keeps. Each lemma named `…Keeps` in `Steps`
shows that one step keeps all seven. What the controller has installed, `managed`, is not part of these steps: only the three
controller operations of `MeshPeer` change it, and every operation must bring it back in line with the route
(`Valid`). `Managing` proves that the operations of `Control.Controller` do what those three promise.

## Findings

- **A zero-key peer.** `Apply` looks for the stable owner of a host with `controlOwner(d, ip, 0)`, which
  skips a device peer whose public key is all zero; the later check of a broader route skips nothing but
  the new peer. If a zero-key peer holds the longest match for the host, `Apply` journals a plan that
  fails its own check, and no startup can complete or drop it. `CrashAnywhere` holds for every baseline
  in which a zero-key peer hides no host's longest match, and `ZeroKeyStrands` shows for every other
  that one command strands a record.
- **One token, two transactions.** A delayed proposal for the active route's token that arrives on another path
  opens a replacement under the same token, because the token is current and not retired;
  `Example.ActiveTokenReplaces` is such a run of a new follower. `ToFollower` proves that this is the only way within
  one process: a token that was used before opens a transaction exactly if it is the active route's own.
- **A restart forgets the retired tokens.** They are kept in memory only. `Example.RestartForgets` is a run in
  which a follower retires a token because the path does not qualify yet, starts again, and takes the same
  token up from the leader, which still proposes it. `ToFollower` proves when this can happen: only by a
  proposal sent since the restart and less than a minute after the leader chose the token, so only for a token retired
  less than a minute before the restart. Within one process no retired token is ever taken up again, however late a
  message is looked at: a proposal is only accepted on a path with a reply less than a minute old, and a poll that
  retires a token leaves no tunnel measurements to accept it with. What was sealed before a restart no
  longer counts afterwards: `Channel.SealedSince`.
- **Two times in one call.** `coordinateRekey` and `applyRekey` go on with the time from before the
  poll. The model does the same; a retired token is therefore dated by the event in which it was retired.

## Model

| member | source | states |
|---|---|---|
| `Kernel.ControlOwner` | control.go:479-501 | returns only the peer that alone holds the longest matching prefix, none only if nothing matches, and an ambiguity only if two peers hold one prefix |
| `Kernel.LongestIsUnique` | control.go:485-499 | where each prefix has one owner, the longest match is one peer and one prefix |
| `Kernel.HostPrefixHoldsOneAddress` | control.go:503-505 | a host prefix contains exactly its own address |
| `Journal.CheckPeer` | control.go:428-468 | accepts only a device that shows what the record and its phase say and, where each prefix has one owner, every such device |
| `Journal.RecoverableIsRestorable` | control.go:312-328 | every record of a recoverable journal passes the check that restore begins with |
| `Journal.RouteBelow` | control.go:452-467 | under a recoverable journal the recorded owner holds the longest match below a direct peer |
| `Recovery.SettingKeepsRecoverable` | control_test.go:102-121 | creating a direct peer or setting its key or endpoint keeps the journal able to recover |
| `Recovery.TakeHostKeepsRecoverable` | control_test.go:122-130 | moving the host prefix to the direct peer keeps it able to recover |
| `Recovery.HostHolders` | control.go:338-357 | a managed host prefix is held by the direct peer or the recorded owner and no other peer |
| `Recovery.ReturnHostKeepsRecoverable` | control.go:352-356 | giving the host back to the recorded owner keeps it able to recover |
| `Recovery.RemoveKeepsRecoverable` | control.go:365-375 | removing a direct peer that has returned its host keeps it able to recover |
| `Recovery.RebootKeepsRecoverable` | control.go:322-325 | a reboot to the baseline keeps it able to recover |
| `Recovery.UndoingKeepsRecoverable` | control.go:329-333 | recording the intent to restore keeps it able to recover |
| `Recovery.AddKeepsRecoverable` | control.go:171-175 | a planning record keeps it able to recover |
| `Recovery.DropKeepsRecoverable` | control.go:376-391 | dropping the record of an absent direct peer keeps it able to recover |
| `Recovery.EmptyIsBaseline` | control.go:112-115 | an empty journal is recoverable exactly when the device is the baseline |
| `Recovery.UndoPassesChecks` | control.go:340-385 | each intermediate device of a restore passes the check that precedes the next step |
| `Recovery.UndoneLeavesOthers` | control.go:301-310 | restoring one record leaves the check and the device entry of every other unchanged |
| `Recovery.UndoneUncovers` | control.go:301-392 | restoring one record leaves exactly the other records between the device and the baseline |
| `Recovery.SameStableRoute` | control.go:164-171 | with other peers managed, the owner found for a host is its owner in the baseline |
| `Recovery.AddStateKeepsRecoverable` | control.go:189-193 | every prefix of the updates of an add request keeps the journal able to recover |
| `Control.EditStaysValid` | control.go:100-110 | a change of phase or hashes leaves a journal that startup accepts |
| `Control.AddStaysValid` | control.go:143-172 | so does a new record, since no recorded owner is the new key and no other record has its host |
| `Control.World.Save` | control.go:526-562 | a save that succeeds leaves the new journal on disk, one that fails either; what it removes is on record with the last device read |
| `Control.World.Configure` | control_test.go:80-132 | a request that is cut leaves a prefix of its updates; an honest kernel that reports success did them all |
| `Control.Controller.Inspect` | control.go:177-183 | without faults a fresh read passes exactly when the record checks |
| `Control.Controller.Store` | control.go:252-257 | a record change that is saved, or not, leaves both journals acceptable and able to recover |
| `Control.Controller.StoreOrNot` | control.go:182-188 | the same, taken back in memory if the save fails |
| `Control.Controller.Ask` | control.go:194 | a request for a managed peer names it or its recorded owner, and only if the peer was last seen as the daemon's own or absent |
| `Control.ForeignConflicts` | control.go:440-447 | a direct peer with a keepalive, an unknown protocol version, another prefix or another key is never restored |
| `Control.Controller.BeginRestore` | control.go:317-337 | the journal changes only after a read on which the record checks, and stays only if no such read was made; success persists the intent |
| `Control.Controller.ReturnHost` | control.go:338-357 | sends at most one request, for an exact host and to the recorded owner; without faults the device is the one with the host returned |
| `Control.Controller.RemoveDirect` | control.go:358-375 | sends at most one request, for the direct peer and after a read that showed it; without faults exactly that peer is gone |
| `Control.Controller.FinishRestore` | control.go:376-391 | a record leaves memory or file only after a last read that shows the direct peer absent and the owner in place, under any external writer and any failed save |
| `Control.Controller.Discard` | control.go:386-391 | removes a settled record from memory and file, or puts it back |
| `Control.Controller.Restore` | control.go:312-392 | safe wherever it is cut; a record it leaves untouched failed its read or its check; without faults it restores a consistent record exactly and changes nothing for a conflicting one; names only the peer and its recorded owner |
| `Control.Controller.RestoreAll` | control.go:301-310 | under any external writer each drop and each request is rightful; without faults, in any order, exactly the conflicting records are kept and all others are restored |
| `Control.Controller.Validate` | control.go:100-110 | accepts exactly the valid journals |
| `Control.Controller.Start` | control.go:86-124 | startup is safe wherever it is cut, and rightful under any external writer; without faults it ends with the baseline |
| `Control.Controller.AllSettled` | control.go:143-154 | accepts exactly when every record is active and consistent and no other manages the host |
| `Control.Controller.PlanPeer` | control.go:160-176 | what it journals names the owner of the longest match for the host in the device that was read, under any external writer; that owner is neither managed nor the node itself, and the journal is otherwise unchanged |
| `Control.Controller.Request` | control.go:189-194 | sends the request of the recorded phase; safe wherever it is cut |
| `Control.Controller.Confirm` | control.go:195-207 | makes the record active only after a read on which the active record checks, under any external writer |
| `Control.Controller.BeginAdding` | control.go:182-188 | persists that an add is under way, or takes it back |
| `Control.Controller.Attempt` | control.go:194-217 | request, confirmation and, after an error, restore |
| `Control.Controller.Install` | control.go:177-218 | success leaves an active, consistent record on disk; after a failed request the record is gone or being undone, unless the restore could not read or found a conflict |
| `Control.Controller.Apply` | control.go:132-218 | safe wherever it is cut; another host or key than the recorded one is refused without effect; success installs the direct peer with its key and, on an honest kernel, its endpoint; every request names the peer or its recorded owner; without faults an eligible peer is installed |
| `Control.Controller.BeginRekey` | control.go:252-257 | persists both key hashes before the key changes |
| `Control.Controller.FinishRekey` | control.go:265-275 | only the new hash remains after the new key was seen |
| `Control.Controller.ReplaceKey` | control.go:252-275 | safe wherever it is cut |
| `Control.Controller.Rekey` | control.go:220-276 | safe wherever it is cut; another key than the recorded one is refused without effect; success changes the key of an active peer and neither its record otherwise nor its endpoint; without faults it succeeds if every managed peer is active |
| `Control.ActiveIsDirect` | control.go:432-447 | an active record of a recoverable journal means that the direct peer is there, with the recorded key and the host |
| `CrashSafety.Execute` | control.go:132-310 | any command leaves a journal on disk that startup accepts and, without external writer, can recover |
| `CrashSafety.CrashAnywhere` | control.go:53-124 | any commands, faults and crashes, then one startup without faults: empty journal and exactly the baseline |
| `CrashSafety.AnyWriter` | control.go:53-392 | any commands, faults, crashes and external writes: an acceptable journal, rightful drops, and requests only for a peer last seen as the daemon's own |
| `CrashSafety.Run` | control.go:53-392 | any commands keep the journal on disk acceptable and, without external writer, able to recover |
| `CrashSafety.ZeroKeyStrands` | control.go:164-183 | where a zero-key peer hides the longest match of a host, adding a peer for it strands a record that no startup clears |
| `Bits.BitOfShift` | secure.go:399-402 | each bit of the shifted 64-bit window |
| `Bits.BitOfSetBit` | secure.go:403 | each bit of the window after one is set |
| `Example.ActiveTokenReplaces` | mesh.go:632-635 | a run of a new follower, with every round trip it measures, in which a late proposal for the active token on a better path opens a replacement under that token; it keeps the invariant of the daemon |
| `Example.RestartForgets` | mesh.go:577-598 | a run in which a token retired by the follower is taken up again after a restart, by a proposal that the leader may still send |
| `Example.MoveKeeps` | mesh.go:171-210 | every move of the example runs keeps the invariant of the daemon |
| `Rate.SecureRate.Allow` | secure.go:78-87 | keeps the log of admissions and admits exactly while the open window has room |
| `Rate.TwiceTheLimit` | secure.go:78-87 | no second holds more than twice the limit of admissions |
| `Replay.UnseenIsNew` | secure.go:392-394 | the test accepts exactly the counters that were not accepted and are fewer than 64 behind the highest |
| `Replay.MarkedTracks` | secure.go:398-404 | the shifted bitmap keeps standing for the set of accepted counters |
| `Secure.Secure.Expire` | secure.go:224-232 | exactly the live sessions remain |
| `Secure.Secure.Room` | secure.go:250-258 | true exactly below both capacity limits |
| `Secure.Secure.Start` | secure.go:287-323 | one start step of the table: a request to the peer under the next ID, with ten seconds to complete; no serial is used twice |
| `Secure.Secure.Seal` | secure.go:414-424 | succeeds exactly on a live, confirmed session for 1 to 364 bytes, and sends the body to the session's peer under its ID and next counter |
| `Secure.Secure.Receive` | secure.go:325-412 | one receive step of the table; what is accepted is genuine, addressed to this node by a peer and numbered in range; data is delivered with its own body; only a full limiter keeps a packet from it, and never data |
| `Secure.Secure.Prune` | secure.go:234-248 | drops exactly the expired sessions and the ready ones that nothing has used for ten seconds, and dates the unused ones; no live session in use goes |
| `Sessions.StartStepFits` | secure.go:287-323 | a start keeps the table: capacity and fresh randomness |
| `Sessions.SealStepFits` | secure.go:414-424 | what is sealed is new, on a confirmed session, under a counter above all before it |
| `Sessions.ReceiveStepFits` | secure.go:325-412 | a receive keeps the table; only a genuine, unseen packet is accepted, and once |
| `Sessions.StartPreserves` | secure.go:306-308 | a start loses and overwrites no live session |
| `Sessions.SealPreserves` | secure.go:414-424 | neither does a seal |
| `Sessions.ReceivePreserves` | secure.go:350-367 | neither does any received packet |
| `Sessions.DeliveredExactly` | secure.go:392-404 | on a live session, authentic data is delivered exactly if its counter was not accepted and is less than 64 behind the highest |
| `Lives.StartLives` | secure.go:310 | started sessions: unconfirmed they end within 10 seconds of creation, confirmed within 10 minutes and 10 seconds |
| `Lives.ReceiveLives` | secure.go:349-411 | so for answered and confirmed sessions |
| `Lives.SealLives` | secure.go:414-424 | so after a seal |
| `Lives.PruneLives` | secure.go:234-248 | so after pruning |
| `Lives.SerialsIncrease` | secure.go:302-306 | every start uses up a new serial |
| `Lives.IdsDiffer` | secure.go:302-306 | under an injective cipher no two started sessions share an ID, also after expiry |
| `Lives.StartHere` | secure.go:287-323 | every session is of this process, and what it drew was first sent after it started: kept by a start |
| `Lives.SealHere` | secure.go:414-424 | a seal keeps the same |
| `Lives.ReceiveHere` | secure.go:325-412 | any received packet keeps the same |
| `Lives.PruneHere` | secure.go:234-248 | pruning keeps the same |
| `Lives.RebootHere` | secure.go:89-131 | true of a new process, and the table fits the history of all earlier ones |
| `Channel.MoveIsOrderly` | secure.go:224-424 | every operation keeps lifetimes, IDs and live sessions in order |
| `Channel.PrunedPrunes` | secure.go:234-248 | the pruning of the table is one of the moves of a run |
| `Channel.MoveKeeps` | secure.go:224-424 | every operation of either node keeps both tables, their order and the authenticity of what was accepted |
| `Channel.RunKeeps` | secure.go:224-424 | so does every run |
| `Channel.DelayBound` | secure.go:310-409 | data is accepted less than 610 seconds after it was sealed |
| `Channel.MoveIsBooked` | secure.go:224-424 | every operation keeps the books: what is sealed is sent under its own number, what is handed out is what was delivered |
| `Channel.BookedDelivers` | secure.go:392-424 | the bodies handed out are those given to be sealed, one for one by keys and counter |
| `Channel.SealedSince` | secure.go:376-411 | data that a session can open was sealed after the process of that session had started |
| `Channel.StepIsCurrent` | secure.go:224-424 | kept by every operation and by a restart: nothing sealed before a process started is delivered by it |
| `Channel.ChannelSafety` | secure.go:135-424 | over every run with restarts and for both nodes: every body handed out was given to the other node in exactly one call and handed out once, in time, by no process younger than the packet; no counter reused, sessions end in time, IDs do not repeat, no live session overwritten, limits kept |
| `Envelope.NumberOfBytes` | secure.go:180 | a number written in big-endian bytes is read back |
| `Envelope.BytesOfNumber` | secure.go:205 | bytes read as a number are written back |
| `Envelope.RecordParts` | secure.go:179-181 | a record holds the length, the packet and zeros only |
| `Envelope.RecordOfParts` | secure.go:205-218 | a record with an admitted length and zero padding is the record of the packet in it |
| `Envelope.RecordUnique` | secure.go:179-181 | different packets have different records |
| `Envelope.ParseWritten` | secure.go:325-338 | a header is read as it was written, and accepted exactly if addressed properly, numbered in range and of the size of its kind |
| `Envelope.WrittenParse` | secure.go:325-338 | whatever is accepted is a written header and names its sender and this node |
| `Envelope.PacketsFit` | secure.go:414-424 | requests, replies and data with a body of at most 364 bytes fit into an envelope, longer data does not |
| `Envelope.SizesByKind` | secure.go:330-338 | what is accepted, in bytes: 186 for a request, 138 for an answer, 107 to 470 for data, and the version and kind bytes |
| `Envelope.CarriesOne` | secure.go:192-222 | a datagram carries one packet at most, from one node to one node |
| `Envelope.AllZero` | secure.go:214-218 | true exactly if only zeros follow |
| `Envelope.Check` | secure.go:205-219 | returns a packet exactly if the text is the record of one that names sender and recipient |
| `Envelope.Envelopes.Wrap` | secure.go:175-189 | succeeds exactly for a known peer and an admitted length; every datagram has 512 bytes and opens to the record of the packet |
| `Envelope.Envelopes.Unwrap` | secure.go:191-222 | returns only what a datagram carries from a configured peer to this node, and nothing only if it carries none or the budget of the second is used up; every key tried is charged, and all are tried until one opens |
| `Envelope.Deliver` | secure.go:175-222 | from one node to another: what arrives was sent, to this node and by a peer of it; what is sent properly arrives unless the budget is used up |
| `Handshake.HandshakeCompletes` | secure.go:287-391 | a request answered in time leaves the same keys under its ID at both nodes |
| `Handshake.SealedIsDelivered` | secure.go:391-424 | once both nodes hold the keys, a body sealed under the ID is delivered by the other |
| `Handshake.HandshakeCarries` | secure.go:287-424 | one handshake, then data in both directions is delivered |
| `Measure.MedianOf` | mesh.go:50-67 | a median exactly if a whole window was measured and four fifths of its probes were answered; then the middle of the round trips at most a window old |
| `Measure.MedianIsMiddle` | mesh.go:60-66 | one of the round trips at most a window old; more than half of these are no longer and at most half are shorter; there is one exactly if enough were answered |
| `Measure.MiddleIsOne` | mesh.go:60-66 | only one value is such a middle |
| `Measure.SortSorts` | mesh.go:65 | the sorted list is ordered and has the same elements |
| `Measure.RecentIsOld` | mesh.go:43-48 | pruning adds no sample and repeats none |
| `Measure.RecentIsExact` | mesh.go:44-58 | exactly the samples at most a window old are recent, each as often as it was there |
| `Measure.AddIsExact` | mesh.go:43-48 | a new sample joins exactly those at most a window old, unless 1024 of them are there |
| `Measure.Needed` | mesh.go:61 | four fifths of the probes of a window, rounded up, and at least three |
| `Story.TrialAgreement` | mesh.go:600-728 | the follower installs a trial only if the leader did; the leader only if the follower prepared it and proved the same key; either activates only if both installed it and both recorded an improvement, which `TwoNodes.MeetAgrees` shows to be measured |
| `Story.RekeyAgreement` | psk.go:223-353 | a key is installed in place only if the other proved it for the same token; a rekey is complete only if both installed it |
| `Story.HonestGrows` | mesh.go:553-563 | what was true of the past stays true as it grows |
| `Steps.HearKeeps` | mesh.go:340-343 | keeps the invariant when a message arrives |
| `Mesh.StartFits` | mesh.go:159-169 | a new process with whatever its predecessors left satisfies the invariant |
| `Mesh.FitBequeaths` | mesh.go:159-169 | every state of the daemon, stopped at any time, leaves such a history |
| `Steps.SayKeeps` | mesh.go:553-563 | keeps the invariant: a message is sent only when it is true, and a proposal only within a minute of the first |
| `Steps.SayRekeyKeeps` | psk.go:216-221 | keeps the invariant: so is a message about a key transition |
| `Steps.RetireKeeps` | mesh.go:579-598 | keeps the invariant when a token is retired: every token retired before stays refused, also when the cache is full |
| `Steps.CancelKeeps` | mesh.go:565-573 | keeps the invariant when a replacement is cancelled and its token retired |
| `Steps.ForgetKeeps` | mesh.go:677-681 | keeps the invariant when the saved previous route is dropped and its token retired |
| `Steps.RestoreKeeps` | mesh.go:907-917 | keeps the invariant when the stable route is back |
| `Steps.RollBackKeeps` | mesh.go:887-895 | keeps the invariant when the previous route is back, with its own measurements |
| `Steps.KeyKeeps` | psk.go:195 | keeps the invariant when the key changes while nothing is selected |
| `Steps.StartRekeyKeeps` | psk.go:176-183 | keeps the invariant when a key transition begins or is agreed on |
| `Steps.NoteRekeyKeeps` | psk.go:267-278 | keeps the invariant when the peer reports on a key transition |
| `Steps.RekeyKeeps` | psk.go:306-307 | keeps the invariant when the new key is installed in place |
| `Steps.FinishKeeps` | psk.go:341-348 | keeps the invariant when a key transition is complete |
| `Steps.AdmitKeeps` | mesh.go:614-622 | keeps the invariant when a proposal passes the retired-token test only when the retention of its token is over |
| `Steps.OpenKeeps` | mesh.go:632-641 | keeps the invariant when the follower accepts a proposal |
| `Steps.QualifiesBeats` | mesh.go:395-411 | a path that qualifies is installable, fresh, measured over a window, and beats the path in use under an active route, and the tunnel otherwise |
| `Steps.ProposeKeeps` | mesh.go:540-547 | keeps the invariant when the leader proposes |
| `Steps.BeginKeeps` | mesh.go:772-783 | keeps the invariant when a route is installed on trial, with fresh measurements |
| `Steps.NoteKeeps` | mesh.go:711-723 | keeps the invariant when commit, committed, keep and hold change the flags of the current route, and logs keeps and holds |
| `Steps.TallyKeeps` | mesh.go:647-694 | keeps the invariant when a keep or hold about something else is logged |
| `Steps.NotePreviousKeeps` | mesh.go:682-685 | keeps the invariant when keep and hold change the flags of the saved route |
| `Steps.GradeKeeps` | mesh.go:823-828 | keeps the invariant when a trial is graded: a good grade is on record with the round trips of this trial whose median improves on the one read at the proposal |
| `Steps.ActivateKeeps` | mesh.go:836-842 | keeps the invariant when a trial becomes active, with a recent keep as the last word of the peer |
| `Mesh.ActivatedOnKeep` | mesh.go:716-723 | a token was made active only after a keep on its path, less than the failure time before and with no hold since |
| `Steps.PingKeeps` | mesh.go:367-379 | keeps the invariant when a probe is sent |
| `Steps.PongKeeps` | mesh.go:319-327 | keeps the invariant when a reply adds a sample of the installation in force, or to the path it came on |
| `Steps.FindKeeps` | mesh.go:348-359 | keeps the invariant when a path is found |
| `Reachable.Exclusive` | mesh.go:512-548 | in every reachable state at most one of replacement, previous route and rekey, each in its phase; a phase exactly when something is selected; a replacement is on another path |
| `Reachable.CacheRefuses` | mesh.go:577-622 | a token retired less than 13 minutes ago is refused, with at most 1024 entries and also after saturation |
| `Reachable.NoTokenLost` | mesh.go:565-598 | every token ever used is current or was retired |
| `Reachable.OwnSample` | mesh.go:319-327 | every tunnel sample, also the only one, is the round trip of a ping sent on the same session under the installation in force |
| `Reachable.DistinctSamples` | mesh.go:319-327 | no ping is counted twice |
| `MeshPeers.MeshPeer.ControlApply` | mesh.go:768 | an unmanaged peer is installed with key and path, of a managed one only the path changes and only under its key; any other failure can leave anything |
| `MeshPeers.MeshPeer.ControlRestore` | mesh.go:903 | success leaves the peer unmanaged |
| `MeshPeers.MeshPeer.ControlRekey` | psk.go:300 | only the key of a managed peer changes, and only from the recorded one |
| `MeshPeers.MeshPeer.Retire` | mesh.go:579-598 | the token is refused for 13 minutes, or every token if 1024 are refused already; what is over is forgotten |
| `MeshPeers.MeshPeer.CancelReplacement` | mesh.go:565-573 | no replacement remains; if there was one, its abort is sent and the cooldown starts |
| `MeshPeers.MeshPeer.Restore` | mesh.go:900-919 | the abort is sent; success leaves nothing selected, replaced, rekeyed or managed, no flag, no sample, and starts the cooldown |
| `MeshPeers.MeshPeer.ForgetRoute` | mesh.go:907-917 | exactly the restore step |
| `MeshPeers.MeshPeer.PollPSK` | psk.go:154-197 | a key that was read is the one in use afterwards or the aim of a transition, and none leaves nothing selected and no key; the key in use, read again from the same process, changes nothing; a new key starts a transition exactly under an active route with both sides able |
| `MeshPeers.MeshPeer.ChangeKey` | psk.go:171-196 | afterwards the key read is the one in use with nothing selected, or the aim of a transition of the unchanged route |
| `MeshPeers.MeshPeer.ReplaceKey` | psk.go:189-196 | the key is replaced, and only with nothing selected |
| `MeshPeers.MeshPeer.Rollback` | mesh.go:864-898 | ends with nothing selected or with the saved route, fresh, resumed now and installed by the controller; unless the environment or the key poll interferes, a saved route with a fresh path does come back with its own measurements |
| `MeshPeers.MeshPeer.BackTo` | mesh.go:887-896 | exactly the rollback step |
| `MeshPeers.MeshPeer.Apply` | mesh.go:730-789 | ends with nothing selected, with the trial of what was agreed on, alive and not overdue (the replaced route saved), or with the route unchanged and the replacement gone; unless the environment interferes, what is alive and in time does go on trial |
| `MeshPeers.MeshPeer.Preflight` | mesh.go:746-761 | a replacement goes on exactly with both paths and the tunnel alive and its deadline not passed |
| `MeshPeers.MeshPeer.InstallRoute` | mesh.go:768-786 | installs exactly the agreed trial, at the controller first, with nothing measured; the leader then commits |
| `MeshPeers.MeshPeer.Begin` | mesh.go:772-783 | exactly the trial step |
| `MeshPeers.MeshPeer.Coordinate` | mesh.go:600-646 | a token is taken up only by opening, on a free machine, in an event that retires nothing, less than a minute after the message arrived; otherwise no deadline moves; a proposal that is not refused opens exactly if it can and its path qualifies; every keep and hold is logged |
| `MeshPeers.MeshPeer.CoordinateProved` | mesh.go:623-646 | the same for the messages that need the key in use |
| `MeshPeers.MeshPeer.PollFor` | mesh.go:624-627 | a poll that retires a token leaves the machine busy or without tunnel samples |
| `MeshPeers.MeshPeer.OpenOrHandle` | mesh.go:632-646 | what opens had tunnel samples, a free machine and a path that qualified when the baseline was read |
| `MeshPeers.MeshPeer.Refuses` | mesh.go:614-622 | a proposal is refused exactly while its token is retained or the cache is saturated, and never for a token not retired by this process in an unsaturated one |
| `MeshPeers.MeshPeer.Open` | mesh.go:632-645 | a proposal opens exactly if its path qualifies, with the tunnel's median as baseline, and is answered with ready; any other is retired and nothing else changed |
| `MeshPeers.MeshPeer.Handle` | mesh.go:647-694 | what a message does to the replacement, the saved route or the current route it is about; one about none changes none, and such a proposal is retired; no deadline moves; every keep and hold is logged |
| `MeshPeers.MeshPeer.HandleReplacement` | mesh.go:647-676 | abort and staleness cancel the replacement and leave the route alone |
| `MeshPeers.MeshPeer.HandleProposal` | mesh.go:652-674 | ready and commit end the proposal; a committed trial is marked so |
| `MeshPeers.MeshPeer.HandlePrevious` | mesh.go:677-687 | abort drops the saved route; a hold only withdraws the peer's keep; a keep counts from now |
| `MeshPeers.MeshPeer.HandleReady` | mesh.go:700-704 | ends in a trial or with nothing selected; in a trial unless the environment interferes |
| `MeshPeers.MeshPeer.HandleCommit` | mesh.go:705-714 | ends in a committed, confirmed trial or with nothing selected; in a trial unless the environment interferes; an installed route is committed |
| `MeshPeers.MeshPeer.HandleCurrent` | mesh.go:695-727 | the effect of each message on the current route, field by field: a hold withdraws the peer's keep and nothing else, a keep counts from now if the route is installed, committed confirms |
| `MeshPeers.MeshPeer.Confirm` | mesh.go:711-714 | an installed route is committed and the confirmation is sent |
| `MeshPeers.MeshPeer.CoordinateRekey` | psk.go:223-250 | unless both sides rekey and the message is on the active path, nothing changes; otherwise what an offer or another message does to the transition; no deadline moves |
| `MeshPeers.MeshPeer.ContinueRekey` | psk.go:238-250 | a message under another key changes nothing; an offer is accepted and answered |
| `MeshPeers.MeshPeer.HandleRekeyCommit` | psk.go:261-270 | ends with the key installed and confirmed, or with the transition given up |
| `MeshPeers.MeshPeer.HandleRekey` | psk.go:251-281 | the effect of each message on the transition, field by field: ready and commit end in the new key installed and told, or in the transition given up; reports count only while observing |
| `MeshPeers.MeshPeer.ApplyRekey` | psk.go:283-310 | a transition that survives is the same, with its key installed and being observed; unless the environment interferes it does survive |
| `MeshPeers.MeshPeer.AdvanceRekey` | psk.go:312-353 | a transition goes on or completes exactly while it is in time, and is given up otherwise; it completes only while observing, with a recent observation of the peer and a fresh tunnel reply; one that goes on is unchanged and repeats its offer |
| `MeshPeers.MeshPeer.Observe` | psk.go:326-352 | a switched key is observed for at most 150 seconds and with a fresh tunnel reply; the transition completes exactly when both nodes have seen a handshake after the switch, the peer recently |
| `MeshPeers.MeshPeer.SwitchKey` | psk.go:306-307 | exactly the rekey step |
| `MeshPeers.MeshPeer.Finish` | psk.go:342-348 | exactly the completion step |
| `MeshPeers.MeshPeer.Advance` | mesh.go:791-862 | a healthy route stays, one that is not is rolled back or given up; what outlives it holds its lease: fresh LAN reply, fresh sign of life in the tunnel, deadlines of trial, proposal and key transition not passed |
| `MeshPeers.MeshPeer.AdvancePending` | mesh.go:799-807 | a proposal is repeated exactly while it is not overdue, and then given up |
| `MeshPeers.MeshPeer.AdvanceTrial` | mesh.go:822-845 | a trial is rolled back exactly if it measures no improvement, measures too little for a window or takes more than two minutes; the grade is good exactly when the median now improves on the baseline; it becomes active, and that is logged, exactly when both sides are good, recently confirmed and committed |
| `MeshPeers.MeshPeer.AdvanceInstalled` | mesh.go:808-851 | rolled back exactly if the tunnel is silent or the trial fails; otherwise unchanged but for its grade and phase, with the grade reported and an unconfirmed commit repeated |
| `MeshPeers.MeshPeer.AdvanceReplacement` | mesh.go:852-860 | a replacement that remains is fresh and in time, and its message is repeated |
| `MeshPeers.MeshPeer.Propose` | mesh.go:520-548 | a leader with nothing under way and past its cooldown proposes exactly if a listed path qualifies, and then one than which none that qualifies is faster; the lease is kept |
| `MeshPeers.MeshPeer.Qualified` | mesh.go:395-411 | the tunnel's median exactly for a path that qualifies: installable, fresh, with a median that improves on the tunnel's or, under an active route, on that of the path in use |
| `MeshPeers.MeshPeer.BestPath` | mesh.go:523-536 | of the listed paths that qualify one with the least median, none only if none qualifies |
| `MeshPeers.MeshPeer.Find` | mesh.go:348-359 | exactly the new path is added, unless sixteen are listed |
| `MeshPeers.MeshPeer.PrunePaths` | mesh.go:486-490 | exactly the fresh, the new and the selected paths stay listed |
| `MeshPeers.MeshPeer.Tick` | mesh.go:413-551 | after every tick without failure a route holds its lease |
| `MeshPeers.MeshPeer.PruneProbes` | mesh.go:452-456 | exactly the probes in time remain |
| `MeshPeers.MeshPeer.Receive` | mesh.go:340-343 | keeps the invariant; what it opens was let through in an event that retires nothing, for a path that qualified; otherwise no deadline moves; keeps, holds and confirmations on a fresh path take effect and are logged |
| `MeshPeers.MeshPeer.RemovePath` | mesh.go:224-235 | afterwards the removed path is neither selected, proposed nor listed |
| `MeshPeers.MeshPeer.Ping` | mesh.go:367-379 | exactly one probe more, if it could be sent and fewer than 2048 are pending; it will count as a measurement if the session is confirmed on its path |
| `MeshPeers.MeshPeer.Pong` | mesh.go:319-327 | a reply counts exactly if its probe is pending and it comes in time, on the session and path of the probe, and then once: as a sign of life and as a sample, on a path only if the session was confirmed before |
| `TwoNodes.ToFollower` | mesh.go:600-728 | no message opens a transaction under a token retired in this process, nor under one retired a minute or more before it started, nor unless it was sent since then and within a minute of the choice of the token; under a used token exactly if it is the active one; otherwise it moves no deadline |
| `TwoNodes.ToLeader` | mesh.go:600-728 | both nodes keep the invariant and hear only what was said; no deadline moves |
| `TwoNodes.Alone` | mesh.go:171-210 | so with ticks, removed paths and probes |
| `TwoNodes.StartAgain` | mesh.go:159-169 | so with a restart, which empties every table; the tokens retired before are remembered only by the record of the run |
| `TwoNodes.Take` | mesh.go:171-210 | so with any turn |
| `TwoNodes.ControllerFollows` | mesh.go:730-789 | the controller of a running node manages the peer exactly in trial and active phases, with the key of the daemon and on the selected path, and its key test never failed |
| `TwoNodes.MeetAgrees` | mesh.go:600-862 | two such nodes agree on every token and key, and a route that either made active was measured by both to be better: the median of round trips of that trial improves on the median read when it was proposed |
| `TwoNodes.GainIsMeasured` | mesh.go:50-71 | behind a recorded improvement: round trip and baseline are the middles of the round trips of a window during the trial and before the proposal, four fifths of the probes answered, with the policy's margins between the two |
| `TwoNodes.SaneIsKept` | mesh.go:836-842 | every route a node made active had a keep as the last word of the peer, less than the failure time before |
| `TwoNodes.Converse` | mesh.go:171-210 | every run of two nodes: invariant, controller in line, agreement on every trial and rekey, every active route measured by both to be better and backed by the peer's recent keep, no token taken up other than as for `ToFollower`, no deadline moved by a message |
| `Managing.Apply` | control.go:132-218 | Control.Controller.Apply does what the daemon relies on: another key is refused without effect, success shows key and endpoint in journal and kernel |
| `Managing.Restore` | control.go:295-299 | so does Restore: success leaves no record |
| `Managing.Rekey` | control.go:220-276 | so does Rekey, and after a failure the controller can still restore |
| `Adapter.Adapter.Invalidate` | rosenpass_linux.go:320-326 | the status is invalid and the file gone, or the error is sticky |
| `Adapter.Adapter.Stop` | rosenpass_linux.go:328-344 | no child, no valid status, no file unless the error is sticky |
| `Adapter.Adapter.Refresh` | rosenpass_linux.go:346-358 | a running child and an unexpired status stay untouched; what stays valid is unchanged and not expired; a child that has ended leaves nothing valid |
| `Adapter.Adapter.Request` | rosenpass_linux.go:283-318 | a request repeated while the child runs and nothing has expired changes nothing and returns the status; another endpoint stops the child and starts a new generation; a valid reply is for the requested endpoint, not expired and unchanged; a withdrawn endpoint, or one off the link, stops the child; nothing starts before a retry is due or after a sticky error |
| `Adapter.Adapter.Start` | rosenpass_linux.go:308-316 | a new generation, with nothing valid |
| `Adapter.Adapter.Event` | rosenpass_linux.go:458-502 | reports of another child change nothing; a stale or invalid report ends validity; a new young key of the running child is published; a key is valid for at most three minutes |
| `Adapter.Adapter.Exchange` | rosenpass_linux.go:472-502 | a repeated key neither renews nor revives anything; an unreadable or old one ends validity; a new one is valid until three minutes after it was written or reported, whichever is first |
| `Adapter.Adapter.Publish` | rosenpass_linux.go:495-501 | valid exactly if the file was replaced and that was reported; then for this key and under a new key generation |
| `Adapter.Happen` | rosenpass_linux.go:162-200 | every event of the adapter, also a restart under a new ID, keeps file and status consistent |
| `Adapter.ReadPeerKey` | psk.go:139-151 | a key read between two equal valid replies was the published one at every moment in between, from one process, and matches the hash; a valid key of the same endpoint is read if nothing happens in between |

## Left out

- Sockets, multicast, discovery timing, interface selection and netlink: `network.go` and `routes_linux.go` are
  not part of this model; any path may carry any message.
- Cryptography: X25519, Noise IK (section 7.5 of the Noise Protocol Framework, revision 34), the AEAD, SHA-256
  and HMAC are ideal. So is the cipher of the envelope: a box opens with the key and nonce it was sealed with only.
- That the block cipher behind local session IDs is injective is a condition of `ChannelSafety`, not proved.
- JSON, file permission and ownership checks, the file lock and `readPSKFile` beyond success and result.
- `main.go`, flags, systemd notification, dry run and `rosenpass-select`, which only chooses the path that Rosenpass is told.
- Improvement is computed with reals for the fraction, where the source has floating-point numbers.
- The interval between probes: `Ping` may be called at any time, while `tick` calls it once per interval.
- Several peers of one daemon share the controller (`Control` models that) but nothing else, so the route machine has one.
- `RestoreAll` visits each record once; Go may visit a record again that a failed save put back, which is one more retry.
- A kernel that reports success without doing the work is part of `CrashAnywhere` and `AnyWriter`, but not of `Managing`.
- IPv6 zones: a link-local endpoint without a zone, which the controller refuses, is not told apart from one with a zone.
- A handshake time does not identify a key generation, so nothing is claimed from one.
