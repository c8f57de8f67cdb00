# Embernet in Dafny

Embernet keeps signed, append-only channel logs on every node and reconciles them between peers. This
project models the parts on which its promises rest, and proves them.

Each file is one module.

- `Chain`, `Policy`, `Moderation`, `Admin`, `AdminStore`: the two hash-linked histories of a channel. Signed
  policy events are replayed into owner, roles, mode and visibility; signed moderation events are judged
  against the policy at the head they cite. Remote histories are taken over only as extensions, forks are
  filed beside the active history, and an operator selects one of them. `Roles` and `Authority` say the same from
  the events alone: who has a role is the last word of the history on it, and what a node accepts follows from that.
- `Proto`, `LogFormat`, `LogIndex`, `LogStore`, `LogMachine`, `TailOrder`, `ChannelLog`: envelopes, the log
  as bytes, and the index that can be rebuilt from it. `LogMachine` lets any number of processes work on one
  log and stop at any point: between two steps, in the middle of a write, or with the whole machine. `LogLines`
  says which bytes a scan accepts and what it reads, `LogProgress` what single processes do to the log, and
  `Buckets` what locations and summaries stand for.
- `BucketSync`, `SyncResults`, `SyncProgress`, `Transport`, `Provenance`, `Uploads`: the message part of sync
  protocol version 9, as a machine of two nodes with other writers at work on both, and the server's receive
  loop. `Transport` lets each direction hold only so much, so that sends wait.
  `Gossip` and `Convergence` let any number of nodes hold any number of such sessions at once.
- `Keyring`, `KeyExchange`: channel keys, offers wrapped for one recipient, and encrypted messages.
- `Reconcile`: the administrative part of a sync between two nodes. `Federation`: any number of nodes that
  change policy, rotate keys and synchronise, where every turn of a session and each half of a rotation is a
  step of its own. `Turns` says that sessions take their turns in order, `Rotations` from the events when keys are
  made, and `Sessions` what whole sessions come to. `Histories` says what all runs do to policies, and
  `PolicyRounds` how the longest history reaches everyone. `KeySafety` says what the runs with clean offers do to
  keys, `KeyLeaks` and `ReturnLeaks` what the other runs do, `WriteKeys` which key is used afterwards, and
  `OldKeys` follows one run in which a removed member still reads.
- `Payloads`: the seven kinds of byte string that identities sign.
- `Peers`, `PeerOperations`: the peer list and its pins.
- `Locks`, `Updates`: file locks, deadlock freedom, and what the locks are for: no change of a file is lost, and
  each is made while everything it was decided on is as it was read.

Loops and in-place updates of the program are methods and classes here, each proved against a function that
says what it computes. The theorems are about those functions and about machines built from them.

## What is assumed

Cryptography and serialisation are function-valued parameters with stated laws, never axioms.

- Signatures verify what they signed; what was sealed opens under the same key, nonce and associated data; two
  identities compute the same shared secret; JSON decodes to what was encoded, holds no raw newline, ends in a
  brace and writes fields in the order of their declaration.
- No hash is assumed injective. Where collisions would matter, the payloads or raw keys that occur in one run
  form a finite set, and that set is assumed free of collisions (`CollisionFree`, `NoKeyCollision`,
  `NoBucketCollision`). Message ids are not assumed free of collisions.
- `None` stands for every error; the texts of errors are not part of the model.

## What the proofs show about the code

- Reconciliation converges on ids. An id covers the message but neither its author nor its channel, so two
  identities that sign the same message make two envelopes with one id (`Provenance.TwoSignersOneId`), and nodes
  that hold one each never come to agree, whatever any nodes synchronise (`Gossip.ClashesStay`). A completed sync
  leaves the same envelopes on both sides exactly if no id stood for different ones before
  (`Provenance.SameEnvelopesIff`).
- The server sends all it has to send before it reads (`src/sync.rs:382-391`), and so does the client once it is
  asked (`src/sync.rs:668-680`). A sync that nobody disturbs can complete exactly if the id lists of the differing
  buckets keep the cap, both nodes admit the authors of what they lack, and the transfer fits into the transport in
  one direction at least (`Transport.CompletesIff`). If it fits in neither, both nodes wait for the other to read
  until the client gives up, neither log has changed, and every retry ends the same way
  (`Transport.TryingAgainIsStuck`); two nodes with nothing in common and enough messages are such a case
  (`Transport.LargeLogsAreStuck`). Likewise one envelope that a side lacks and its policy refuses stops the whole
  sync, every time.
- Event ids do not cover the signature. "The same history" means equal in everything else.
- Two peers may end a key exchange with the same keys in different orders, and may then write with different
  keys. The orders differ exactly when neither ring was the beginning of the other
  (`KeyExchange.IdenticalIffPrefixRelated`).
- Revoking a role shuts the identity out of a private channel exactly if it does not own the channel and has no
  other role (`Policy.RevokeShutsOutIff`); the repository's `README.md:174` says "any role".
- The decision record on private channel encryption (`docs/decisions/adr-014-private-channel-encryption.md`)
  says that a revoked member does not receive the rotated key. Whoever has a key has the policy under which its
  rotation was finished in every run in which all offers are clean: the one who offers keys has got or
  finished none since it put its policy on the wire (`KeySafety.PolicyTravelsBeforeKeys`). The code does not
  see to this, in three places. It makes the key before it appends the removal and holds no lock in between
  (`src/store.rs:435-446`, and likewise in `transfer_ownership` and `set_channel_visibility`), so a member who
  synchronises in the gap gets the key that was meant to shut it out (`KeyLeaks.HalfRotationLeaks`). The server
  reads its keys again after it sent its policy (`src/sync.rs:224-275`), so a rotation at that moment hands out a
  key before its policy (`KeyLeaks.LateRotationLeaks`). And the client, too, reads its keys again after it reported
  its policy (`src/sync.rs:520`, `src/sync.rs:622-628`), so a removal at the client hands the server such a key,
  even if it is the server that was removed (`ReturnLeaks.LateReturnLeaks`). A session hands keys to the client
  exactly under the guards of `KeyLeaks.HandedOverIff`, and to the server exactly under those of
  `ReturnLeaks.HandedBackIff`. A session whose turns nothing interrupts, between nodes without a half-made key, is
  clean (`KeySafety.UndisturbedSessionIsClean`).
- After a session each node writes with the last key of the other that it lacked, however old, and with its own
  newest key exactly if it lacked none (`WriteKeys.WriteKeyAfterSession`). An outsider reads what is written exactly
  if it has the id of that key (`KeyExchange.OutsiderReadsIff`). So the documented promise that a removed identity
  cannot read later messages fails in clean runs, too: a peer makes the key of a removal and stops before the policy
  action, a reader gets that key, the remover removes the reader by a finished rotation and synchronises with the
  peer, and then writes with the older key, which the reader has (`OldKeys.OlderKeyReturns`).
- After a policy resolution that drops a head which the moderation history cites, that history can no longer
  change, by any operation (`Admin.FrozenIff`); if the new policy history put another event in the place of
  that head, only another policy resolution helps (`Admin.FrozenUntilResolved`).
- Adopting a legacy policy takes over its role lists unchecked: role lists are sorted and free of repetitions
  throughout exactly if the opening adoption was (`Policy.TidyIffOpeningTidy`), and an adoption that is not is
  valid (`Policy.UntidyAdoptionIsValid`).
- After a torn write no append to that log succeeds again, short of a power loss that cuts the torn record away
  (`LogMachine.TornLogIsFrozen`); the program has no repair.
- Every change of a log, a history or a keyring is decided on files that are still as they were read, in every
  interleaving (`Updates.WritesOnWhatWasRead`), with one exception. `resolve_moderation_conflict` judges the selected
  history before it takes its locks (`src/store.rs:1199-1206`) and does not judge it again, so it can make a history
  active under a policy that refuses it (`Updates.ResolutionCanBeStale`).

## Model

| member | source | states |
|---|---|---|
| Chain.HeadCommitment | src/store.rs:649-674 | two valid histories with the same head id have the same length and agree event by event in everything but the signature |
| Chain.SharedIdSharedPast | src/store.rs:649-674 | wherever two histories share an id they share the position and everything before it |
| Chain.DistinctIds | src/store.rs:799-820 | an event id occurs once in a history, so a head names one history and the position of a cited head is unambiguous |
| Chain.SpliceLinked | src/store.rs:771-787 | keeping the local copy of the shared part and appending the peer's remainder gives a linked chain |
| Chain.Position | src/store.rs:1058-1062 | the first position of an id, and no position exactly when the id does not occur |
| Policy.PolicyCell.ApplyAction | src/store.rs:676-742 | the in-place update of the policy computes the specified action, and a refused action changes no field |
| Policy.DerivePolicy | src/store.rs:649-674 | the replay loop computes the replay of the whole history, and fails exactly when it is invalid |
| Policy.ReplayComposes | src/store.rs:649-674 | replaying a history equals replaying its first part and continuing from that policy and head |
| Policy.ValidPrefix | src/store.rs:649-674 | every prefix of a valid history is valid |
| Policy.AgreeingReplay | src/store.rs:649-674 | histories that differ only in signatures derive the same policy |
| Policy.GenesisOnlyFirst | src/store.rs:682-702 | a valid history begins with Restrict or Adopt and contains neither afterwards; its policy is restricted exactly when it has an owner and exactly when the history is not empty, and private only if restricted |
| Policy.ActorsGovern | src/store.rs:517-533 | after the first event every actor was owner or moderator at the moment it acted |
| Policy.OnlyOwnerChangesRule | src/store.rs:676-742 | over any stretch without an event of the then-current owner, the owner, moderators, mode and visibility stay the same |
| Policy.RolesStayTidy | src/store.rs:703-741 | role lists stay sorted, free of repetitions and made of well-formed keys if adopted policies are so |
| Policy.TidyIffOpeningTidy | src/store.rs:690-698 | along a valid history the role lists are tidy at every point exactly if the adoption that opened it, if one did, was tidy |
| Policy.UntidyAdoptionIsValid | src/store.rs:690-698 | an adoption that lists its owner twice as a moderator is a valid history |
| Policy.RevokeShutsOutIff | README.md:173-175 | removing a role shuts an identity out of reading exactly if the channel is private, the identity does not own it and has no other role; the documentation promises it for any role |
| Policy.SpliceValid | src/store.rs:759-793 | local part plus remote remainder is a valid history that derives exactly the remote policy |
| Roles.PolicyByLastWord | src/store.rs:649-742 | in the policy of a valid history a key is in the list of a role exactly if the last event about the two is a grant of it or an adoption that lists it, where revoking the pair, making the key owner and adopting a policy without it count as events about the two; the owner is the one named last, the visibility the one set last, and the channel is restricted exactly if there is an event |
| Roles.AppliesIffPermitted | src/store.rs:676-742 | an action is accepted after a valid history exactly if its events make the actor owner, or moderator where that is enough, and the keys it names are well formed |
| Roles.ValidIffAllInOrder | src/store.rs:649-674 | a history is valid exactly if each event belongs to the channel, names its predecessor, carries the hash and a signature of its content, and is permitted by the events before it |
| Roles.WritesIff | src/store.rs:376-390 | after a valid history a key may write exactly if there is no event, or the last word makes it owner, moderator or writer; a reader may not |
| Roles.ReadsIff | src/store.rs:357-363 | it may read exactly if the last word on the visibility is not private, or it is the owner or has any role |
| Roles.RevokeEndsWritingIff | README.md:173-175 | removing a role ends writing exactly if the key does not own the channel and is neither moderator nor writer otherwise |
| Authority.PolicyActionIff | src/store.rs:570-619 | a node with a valid history appends its signer's action exactly if the last words permit it: one event with that action and signer behind the old head, and otherwise nothing |
| Authority.AdoptionIff | src/store.rs:584-602 | without a history, the legacy policy and the first action become the history exactly if that policy is restricted, belongs to the signer and permits the action |
| Authority.AuthorisedIff | src/store.rs:1058-1067 | whoever the policy events up to the cited head make owner or moderator is authorised, and nobody else, whatever later events say |
| Authority.ModerationValidIff | src/store.rs:1046-1100 | a moderation history is valid exactly if each event is in order, has a well-formed target and is by someone who was owner or moderator at the head it cites |
| Authority.ModerationActionIff | src/store.rs:971-1005 | a node with valid histories appends its signer's moderation action exactly if the signer is owner or moderator by the last words of its policy history and the target is well formed |
| Authority.ValidKeyIff | src/store.rs:312-318 | keys and targets are well formed exactly if they read as 32 bytes in hexadecimal, in either case |
| Moderation.FindHead | src/store.rs:1058-1062 | the search for a cited policy head |
| Moderation.DeriveModeration | src/store.rs:1046-1100 | the moderation loop computes the replay against the policy history |
| Moderation.ReplayIff | src/store.rs:1046-1100 | a moderation history is valid exactly when each event is in order and was authorised at the head it cites |
| Moderation.HiddenIffLastIsTombstone | src/store.rs:1087-1096 | a message is hidden exactly when the last event about it is a tombstone, with that event's reason |
| Moderation.SameHeadSameAuthority | src/store.rs:1058-1067 | a head that occurs in two valid policy histories authorises the same actors in both |
| Moderation.PolicySwitch | src/store.rs:840-881 | after the policy history was replaced, a moderation history stays valid exactly when every head it cites occurs in the new one, and then derives the same state |
| Moderation.PolicyExtension | src/store.rs:1046-1100 | extending the policy history changes no moderation state |
| Admin.NoEventIsEverLost | src/store.rs:759-881 | over every run of local and remote appends, saves and resolutions of both chains, also interrupted ones, the active policy history stays valid and no event that was active or saved is lost |
| Admin.OnceActiveAlwaysKept | src/store.rs:759-881 | whatever was active at any moment of a run from empty files is in the active or a saved history at the end |
| Admin.LocalAppendIffAllowed | src/store.rs:570-619 | a local action is appended exactly when the current policy lets its signer do it, and then derives the changed policy |
| Admin.AdoptionIffAllowed | src/store.rs:584-602 | the owner of a restricted legacy policy adopts it with its first action exactly when that policy allows the action, which then starts from the legacy policy |
| Admin.FrozenIff | src/store.rs:971-1225 | once another valid policy history is active, some operation can change the moderation history exactly if there is a policy and every head the history cites occurs in it |
| Admin.FrozenUntilResolved | src/store.rs:840-881 | if the place of a cited head is taken by another policy event, no run of operations without a policy resolution changes the moderation history |
| Admin.PolicyStep | src/store.rs:840-881 | each policy operation keeps the active chain valid and drawn from the run's payloads, keeps every saved history filed under its head, and loses no event |
| Admin.ModerationStep | src/store.rs:1102-1225 | each moderation operation keeps linked chains, keeps saved histories filed under their heads, and loses no event |
| Admin.SaveKeeps | src/store.rs:799-820 | overwriting a saved conflict of the same head loses nothing |
| Admin.CutResolutions | src/store.rs:863-872 | a resolution that stops half-way has filed the displaced history and left the active one |
| Admin.ResolvingBack | src/store.rs:840-881 | after a resolution between different heads the displaced history can be selected again, and is then active as it was |
| AdminStore.AdminFiles.AppendPolicyAction | src/store.rs:570-619 | the operation on the files is the specified one, which adopts a restricted legacy policy first if there is no history; on success the history grew by one event, or by two with an adoption, and otherwise it did not change |
| AdminStore.AdminFiles.AppendRemotePolicyHistory | src/store.rs:759-793 | succeeds exactly if both histories are valid and the remote one extends the local one, and then only appends the missing events |
| AdminStore.AdminFiles.SavePolicyConflict | src/store.rs:799-820 | succeeds exactly for a valid non-empty history, which is filed under its head |
| AdminStore.AdminFiles.ResolvePolicyConflict | src/store.rs:840-881 | succeeds exactly if the head is well formed, a history ending in it is filed under it, and that history and the active one are valid; then that history is active, and the one it displaced is filed under its own head exactly if the heads differ; otherwise nothing changes |
| AdminStore.AdminFiles.AppendModerationAction | src/store.rs:971-1005 | succeeds exactly if there is a policy and the history with the new signed event is valid, and then appends that event |
| AdminStore.AdminFiles.AppendRemoteModerationHistory | src/store.rs:1102-1137 | succeeds exactly if both moderation histories are valid under the policy on disk and the remote one extends the local one, and then only appends the missing events |
| AdminStore.AdminFiles.SaveModerationConflict | src/store.rs:1143-1164 | succeeds exactly for a non-empty moderation history that is valid under the policy on disk, which is filed under its head |
| AdminStore.AdminFiles.ResolveModerationConflict | src/store.rs:1184-1225 | succeeds exactly if the head is well formed, a history ending in it is filed under it, and that history and the active one are valid under the policy on disk; then that history is active, and the one it displaced is filed exactly if the heads differ; otherwise nothing changes |
| AdminStore.AdminFiles.CheckModeration | src/store.rs:1038-1044 | a moderation history is judged against the replayed policy history on disk |
| Proto.HexRoundTrip | src/proto.rs:156-178 | decoding encoded bytes gives them back |
| Proto.HexAlphabet | src/proto.rs:156-178 | ids are written with the digits 0 to 9 and a to f |
| Proto.Sign | src/proto.rs:156-178 | a signed envelope verifies and carries the message, channel and signer it was made for |
| Proto.Verify | src/proto.rs:187-226 | verification accepts exactly envelopes with matching time stamp, signature over channel and message, and content id |
| Proto.GenuineIdIsCanonical | src/proto.rs:187-226 | the id of a verified envelope is 32 bytes in lower-case hexadecimal |
| LogFormat.ScanVerified | src/store.rs:1410-1464 | the scanning loop computes the scan of the log |
| LogFormat.ScanRendered | src/store.rs:1410-1464 | scanning a log of whole records gives exactly their envelopes and places, and a torn record at the end makes it fail |
| LogFormat.PlaceOrdered | src/store.rs:1410-1464 | record places follow each other in log order |
| LogIndex.RebuildIndex | src/store.rs:1286-1338 | the rebuilding loops compute the index of the scanned log |
| LogIndex.FillTables | src/store.rs:1314-1332 | each non-empty bucket is stored sorted and concatenated beside its hash, and no other |
| LogIndex.FillBuckets | src/store.rs:1310-1320 | raw ids are distributed over 256 buckets by their first byte |
| LogIndex.IndexInsert | src/store.rs:1346-1390 | the table updates compute the specified insertion |
| LogIndex.InsertIsRebuild | src/store.rs:1346-1390 | inserting the entry of an appended record into the index of a log gives exactly the index of the longer log |
| LogIndex.OneBucketChanges | src/store.rs:1357-1380 | an insertion changes one bucket, which becomes the sorted bucket of the longer list |
| LogIndex.ArrivalOrderIrrelevant | src/store.rs:1580-1603 | two logs with the same ids in any order have identical buckets and bucket hashes |
| LogIndex.MembersDetermineBucket | src/store.rs:1346-1390 | stored bucket contents determine which ids are in the bucket |
| LogStore.EnsureExact | src/store.rs:1266-1284 | opening the index succeeds exactly when no record is torn, and then yields the index of the whole log: the length stamp cannot deceive |
| LogStore.CommitExact | src/store.rs:298-305 | committing the entry of a just written record gives the index of the longer log |
| LogStore.IndexedIds | src/store.rs:1340-1344 | an id is in the index exactly when a logged envelope has it |
| LogMachine.EveryRunIsSound | src/store.rs:260-306 | in every state that any number of processes reach, with crashes at any point, torn writes and power loss, the log is whole genuine records with distinct ids and at most one torn one, and opening the index succeeds exactly when none is torn and gives the rebuilt index |
| LogMachine.TornLogIsFrozen | src/store.rs:1410-1464 | after a torn write no process changes the log again, short of a power loss |
| LogMachine.StepKeeps | src/store.rs:281-305 | what every single step of a process, and every crash, keeps |
| LogLines.ScansIff | src/store.rs:1410-1464 | a scan of any bytes succeeds exactly if they end with a newline and every line that is not blank is the record of a genuine envelope |
| LogLines.ScanReads | src/store.rs:1410-1464 | each scanned entry is what stands on its line, in the order of the lines |
| LogLines.ScanLists | src/store.rs:1410-1464 | each line that is not blank has its entry |
| LogProgress.AppendCompletes | src/store.rs:281-305 | from every reachable state with a whole log and a free lock, an append of a new envelope that nothing stops adds exactly its record and leaves a current index and a free lock |
| LogProgress.OthersLeaveTheLog | src/store.rs:285-290 | an append of a known id, or on a torn log, leaves the log as it was |
| LogProgress.CrashesLeave | src/store.rs:292-297 | a crash in a write leaves exactly the written part, and a power loss the kept part, and both free the lock |
| Buckets.MessagesIff | src/store.rs:1300-1309 | the rebuilt table of messages has the place of the last record of each logged id, and no other place |
| Buckets.BucketByText | src/store.rs:1310-1320 | the bucket of an id is the number that its first two hexadecimal digits write |
| Buckets.MembersSorted | src/store.rs:1321-1326 | the stored members of a bucket are its raw ids, each as often as it is logged, in ascending order |
| Buckets.SummariesMean | src/store.rs:1580-1603 | there is one summary for each bucket that holds something and no other, in ascending order, with the number of its ids and the hash of its sorted members |
| ChannelLog.ChannelFile.EnsureIndex | src/store.rs:1266-1284 | believes a current stamp, rebuilds anything else, and fails exactly on a torn log |
| ChannelLog.ChannelFile.AppendMessage | src/store.rs:260-306 | succeeds exactly for a genuine envelope of this channel on a log that is not torn, if the channel is open or the author is its owner, a moderator or a writer; adds it once, and the index is that of the new log |
| ChannelLog.ChannelFile.AppendUnder | src/store.rs:260-306 | under the policy of a valid history it succeeds exactly if there is no policy event, or the last words make the author owner, moderator or writer |
| ChannelLog.ChannelFile.WriteRecord | src/store.rs:292-305 | writes one record and commits its entry |
| ChannelLog.ChannelFile.ReadIndexed | src/store.rs:1639-1660 | returns the verified envelope that lies at a location |
| ChannelLog.ChannelFile.ReadMessageById | src/store.rs:1622-1637 | finds a message exactly if it is logged |
| ChannelLog.ChannelFile.ChunkSummaries | src/store.rs:1580-1603 | one summary with count and hash for each non-empty bucket, in ascending order |
| ChannelLog.ChannelFile.ChunkIds | src/store.rs:1605-1619 | exactly the logged ids that fall into the bucket |
| ChannelLog.ChannelFile.ReadTail | src/store.rs:1491-1530 | the index-driven tail read gives the last n envelopes in log order of those that are not hidden, or of all in audit mode |
| ChannelLog.ChannelFile.CollectTail | src/store.rs:1517-1529 | reading backwards until enough visible records are found gives the last n visible ones |
| ChannelLog.CollectSummaries | src/sync.rs:308-312 | a receiver that collects summaries has exactly the stored bucket hashes |
| ChannelLog.BucketTexts | src/store.rs:1605-1619 | the texts of a stored bucket are exactly the ids that fall into it |
| TailOrder.Entries | src/store.rs:1509-1516 | the table of locations lists each logged id once |
| TailOrder.EntriesInOrder | src/store.rs:1517 | sorting the entries by descending offset gives the log backwards |
| TailOrder.GatherEnd | src/store.rs:1519-1529 | what a backward walk gathered, reversed, is the last n visible envelopes |
| TailOrder.VisibleHas | src/store.rs:1519-1522 | exactly the logged envelopes that are not hidden are visible, in log order |
| TailOrder.VisibleOne | src/store.rs:1519-1522 | an envelope is shown or hidden by its id alone |
| TailOrder.LastNIsEnd | src/store.rs:1523-1529 | the last n are the end of the list, and all of it if it has no more |
| TailOrder.ShownIff | src/store.rs:1491-1530 | under a valid moderation history a message is shown in the whole tail exactly if it is logged and the last event about it is no tombstone |
| BucketSync.StepKeeps | src/sync.rs:307-405 | every step of a message sync, of another writer or of a failure keeps the session invariant, only lengthens logs, and only another writer adds an id to the union |
| BucketSync.FinishKeeps | src/sync.rs:389-411 | a session that completes has brought over every listed id in both directions |
| BucketSync.UpAfterReceive | src/sync.rs:389-404 | each upload is requested, arrives once, and the wanted ids and the count stay in step |
| BucketSync.DownAfterDownload | src/sync.rs:682-690 | each download is genuine, and every listed id is still to be sent, on its way or logged |
| BucketSync.AppendIff | src/store.rs:376-390 | a node takes an envelope from exactly those whom its policy lets write, and takes an id once |
| BucketSync.RefusalsAbort | src/sync.rs:389-404 | an upload that was not requested, a forged one and one by an author who may not write end the session without changing a log, and so do such downloads |
| SyncResults.CompletedSyncCovers | src/sync.rs:307-405 | after a completed sync, whatever other writers did, the server holds every id the client had when it took its summaries and the client every id the server had when it took its own |
| SyncResults.QuietSync | src/sync.rs:644-690 | without other writers each log stays between its old ids and the union at every moment, and both hold exactly the union at completion |
| SyncResults.NothingInvented | src/sync.rs:307-405 | what the two nodes hold together never shrinks and grows only by what other writers wrote |
| SyncResults.RetryReachesSameUnion | src/sync.rs:371-405 | a sync stopped anywhere and run again reaches the union of the original logs |
| SyncResults.SameIdsNothingMoves | src/sync.rs:322-340 | nodes with equal id sets exchange nothing, even if they hold different envelopes under one id |
| SyncResults.DifferingHas | src/sync.rs:322-340 | the list of differing buckets holds exactly the buckets that one side lacks or hashes differently |
| SyncResults.ListedIff | src/sync.rs:322-340 | without hash collisions exactly the buckets in which the two logs differ are listed |
| SyncResults.EqualHashEqualBucket | src/sync.rs:322-340 | without hash collisions, buckets that do not differ hold the same ids |
| Transport.CompletesIff | src/sync.rs:364-411 | over a transport of limited room, a session, wherever it stands, has an undisturbed continuation that completes it exactly if the lists it has made or will make keep the id cap, both nodes admit the authors of what they lack, and what is to be transferred fits into the transport in one direction at least |
| Transport.EndsOnlyIf | src/sync.rs:364-404 | before anybody gives up waiting, an undisturbed session breaks off only if its lists exceed the cap or an author is refused |
| Transport.StuckForGood | src/sync.rs:382-391 | if the transfer fits in neither direction, no run of the session completes it or changes a log, whether it goes on waiting or gives up |
| Transport.TryingAgainIsStuck | src/sync.rs:506-513 | however often the two nodes try again, nothing changes |
| Transport.LargeLogsAreStuck | src/sync.rs:671-679 | two nodes without a common id, each with more than the transport holds, never come together, although every check passes |
| Transport.OneWayFlows | src/sync.rs:371-391 | a node that has nothing new for the other does not get stuck with it |
| Transport.StepKeepsFlow | src/sync.rs:382-391 | no step of the session changes whether it gets stuck |
| Transport.FlowRunIsRun | src/sync.rs:382-391 | a run in which sends wait is one of the unrestricted runs, so everything that holds of those holds of it |
| Transport.SyncReachesUnion | src/sync.rs:307-411 | two nodes whose lists fit, one direction of which fits into the transport, can complete a sync, and it leaves both with exactly the union |
| SyncProgress.StepFits | src/sync.rs:322-411 | no step of the session itself changes whether its lists fit |
| SyncProgress.SmallLogsFit | src/sync.rs:364-366 | logs of admitted authors that are not larger than the cap pass every check |
| Provenance.EnvelopesComeFromTheLogs | src/sync.rs:371-405 | without other writers every envelope that is logged or on its way is one of the two original logs |
| Provenance.SameEnvelopesIff | src/proto.rs:156-166 | a completed sync without other writers leaves both nodes with the same envelopes exactly if no id stood for different envelopes in the two logs |
| Provenance.TwoSignersOneId | src/proto.rs:156-178 | two identities that sign the same message make two genuine envelopes with one id |
| Gossip.ClashesStay | src/proto.rs:156-178 | if one id stands for different envelopes in the logs of two nodes of a network, no run of syncs between any nodes makes the two logs agree |
| Gossip.NetStepKeeps | src/sync.rs:307-405 | with any number of sessions between any nodes at once, every step keeps the invariant of every session and only lengthens logs |
| Gossip.GroupConserves | src/sync.rs:307-405 | over every interleaving of sessions, aborted or not, nodes that no session connects with the others keep every id they hold together and gain only what their own writers write |
| Gossip.TrailHolds | src/sync.rs:307-405 | starting from nodes that hold a set of ids, every node that completes a sync with one reached before the session was opened holds that set, whatever happens in between |
| Gossip.LocalSteps | src/store.rs:260-306 | a local write puts a genuine envelope of an admitted author into the log of its node and changes nothing else |
| Gossip.SessionSteps | src/sync.rs:307-405 | any two nodes can open a session, and a step of it is a step of its two nodes as they are then and of nothing else |
| Convergence.RoundsSpreadEverything | src/sync.rs:307-405 | when in one round less than there are nodes a sync is opened and completed along every edge of a connected graph, every node holds what any node held at the beginning |
| Convergence.RoundsReachUnion | src/sync.rs:307-405 | if nobody writes meanwhile every node then holds exactly the union |
| Uploads.ReceiveUploads | src/sync.rs:387-405 | the receive loop succeeds exactly when some first part of the stream holds every wanted id once and nothing unacceptable; it appends only requested ids, each once, and counts as many as were wanted |
| Uploads.TakeUpload | src/sync.rs:417-422 | an upload is taken off the wanted ids and appended, or refused |
| Uploads.MergedIds | src/store.rs:285-290 | offering envelopes one by one keeps the log in front and adds exactly the offered ids |
| Keyring.KeyringFile.Generate | src/crypto.rs:99-112 | drops an equal id and makes the new key the last one |
| Keyring.KeyringFile.AcceptOffers | src/crypto.rs:282-346 | accepts a whole batch or changes nothing, and counts the new keys |
| Keyring.RotationKeeps | src/crypto.rs:99-118 | rotation keeps every other key, makes the new one current, and for a new id leaves the old ring in front |
| Keyring.AcceptingExtends | src/crypto.rs:282-346 | an accepted batch keeps the ring in front and in order, adds exactly the offered ids, and repeats none |
| Keyring.OfferUnwraps | src/crypto.rs:213-346 | the recipient recovers exactly the key that was wrapped for it |
| Keyring.OffersMerge | src/crypto.rs:235-346 | offers made from a ring are all accepted and merge that ring behind one's own |
| Keyring.OfferSeals | src/crypto.rs:235-280 | an offer carries the raw key sealed under the wrap key of the two identities, this channel and the key id, bound to sender and recipient, and signed |
| Keyring.UnwrapsIff | src/crypto.rs:288-333 | an offer gives a raw key exactly if it is for this channel and recipient, its signature verifies, the two share a secret, the nonce has 24 bytes, and what opens under the wrap key and this binding is a key of 32 bytes whose hash is the offered id |
| KeyExchange.ExchangeMerges | src/sync.rs:268-306 | a two-way exchange runs to its end exactly when neither batch exceeds the offer limit, and then merges each ring behind the other |
| KeyExchange.ExchangeUnites | src/sync.rs:268-306 | after a complete exchange both rings hold exactly the keys of the two together, in the old order first and without repeated ids |
| KeyExchange.IdenticalIffPrefixRelated | src/crypto.rs:282-346 | the two rings become identical exactly when one was the beginning of the other |
| KeyExchange.DecryptsForever | src/crypto.rs:131-190 | a message encrypted at any time decrypts to the same text after any later rotations and accepted offers |
| KeyExchange.RotationSwitchesKey | src/crypto.rs:131-155 | after a rotation messages use the new key, which the ring before it cannot open |
| KeyExchange.WriteKeyAfterMerge | src/crypto.rs:282-346 | accepting keys makes the last one that was lacking the write key, and leaves it otherwise |
| KeyExchange.OutsiderReadsIff | src/crypto.rs:131-190 | without key collisions an outsider decrypts what a node writes exactly if its ring has the id of the node's current key |
| KeyExchange.EncryptedOpens | src/crypto.rs:131-155 | an encrypted body is the text sealed under the current key with channel and key id as associated data, and opens under them to the text |
| KeyExchange.DecryptsIff | src/crypto.rs:157-190 | an encrypted body gives a text exactly if the first key of its id opens the ciphertext under this nonce, the envelope's own channel and this id to that text |
| KeyExchange.ReadsNothingElse | src/crypto.rs:157-190 | what the key refuses to open, tampered with or moved from another channel, is refused |
| WriteKeys.WriteKeyAfterSession | src/sync.rs:256-306 | after the key turns of a session each node writes with the last key of the other that it lacked, and with the key it wrote with before exactly if it lacked none |
| Sessions.SessionMeets | src/sync.rs:193-306 | a session that nobody disturbs brings a client that is behind up to the server's policy and merges each ring behind the other |
| OldKeys.OlderKeyReturns | README.md:173-175 | a clean run: a peer makes the key of a removal and stops, a reader gets that key, the remover removes the reader by a finished rotation and synchronises with the peer; its policy then shuts the reader out unless it owns the channel or has another role, but it writes with the peer's key, and the reader decrypts what it writes |
| Reconcile.AnswerStatus | src/sync.rs:193-231 | the server's policy steps on its files are the specified ones |
| Reconcile.FollowStatus | src/sync.rs:574-586 | the client's policy steps on its files are the specified ones |
| Reconcile.TakeStatus | src/sync.rs:203-222 | a fork is filed, a longer history taken over, anything else left |
| Reconcile.ForkIsQuarantined | src/sync.rs:203-215 | on a fork neither active history changes and each side files the other's history under its head |
| Reconcile.LongerHistoryWins | src/sync.rs:216-231 | otherwise both sides end with the longer history, even when that history shuts the requester out, and the session goes on exactly if it does not |
| Reconcile.SameModeration | src/sync.rs:232-239 | with agreeing policies both nodes accept the same moderation histories |
| Reconcile.ModerationForkIsQuarantined | src/sync.rs:233-245 | a moderation fork changes neither history and is quarantined on both sides |
| Reconcile.LongerModerationWins | src/sync.rs:246-255 | otherwise the longer moderation history wins on both sides |
| Reconcile.ModerationTakesOver | src/store.rs:1102-1137 | taking over a longer moderation history keeps the own events in front and stays valid |
| Reconcile.StrangersGetNothing | src/sync.rs:196-202 | a requester whom the history shuts out, or who reports an invalid history, gets no answer and changes nothing |
| Reconcile.BadAnswersChangeNothing | src/sync.rs:574-586 | an answer that is invalid or does not extend the own history changes nothing and ends the session |
| Reconcile.BadModerationChangesNothing | src/sync.rs:232-245 | the same for moderation histories, on both sides |
| Federation.StepKeeps | src/sync.rs:193-306 | every turn of a session with a clean offer, every policy change and each half of a rotation keeps the invariant that ties keys to policies |
| Federation.ServeResult | src/sync.rs:193-231 | the answering turn: the server's history grew, agrees with one of the two, and an update carries it and extends the report |
| Federation.FollowResult | src/sync.rs:574-586 | the following turn: the client's history grew, agrees with one of the two, and the session goes on only with the answer in front |
| Turns.TurnsInOrder | src/sync.rs:193-306 | over every run, clean or not, every session takes its turns in order, each after those it builds on, and what was sent, answered, judged, offered and taken is final |
| Rotations.BeginsIff | src/store.rs:425-500 | a new channel key is made exactly before a removal or a change of owner on a private channel and before making it private, if the last words of the history permit the action; it is the last of the ring then, and the policy is still the old one |
| Rotations.EndsIff | src/store.rs:441-447 | the action is appended exactly if the history of that later moment still permits it |
| Rotations.AppendsIff | src/store.rs:570-619 | an action without a new key does nothing but append itself if permitted |
| Rotations.FirstKeyIff | src/store.rs:504-510 | a first key is made exactly by the owner of a private channel who has none |
| KeySafety.PolicyTravelsBeforeKeys | src/sync.rs:193-306 | for every number of nodes and every interleaving of changes, half rotations and turns, with forks and broken sessions, under one condition: whoever offers keys has got or finished none since it put its policy on the wire, except that the client may give back what it was just offered. Then a holder of a finished key has a policy history that extends the one in force when the key was finished, and made the key or is let in by some valid extension of it; unfinished keys are only with their makers |
| KeySafety.FromFreshWorlds | src/sync.rs:193-306 | the same from any nodes with valid policies and no keys |
| KeySafety.UndisturbedSessionIsClean | src/sync.rs:193-306 | a session between nodes without unfinished keys, whose turns nothing interrupts, meets the condition, whatever the turns decide |
| KeySafety.ShutOutNeedsReadmission | src/store.rs:425-447 | under the same condition, a key finished when the policy shut an identity out comes to that identity only if it made the key or a later event lets it in again |
| KeySafety.StaysShutOut | src/store.rs:357-363 | whoever a private channel shuts out stays out until an event lets it in again |
| KeyLeaks.HandedOverIff | src/sync.rs:256-306 | the key turns give the client a key of the server exactly if the session is open, both policies of the moment let keys pass, the identities share a secret and the ring keeps the offer cap |
| KeyLeaks.RipeGives | src/sync.rs:256-275 | wherever these guards hold and the server has a key it had not settled when it answered, the key turns break the condition and give the key away |
| KeyLeaks.HalfRotationLeaks | src/store.rs:435-446 | the key is made before the removal is appended; a member who synchronises in between ends with the finished key and without its policy, which shuts the member out unless it owns the channel or has another role |
| KeyLeaks.LateRotationLeaks | src/sync.rs:224-275 | a removal between the server's policy turn and its key turn gives the client the key without the policy under which it was finished |
| ReturnLeaks.HandedBackIff | src/sync.rs:286-306 | the turns back give the server a key of the client exactly if the client took the server's keys, the two share a secret and the client's ring keeps the offer cap |
| ReturnLeaks.RipeGivesBack | src/sync.rs:611-640 | wherever these guards hold and the client has a key that it had not settled when it reported and was not offered, the turns back break the condition and give the key away |
| ReturnLeaks.LateReturnLeaks | src/sync.rs:596-640 | a removal at the client between its report and the turns back leaves the server with the finished key and without its policy, even if the server is the one removed |
| Histories.HistoriesNeverShrink | src/store.rs:759-793 | no step, clean or not, and no broken session shortens or rewrites an active history |
| Histories.StepGrows | src/sync.rs:193-231 | every step keeps valid histories, and only a policy change of a node gives it anything that no node had |
| Histories.SyncsKeepComparable | src/sync.rs:424-430 | while no node changes its policy itself, pairwise comparable histories stay so, however the turns interleave |
| PolicyRounds.LongestReachesAll | src/sync.rs:193-231 | with pairwise comparable histories and no local change, when in one round less than there are nodes a session is opened and its policy turns completed along every edge of a connected graph, every node has the longest history, signatures aside |
| Payloads.SignedTextsInjective | src/sync.rs:717-784 | the signed bytes of the seven kinds of statement determine the kind and every field, even for a channel named like a tag |
| Payloads.EnvelopeMeansMessage | src/proto.rs:156-178 | the signature of an envelope is good for no other kind of statement, message or channel |
| Payloads.MessageRestDiffers | src/crypto.rs:260-268 | what follows the first newline of a message is unlike what follows any tag |
| Payloads.ChannelRuleIsNeeded | src/util.rs:9-16 | if a channel name could contain a newline, two different sync requests would sign the same bytes |
| Payloads.JoinInjective | src/sync.rs:717-784 | newline-separated fields can be told apart |
| Payloads.DecimalInjective | src/sync.rs:778-780 | the text of a time stamp determines it |
| Payloads.TextsWrittenOut | src/sync.rs:717-784 | what the signed text of each kind of request is: its tag and its fields, in this order, each on a line of its own |
| Payloads.DecimalReads | src/sync.rs:778-780 | reading the text of a time stamp as a number gives the time stamp |
| Peers.PeerFile.ListPeerRecords | src/peers.rs:55-93 | the merge loop computes the loaded list |
| Peers.PeerFile.AddPeer | src/peers.rs:115-142 | adds a URL or pins a known one, refuses to replace a pin, and returns the record as it is then listed |
| Peers.PeerFile.RemovePeer | src/peers.rs:144-153 | removes exactly the records of the URL and returns whether it was listed |
| Peers.LoadResult | src/peers.rs:55-93 | loading succeeds exactly for a known version without a malformed entry and without a URL with two pins; it gives one record per URL in order, with exactly the pins of the entries |
| Peers.OrderIsIrrelevant | src/peers.rs:66-92 | loading depends neither on the order of the entries nor on repetitions |
| Peers.WriteThenLoad | src/peers.rs:170-186 | writing a list and loading it gives it back in order |
| Peers.RewriteIsIdentity | src/peers.rs:170-186 | on a loaded list writing and loading is the identity |
| Peers.PinStaysUntilRemoved | src/peers.rs:115-153 | over every run of additions and removals a pinned URL keeps its pin, and connections expect it, until the URL is removed |
| Peers.RemovalUnpins | src/peers.rs:102-113 | after a removal nothing is pinned to the URL |
| Peers.CleanNormal | src/peers.rs:30-53 | the normal form of an entry is its own normal form |
| PeerOperations.PinIff | src/peers.rs:46-53 | a pin is accepted exactly if it is, blanks aside, 32 bytes in hexadecimal, and is kept in lower case |
| PeerOperations.CleanIff | src/peers.rs:66-76 | an entry is in order exactly if its URL has a normal form and its pin, if any, is accepted; both are kept in normal form |
| PeerOperations.AddsIff | src/peers.rs:115-142 | an addition succeeds exactly if URL, pin and file are in order and no other pin of the URL contradicts it; it adds this URL and this pin and nothing else |
| PeerOperations.RemovesIff | src/peers.rs:144-153 | a removal succeeds exactly if URL and file are in order, and takes away this URL, its pin and nothing else |
| PeerOperations.ExpectedIff | src/peers.rs:102-113 | a listed URL must be pinned, and exactly its pin is expected; a URL that is not listed may show any identity |
| Locks.NeverStuck | src/store.rs:281-283 | in every reachable state of any number of processes running any mix of operations that may fail anywhere, conflicting locks are not held together and someone unfinished can take the next step |
| Locks.EveryoneCanFinish | src/store.rs:859-862 | from every such state all processes can finish, and then hold nothing |
| Locks.OperationsAreDisciplined | src/store.rs:971-1005 | every store operation takes log, moderation and policy lock in that order, never one it holds, reads and writes the log, the histories and the keyring only under their locks, and gives all back |
| Locks.AbandonedDisciplined | src/store.rs:979-984 | giving up in the middle keeps the discipline |
| Locks.SomeoneCanStep | src/store.rs:1109-1113 | whoever waits, waits for a process that waits for a higher lock, so some process can go on |
| Locks.OppositeOrdersCanStick | src/store.rs:579-582 | with opposite orders two processes could wait for each other forever |
| Updates.WritesOnWhatWasRead | src/store.rs:281-285 | in every state that any number of processes reach, running any mix of operations that may fail anywhere: while one is about to write a file no other is about to read or write it, the file is as the writer read it, and so is every other file it decided on, the policy above all, unless it resolves moderation conflicts |
| Updates.NothingIsLost | src/store.rs:579-612 | when all have finished, every file holds every change that was made to it; of a process none of whose calls failed, that is one for each call of an operation that changes the file |
| Updates.ResolutionCanBeStale | src/store.rs:1184-1206 | the exception: a moderation history that was selected and judged before the locks were taken is made active after the policy has changed |
| Updates.ProgramCareful | src/store.rs:1109-1114 | each single operation but that one writes only while everything it has read is still guarded |
| Updates.ProgramWrites | src/store.rs:840-881 | an operation that does not fail writes each file that it changes once, and no other |
| Updates.ProgramReads | src/store.rs:932-934 | which files each operation reads |

## Left out

- The terminal interface, command dispatch, MCP plumbing and HTTP routing: thin layers over the operations here.
- Ed25519, X25519, AEAD, hashing, serde, hex and base64 internals, URL parsing, the embedded database and the
  file-lock implementation: parameters with laws, or atomic steps.
- Time stamps, expiry windows, timeouts, file permissions, zeroization and logging.
- Limits on the number of events, chunks and channels in a status message: each only refuses a session early.
- The unsigned legacy policy file, apart from its adoption: `Federation` runs start without it.
- Caches of derived policy and moderation state: they hold what the replay functions here return.
- Torn writes of policy, moderation, keyring and peer files: their writes are atomic here, except that a
  resolution may stop between preserving the displaced history and replacing the active file.
- Blank lines in stored histories, and file-system errors other than crashes and torn log writes.
- Offsets, lengths and counters are unbounded; the 16-byte encoding of a location is not modelled.
- A node whose files were changed by hand, and peers that deviate from the protocol.
- BucketSync.Act: one channel's logs only; the test that an envelope belongs to the channel is in `ChannelLog`
  and `Uploads`.
- BucketSync.Act: an uploaded or downloaded envelope is taken in one step; crashes inside it are those of
  `LogMachine`.
- Federation.Act: a turn reads and writes its node's files at one moment. In particular the client judges by its
  policy and takes the offered keys in one turn, and reads its keys in a later one. An offer that is refused leaves
  the session as it was. The moderation stage between policy and keys may only end a session, which then takes no
  further turns; it is modelled for two nodes in `Reconcile`.
- Federation.Act: the check before the owner's first key and the making of that key are one step.
- Transport.Room: a send that does not fit waits as a whole; how much of it is already in the transport makes no
  difference to when it is done. Only the transfer is long enough to wait; the earlier turns alternate.
- Gossip.Perform: sends do not wait here; waiting only leaves out some of the runs (`Transport.FlowRunIsRun`).
- Gossip.Perform: policies change freely between steps; how they travel is the subject of `Federation`.
- Federation.Act: forks arise and are filed but are not resolved; a resolution may replace a history that keys
  depend on.
- Federation.Act: a random key never has the id of an earlier one.
- Moderation.EventOk: a target is checked for the shape of a message id; upper-case digits are kept as written.
- Payloads.WellFormed: channel names, targets, nonces and keys as the program accepts them.
- Locks.Program: the files of derived state and of filed conflicts, which are replaced as a whole, the reading of a
  keyring, which takes no lock, and the unsigned legacy policy file.
- Locks.Abandoned: an operation that fails has made its change or has not; torn writes are those of `LogMachine`.
- Updates.Step: a file is the list of the changes made to it; what they are is said in the other modules.
- Locks.Program: waiting for a lock is fair to nobody; starvation of one process by others is not excluded.
- Peers.Clean: blanks are trimmed by a parameter of which only its effect on hexadecimal text is assumed.
- ChannelLog.ChannelFile.ReadTail: the moderation state and the log are read at one moment; the program reads
  the state first and takes the log lock afterwards.
