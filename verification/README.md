# Verified model of matrix-nio's end-to-end encryption

This project models the parts of matrix-nio that keep state without doing input and output, and proves
what they are for. `dafny verify dfyconfig.toml` checks all of it.

| file | models |
|---|---|
| `Dicts.dfy`, `Bytes.dfy` | Python's dictionaries and lists, byte strings |
| `Rooms.dfy`, `RoomNaming.dfy` | room membership, its name index, user names and counts |
| `Devices.dfy` | the device store and the key query that updates it |
| `Sharing.dfy`, `Distribution.dfy` | the walk that decides who gets a room key; the client's state and its steps |
| `Coverage.dfy`, `Delivery.dfy`, `JoinedMembers.dfy` | who holds the key of a session that is marked as shared |
| `ClientFrames.dfy` | what each step changes and leaves alone, and the rooms over whole runs |
| `Lifetime.dfy`, `Rounds.dfy`, `Parallel.dfy`, `Outcomes.dfy` | session limits, the exact number of share rounds, parallel requests, outcomes of single calls |
| `Client.dfy` | the same steps as methods of an object, with the loops of the source |
| `ReplayCache.dfy` | replay protection over a least recently used cache |
| `KeyRequests.dfy`, `KeyRequestSafety.dfy`, `KeyRequestQueues.dfy` | queues of room key requests: the steps, what runs of them keep, the object |
| `Sas.dfy`, `SasSafety.dfy`, `SasCalls.dfy`, `SasObject.dfy`, `SasPair.dfy` | device verification: one machine, what its calls keep, what they accept and what ends it, the object, two machines joined by messages |
| `Http2.dfy`, `Http2Credit.dfy` | request bodies under HTTP/2 flow control; conservation of credit |
| `Base64.dfy`, `KeyExport.dfy`, `Attachments.dfy` | encrypted exports and attachments |
| `TrustFile.dfy` | the file of trusted device keys |

How the source appears here:

- Each stateful component has functions on an immutable state that say what a call does, lemmas about these
  functions and about runs of them, and a class whose methods, written with the loops, early returns and
  `continue`s of the source, are proved to leave exactly the state of the functions.
- Exceptions are `Result` or `Option` values. A clock reading is a parameter; `encrypt` takes two, as the
  source reads the clock twice.
- The cryptography is a parameter: the key agreement, the hash, the MAC, the key derivation and the keystream
  are arbitrary functions. Only the SAS pair assumes more: that both sides agree on the same secret and that no
  hash is the empty string.
- Session ids are numbers in the order of creation; the source's are random and taken to be distinct.
- A device is a record under its pair of user and device id, and the device store is one dictionary over these
  pairs. `inbound` holds only the inbound twins of our own sessions.

Where the code differs from what one would expect, the model follows the code:

- `receive_mac_event` sets the state to canceled when no MAC names the peer, and then sets it to `mac_received`
  all the same (`src/nio/crypto/sas.py:737-741`). So `verified` does not imply a verified device: `SasSafety.VerifiedWithoutDevice`
  gives the input. A MAC message verifies a device exactly under the condition of `SasSafety.MacVerifiesIffNamed`, and over
  whole runs the peer is verified exactly if there is no cancel code: `SasSafety.VerifiedDeviceIffNoCancelCode`.
- Key ids are split with `split(":", 2)` (`src/nio/crypto/sas.py:711`), so the MAC of a device whose id has a colon is
  refused as malformed: `SasPair.HonestMacAcceptedIff`. The theorem about honest runs therefore asks for device ids
  without a colon.
- `_last_event_time` is never updated (`src/nio/crypto/sas.py:210`), so the timeout between events is a limit of one
  minute for the whole verification: `SasSafety.TimesOutAfterAMinute`.
- A share response is noted on whatever session the room has when it arrives (`src/nio/client/base_client.py:988-992`).
  `users_shared_with` is truthful exactly under the conditions of `Delivery.ResponseTruthfulIff` and `Delivery.RunTruthfulIff`; `Delivery.LateResponseMisleads`
  is a run that breaks it.
- `_handle_joined_members` changes the members without dropping the session. It keeps coverage exactly under the
  condition of `Coverage.JoinedMembersKeepCoverageIff`, and the theorems about runs ask for that condition at each
  joined-members response and at no other step; `Coverage.NewcomerBreaksCoverage` is a run that breaks it.
- Agreement of the replay cache with an unbounded map needs more than recent use of a key:
  `ReplayCache.RecentUseIsNotEnough`. The exact condition on a history is `ReplayCache.SameAnswersIff`.
- The loop over all streams after a connection-wide window update changes the dictionary it walks
  (`src/nio/http.py:412-414`). It fails exactly under the condition of `Http2.UpdateConnectionFailsIff`, and does so in the runs of
  `Http2.UpdateConnectionFailsInRun`; no body is lost.
- Nothing reacts to new settings of the peer (`src/nio/http.py:509-537`), so a body may stay buffered with credit on both windows:
  `Http2.SettingsStallInRun`. `Http2.NextDrainedIff` says after exactly which events that may happen.
- A display name may imitate the name and id of another member: `RoomNaming.UserNamesCanClash` and `RoomNaming.UserNamesClashIff`.
- A verification that ends with a MAC changes the trust of a device without dropping a session, unlike `verify_device` of the client
  (`src/nio/crypto/olm_machine.py:2184-2196`). Coverage survives it.
- A trust file does not keep users whose id starts with a hash sign: `TrustFile.HashUsersAreLost`. An `add_many` that
  fails, which is decided by `TrustFile.AddEntriesFailIff`, leaves the keys before the bad one in memory without saving them.
- `remove_member` removes an invited user from the name index twice; the second removal always fails and the
  source ignores that.

## Model

| member | source | states |
|---|---|---|
| `Coverage.SharedSessionsCoverTheirRooms` | src/nio/client/base_client.py:967-1010 | in every run of sync, membership, joined-members, key query, share, response, trust, verification and encrypt steps whose joined-members responses leave no newcomer out, a session marked as shared belongs to a known encrypted room, and every device of a current member that is not deleted received its key or is ignored |
| `Coverage.StepKeepsCoverage` | src/nio/client/base_client.py:463-491 | no single step breaks that invariant, a joined-members response that meets its condition included |
| `Coverage.MemberEventKeepsCoverage` | src/nio/client/base_client.py:724-730 | a membership event keeps it, because the room answers True exactly when the member set changed and the session is then dropped |
| `Coverage.KeyQueryKeepsCoverage` | src/nio/client/base_client.py:1006-1010 | a key query keeps it, because the response names every user whose devices changed |
| `Coverage.RespondKeepsCoverage` | src/nio/client/base_client.py:988-1004 | the response handler sets the mark only when nobody is left out |
| `Coverage.ShareKeepsCoverage` | src/nio/crypto/olm_machine.py:1719-1811 | a share call keeps it on success, on an error in the middle of the walk, and when the session was shared before |
| `Coverage.ShareParallelKeepsCoverage` | src/nio/crypto/olm_machine.py:1634-1717 | so does the parallel variant, which may replace the session |
| `Coverage.EncryptKeepsCoverage` | src/nio/crypto/olm_machine.py:1604-1632 | so does encrypting, with or without a rotation |
| `Coverage.TrustKeepsCoverage` | src/nio/client/base_client.py:494-619 | so do the six trust operations |
| `Coverage.CoveredMonotone` | src/nio/client/base_client.py:995-1001 | coverage survives when the two sets grow or devices are deleted |
| `ClientFrames.RoomsOverRuns` | src/nio/client/base_client.py:710-757 | over any run a room is known exactly if it was synced, encrypted exactly if it was stored as such or an encryption event arrived while it was known, and its members are synced exactly if a joined-members response did it |
| `ClientFrames.StepFrame` | src/nio/client/base_client.py:463-619 | each kind of step keeps to its part of the state: only room events change rooms, only a key query changes keys and names of devices, and a share call at most turns an unset trust into ignored |
| `ClientFrames.MemberEventMeans` | src/nio/client/base_client.py:724-730 | a membership event changes the members of its room as the event means and drops that room's session at most |
| `ClientFrames.KeyQueryDrops` | src/nio/client/base_client.py:1006-1010 | a key query drops exactly the shared sessions of encrypted rooms with a member whose devices differ afterwards |
| `ClientFrames.EncryptFailsAs` | src/nio/client/base_client.py:1195-1243 | each error of encrypting with its exact condition, and that nothing but a rotation is left behind |
| `Delivery.EveryMessageCanBeRead` | src/nio/client/base_client.py:988-1004 | end to end, in a run whose share responses answer its requests and are timely or tell nothing new, and whose joined-members responses leave no newcomer out: when a message is encrypted, every active device of every member was sent the key of that very session by an earlier share call of the run, in a request that was answered since, or is ignored by the session |
| `Delivery.DeliveredIsReceived` | src/nio/crypto/olm_machine.py:1719-1811 | what counts as delivered was in a message of a share call of the run that was answered |
| `Delivery.ResponseTruthfulIff` | src/nio/client/base_client.py:988-992 | the response to a request leaves users_shared_with truthful exactly when the request carried the key of the session the room has by then, or its recipients have that key anyway |
| `Delivery.StepKeepsTruthful` | src/nio/crypto/olm_machine.py:1604-1811 | no other step adds to users_shared_with |
| `Delivery.RunTruthfulIff` | src/nio/client/base_client.py:988-992 | over any run whose responses answer its requests, users_shared_with names only devices that were sent the key, at every point up to the n-th, exactly when each response up to there is timely or tells nothing new |
| `Delivery.LateResponseMisleads` | src/nio/client/base_client.py:988-1004 | a run from the initial state whose responses answer its requests: a device is sent the key of session 0, the session expires and is replaced while the response is on its way, and the response then makes session 1, whose key was never sent to that device, claim and be marked as shared with it |
| `Coverage.JoinedMembersKeepCoverageIff` | src/nio/client/base_client.py:1012-1032 | a joined-members response keeps the coverage invariant exactly when the room has no shared session or that session covers the active devices of every listed newcomer |
| `JoinedMembers.RefreshedMembers` | src/nio/client/base_client.py:1018-1027 | afterwards the members are the listed users and those with an open invitation |
| `JoinedMembers.RefreshedRecords` | src/nio/client/base_client.py:1018-1027 | those who stay keep their records and their order; newcomers come behind them as listed, without an invitation |
| `Coverage.NewcomerBreaksCoverage` | src/nio/client/base_client.py:1012-1032 | a run from the initial state: the session of an empty room is shared and marked, a joined-members response then lists a user with a device, and messages are encrypted that this device can not read |
| `Rounds.SharedAfterRounds` | src/nio/client/base_client.py:988-1004 | with members, devices and trust fixed and no blocked device: after any number of rounds the session is shared exactly when there were at least RoundsNeeded of them, which is between one and n/20+1 for n pending devices |
| `Rounds.RoundsNeededAfterRound` | src/nio/crypto/olm_machine.py:1750-1793 | each round of a call and its response uses up exactly one of the rounds needed, and the last one marks the session |
| `Rounds.OneRound` | src/nio/crypto/olm_machine.py:1750-1811 | a round finishes the job exactly when fewer than 20 devices are pending, or exactly 20 with no unclassified device behind them; otherwise 20 fewer are pending and the next round starts in the same way |
| `Rounds.NeverSharedWhileBlocked` | src/nio/crypto/olm_machine.py:1769-1788 | while some device makes the call fail, no number of rounds gets the session shared |
| `Rounds.SharedStays` | src/nio/crypto/olm_machine.py:1732-1733 | further calls after the session is shared change nothing |
| `Rounds.RoundShares` | src/nio/client/base_client.py:994-1004 | the mark is set exactly when no device of the walk is uncovered |
| `Rounds.FullBatchEndsPending` | src/nio/crypto/olm_machine.py:1790-1796 | a walk that fills its batch stops right behind a recipient |
| `Rounds.StragglerKept` | src/nio/crypto/olm_machine.py:1792-1796 | while devices are pending behind the visited part, which unclassified devices follow the last pending one does not change |
| `Sharing.ScanTakesPending` | src/nio/crypto/olm_machine.py:1750-1796 | without a blocked device the walk does not fail, its recipients followed by the pending devices it did not get to are the pending devices in order, and it stops early only with a full batch |
| `Sharing.ScanFailsIffBlockedReached` | src/nio/crypto/olm_machine.py:1769-1788 | the walk fails exactly when it gets to a blocked device before its batch is full |
| `Sharing.ScanCoversVisited` | src/nio/crypto/olm_machine.py:1752-1793 | every visited device ends up shared with, ignored or a recipient |
| `Sharing.ScanGrows` | src/nio/crypto/olm_machine.py:1752-1793 | the walk only adds to the ignored set and the recipients, and only devices it visits |
| `Sharing.ScanDrops` | src/nio/crypto/olm_machine.py:1752-1793 | the ignored set gains exactly our own device, blacklisted ones, and on request those without a session, among the visited devices |
| `Sharing.ScanStopsAtFirstBlocked` | src/nio/crypto/olm_machine.py:1661-1695 | without a limit the walk stops right behind the first blocked device |
| `Outcomes.ShareSendsToFirstPending` | src/nio/crypto/olm_machine.py:1798-1811 | a share call that nothing blocks sends the key of the room's session to exactly the first 20 pending devices and marks as ignored exactly the recipients whose trust was unset |
| `Outcomes.ShareFailsIff` | src/nio/crypto/olm_machine.py:1769-1788 | a share call of an unshared session fails exactly when the walk gets to a blocked device, and then leaves all devices alone |
| `Outcomes.ShareErrorNames` | src/nio/crypto/olm_machine.py:1763-1788 | the error names the first blocked device of the walk, and whether it lacks a session or is unverified |
| `Outcomes.ShareLeaves` | src/nio/crypto/olm_machine.py:1719-1811 | whatever a share call comes to, the session keeps everything but its ignored set, whose growth is exact, and nothing else changes but trust |
| `Parallel.ParallelSharingPartitions` | src/nio/crypto/olm_machine.py:1655-1717 | the parallel call fails exactly when a wanted device is not settled in trust; otherwise its requests are non-empty, have at most 20 recipients, share none, together name exactly the wanted devices, and carry one message with the session's key for each |
| `Parallel.ParallelSettles` | src/nio/crypto/olm_machine.py:1634-1717 | on success exactly the wanted devices without a trust state become ignored ones, on failure no device changes; the session stays unmarked and shared with nobody else, and its ignored set gains our own device and blacklisted ones, all of them on success and those in front of the first unsettled device on failure |
| `Parallel.ChunksSplit` | src/nio/crypto/olm_machine.py:89-92 | the chunks of a list without duplicates split it into pieces of at most n |
| `Parallel.ParallelScan` | src/nio/crypto/olm_machine.py:1661-1695 | without a limit the walk takes all pending devices, and fails exactly if one is blocked |
| `Parallel.WantedIsPending` | src/nio/crypto/olm_machine.py:1661-1695 | what the walk calls pending or blocked, in terms of the room's members and the device store |
| `Lifetime.EveryMessageIsCovered` | src/nio/crypto/olm_machine.py:1604-1632 | whenever a message is encrypted in a run whose joined-members responses leave no newcomer out, its session covers the room at that moment, has encrypted fewer than 100 messages, is younger than a week, and its inbound twin is stored |
| `Lifetime.SessionsStayWithinTheirLimits` | src/nio/crypto/sessions.py:403-423 | over any run no session encrypts more than 100 messages or messages of two rooms, the message indices of a session count up from 0, and the inbound session of each message is stored |
| `Lifetime.EncryptSucceedsIff` | src/nio/crypto/olm_machine.py:1604-1632 | encrypting succeeds exactly in a known encrypted room with synced members, and with a shared session that has messages left and is not expired at either reading of the clock; that session stays the room's |
| `Lifetime.StepKeepsLifetime` | src/nio/crypto/olm_machine.py:958-969 | no step breaks the facts behind these: session ids are unique, counters count, twins are stored, all messages of a session are of one room |
| `Clients.Client.constructor` | src/nio/crypto/olm_machine.py:124-247 | a new client has no rooms, sessions or messages |
| `Clients.Client.CreateOutboundGroupSession` | src/nio/crypto/olm_machine.py:958-969 | leaves the state of NewSession: a new unshared session and its inbound twin |
| `Clients.Client.InvalidateOutboundSession` | src/nio/client/base_client.py:469-484 | popping the session and putting it back if it was not shared removes it exactly if it was |
| `Clients.Client.InvalidateOutboundSessions` | src/nio/client/base_client.py:486-491 | the loop over the rooms does so for all rooms with the user |
| `Clients.Client.SetTrust` | src/nio/client/base_client.py:494-619 | the trust methods leave the state and the answer of ChangeTrust, the failed assertion for a device that is not stored included |
| `Clients.Client.HandleSasVerified` | src/nio/crypto/olm_machine.py:2184-2196 | a MAC that completes a verification makes the device verified and drops no session |
| `Clients.Client.HandleMemberEvent` | src/nio/client/base_client.py:724-730 | leaves the state of MemberEvent |
| `Clients.Client.HandleKeyQueryResponse` | src/nio/client/base_client.py:1006-1010 | the nested loops leave a state that a key query step allows |
| `Clients.Client.Consider` | src/nio/crypto/olm_machine.py:1752-1790 | one round of the inner loop is one step of the walk |
| `Clients.Client.WalkRoom` | src/nio/crypto/olm_machine.py:1751-1796 | the nested loops with their breaks and errors compute the walk |
| `Clients.Client.Envelopes` | src/nio/crypto/olm_machine.py:1803-1809 | the loop over the recipients builds exactly one message for each |
| `Clients.Client.ShareGroupSession` | src/nio/client/http_client.py:726-765 | leaves the state and returns the result of Share |
| `Clients.Client.ShareGroupSessionParallel` | src/nio/crypto/olm_machine.py:1634-1717 | leaves the state and returns the requests of ShareParallel |
| `Clients.Client.ChunkBatches` | src/nio/crypto/olm_machine.py:1702-1717 | the generator yields one request for each chunk |
| `Clients.Client.HandleShareResponse` | src/nio/client/base_client.py:988-1004 | the nested loops with the early return leave the state of Respond |
| `Clients.Client.FindUncovered` | src/nio/client/base_client.py:995-1001 | finds an active device of a user that is not covered if there is one |
| `Clients.Client.Encrypt` | src/nio/client/base_client.py:1195-1243 | leaves the state and returns the result of the encrypt function, with the errors for an unknown room, one that is not encrypted, and one whose members are not synced |
| `Devices.ActiveDevicesAre` | src/nio/crypto/device.py:154-167 | the active devices of a user are those that are not deleted, each once |
| `KeyQuery.KeyQueryHandler.HandleKeyQuery` | src/nio/crypto/olm_machine.py:699-809 | the nested loops give every record in the store the value of the reference function, and report exactly the records that differ before and after |
| `KeyQuery.KeyQueryHandler.AbsorbPayload` | src/nio/crypto/olm_machine.py:710-794 | one round of the inner loop changes at most its own record, and notes it exactly when it changed |
| `KeyQuery.KeyQueryHandler.AbsorbAnswer` | src/nio/crypto/olm_machine.py:709-794 | the inner loop, with its many ways to go on to the next device |
| `KeyQuery.KeyQueryHandler.MarkDeleted` | src/nio/crypto/olm_machine.py:796-806 | devices of an answered user that the answer lacks are marked as deleted |
| `KeyQuery.AnsweredUsersActive` | src/nio/crypto/olm_machine.py:796-806 | afterwards the active devices of each answered user are among the ids in the response |
| `KeyQuery.FingerprintsNeverChange` | src/nio/crypto/olm_machine.py:766-794 | over any run of responses a stored device stays stored, keeps its fingerprint key and trust, and stays deleted |
| `KeyQuery.PayloadDecidesKeys` | src/nio/crypto/olm_machine.py:710-794 | a rejected payload changes nothing, a device known under another fingerprint key is left alone, and otherwise the payload's keys are stored |
| `KeyQuery.QueryDecides` | src/nio/crypto/olm_machine.py:710-806 | the whole record of every device after a response: who keeps it, what an accepted payload replaces, who is deleted, and what a new device starts with |
| `KeyQuery.DeletedIffLacking` | src/nio/crypto/olm_machine.py:796-806 | over any run of responses a stored device ends up deleted exactly if it was, or some answer for its user lacks it |
| `Rooms.MatrixRoom.AddMember` | src/nio/rooms.py:250-274 | keeps the name index, the order and the invited users in agreement with the members; adds exactly a new user |
| `Rooms.MatrixRoom.RemoveMember` | src/nio/rooms.py:276-290 | removes exactly a known user from all views; the user is listed in the index under the name, so the first removal cannot fail, and is listed under no name afterwards, so the guarded second one always does |
| `Rooms.MatrixRoom.HandleMembership` | src/nio/rooms.py:292-349 | leaves members that follow the event, with all views in agreement, and answers whether somebody came or went |
| `Rooms.MatrixRoom.RemoveFromIndex` | src/nio/rooms.py:276-290 | removal from the index needs the user to be listed, which every call shows |
| `Rooms.MatrixRoom.Rename` | src/nio/rooms.py:292-349 | a new display name moves the user within the index |
| `Rooms.MatrixRoom.SetInvited` | src/nio/rooms.py:292-349 | an accepted invitation leaves the invited users |
| `Rooms.MembershipFlagIsKeySetChange` | src/nio/rooms.py:292-349 | the answer is True exactly when the key set of the members changed, and nobody else is affected |
| `Rooms.MembershipMeans` | src/nio/rooms.py:292-349 | who is a member after an event, with which name, avatar and invitation, and that nobody else changes |
| `Rooms.FollowsEventOnce` | src/nio/rooms.py:292-349 | this leaves no choice: two results that follow the same event are equal |
| `Rooms.MembersFollowEvents` | src/nio/rooms.py:292-349 | over any events a user is a member exactly if some join or invitation was not followed by leaving, and an invited one exactly if no join was |
| `Rooms.OrderKept` | src/nio/rooms.py:250-290 | nobody but the target moves in the iteration order, and a newcomer comes last |
| `Rooms.OrderAfterMembership` | src/nio/rooms.py:292-349 | the iteration order stays a list of the members without duplicates |
| `Rooms.IndexAfterAdd` | src/nio/rooms.py:268-274 | the index lists exactly the users of each name, each once, after an addition |
| `Rooms.IndexAfterRemove` | src/nio/rooms.py:276-290 | the same after a removal |
| `Rooms.IndexAfterRename` | src/nio/rooms.py:336-339 | the same after a change of name |
| `RoomNaming.SameNameDistinctUserNames` | src/nio/rooms.py:166-179 | two different members with the same name get different user names |
| `RoomNaming.DisambiguatedIffShared` | src/nio/rooms.py:166-183 | a user id is appended exactly when another member has the same name |
| `RoomNaming.UserNamesClashIff` | src/nio/rooms.py:166-183 | two members have the same user name exactly when what one is shown as, its id included, is the name of the other, or reads as the name and the longer id of the other |
| `RoomNaming.ClashOfSpacelessIds` | src/nio/rooms.py:166-183 | for ids without spaces only the first of the two is possible, and the other one has that text as its display name |
| `RoomNaming.UserNamesCanClash` | src/nio/rooms.py:166-183 | three members of whom two have the same user name |
| `RoomNaming.CountsAddUp` | src/nio/rooms.py:476-497 | joined and invited members add up to the member count, with and without a summary |
| `RoomNaming.CountsAre` | src/nio/rooms.py:476-497 | without a usable summary exactly the members without a pending invitation count as joined |
| `RoomNaming.GroupNameCounts` | src/nio/rooms.py:142-164 | without a usable summary at most five other members are listed, and the listed ones and the rest are all the others |
| `RoomNaming.GroupNameListsSmallest` | src/nio/rooms.py:142-164 | the listed members are different, sorted by user name, and no other member sorts before one of them |
| `ReplayCache.SameAnswersIff` | src/nio/crypto/olm_machine.py:1262-1290 | over a whole history the bounded cache answers like an unbounded map exactly when every key that comes back after n or more other keys comes back with the event it was first used for |
| `ReplayCache.AgreesWhileNeverDropped` | src/nio/crypto/olm_machine.py:1262-1290 | it does whenever there were always fewer than n other keys between two uses of this key |
| `ReplayCache.RecentUseIsNotEnough` | src/nio/crypto/olm_machine.py:1262-1290 | few other keys since the last use alone do not suffice: for every size a history that turns away the original event |
| `ReplayCache.CachedIff` | src/nio/crypto/olm_machine.py:227 | a key is cached exactly when fewer than n distinct other keys were used since its last use |
| `ReplayCache.CacheHoldsLast` | src/nio/crypto/olm_machine.py:227 | the cached keys are the n distinct keys used last, in the order of use |
| `ReplayCache.CachedIsAnchor` | src/nio/crypto/olm_machine.py:1278-1285 | what is stored for a cached key is the event that put it there the last time |
| `ReplayCache.ReplayGuard.MessageIndexOk` | src/nio/crypto/olm_machine.py:1262-1290 | the method over the cache leaves the state and gives the answer of the reference step, within the limit of 100000 |
| `ReplayCache.ReplayGuard.Add` | src/nio/crypto/olm_machine.py:1281-1284 | adding a key drops the least recently used ones until there is room |
| `ReplayCache.ReplayGuard.Lookup` | src/nio/crypto/olm_machine.py:1278-1280 | a found key becomes the most recently used one |
| `KeyRequestSafety.EachRequestIsInOnePlace` | src/nio/crypto/olm_machine.py:417-456 | with fresh ids, in every reachable state a request id is in at most one of the received, waiting and untrusted requests |
| `KeyRequestSafety.ListedIffSomethingWaits` | src/nio/crypto/olm_machine.py:521-536 | in every reachable state a device is listed for a key claim, once, exactly when one of its requests waits |
| `KeyRequestSafety.AnsweredAtMostOnce` | src/nio/crypto/olm_machine.py:538-551 | over any run a request yields at most one forwarded key |
| `KeyRequestSafety.ForwardsAreJustified` | src/nio/crypto/olm_machine.py:486-551 | whatever a step forwards was asked for by a device of our own user that is verified at that step, and was not withdrawn |
| `KeyRequestSafety.NoAnswerAfterCancellation` | src/nio/crypto/olm_machine.py:431-456 | after a cancellation naming sender, device and id of a received request, that request is never answered any more |
| `KeyRequestSafety.NoAnswerAfterRefusal` | src/nio/crypto/olm_machine.py:587-593 | over any run, once the user refused a shown request it is in no queue any more and is never answered |
| `KeyRequestSafety.CancelMoves` | src/nio/crypto/olm_machine.py:587-593 | a refusal takes exactly that request out of the untrusted ones and answers whether it was there |
| `KeyRequestSafety.CancellationMoves` | src/nio/crypto/olm_machine.py:431-456 | a cancellation takes exactly its request out of all queues, and leaves itself to be shown if the request was |
| `KeyRequestSafety.CancellationsFollowTheirRequests` | src/nio/crypto/olm_machine.py:448-456 | a cancellation shown to the user follows an earlier showing of its request |
| `KeyRequestSafety.CollectDecides` | src/nio/crypto/olm_machine.py:614-644 | collecting decides about every received event: answered, waiting, shown and kept, or dropped |
| `KeyRequestSafety.AnsweredAtOnce` | src/nio/crypto/olm_machine.py:595-644 | a request of a verified device of our own, with the key and an Olm session at hand, is answered by the next collection |
| `KeyRequestSafety.AnsweredAfterClaim` | src/nio/crypto/olm_machine.py:646-696 | a request that only lacks an Olm session puts its device on the list for a key claim, and is answered by the collection after the claim |
| `KeyRequestSafety.AnsweredAfterVerification` | src/nio/crypto/olm_machine.py:570-585 | continuing a request answers it once its device is verified, and leaves everything alone before |
| `KeyRequestSafety.OneDummyForEachMarking` | src/nio/crypto/olm_machine.py:679-681 | over any run a device is listed as wedged at most once, and was sent exactly one dummy message for each time it was marked, except for the time it is listed now |
| `KeyRequestSafety.ClaimUnwedges` | src/nio/crypto/olm_machine.py:672-681 | a properly signed key sends a dummy message exactly to a wedged device, which is then no longer listed |
| `KeyRequestSafety.NextKeepsInv` | src/nio/crypto/olm_machine.py:417-696 | every step keeps the invariant behind the queues: requests, cancellations, collecting, continuing, canceling, claimed keys, wedged devices, and changes of devices and sessions |
| `KeyRequestSafety.NextForwards` | src/nio/crypto/olm_machine.py:538-551 | each step only appends justified answers |
| `KeyRequestSafety.NextAnswersNothingClosed` | src/nio/crypto/olm_machine.py:431-456 | no step answers a request withdrawn before |
| `KeyRequestQueues.Queues.HandleKeyRequest` | src/nio/crypto/olm_machine.py:417-429 | leaves the state of HandleRequest |
| `KeyRequestQueues.Queues.HandleKeyRequestCancellation` | src/nio/crypto/olm_machine.py:431-456 | leaves the state of HandleCancellation |
| `KeyRequestQueues.Queues.ShareWithOurselves` | src/nio/crypto/olm_machine.py:486-551 | the error, and the queue the request ends up in, follow the assessment of the request |
| `KeyRequestQueues.Queues.CollectSingleKeyShare` | src/nio/crypto/olm_machine.py:595-612 | leaves the state and the answer of CollectSingle |
| `KeyRequestQueues.Queues.CollectEvent` | src/nio/crypto/olm_machine.py:614-644 | one round of the loop leaves the state of CollectOne, and returns what it shows |
| `KeyRequestQueues.Queues.CollectKeyRequests` | src/nio/crypto/olm_machine.py:614-644 | the loop leaves the state of Collect, and returns exactly what is newly shown |
| `KeyRequestQueues.Queues.ContinueKeyShare` | src/nio/crypto/olm_machine.py:570-585 | leaves the state and the answer of Continue |
| `KeyRequestQueues.Queues.CancelKeyShare` | src/nio/crypto/olm_machine.py:587-593 | leaves the state and the answer of Cancel |
| `KeyRequestQueues.Queues.MarkDeviceForUnwedging` | src/nio/crypto/olm_machine.py:1010-1041 | leaves the state of MarkWedged |
| `KeyRequestQueues.Queues.HandleClaimedKey` | src/nio/crypto/olm_machine.py:646-696 | one round of the inner loop leaves the state of ClaimOne if the one-time key is signed properly, and the old state if not |
| `KeyRequestQueues.Queues.HandleKeyClaiming` | src/nio/crypto/olm_machine.py:646-696 | the loops over the response leave the state of claiming a key for each properly signed device in turn |
| `SasPair.HonestRunsVerify` | src/nio/crypto/sas.py:213-741 | two honest sides, for every order of deliveries and user actions: nobody cancels, the run comes to rest after exactly nine actions, and then both sides are verified with exactly the other device |
| `SasPair.HonestRunsAgree` | src/nio/crypto/sas.py:366-400 | in such a run, once both sides have the secret, it is the same secret and both derive the string from the same text |
| `SasPair.SameExtraInfo` | src/nio/crypto/sas.py:366-391 | mirrored machines have the same text for both key agreements |
| `SasPair.ExtraInfoV2BindsKeys` | src/nio/crypto/sas.py:379-391 | with the newer agreement the texts are equal exactly when each side sees the other's key |
| `SasPair.HonestMacAcceptedIff` | src/nio/crypto/sas.py:670-741 | the MAC message of an honest side is accepted exactly when its device id has no colon |
| `SasPair.StepAdvances` | src/nio/crypto/olm_machine.py:2125-2196 | every enabled action of the joined system leads to the next point of the protocol |
| `SasSafety.EveryCallSequence` | src/nio/crypto/sas.py:282-349 | for every sequence of calls: canceled is final and has a code and a reason, the secret is established at most once, an accepted string implies a secret, and an initiator past the key exchange holds a key that fits the commitment |
| `SasSafety.NextKeeps` | src/nio/crypto/sas.py:595-741 | every call keeps the invariant behind this |
| `SasSafety.MacAcceptedIff` | src/nio/crypto/sas.py:670-741 | when exactly a MAC message is accepted, and which devices are verified then |
| `SasSafety.VerifiedWithoutDevice` | src/nio/crypto/sas.py:737-741 | the input that shows that verified does not imply a verified device: a MAC message without entries and with the right MAC over no key ids is accepted, and accepting the string then makes the object verified |
| `SasSafety.MacVerifiesIffNamed` | src/nio/crypto/sas.py:709-741 | an accepted MAC message verifies a device exactly when one of its entries is for the ed25519 key of the peer's device |
| `SasSafety.VerifiedDeviceIffNoCancelCode` | src/nio/crypto/sas.py:670-741 | for every sequence of calls on a new object: nothing is verified before a MAC message is accepted, and a verified object has verified its peer's device exactly when its cancel code is empty |
| `SasSafety.CheckMacsIff` | src/nio/crypto/sas.py:709-735 | the loop over the MACs is left early exactly for a malformed, foreign or wrong entry |
| `SasSafety.SplitKeyIdIff` | src/nio/crypto/sas.py:711-719 | a key id is an ed25519 one exactly if it is the prefix and a device id without a colon |
| `SasSafety.TimesOutAfterAMinute` | src/nio/crypto/sas.py:282-295 | after any sequence of calls a verification that is not canceled or verified times out exactly from one minute after its creation on, and otherwise the check changes nothing |
| `SasCalls.EndedForGood` | src/nio/crypto/sas.py:334-349 | after any calls, rejecting the string with a secret, canceling, or a received cancel message ends the verification with its code for good: no further calls make it verified or verify a device, and there is a message that says so |
| `SasCalls.VerifiedMeansAccepted` | src/nio/crypto/sas.py:312-344 | a verified object had its user accept the string while there was a secret, and no call at any point ended the verification |
| `SasCalls.AcceptedIff` | src/nio/crypto/sas.py:317-332 | the string counts as accepted exactly if one of the calls accepted it while there was a secret and nothing was canceled |
| `SasCalls.KeyMessageDecides` | src/nio/crypto/sas.py:643-668 | exactly which key messages establish the secret, which raise and leave everything alone, and with which code the others cancel |
| `SasCalls.AcceptMessageDecides` | src/nio/crypto/sas.py:611-641 | exactly which accept messages an initiator takes, and with which code it refuses the others |
| `SasCalls.StartDecides` | src/nio/crypto/sas.py:213-269 | exactly which start messages are refused, and what the commitment of the others is to |
| `SasCalls.OfferDecides` | src/nio/crypto/sas.py:466-509 | the choice of the newer key agreement if it is offered, and the accept message that tells it |
| `SasObject.Sas.constructor` | src/nio/crypto/sas.py:173-211 | the fields of a new object |
| `SasObject.Sas.FromKeyVerificationStart` | src/nio/crypto/sas.py:213-269 | the fields of an object made from a start message, canceled if the offer is not supported |
| `SasObject.Sas.CheckTimeout` | src/nio/crypto/sas.py:282-295 | leaves the state and the answer of TimedOut |
| `SasObject.Sas.AcceptString` | src/nio/crypto/sas.py:317-332 | leaves the state and the error of AcceptSas |
| `SasObject.Sas.RejectString` | src/nio/crypto/sas.py:334-344 | leaves the state and the error of RejectSas |
| `SasObject.Sas.Cancel` | src/nio/crypto/sas.py:346-349 | leaves the state of CancelByUser |
| `SasObject.Sas.AcceptOffer` | src/nio/crypto/sas.py:466-509 | leaves the state and returns the message of AcceptVerification |
| `SasObject.Sas.ReceiveAcceptEvent` | src/nio/crypto/sas.py:611-641 | leaves the state of ReceiveAccept |
| `SasObject.Sas.ReceiveKeyEvent` | src/nio/crypto/sas.py:643-668 | leaves the state and the error of ReceiveKey |
| `SasObject.Sas.CheckEntries` | src/nio/crypto/sas.py:709-735 | the loop over the MACs leaves the state of CheckMacs |
| `SasObject.Sas.ReceiveMacEvent` | src/nio/crypto/sas.py:670-741 | leaves the state and the error of ReceiveMac |
| `Http2.BodiesAreConserved` | src/nio/http.py:398-466 | for any sequence of sends, window updates and changes of the frame size and the initial window: the DATA sent on a stream followed by the buffered rest is the body, every frame fits the limit it was sent under, and the stream is ended once, after all of the body, exactly when nothing is left |
| `Http2.NextAddsWithinLimit` | src/nio/http.py:416-434 | the frames an event adds are within the frame size in force at that moment |
| `Http2Credit.CreditIsConserved` | src/nio/http.py:398-434 | over any run, what a stream sent and may still send is its initial window under the latest settings plus what was granted to it, and what all streams sent and the connection may still send is its first window plus what was granted to it |
| `Http2Credit.LatestSettingsApply` | src/nio/http.py:416-418 | the frame size and the initial window in force are those of the latest settings |
| `Http2Credit.StreamsInOrder` | src/nio/http.py:444-466 | the requests of a run get every other stream in order, and no other stream has a body |
| `Http2Credit.FramesAreFull` | src/nio/http.py:427-434 | all DATA frames of a send but the last one are full |
| `Http2.SendDataFitsWindows` | src/nio/http.py:416-434 | a send takes no window below zero, sends nothing without credit, and buffers only when a window is used up |
| `Http2.UpdateConnectionFailsIff` | src/nio/http.py:410-414 | the loop over all streams after an update of the connection's window fails exactly when, before it starts, the first stream whose own window has room for its rest is not the last one, and the new window of the connection has room for that rest and for what the streams in front of it may send |
| `Http2.UpdateConnectionCanFail` | src/nio/http.py:410-414 | whenever two requests wait for a connection without credit, an update that lets out all of the first one fails, after sending it and ending its stream |
| `Http2.UpdateConnectionFailsInRun` | src/nio/http.py:410-414 | so it fails in a run from a fresh connection of any window and frame size |
| `Http2.NextDrainedIff` | src/nio/http.py:398-434 | when no waiting body could be sent before an event, one could afterwards exactly if the event is a change of settings that gives a buffered stream credit, or a failing update of the connection that leaves credit for it and for a stream behind the lost one |
| `Http2.DrainedUntilStalled` | src/nio/http.py:509-537 | over any run, from the start or from an update of the connection that did not fail on, no waiting body could be sent until such an event |
| `Http2.UpdateConnectionDrains` | src/nio/http.py:410-414 | an update of the connection that does not fail leaves no waiting body that could be sent, whatever was before |
| `Http2.SettingsStallInRun` | src/nio/http.py:509-537 | a run from a fresh connection after which a body waits with credit on both windows, because nothing reacts to new settings |
| `Http2.NextKeepsInv` | src/nio/http.py:398-466 | every event keeps the conservation invariant |
| `Http2.DataFramesCarry` | src/nio/http.py:427-434 | the frames for some bytes carry exactly these bytes on their stream, and end nothing |
| `Http2.Http2Connection.SendChunks` | src/nio/http.py:427-434 | the loop sends the first bytes in maximal frames that respect both windows, and returns the rest |
| `Http2.Http2Connection.SendBody` | src/nio/http.py:416-442 | leaves the state of SendData |
| `Http2.Http2Connection.SendRequest` | src/nio/http.py:444-466 | leaves the state of Send |
| `Http2.Http2Connection.HandleStreamUpdate` | src/nio/http.py:398-408 | leaves the state of UpdateStream |
| `Http2.Http2Connection.HandleConnectionUpdate` | src/nio/http.py:398-414 | leaves the state of UpdateConnection, and reports its error |
| `Http2.Http2Connection.ApplySettings` | src/nio/http.py:416-425 | new limits are what later sends read; a new initial window shifts the windows of all open streams by the difference |
| `KeyExport.ExportRoundTrip` | src/nio/crypto/key_export.py:25-133 | saving succeeds exactly for round counts below 2^32, and reading the file with the passphrase then gives back the data |
| `KeyExport.OpensIffSealed` | src/nio/crypto/key_export.py:105-133 | a payload of at least 69 bytes opens to some data exactly when it is the seal of that data under its own salt, counter and round count |
| `KeyExport.ShortPayloadIsEmpty` | src/nio/crypto/key_export.py:105-133 | a shorter payload, whose slices overlap, opens exactly if it has 32 bytes, the version byte and a MAC of its front part, and only to the empty data |
| `KeyExport.Layout` | src/nio/crypto/key_export.py:86-102 | the 1/16/16/4/n/32-byte layout is read where it was written |
| `KeyExport.SealedNumbers` | src/nio/crypto/key_export.py:81-97 | the counter in the payload has bit 63 cleared, and both numbers read back as written |
| `KeyExport.PayloadOf` | src/nio/crypto/key_export.py:69-102 | what the payload of an export starts with: version, salt, the counter without bit 63, and the round count |
| `KeyExport.FramingRoundTrip` | src/nio/crypto/key_export.py:40-66 | header, footer and line breaks come off again |
| `KeyExport.SavedLines` | src/nio/crypto/key_export.py:40-46 | the three lines of a saved export |
| `Base64.DecodeEncode` | src/nio/crypto/key_export.py:102-106 | unpadded base64 of either alphabet decodes to the bytes it encodes and has no line breaks |
| `Base64.GroupIsNumber` | src/nio/crypto/key_export.py:102 | three bytes and their four digits are the same number in base 256 and in base 64 |
| `ByteStrings.FromToBytes` | src/nio/crypto/key_export.py:91-97 | big-endian numbers that fit read back as written |
| `ByteStrings.ToFromBytes` | src/nio/crypto/key_export.py:117-119 | big-endian bytes are written as they were read |
| `ByteStrings.CipherTwice` | src/nio/crypto/key_export.py:131-133 | the stream cipher undoes itself |
| `ByteStrings.XorBitwise` | src/nio/crypto/key_export.py:131-133 | each bit of the cipher text differs from the plaintext exactly where the keystream has a one |
| `Attachments.DecryptGivesBack` | src/nio/crypto/attachments.py:33-75 | decrypting the ciphertext with the info that came with it gives back the plaintext |
| `Attachments.EncryptChunks` | src/nio/crypto/attachments.py:95-134 | for every splitting of the data, the joined chunks and the hash are those of the whole data at once |
| `Attachments.EncryptAttachment` | src/nio/crypto/attachments.py:78-92 | one chunk |
| `Attachments.InfoHolds` | src/nio/crypto/attachments.py:137-156 | the info holds the key in the URL-safe alphabet, the whole counter block, and the hash |
| `Attachments.SplitData` | src/nio/crypto/async_attachments.py:98-116 | the splitter yields full chunks and a rest that join to the data |
| `Attachments.EncryptSplit` | src/nio/crypto/async_attachments.py:47-95 | the asynchronous variant with 4096-byte chunks gives the one-shot ciphertext and info |
| `TrustFile.LoadText` | src/nio/store/file_trustdb.py:80-118 | loading a saved file gives the same entries in the same order |
| `TrustFile.HashUsersAreLost` | src/nio/store/file_trustdb.py:80-118 | saving a store with fields that are not empty and free of whitespace and loading it again loses exactly the entries of users with a hash sign in front |
| `TrustFile.LoadsBackIff` | src/nio/store/file_trustdb.py:80-118 | so such a store loads back unchanged exactly when it has no such user |
| `TrustFile.LineRoundTrip` | src/nio/store/file_trustdb.py:20-43 | a writable entry is read back from its line |
| `TrustFile.LineGives` | src/nio/store/file_trustdb.py:20-43 | exactly which lines of a file give an entry, and which one |
| `TrustFile.AddIsConsistent` | src/nio/store/file_trustdb.py:125-143 | adding fails exactly when the device is known with another key, and keeps one key for each device |
| `TrustFile.AddEntriesFailIff` | src/nio/store/file_trustdb.py:121-143 | adding several keys fails exactly when one of them conflicts with the store or with one in front of it, and then the keys before the first such one have been added |
| `TrustFile.RemoveEntriesCounts` | src/nio/store/file_trustdb.py:149-153 | removing several keys takes away one occurrence of each, as far as there is one |
| `TrustFile.KeyStore.constructor` | src/nio/store/file_trustdb.py:68-96 | a store holds what its file holds, whatever that is |
| `TrustFile.KeyStore.Save` | src/nio/store/file_trustdb.py:114-118 | the loop writes a file that loads to the entries |
| `TrustFile.KeyStore.Find` | src/nio/store/file_trustdb.py:98-103 | the loop returns the first entry for a device |
| `TrustFile.KeyStore.Add` | src/nio/store/file_trustdb.py:125-147 | appends and saves, or raises and leaves entries and file alone |
| `TrustFile.KeyStore.AddMany` | src/nio/store/file_trustdb.py:121-143 | saves if all keys could be added; otherwise the file is left alone but the keys before the bad one stay in memory |
| `TrustFile.KeyStore.RemoveKey` | src/nio/store/file_trustdb.py:155-161 | removes the first occurrence and saves |
| `TrustFile.KeyStore.RemoveMany` | src/nio/store/file_trustdb.py:149-153 | removes one occurrence of each and saves |

## Left out

- Objects that the source shares between containers (a `MatrixUser` in `users` and in `invited_users`, an `OlmDevice` in
  the store and in a list, a session in its table) are values here, replaced where the source changes them; the aliasing
  itself is not modelled. `invited_users` is the set of its keys.
- The network and client plumbing, parsing, callbacks, logging and the SQL store; a trust change is a change of the device record.
- The asynchronous client, which sets `shared` without a check (`src/nio/client/async_client.py:2275`), and forgetting a room,
  which leaves its outbound session behind.
- Power levels, typing, receipts and the other fields of a room.
- `Clients.Client.HandleMemberEvent`: applies the reference function for the members; that the `MatrixRoom` methods compute it is proved
  in `Rooms.dfy`, and the two objects are not linked.
- Creating the inbound twin of a session is assumed to succeed; the source only logs a failure. The stores of Olm and inbound
  group sessions are sets of keys, without their order.
- Failures of the Olm encryption of a message, how a session is found to be wedged, our own outgoing key requests. The forwarded keys and
  the dummy messages are two lists here; their order among each other in the outgoing messages is not modelled.
- `KeyRequestSafety.NoAnswerAfterCancellation`: speaks of cancellations that follow their request; one that arrives before it has no effect.
- `SasPair.HonestRunsVerify`: leaves out time-outs and cancellations by a user, which end a verification; `SasSafety.EveryCallSequence` covers them.
- `set_their_pubkey` and `establish_sas` called from outside, and the rendering of emojis and decimals.
- `Base64.DecodeEncode`: says nothing about text outside both alphabets, which the library skips and the model refuses.
- `KeyExport.OpensIffSealed`: speaks of at least 69 bytes, because in a shorter payload the slices of the source overlap; `KeyExport.ShortPayloadIsEmpty`
  covers the rest.
- Counters of AES that wrap around, and file-like, asynchronous and path arguments of the attachment functions.
- Reading a file that is not text, and atomic replacement of files.
