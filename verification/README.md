# Verified model of the storage, change and settings protocols

This project models the parts of the server, the web client and the S3 bridge
whose correctness spans several steps, and proves what they add up to. Each
`await` of the original ends a step; steps of different calls interleave
freely. A module holds, as a rule, a state with its steps as functions, an
invariant kept by every step, and the results over whole runs; where the
original is an object whose methods update its fields, a class with those
fields has one method per stretch of code between two awaits, proved to do
exactly what the step functions say. Names in a state that the code itself does
not keep are marked as history.

| files | what they model |
|---|---|
| ChannelLog, ChannelLogRuns, CollabHub | delivery of a document's log across server instances over a lossy bus |
| Bus | the listening connection of the notification bus |
| DiskCache, DiskReconnect, BlobCache, RecencyIndex | the disk cache with epochs and a byte budget |
| WindowCache, MediaCache | the media window cache: coalesced fills, drops with an await per unlink |
| ReadPath, Routed, Sharded, Cuts, BlobKeys | a ranged read through all tiers, bookends, key layout, names |
| Streams, FsBlobs, TempFiles | chunked streams, part uploads and their temporary files |
| Generations | content generations: mint, claim, commit, restore, prune |
| SeqFeed, Pokes | account sequences held until commit, and the pokes that announce them |
| LibrarySync, LibraryRuns, RowCache | cursor pulls into the library and the mirror on the device |
| AutoSync | the catch-up loop of an open vault |
| Decisions, Facts, SettingSync, SettingAgreement, SettingLoss, SettingRuns, SettingsDevice | decisions merged by union over a last-write-wins blob |
| EditDistance, Highlights | one-edit match and highlighted ranges |
| S3Listing | listing a bucket by prefix, delimiter and token |
| TokenBuckets | the two-lane pacer |
| Base32 | base32 with a wrapping 32-bit accumulator |

## Where the code promises more than it does

The code is modelled as it is. Where a promise of its comments fails at the
granularity of awaits, a lemma shows a run on which it fails, and another says,
for all runs, exactly when it does.

- Posting allocates, inserts and broadcasts in three awaits, so a read or a hello
  can pass over a row that is yet to land. `DeliveredIff` says exactly when a row
  is missing; `EarlyHelloLosesRow`, `HelloBelowBaselineLosesRow` and
  `LateRowIsLost` are such runs. `DeliveredAtRest` is the case of a hello that
  finds the watermark and the rows heard of, and of reads that find their spans.
- A LISTEN on a live connection is not waited for: `HearsIffListenLanded`,
  `FailedListenIsDeaf`. The handlers of two connections may interleave, and one
  registered late may miss a connection: `RoundsOverlap` with `KeptApartIff`,
  `ToldIffInTime`.
- The comment above the disk cache's reconnect says whatever was announced
  meanwhile is dropped; keys that were only being fetched are not:
  `ReconnectRepairsIff`, `ReconnectLeavesStaleBytes`.
- A fill that is shed returns before the block that clears its name, so its
  window is never filled again: `ShedIff`, `ShedForever`.
- A heal of a pre-split derived blob can undo a put or a remove: `PutLastsIff`,
  `RemoveLastsIff`, `HealUndoesPut`, `HealUndoesRemove`.
- A restore acts on a row it read earlier, without a claim: `RestoreKeepsAllIff`,
  `FirstMintSettlesIff` with `LostNumberIsMintedAgain`, and
  `ReachableBlobsSurviveIff` with `LateRestoreKeepsADoomedBlob`.
- An evicted stream that closes late can cut off the account's next stream:
  `OthersStayReachedIff`, `LateCloseCutsOffANewStream`.
- Overlapping pulls, a session that starts under one, and a device copy that is
  wrong can leave the library wrong below the cursor: `WrongIff`,
  `LandingAgreesIff`, `ThreePullsDisagree`, `ReplyAfterResetEmptiesLibrary`.
- A mirror reply that was overtaken can bring a deleted row back:
  `MirrorWrongIff`, `ReplyKeepsMirrorIff`, `OvertakenReplyResurrects`.
- An announcement can be dropped when the session is away or the cursor goes
  back: `DroppedIff`, `CursorBackIsNotNoticed`, `RecheckWithoutSessionIsLost`.
- A part sent again while its completion runs can be acknowledged and lost:
  `ReadsWhatWasThereIff`, `LeftBehindIff`, `ResendIsLost`. Two sends of one
  millisecond can share a temporary file: `StaysIff`, `SharedNameSpoils`.
- A push that fails or arrives out of order may be repaired by nobody:
  `QuietLacksIff`, `FailedPushIsForgotten`, `ReorderedPushesLoseADecision`. The
  pusher's own switches can differ from the blob it has seen:
  `PusherSwitchesIff`, `PusherKeepsOverwrittenSwitches`.
- Pins go by the device's clock. A tie, or a clock that went back, loses a word:
  `MergeKeepsWordsIff`, `PinRepresentsIff`, `TieLeavesDeviceAndAccountApart`; and
  `TiedSearchesNeverAgree` for searches.
- Two files of one path: `ListedKeyResolvesIff`. A token for an empty key is no
  token: `PagesAreCompleteIff`.

## Model

| member | source | states |
|---|---|---|
| ChannelLog.DeliveredIff | apps/server/src/collabhub.ts:133-328 | over every run whatever of many instances, posts, joins, hellos, lost notices and awaits: a socket of an instance at rest, told of a position past what it lost, has a committed row above its hello exactly when the last step that concerned that row for that socket did not pass over it |
| ChannelLog.OwedAfterStep | apps/server/src/collabhub.ts:257-328 | one step of anybody leaves a row owed to a socket, with nothing left under way that brings it, exactly when it was and the step does not recover it, or when the step passes over it |
| ChannelLog.DeliveredAtRest | apps/server/src/collabhub.ts:133-328 | in a run whose hellos find a watermark and the rows heard of landed, with posts under way above those, and whose reads find their spans landed, such a socket has every committed row above its hello |
| ChannelLog.ReconnectResyncs | apps/server/src/collabhub.ts:307-328 | a listener that comes back begins reading the head exactly when it is not the first and somebody is here |
| ChannelLog.DeliveredAfterReconnect | apps/server/src/collabhub.ts:305-328 | once the listener is back and resynced, with every notice handled and every read finished, a row the down time lost is missing exactly when a step passed it over for good, and in an orderly run none is; a watermark that moves back across an await only causes duplicates |
| ChannelLog.OnlyCommittedRowsAreSent | apps/server/src/collabhub.ts:283-303 | in every run a socket is sent committed positions only |
| ChannelLog.NoticeFetches | apps/server/src/collabhub.ts:257-281 | a notice in an occupied room reads exactly the rows above the watermark up to its own, or its own alone without a watermark, and never a row posted on this instance; the watermark ends at the higher of the two, after the rows when any are read above one |
| ChannelLog.PostAndHeadFetch | apps/server/src/collabhub.ts:149-171 | a post reads the rows between the watermark and its own, a resync those above it up to the head, and each moves the mark no further back |
| ChannelLogRuns.HelloBelowBaselineLosesRow | apps/server/src/collabhub.ts:133-171 | a reachable run in which the baseline counts a position whose row has yet to land, the hello reads before it lands, and its notice is at or below the watermark: the row is never sent |
| ChannelLogRuns.EarlyHelloLosesRow | apps/server/src/collabhub.ts:133-147 | a reachable run in which a hello read before the watermark exists loses a row for good |
| ChannelLogRuns.LateRowIsLost | apps/server/src/routes/channel.ts:258-289 | a reachable run in which a row that lands after a higher position was read past is never delivered |
| CollabHub.DeliverRows | apps/server/src/collabhub.ts:283-303 | what each member of the room object is sent is the rows it did not post, each once and in the order they were read, by an index map from frames to rows that climbs and leaves none out; nobody is closed |
| CollabHub.FramesByPosition | apps/server/src/collabhub.ts:289-302 | rows read by position reach a member by position |
| CollabHub.TheirsAreUnique | apps/server/src/collabhub.ts:296-302 | that leaves one list of frames a member can be sent |
| CollabHub.SendToRoom | apps/server/src/collabhub.ts:60-66 | every member but one is sent the frame, nobody is closed |
| CollabHub.PgNotifyHub.Join | apps/server/src/collabhub.ts:133-147 | the member is in the document's room, no other room changes, and a baseline is read when there is no watermark |
| CollabHub.PgNotifyHub.Leave | apps/server/src/collabhub.ts:49-58 | the room is forgotten with its last member while deliveries under way keep the object; the watermark stays |
| CollabHub.PgNotifyHub.BroadcastLog | apps/server/src/collabhub.ts:149-171 | local sockets at once, then exactly the ruling on gap and watermark the protocol proof uses |
| CollabHub.PgNotifyHub.DeliverLog | apps/server/src/collabhub.ts:257-281 | the stretch before the await does what the notice ruling says, empty rooms and unknown watermarks included |
| CollabHub.PgNotifyHub.ResyncHead | apps/server/src/collabhub.ts:307-323 | the stretch after the head read does what the resync ruling says |
| CollabHub.PgNotifyHub.FinishDelivery | apps/server/src/collabhub.ts:276-281 | the mark is written after the rows, even where another delivery moved the watermark past it |
| CollabHub.PgNotifyHub.Evict | apps/server/src/collabhub.ts:72-78 | exactly the account's sockets are closed and nobody is sent anything |
| Bus.AlwaysExactlyOne | apps/server/src/bus.ts:125-301 | a bus that was started and not closed always has exactly one of a retry timer, an attempt nothing superseded, or a listener |
| Bus.HearsIffListenLanded | apps/server/src/bus.ts:132-149 | over every run a live connection hears a subscribed channel exactly when the LISTEN for it is neither still on its way nor refused |
| Bus.RefusedStaysDeaf | apps/server/src/bus.ts:143-145 | a channel whose LISTEN was refused is not heard on that connection again, whatever follows |
| Bus.FailedListenIsDeaf | apps/server/src/bus.ts:132-149 | a reachable state that is up and subscribed and deaf on the channel for as long as the connection lasts |
| Bus.ToldIffInTime | apps/server/src/bus.ts:269-276 | over every run, once a connection's round of handlers is over, a handler was told of it exactly when it was registered by then, once and in order of registration, and of the first connection as first and of no other |
| Bus.RoundRunsOut | apps/server/src/bus.ts:269-276 | a round that is let run calls each handler left, one call each, and then it is over |
| Bus.RoundsOverlap | apps/server/src/bus.ts:269-276 | a reachable run in which the handlers of a second connection all run before the first connection has told its second one |
| Bus.KeptApartIff | apps/server/src/bus.ts:269-276 | from any state of any run, whatever follows short of another connection tells the handlers connection by connection exactly when at most one round is open |
| Bus.DeadConnectionsAreSilent | apps/server/src/bus.ts:219-236 | once a connection is given up, nothing it still says is dispatched |
| Bus.PgBus.Connected | apps/server/src/bus.ts:249-276 | a stale attempt changes nothing; a current one becomes the listener and says whether it is the first |
| Bus.PgBus.ConnectFailed | apps/server/src/bus.ts:242-248 | a failed attempt schedules a retry unless it is stale |
| Bus.PgBus.DropListener | apps/server/src/bus.ts:279-286 | an error of the current connection alone moves the generation on and schedules a retry |
| Bus.PgBus.SubscribeTo | apps/server/src/bus.ts:132-149 | a new channel is asked for on the live connection, if any, and the answer is not waited for |
| Bus.PgBus.Start | apps/server/src/bus.ts:125-130 | an attempt begins exactly when there is no listener and no timer and the bus is open, under the next generation |
| Bus.PgBus.Shut | apps/server/src/bus.ts:196-213 | closing supersedes every attempt and disarms the timer |
| DiskCache.HitsAreCurrent | apps/server/src/blobcache.ts:132-225 | in every reachable state a hit returns the backing store's bytes, unless an overwrite has not been followed by its drop or a superseded admission is between rename and unlink |
| DiskCache.BudgetHolds | apps/server/src/blobcache.ts:115-124 | at every step the byte count is the sum of the indexed sizes, within budget, and the index is in recency order |
| DiskCache.EvictionIsMinimal | apps/server/src/blobcache.ts:115-124 | an eviction takes the shortest run of least recently used entries that restores the budget |
| DiskCache.NoFileIsForgotten | apps/server/src/blobcache.ts:115-186 | over every run each file is of an indexed key, on its way to be unlinked, or in the hands of the admission that renamed it |
| DiskReconnect.ReconnectRepairsIff | apps/server/src/blobcache.ts:140-159 | after a reconnect whose drops run one await each, between anything but a write of the key, every later hit on it, outside the window between a superseded admission's rename and its unlink, is current exactly when it is a derived key that was indexed then, or neither its file nor a fetch of it under the current epoch holds other bytes than the store's |
| DiskReconnect.ReconnectLeavesStaleBytes | apps/server/src/blobcache.ts:153-186 | the negative instance: a reachable state with a key that is only being fetched, which the reconnect does not repair |
| BlobCache.DiskCachedBlobStore.EvictToBudget | apps/server/src/blobcache.ts:115-124 | the loop removes exactly the specified prefix and returns its keys |
| BlobCache.DiskCachedBlobStore.DropLocal | apps/server/src/blobcache.ts:98-151 | for a derived key where derived blobs are cached, and for a content key where content is, nothing is indexed under it any more, its epoch is one higher and the other keys have not noticed; for any other key nothing changes |
| BlobCache.DiskCachedBlobStore.DropDerived | apps/server/src/blobcache.ts:153-159 | every indexed key of the derived class is dropped that way and no other key notices |
| BlobCache.DiskCachedBlobStore.Settle | apps/server/src/blobcache.ts:161-186 | admitted exactly when no drop has passed the fill, then evicted to budget; an entry that fits the budget is the last one afterwards |
| BlobCache.DiskCachedBlobStore.Get | apps/server/src/blobcache.ts:188-209 | past the cache for a range and for a key of no cached class; else a hit is an indexed key whose file exists, which is last in the index then, and a miss takes along the key's epoch and the most bytes its class may keep |
| BlobCache.DiskCachedBlobStore.DerivedKeys | apps/server/src/blobcache.ts:153-159 | exactly the indexed keys of the derived class |
| BlobCache.DiskCachedBlobStore.constructor | apps/server/src/blobcache.ts:53-96 | the scanned entries, oldest first, evicted down to budget |
| RecencyIndex.ExcessIsLeast | apps/server/src/blobcache.ts:115-124 | the evicted prefix restores the budget and no shorter one does |
| RecencyIndex.OverrunIsLeast | apps/server/src/mediacache.ts:93-102 | an eviction by a running total stops at the least number of entries that brings it within budget, and takes all of them only when none does |
| RecencyIndex.UseKeepsRecency | apps/server/src/blobcache.ts:198-203 | re-inserting a used entry at the tail keeps the index in order of last use |
| WindowCache.ReadsAfterAPutAreNew | apps/server/src/mediacache.ts:235-291 | once a put or remove of a key has returned, no window read begun later opens older bytes, whatever fills, evictions, drops and late unlinks run before, between and after |
| WindowCache.ReachableOk | apps/server/src/mediacache.ts:121-176 | every state reachable from an empty cache has the invariant: one fill per window, files no older than the drops they answer for |
| WindowCache.FillsAreCoalesced | apps/server/src/mediacache.ts:121-176 | at most three fills run, one at most per window, each with its name in flight |
| WindowCache.ShedIff | apps/server/src/mediacache.ts:121-136 | of the windows not in flight exactly those that are not here, be they not indexed or their file gone, are shed at the limit of running fills, with their names left in flight |
| WindowCache.ShedForever | apps/server/src/mediacache.ts:126-136 | a window whose fill was shed once is never filled again, over every later run |
| WindowCache.DropNextAccounts | apps/server/src/mediacache.ts:284-290 | forgetting a window by its snapshot size keeps the byte count exact just when the window still has that size |
| WindowCache.SettleEvictsLeast | apps/server/src/mediacache.ts:149-165 | over every run a settled fill puts its window last in the order of use and takes, from the other end, the least number of windows that brings the running total within budget; within budget it takes none, and what it takes was used before what it leaves |
| WindowCache.IndexIsByRecency | apps/server/src/mediacache.ts:108-115 | in every reachable state the windows are indexed in the order of their last use |
| WindowCache.NoFileIsForgotten | apps/server/src/mediacache.ts:93-176 | over every run each window file is of an indexed window, on its way to be unlinked, or in the hands of the fill that placed it |
| WindowCache.DropForgetsTheKey | apps/server/src/mediacache.ts:277-291 | from any reachable state a drop that is let run takes exactly the key's windows out of the index and hands over the files of all of them |
| MediaCache.MediaWindowCache.Fill | apps/server/src/mediacache.ts:121-138 | begun exactly for a window that is neither here nor in flight, below the limit |
| MediaCache.MediaWindowCache.Settle | apps/server/src/mediacache.ts:149-165 | the window joins the index exactly when no drop has passed the fill; what is evicted is returned for unlinking |
| MediaCache.MediaWindowCache.Evict | apps/server/src/mediacache.ts:93-102 | the oldest windows go, as many as bring the running total within budget and not one more |
| MediaCache.MediaWindowCache.BeginDrop | apps/server/src/mediacache.ts:278-284 | the epoch moves on before anything is unlinked, and the windows to forget are those indexed then |
| MediaCache.MediaWindowCache.DropNext | apps/server/src/mediacache.ts:284-290 | one window forgotten per unlink |
| ReadPath.Serve | apps/server/src/mediacache.ts:191-233 | for any mix of windows hit and missed, after any run and with any run between the windows short of removing the blob, a ranged read returns exactly bytes start to min(end, size-1); a window's file that is gone when it is opened breaks it off behind bytes that are right; every window of the range before the first that is missing was here, and fills begin for that one and each after it, in turn |
| ReadPath.MomentsOfARun | apps/server/src/routed.ts:76-99 | at every moment of every run of puts, removes, copies read, landed and lost, whatever exists of a blob is what was stored |
| ReadPath.PutCopiedRemoved | apps/server/src/routed.ts:76-159 | from any sound state a put stores the blob, a copy that is read and lands holds its place's piece, a remove takes the blob and its ends and leaves the windows |
| ReadPath.RoutedGetIsExact | apps/server/src/routed.ts:101-129 | a ranged read below the caches is exact whichever bookends exist, with the true size or with none |
| ReadPath.SourceIsRight | apps/server/src/mediacache.ts:140-146 | what a bookend copy or a window fill reads is the piece its place must hold |
| Sharded.ShardIsInjective | apps/server/src/sharded.ts:19-24 | two keys never share a shard, short keys included |
| Sharded.ShardingRefines | apps/server/src/sharded.ts:16-36 | through the sharded names a store is a plain map under puts and removes |
| Routed.RoutedBlobStore.CopyBookends | apps/server/src/routed.ts:76-99 | one copy per key at a time; the head as long as it can be, and a tail exactly when the last bytes begin behind it |
| Routed.RoutedBlobStore.GetRange | apps/server/src/routed.ts:101-129 | from the head or the tail copy when the range lies in one that is there, with its offsets, else from the primary store; a copy of both ends begins exactly when the one that holds the range is missing and no copy is under way |
| Routed.HealingIsInvisibleIff | apps/server/src/routed.ts:130-151 | a derived key goes on reading as it does over every run without a write of it exactly when no read holds, or is about to copy, other bytes |
| Routed.PutLastsIff | apps/server/src/routed.ts:130-151 | a put lasts over every run without another write exactly when no heal with other bytes was in flight and no read past its miss was about to fetch some |
| Routed.RemoveLastsIff | apps/server/src/routed.ts:153-159 | a remove in its two awaits lasts exactly when nothing healed the key between them and no heal of it is in flight |
| Routed.RemoveTakesTheKey | apps/server/src/routed.ts:153-159 | a remove with nothing between its halves takes the key out of both stores, and nothing else |
| Routed.CopiesAreOfMisses | apps/server/src/routed.ts:130-151 | over every run no more copies land than reads missed: each is of a miss of its own |
| Routed.HealUndoesPut | apps/server/src/routed.ts:130-151 | a put after a read has missed, before or after the read has its bytes, can be undone by its copy |
| Routed.HealUndoesRemove | apps/server/src/routed.ts:130-159 | so can a remove when the read has its bytes before the primary copy goes |
| BlobKeys.GenerationRoundTrip | apps/server/src/blobs.ts:19-33 | the generation a content key names is the one it was made for |
| BlobKeys.BlobKeysAreDistinct | apps/server/src/blobs.ts:19-28 | two files, kinds or content generations never share a blob name |
| BlobKeys.ClassOfKey | apps/server/src/blobcache.ts:38-40 | the caches' patterns tell content from derived blobs by name, exactly |
| BlobKeys.DerivedKeysIff | apps/server/src/blobcache.ts:38-38 | the derived class is exactly the runs of letters, digits and dashes that end in .thumb or .idx |
| BlobKeys.ContentKeysIff | apps/server/src/blobcache.ts:40-40 | the content class is exactly such runs by themselves or with a generation in digits |
| BlobKeys.BookendsAreApart | apps/server/src/routed.ts:85-92 | bookend names keep apart from each other and from thumbnails and indexes |
| BlobKeys.WindowNamesAreDistinct | apps/server/src/mediacache.ts:85-87 | a window file's name tells its blob and its number |
| Streams.SliceRange | apps/server/src/blobs.ts:148-175 | however the source is cut into chunks, exactly bytes [start, start + length) come out, in non-empty chunks |
| Streams.BufferUpTo | apps/server/src/streams.ts:13-44 | buffered exactly when the source fits the cap, and the whole source in either outcome |
| Streams.LimitBytes | apps/server/src/blobs.ts:126-139 | the source passes whole or fails, exactly at the limit |
| FsBlobs.AssemblyIgnoresArrival | apps/server/src/blobs.ts:239-290 | runs of sends that end with the same bytes per number complete to the same blob, whatever order or repetition they arrived in and however the parts are listed |
| FsBlobs.TotalIsSize | apps/server/src/blobs.ts:57-67 | with the size each part landed with, the total is the size of the assembled blob |
| FsBlobs.PartsTotal | apps/server/src/blobs.ts:57-67 | the sum, or nothing exactly when a part has no size |
| FsBlobs.FsBlobStore.CompleteParts | apps/server/src/blobs.ts:263-290 | while the session's sends go on landing at every await, the blob becomes each listed part as it is when it is read, by number, and each is unlinked; a part missing then leaves the blob as it was; other sessions are untouched |
| FsBlobs.AssemblyTakesTheLastSent | apps/server/src/blobs.ts:263-290 | each piece of the blob is what was last sent under its number by the time it was read |
| FsBlobs.ReadsWhatWasThereIff | apps/server/src/blobs.ts:263-290 | a completion reads the parts it found exactly when, of each number, what lands before it is read ends with the same bytes |
| FsBlobs.LeftBehindIff | apps/server/src/blobs.ts:287-289 | a part is left behind exactly when it was sent again after its unlink |
| FsBlobs.ResendIsLost | apps/server/src/blobs.ts:263-290 | a part sent again between its read and its unlink is acknowledged, and its bytes are neither in the blob nor left |
| FsBlobs.FsBlobStore.PutPart | apps/server/src/blobs.ts:239-261 | exactly the announced length or nothing; a repeated number replaces; other sessions are untouched |
| FsBlobs.FsBlobStore.Put | apps/server/src/blobs.ts:188-203 | the blob is there in full or what was there stays |
| TempFiles.PlacesHoldWhatWasSent | apps/server/src/blobs.ts:188-261 | over every run of overlapping sends, failures and removals in which no temporary name is opened while it is in use, a place holds exactly what the send acknowledged there last had sent |
| TempFiles.StaysIff | apps/server/src/blobs.ts:188-261 | after any run, a file renamed into place keeps its bytes short of another send or removal there exactly when no send that still has it open has other bytes to write |
| TempFiles.NothingIsLeftOver | apps/server/src/blobs.ts:188-261 | over every run a temporary name is there only while a send that opened it is under way: none is left of a send that ended or failed |
| TempFiles.SharedNameSpoils | apps/server/src/blobs.ts:239-261 | a run in which two sends of one part share the name made of the time: the first is acknowledged and can be written over by the second |
| FsBlobs.FsBlobStore.AbortParts | apps/server/src/blobs.ts:292-304 | the session's parts go and no others |
| Generations.NoTwoWritersShareABlob | apps/server/src/db.ts:617-643 | over any interleaving of reads, mints, commits, restores and prunings no number is minted twice, so no two writers share a content blob name |
| Generations.MintIsNext | apps/server/src/db.ts:625-637 | the number assigned is above what is minted, current and kept, and is the least such |
| Generations.MintsAreNeverHeld | apps/server/src/db.ts:617-643 | over every run from any new or migrated row whose highest number was in sight at its first mint, no mint gives a number the row ever pointed at or kept |
| Generations.FirstMintSettlesIff | apps/server/src/db.ts:625-637 | over every run up to the first mint, that mint passes everything the row ever held exactly when its highest number has not been hidden for good by a restore |
| Generations.OutOfSightIff | apps/server/src/routes/storage.ts:1583-1623 | before the first mint a number is out of sight exactly when the last restore that concerned it hid it, which takes a restore that found the row moved |
| Generations.TimelyKeepsInSight | apps/server/src/routes/storage.ts:1563-1623 | restores that each find the row where they read it hide nothing |
| Generations.LostNumberIsMintedAgain | apps/server/src/routes/storage.ts:1563-1623 | two overlapping restores of an older row hide its highest generation, whose number is then minted |
| Generations.OneCommitPerTenure | apps/server/src/db.ts:645-665 | over every such run, of the writers that read the row at one generation at most one commits until a restore brings that generation back |
| Generations.RestoreReopensTenure | apps/server/src/db.ts:652-665 | after such a restore a second one commits |
| Generations.RestoreKeepsAllIff | apps/server/src/routes/storage.ts:1583-1623 | a restore keeps every generation reachable exactly when the row still points where the restore read it |
| Generations.StepSparesIff | apps/server/src/routes/storage.ts:1583-1623 | a step leaves a needed blob gone or about to be unlinked exactly when it is a restore whose own generation lost its blob since it was read |
| Generations.ReachableBlobsSurviveIff | apps/server/src/routes/storage.ts:610-770 | over every such run the blob of everything the row points at or keeps exists and is not about to be unlinked, exactly when every restore found the blob of the generation it had read |
| Generations.LateRestoreKeepsADoomedBlob | apps/server/src/routes/storage.ts:1583-1623 | a run from a new row in which a restore that read before a commit brings back a version whose blob that commit gave up |
| Generations.WindowIsNewest | apps/server/src/routes/storage.ts:817-833 | pruning keeps as many versions as the window has places for, and nothing older than what it drops |
| Generations.FileRow.MintGeneration | apps/server/src/db.ts:625-643 | the statement's nested cases assign the specified number |
| Generations.FileRow.Commit | apps/server/src/routes/storage.ts:610-770 | the transaction commits exactly on a row that is as the writer read it, moves the row to the writer's number, and returns for unlinking every blob the row needed and needs no more; else the writer's own |
| Generations.CommitGivesUp | apps/server/src/routes/storage.ts:701-770 | a commit gives up exactly what was needed before it and is not after it, what pruning dropped included, or the writer's own blob when it does not claim |
| Generations.LeakedAfterStep | apps/server/src/routes/storage.ts:610-770 | one step of a settled row leaves a stored blob without any use exactly when it had none and the step does not point back at it, or the step is a restore that hides it: commits and unlinks forget nothing |
| Generations.NothingIsForgottenIff | apps/server/src/routes/storage.ts:610-770 | over every such run a stored blob is neither needed nor given up nor a writer's exactly when a restore hid it for good, or it was so to begin with and none has pointed back at it |
| Generations.FileRow.Restore | apps/server/src/routes/storage.ts:1580-1650 | the transaction acts on the row as it was read before, and on that alone |
| Generations.FileRow.PruneVersions | apps/server/src/routes/storage.ts:817-833 | the loop leaves exactly the window and returns what it dropped |
| SeqFeed.AnnouncedIsCommitted | apps/server/src/db.ts:196-216 | over any interleaving of transactions, whatever a flush writes is at or below a committed sequence of an account the stream belongs to |
| SeqFeed.PokesHaveAReason | apps/server/src/db.ts:490-507 | over every run a poke carries a sequence that was announced for an account of the stream: a bump rolled back or not acknowledged is never the reason for one |
| SeqFeed.CommittedBumpsArePoked | apps/server/src/events.ts:30-41 | every bump of an acknowledged commit arms the flush, and the next flush pokes every stream the account then has at or above it |
| SeqFeed.HeardIsPoked | apps/server/src/seqfanout.ts:19-30 | after any run a committed sequence heard of from another instance arms the flush, and the next flush pokes every stream the account then has at or above it |
| SeqFeed.LostAckIsMadeUp | apps/server/src/pgdb.ts:208-228 | a commit whose acknowledgement is lost is made up for by the account's next: that one takes a higher sequence, and the flush after it pokes every stream past the lost bump |
| SeqFeed.SequencesHaveNoGaps | apps/server/src/db.ts:602-615 | over every run of all transactions an account's sequence has moved on by exactly the number of its committed bumps |
| SeqFeed.OneBumpIsAnnounced | apps/server/src/db.ts:196-216 | from any state of any run, a transaction with one bump moves the sequence on by one when it commits, announcing nothing yet, and has it pending and the flush armed once acknowledged; nothing else changes |
| SeqFeed.UnannouncedLeavesNothing | apps/server/src/db.ts:196-216 | rolled back it leaves the feed as it was; with its acknowledgement lost only the sequence has moved on |
| SeqFeed.StreamsComeAndGo | apps/server/src/events.ts:43-65 | a stream is reached from when it joins until it leaves, and neither touches sequences, transactions or what is pending |
| SeqFeed.HeldSeqs.Release | apps/server/src/db.ts:201-216 | the held bumps are handed over in order and none is left |
| Pokes.SeqEvents.Deliver | apps/server/src/events.ts:86-99 | every stream of every pending account is poked with its sequence, once for each seat it has there, nothing else is written, and the batch is gone |
| Pokes.SeqEvents.NoteSeq | apps/server/src/events.ts:30-41 | the highest sequence stays pending and the flush is armed with it |
| Pokes.SeqEvents.SubscribeTo | apps/server/src/events.ts:43-57 | the stream is last in its account's set; from the front of it just as many end as make the set fit the cap; the other sets stay |
| Pokes.SeqEvents.UnsubscribeFrom | apps/server/src/events.ts:58-63 | the stream and nobody else leaves the set it joined, and exactly an empty set takes the account off the list |
| Pokes.OthersStayReachedIff | apps/server/src/events.ts:58-63 | a leaving stream leaves the account's others reachable exactly when theirs is the same set or its own is not empty without it |
| Pokes.LateCloseCutsOffANewStream | apps/server/src/events.ts:43-65 | for any cap, a run in which the evicted stream closes last and the account's new stream is never reached again |
| LibrarySync.WrongIff | apps/web/src/store.ts:1840-1988 | over every run of writes, pulls, boots, full syncs, answers and resets, a row the cursor claims is shown wrongly exactly when a landing exposed it and nothing since has cured it |
| LibrarySync.WrongAfterStep | apps/web/src/store.ts:1840-1988 | one step of anybody leaves a row wrong exactly when it was and the step does not cure it, or when the step exposes it |
| LibrarySync.LandingAgreesIff | apps/web/src/store.ts:1868-1952 | a reply that lands on an agreeing library leaves it agreeing exactly when no row whose newest change lies past the cursor and not past where the reply began is shown differently; none lies there when the cursor is at or past that |
| LibrarySync.LibraryAgrees | apps/web/src/store.ts:1840-1952 | in every run whose replies land on cursors at or past their start, with a device copy that is right up to its cursor, the library agrees with the server on every row at or below the cursor |
| LibrarySync.CaughtUpEqualsFullSyncIff | apps/web/src/store.ts:1840-1952 | over every run, a client whose cursor is the server's shows exactly what one full sync would, just when no row was exposed and left uncured |
| LibrarySync.FullSyncShowsAll | apps/web/src/store.ts:1971-1985 | a full sync shows exactly the live rows, whatever was on screen before: the first pull, and the one asked for |
| LibrarySync.OnePullCatchesUp | apps/web/src/store.ts:1868-1985 | after any run, one pull by itself brings a library that agrees up to its cursor to exactly what a full sync would show, and a full sync asked for brings any library there; the server and the other pulls do not notice |
| LibraryRuns.ThreePullsDisagree | apps/web/src/store.ts:1071-1074 | a run of three overlapping pulls after which the cursor is the server's and the library shows an older row |
| LibraryRuns.ReplyAfterResetEmptiesLibrary | apps/web/src/store.ts:1869-1880 | a pull under way when a session starts afresh lands on a cursor of zero: nothing is shown and the cursor is the server's |
| LibrarySync.LibraryStore.Refresh | apps/web/src/store.ts:1868-1952 | the loops over a reply apply it afresh on a cursor of zero, else on top: an id whose row is gone is not shown, one whose row is live is shown with its content, pending uploads and ids the reply does not name stay as they were |
| RowCache.HighestWins | apps/web/src/cache.ts:96-144 | for live rows under any interleaving of tabs the mirror holds the highest sequence written per id and the highest cursor |
| RowCache.MirrorWrongIff | apps/web/src/cache.ts:84-160 | over every run of writes, replies in any order and from any start, answers to changes, rebuilds and sign-outs, the mirror has a row its cursor claims wrong exactly when an event exposed it and none since has cured it |
| RowCache.WrongAfterEvent | apps/web/src/cache.ts:84-160 | one event leaves a row wrong exactly when it was and the event does not cure it, or when the event exposes it: it begins past the row's change, or folds in an older row that takes away, brings back or replaces |
| RowCache.MirrorIsServerIff | apps/web/src/cache.ts:84-160 | over every run, a mirror whose cursor is the server's is the server's live rows exactly when no row was exposed and left uncured |
| RowCache.MirrorIsServer | apps/web/src/cache.ts:84-160 | filled in cursor order the mirror is the server's live rows at the cursor, tombstones included |
| RowCache.BootFindsAgreement | apps/web/src/store.ts:1848-1857 | so what a boot puts on screen agrees with the server up to the cursor that comes with it, whatever is written while it loads |
| RowCache.ReplyKeepsMirrorIff | apps/web/src/cache.ts:129-144 | a reply from any start leaves a right mirror right exactly when it begins past no change the mirror lacks and no row it carries has changed, at or below the cursor, between live and deleted since |
| RowCache.OvertakenReplyResurrects | apps/web/src/cache.ts:129-144 | a run from nothing in which an overtaken reply puts a deleted row back at the server's cursor |
| RowCache.MirrorStore.StoreSyncRows | apps/web/src/cache.ts:96-144 | the transaction's loops fold a reply in, after clearing for a rebuild: an id whose row is gone leaves, any other ends with the row of the higher sequence, ids the reply does not name stay, and the cursor ends at the higher |
| AutoSync.DroppedIff | apps/web/src/autosync.ts:40-132 | over every run, with sessions that end and cursors that go back: an announcement is unreached with nothing running or armed and rechecks left exactly when some event dropped it and none after it rescued it |
| AutoSync.DroppedAfterEvent | apps/web/src/autosync.ts:53-156 | one event leaves news dropped exactly when it was and the event does not rescue it, or when the event drops it: a poke, the end of a pull that was poked or a recheck without a session, or a cursor that goes back at rest |
| AutoSync.NewsIsNeverDropped | apps/web/src/autosync.ts:40-132 | while the session stays and the cursor does not go back outside of a pull, every announced sequence is reached, or a pull runs, or a recheck is armed, or the rechecks are spent |
| AutoSync.InternalStep | apps/web/src/autosync.ts:53-132 | wherever the cursor ends and whether or not there is a session, each event of the loop's own makes a measure smaller, and a pull that begins takes one of those left |
| AutoSync.OneAnnouncementIsFinite | apps/web/src/autosync.ts:53-132 | after any run one announcement costs at most four pulls and then the loop rests |
| AutoSync.OneMorePullIffAsked | apps/web/src/autosync.ts:64-125 | over every run, when a pull ends with a session another begins with it exactly when a poke came or a recheck fired since it began, one however many did |
| AutoSync.LadderIff | apps/web/src/autosync.ts:117-131 | a pull that ends with nothing asked for meanwhile arms a recheck exactly when it stopped short and one is left, and starts the ladder afresh exactly when it did not |
| AutoSync.SessionAwayDropsNews | apps/web/src/autosync.ts:53-80 | a run of one announcement whose recheck fires without a session |
| AutoSync.AtRestReachedOrSpentIff | apps/web/src/autosync.ts:126-130 | over every run, at rest the announcement was reached or all rechecks were made exactly when it was not dropped on the way |
| AutoSync.CursorBackIsNotNoticed | apps/web/src/autosync.ts:126-130 | after any run, a cursor that goes back below the announcement while the loop rests leaves it unlooked for until a poke or a beat comes or the cursor moves on by itself |
| AutoSync.RecheckWithoutSessionIsLost | apps/web/src/autosync.ts:53-80 | after any run, so does a recheck that fires while there is no session, unless it was the last |
| AutoSync.Loop.PullEnded | apps/web/src/autosync.ts:117-131 | the end of a pull answers a pending poke, resets the ladder, or arms a recheck |
| AutoSync.Loop.Poked | apps/web/src/autosync.ts:148-156 | fresh news restarts the ladder and kicks |
| AutoSync.Loop.KickOff | apps/web/src/autosync.ts:64-80 | a pull begins exactly when none runs, there is a session, and it was poked or has cooled down; a poke during a pull is remembered |
| Facts.MergeJoinsSetIff | apps/web/src/decisions.ts:226-255 | a merged set is the union of the two exactly when the union is within that set's own limit |
| Facts.MergeKeepsWordsIff | apps/web/src/decisions.ts:102-116 | the merge answers for both sides' words on every pin, values included, exactly when no pin was set to two values at one time |
| Facts.ClashIsLost | apps/web/src/decisions.ts:102-116 | where one was, the account's word stands, the device's is lost, and it is no news |
| Facts.MergeAnswersForBoth | apps/web/src/decisions.ts:226-255 | a merge invents nothing and, within the limits of the sets and with one word at a time, answers for every decision of either side, however many searches there are |
| Facts.KnewMoreIff | apps/web/src/decisions.ts:226-255 | with one word at a time the flag is set exactly when the device holds a fact the account's record does not answer for, whatever the limits cut off |
| Facts.SearchNewsIff | apps/web/src/decisions.ts:226-255 | searches are news exactly when the merged list is not the account's |
| Facts.SameHistorySameRecord | apps/web/src/decisions.ts:226-255 | two records that answer for the same decisions have the same sets, pins with their values, and searches |
| Facts.PinRepresentsIff | apps/web/src/decisions.ts:266-275 | a new word on a pin leaves a record that answers for all that was said exactly when the clock has moved on since the word it replaces |
| Facts.OlderWordIsUndone | apps/web/src/decisions.ts:102-116 | a word with an older time than the account's is undone by the next merge |
| Facts.TiedSearchesNeverAgree | apps/web/src/decisions.ts:207-219 | of two full lists of searches made at one time each device's merge is its own list again and news to the other, without end |
| Decisions.NothingNewMeansAgreed | apps/web/src/decisions.ts:226-255 | when the local side knew nothing more, the mirror becomes the account's record, whatever the limits cut off |
| Decisions.MergedSearchesAreNewest | apps/web/src/decisions.ts:207-219 | the six newest queries, each once at its newest time, newest first; what is missing is older than all six |
| Decisions.CappedKeepsAllIff | apps/web/src/decisions.ts:202-205 | capping loses nothing exactly when the distinct values are within the limit |
| Decisions.CappedKeepsNewest | apps/web/src/decisions.ts:202-205 | past the limit the values kept are exactly those that fewer than limit others first occur after, in that order |
| Decisions.MergedSetKeepsNewest | apps/web/src/decisions.ts:226-238 | past its limit a merged set keeps the newest of the account's keys followed by the device's, in that order |
| Decisions.MergesAreCanonical | apps/web/src/decisions.ts:226-255 | a merged record has no repeats and is within every limit |
| Decisions.MergeDecisions | apps/web/src/decisions.ts:226-255 | the loops compute the specified merge and flag |
| Decisions.MergePins | apps/web/src/decisions.ts:102-116 | the newest word on each pin, the account's when both are as new |
| Decisions.MergeSearches | apps/web/src/decisions.ts:207-219 | the loops compute the specified list |
| Decisions.DecisionMirror.Decide | apps/web/src/decisions.ts:282-291 | a change exactly when a key is new; then the set keeps the newest of what it had followed by the keys, all of them within the limit, and nothing else changes |
| Decisions.DecisionMirror.SetPin | apps/web/src/decisions.ts:266-275 | saying the same again keeps the first time |
| Decisions.DecisionMirror.RememberSearch | apps/web/src/decisions.ts:297-309 | a blank query changes nothing; else the list is the six newest queries of what it was with this one added, each once at its newest time and newest first |
| Decisions.DecisionMirror.ApplyDecisions | apps/web/src/decisions.ts:315-325 | the mirror becomes the merge; without a remote record the flag says whether there is anything to give |
| SettingAgreement.AllAgree | apps/web/src/settingsync.ts:212-243 | over every run in which no push is lost and each device's pushes arrive in order: when every device has seen the latest stamp with no push due or under way, all devices and the account hold the same sets, pins with their values, and searches, and all but the pusher the same switches |
| SettingAgreement.PusherSwitchesIff | apps/web/src/settingsync.ts:212-243 | the device whose push the blob is differs from it in its switches exactly when a pull landed there since that push began and the last to do so brought others |
| SettingLoss.AbandonedAfterStep | apps/web/src/settingsync.ts:212-281 | one step of anybody leaves a decision abandoned, known to a device and on no way to the account, exactly when it was and got no other chance, or when the step abandons it |
| SettingLoss.QuietLacksIff | apps/web/src/settingsync.ts:212-281 | over every run, pushes lost or overtaken included: when all is quiet the account does not answer for a decision some device knows exactly when a step abandoned it and none after gave it another chance |
| SettingSync.DecisionsStay | apps/web/src/settingsync.ts:212-243 | what a device's record holds it answers for ever after, whatever pushes and pulls come, go, overtake each other or are lost: a key stays, a word on a pin until a newer one, a search until six newer ones |
| SettingSync.OneDecisionTravels | apps/web/src/settingsync.ts:139-243 | from any state, a decision that is new to a device is in the account's record once its push is stored, and a device that pulls then holds the merge of it and the switches, and pushes back exactly when it knew more |
| Facts.MergeRepresents | apps/web/src/settingsync.ts:139-152 | records that answer for two histories merge into one that answers for both, which is what the protocol proofs take a pull to do |
| SettingRuns.FailedPushIsForgotten | apps/web/src/settingsync.ts:273-281 | a run from the start in which a push fails: everything is quiet and the account lacks the decision |
| SettingRuns.ReorderedPushesLoseADecision | apps/web/src/settingsync.ts:212-215 | a run from the start in which two pushes of one device arrive in reverse and leave the account without a decision nobody owes |
| SettingRuns.PusherKeepsOverwrittenSwitches | apps/web/src/settingsync.ts:236-243 | a run from the start in which a pull that lands between a push's snapshot and its arrival leaves the pusher's own switches different from the blob it takes for seen |
| SettingRuns.TieLeavesDeviceAndAccountApart | apps/web/src/decisions.ts:102-116 | a run from the start in which a pin set twice at one time leaves a quiet device and the account with opposite values, though no push is lost or overtaken |
| SettingsDevice.Device.PullAnswered | apps/web/src/settingsync.ts:222-243 | seeds an empty account, ignores old stamps and unreadable blobs, else is the protocol's pull, and pushes back exactly when the account's record does not answer for the device's |
| SettingsDevice.Device.ApplySettings | apps/web/src/settingsync.ts:139-152 | switches overwritten, decisions merged, and no push falls due from applying |
| SettingsDevice.Device.Decide | apps/web/src/decisions.ts:282-291 | deciding is the protocol's decision step on the device's record, with a push due exactly when it changed |
| SettingsDevice.Device.SetPin | apps/web/src/decisions.ts:266-275 | pinning is the protocol's pin step, which says nothing when the same is said again |
| SettingsDevice.Device.RememberSearch | apps/web/src/decisions.ts:297-313 | a search is the protocol's search step |
| SettingsDevice.Device.TimerFired | apps/web/src/settingsync.ts:273-281 | the push begins with what the device holds when the timer fires, and nothing is due after it |
| EditDistance.WithinOneEdit | apps/web/src/search.ts:425-451 | true exactly when the recursively defined Levenshtein distance is at most one |
| EditDistance.CommonHeadIsFree | apps/web/src/search.ts:437-441 | a common first letter costs nothing, which is what lets the scan skip it |
| EditDistance.DifferenceTakesTheEdit | apps/web/src/search.ts:442-449 | at a first difference one edit is left exactly when the rests match after the one step the scan takes |
| Highlights.MergeRanges | apps/web/src/search.ts:500-512 | the merged ranges cover exactly the same positions, in order, and no two touch |
| Highlights.HighlightParts | apps/web/src/search.ts:515-535 | the parts spell the value and a letter is in a highlighted part exactly when a range covers it, also where ranges end past the value |
| S3Listing.LessIff | apps/bridge/src/s3model.ts:105-111 | keys are ordered by the first place where they differ, a proper beginning before what it begins |
| S3Listing.CommonPrefixIff | apps/bridge/src/s3model.ts:88-102 | a key is rolled up into what it begins with up to the end of the first delimiter behind the prefix, and into nothing exactly when none is there |
| S3Listing.PagesAreCompleteIff | apps/bridge/src/s3model.ts:113-131 | following the tokens collects exactly the sorted rows and ends, just when the first page can be left: one key per page and an empty first key cannot |
| S3Listing.KeysAreListedOnce | apps/bridge/src/s3model.ts:88-111 | an entry outside every folder is listed once by its key and falls under no listed folder |
| S3Listing.EntriesFallUnderOneFolder | apps/bridge/src/s3model.ts:88-111 | any other entry falls under exactly one listed folder and is not listed by its key |
| S3Listing.ListedKeysResolve | apps/bridge/src/s3model.ts:71-78 | with unique paths each listed key resolves to the file that was listed |
| S3Listing.ListedKeyResolvesIff | apps/bridge/src/s3model.ts:71-111 | whatever shares whatever path, a listed key resolves to the file that was listed exactly when the first and the last file of its path are the same |
| S3Listing.ListRows | apps/bridge/src/s3model.ts:88-111 | the loops and the sort give the sorted view: every folder and every key outside one, none else |
| S3Listing.ListingIsUnique | apps/bridge/src/s3model.ts:88-111 | a bucket has one listing under a query, whatever order its sets are walked in, so the pages of several calls are of the same rows |
| S3Listing.ListObjects | apps/bridge/src/s3model.ts:88-142 | the page, the truncation flag and the token that the paging theorem is about, of the bucket's one listing |
| S3Listing.PathIsTheLongestChain | apps/bridge/src/s3model.ts:22-36 | the names the climb collects are those of the longest chain of distinct existing folders that starts there, from the root down, and no others |
| S3Listing.SplitJoin | apps/bridge/src/s3model.ts:22-50 | names without a slash are read back from their path |
| S3Listing.FolderPath | apps/bridge/src/s3model.ts:22-36 | the loop gives the folder's path; missing and circular parents end it |
| S3Listing.AllEntries | apps/bridge/src/s3model.ts:39-50 | each file once and in order: under its top folder's bucket by the rest of its path, or in the root bucket |
| TokenBuckets.RateHolds | apps/server/src/budget.ts:59-77 | by any time t after the first slot t0, at most floor((t + early - t0) / interval) + 1 callers have been granted, where no timer wakes more than early before its slot: zero for an exact one, one millisecond for one in whole milliseconds |
| TokenBuckets.SlotsAreNotWasted | apps/server/src/budget.ts:59-77 | over every run each slot is one interval after the last or the moment of its grant, and while anybody waits the pump sleeps out the slot one interval after the last granted |
| TokenBuckets.LanesAreFair | apps/server/src/budget.ts:51-77 | each lane is granted in order of arrival, and whenever a background caller was granted every interactive caller that had come by then had been granted before |
| TokenBuckets.NobodyIsForgotten | apps/server/src/budget.ts:59-77 | nobody is queued with no pump running, and what a pump wakes to is a grant |
| TokenBuckets.TokenBucket.RunPump | apps/server/src/budget.ts:59-77 | callers are woken from the front, the interactive lane before the other, until a slot lies ahead or nobody waits |
| TokenBuckets.TokenBucket.Take | apps/server/src/budget.ts:51-55 | a caller joins the end of its lane; it wakes nobody while a pump sleeps, and runs it at once otherwise |
| TokenBuckets.TokenBucket.Wake | apps/server/src/budget.ts:69-72 | the slot slept out goes to the head of the lane chosen then |
| Base32.RoundTrip | apps/server/src/totp.ts:12-51 | a text that encodes bytes decodes to nothing else |
| Base32.EncodeThenDecode | apps/server/src/totp.ts:12-51 | every sequence of bytes survives encoding and decoding |
| Base32.Encode | apps/server/src/totp.ts:15-31 | the characters' bits are the bytes' and fewer than five zeros, with the accumulator wrapping at 32 bits |
| Base32.Decode | apps/server/src/totp.ts:33-51 | refused exactly for a character outside the alphabet; else the bytes' bits are the characters' but for fewer than eight |
| Base32.LowIsRemainder | apps/server/src/totp.ts:20-26 | what is left of a shift in a word is the remainder by its size, and the unsigned right shift is the quotient |

## Left out

- Files, the network, S3, SQL and IndexedDB: each call is one step on a map, with the awaits around it kept; a step may fail where the code handles that.
- Cryptography: sealed boxes and keys are opaque and every row can be decrypted.
- Trimming of the channel log by checkpoints, and the members, eph and frame notices of the hub: deliveries of the log do not depend on them.
- Rows of one document only are in the log protocol: documents share no state in the hub.
- A row read or head read that fails: the protocol proofs assume reads succeed, as the delivery they make up for does.
- Generations of one file only, and its permanent deletion: rows of different files share no state, and a deleted row takes no more commits.
- Server stamps of the settings blob are strictly increasing in the model; the clock's ties and steps back are not part of it.
- Settings other than decisions are one value that is overwritten whole.
- ChannelLog.DeliveredAtRest: stated for orderly hellos and reads; over all runs it is false, and DeliveredIff is the exact statement.
- LibrarySync.LibraryAgrees: stated for replies that land on a cursor at or past their start, a device copy that agrees with the server, and answers to the tab's own changes that are not older than the cursor; over all runs it is false, and WrongIff is the exact statement.
- LibrarySync.WrongIff: a boot may begin whenever the cursor is zero, where the code also asks that nothing was synced yet; the device's copy is any the server could have given; another account signing in is not modelled.
- SettingAgreement.AllAgree: stated for pushes that arrive, in order, within the limits of the sets, with one word at a time on each pin and each search time, and clocks that do not go back; without these it is false (QuietLacksIff, MergeJoinsSetIff, MergeKeepsWordsIff, PinRepresentsIff, TiedSearchesNeverAgree).
- SettingSync.DecisionsStay: the same limits and clocks, for the same reasons.
- A settings blob without decisions is in SettingsDevice but not in the protocol: only devices from before there were decisions write one.
- Bus.ToldIffInTime: handlers that leave are not modelled, and one that throws counts as told.
- FsBlobs.FsBlobStore.PutPart: one step, which it is to others while temporary names are apart; sends that share one are in TempFiles.
- FsBlobs.FsBlobStore.Put: the same.
- FsBlobs.FsBlobStore.CompleteParts: a blob of the same key that is put or completed meanwhile is not modelled.
- Decisions.MergePins: a pin whose tag is the name of a member that every JavaScript object inherits, such as "constructor", for which the source reads that member.
- Entries that other parts of the web store put into the library between pulls, other than the answers to changes made in this tab.
- The SQLite transaction queue: transactions are modelled as PostgreSQL runs them, side by side, which includes one after another.
- Byte accounting of the window cache: exact only as DropNextAccounts says; its evictions go by the running total the code keeps.
- Crash and restart rescans beyond the initial index, shutdown, heartbeats, timer jitter and delays.
- The `Semaphore` and the analysis slot: a woken waiter counts itself only when it resumes, so "never more than max" is not an invariant of the code.
- Upper-casing and white space beyond ASCII in base32 decoding, and UTF-16 surrogates in the order of S3 keys and the base64 form of its tokens.
- Route handlers beyond the cited ones, and everything of the web store that is not a pull.
- User interface, native shells, build scripts, and small preference, label and formatting modules, which would only add easy members.
