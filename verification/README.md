# SandyGram, modelled

Verified models of those parts of SandyGram (a Telegram Desktop client) that are algorithms or protocols of
their own. Each file models one part. State that the program changes in place is a class or an array here,
and its methods are proved against specification functions; what the program is meant to guarantee is then
proved about these functions, for all inputs and all runs.

| file | models |
|---|---|
| `Fips180.dfy`, `PackerSha1.dfy` | SHA-1 as FIPS 180-4 defines it, and the packer's SHA-1 on buffers |
| `PackerFiles.dfy` | the packer's list of files, with directories expanded in place |
| `Morphdom.dfy` | morphdom: one DOM tree changed in place into another |
| `InstantView.dfy` | the instant view's page cache: loads, reloads, navigation, history |
| `VectorHash.dfy` | the 64-bit vector hash of lists of stickers and the like |
| `SearchToken.dfy`, `MessagesSearch.dfy` | a search in one history: tokens, stale replies, the first-page cache |
| `MessagesSearchMerged.dfy` | two searches merged into one list |
| `MessageData.dfy` | batched requests for single messages and their callbacks |
| `WebPages.dfy` | requests for pending web page previews, in two passes with temporary ids |
| `StickerSets.dfy` | saving the order of sticker sets, and the requests that go with it |
| `ForwardMessages.dfy` | forwarding in batches, with stars and a shared callback |
| `DialogsLoad.dfy` | loading the chat list and the pinned chats |
| `InviteLinks.dfy` | a peer's invite links with the permanent one in front |
| `UpdaterWalk.dfy` | the updater's walk over the unpacked update, and its mkpath |
| `Options.dfy`, `Powers.dfy` | optional values, powers of two |

How things are modelled:

- A server request is an id in `inFlight` with what its handlers have captured. Done and fail are steps that
  take an id that is still there, in any order; a cancelled request is gone from `inFlight`. Ids are given
  out in turn. `Step` is the specification of one event, `Run` of a sequence of possible ones; each class
  has `Abs` (or `Requests`, or a field) for its state, and every method that handles an event is proved to
  make that `Step`.
- Callbacks are opaque ids, and events fired are counted or logged in ghost fields.
- Iteration over the program's ordered maps is over keys in any order, so results hold for every order.
- Words of SHA-1 are bit-vectors. The vector hash is on 64-bit numbers and their bits, least significant first.
- The time, the tree of files, whether a file can be read and random ids are parameters.

Where the code does not do what one would expect, the model follows the code, and the lemmas say exactly when
it does:

- The packer's length field has 32 bits, so it pads as SHA-1 does exactly below 2^29 bytes of input, and its
  digest is SHA-1 there (`PackerSha1.ProgramPadIsStandard`, `PackerSha1.ProgramDigestIsSha1`).
- A failed search for an empty query is published even when it belongs to an earlier search; every other answer
  that is published belongs to the current one (`Search.AnswerIsAboutTheCurrentSearchIff`,
  `Search.StaleFailureIsPublished`). The token of the failure tells the two apart among plain requests about
  one topic (`Search.FailureTokenTells`), but not across topics (`Search.FailureOfOtherTopicLooksCurrent`).
- The first-page cache does not tell topics apart (`Search.CacheIgnoresTopic`).
- A page without usable messages sends the next searchMore back to the cached first page, whose messages are
  then in the merged list twice; the list is right exactly when that does not happen
  (`SearchMerged.MergedSearchIsRight`, `SearchMerged.FirstPageIsRepeated`).
- A merged search with an empty token never gets a total (`SearchMerged.SearchForNothingNeverHasTotal`).
- The web pages of a failed request are not asked for again; a pending page can recover exactly when it has no
  request or one under way (`WebPages.StuckForever`, `WebPages.PageRecoversIff`, `WebPages.FailureSticks`).
- A page of the instant view whose load has failed is not asked for again, whatever is called; its loading can
  end exactly when its load is under way (`InstantView.LostForever`, `InstantView.LoadingSettlesIff`).
- The date of the offset in the chat list is that of the chat whose message and peer are in the offset exactly
  when the last usable chat of the page came with a date (`DialogsLoad.OffsetIsOfOneChatIff`,
  `DialogsLoad.OffsetOfTwoChats`).
- A list whose page is answered as not modified is not asked for again; a list can be done exactly when it is
  complete, has no request, or has one under way (`DialogsLoad.ListCanBeDoneIff`,
  `DialogsLoad.NotModifiedIsForever`).
- Forwarding saved music, with other messages or alone, can cost more stars than were approved; exactly when it
  does not is `ForwardMessages.CallStaysWithinApprovalIff`, and `ForwardMessages.CallPaysTooMuch` is an example.
- Different searches can have the same token: with one-line texts exactly those that differ in tags without a
  custom id and without an emoji text (`SearchToken.TokensAgreeIff`, `SearchToken.TokenIsUniqueIff`,
  `SearchToken.LookalikesShareToken`).
- An edit, an external update or a reload can put an active permanent link elsewhere than at the front if the
  server sends such a link (`InviteLinks.EditedKeepsFrontIff`, `UpdatedKeepsFrontIff`, `ReloadedKeepsFrontIff`, with the runs
  `ChangedLinkIsNotFound` and `SecondPermanentIsNotFound`).

## Model

| member | source | states |
|---|---|---|
| PackerSha1.OrFormsAreRoundFunctions | Telegram/SourceFiles/_other/packer.cpp:77-81 | the round expressions written with `or`, grouped as the four loops group them, are Ch, Parity and Maj of FIPS 180-4, section 4.1.1, with the constants of section 4.2.1, for every round and all words |
| PackerSha1.ShiftSwapIsRound | Telegram/SourceFiles/_other/packer.cpp:55-70 | one pass of the shuffle of the locals, with shifts for rotations, is one round of section 6.1.2 |
| PackerSha1.Sha1PartHash | Telegram/SourceFiles/_other/packer.cpp:59-91 | for every state and block, the loop that overwrites `temp` as it goes leaves in `sha` the hash value of section 6.1.2 after that block |
| PackerSha1.ReadBlock | Telegram/SourceFiles/_other/packer.cpp:101-106 | a block is read into words most significant byte first |
| PackerSha1.HashTail | Telegram/SourceFiles/_other/packer.cpp:110-122 | the zeroing, the bytes put in with `or`, the marker bit and the length, with the second block from 56 bytes on, process exactly the padded rest of the input |
| PackerSha1.WriteDigest | Telegram/SourceFiles/_other/packer.cpp:124-128 | byte i of the output is byte i of the five words, most significant first |
| PackerSha1.HashSha1 | Telegram/SourceFiles/_other/packer.cpp:95-131 | writes the digest of the padded input, for every input whose length arithmetic does not overflow, and SHA-1 of the input below 2^29 bytes; the rest of the destination is as before |
| PackerSha1.HashEndsWithTail | Telegram/SourceFiles/_other/packer.cpp:100-122 | whole blocks followed by the padded rest are the blocks of the padded input |
| PackerSha1.LengthFieldIsStandard | Telegram/SourceFiles/_other/packer.cpp:121 | the 32-bit field `len << 3` is the 64-bit length of section 5.1.1 exactly below 2^29 bytes |
| PackerSha1.ProgramPadIsStandard | Telegram/SourceFiles/_other/packer.cpp:110-122 | the program pads as the standard does if and only if the input is below 2^29 bytes |
| PackerSha1.ProgramDigestIsSha1 | Telegram/SourceFiles/_other/packer.cpp:95-131 | below 2^29 bytes the digest written is SHA-1 of the input |
| PackerFiles.ExpandedHoldsAllFiles | Telegram/SourceFiles/_other/packer.cpp:210-233 | the list reached by replacing directories holds every file that is not hidden as often as the arguments hold it |
| PackerFiles.ReplacedDirectory | Telegram/SourceFiles/_other/packer.cpp:216-223 | replacing the first directory by what it lists keeps the final list and the readability of all, and makes the list smaller, counted in nodes |
| PackerFiles.HiddenFileDropped | Telegram/SourceFiles/_other/packer.cpp:227-231 | dropping the first hidden file keeps the final list and makes the list smaller |
| PackerFiles.UnreadableListed | Telegram/SourceFiles/_other/packer.cpp:219-226 | a directory leads to an unreadable file exactly when its listing does |
| PackerFiles.EntryIsListed | Telegram/SourceFiles/_other/packer.cpp:221-222 | the entry at any place of a directory is listed, between those before and after it, unless it is hidden or a link |
| PackerFiles.LinksAreFollowed | Telegram/SourceFiles/_other/packer.cpp:214-224 | a link is a directory, or readable, if what it leads to is; one that leads nowhere is neither |
| PackerFiles.FilesComeFirst | Telegram/SourceFiles/_other/packer.cpp:216-231 | files keep the order of the list, without hidden ones; what a directory lists comes after the rest of the list |
| PackerFiles.ExpandFiles | Telegram/SourceFiles/_other/packer.cpp:210-233 | the loop that starts over after every change ends for any arguments, links followed; it fails exactly when some file it would look at cannot be read, and otherwise leaves exactly the files, breadth first, and no directory |
| MessageData.CollectMessageIds | Telegram/SourceFiles/apiwrap.cpp:598-609 | the ids collected are those of the entries without a request, each once |
| MessageData.ApiWrap.RequestMessageData | Telegram/SourceFiles/apiwrap.cpp:583-596 | the callback waits at the entry of its message, and a resolve is scheduled if the message was not asked for |
| MessageData.ApiWrap.ResolveMessageDatas | Telegram/SourceFiles/apiwrap.cpp:628-682 | sends, in some order, one batch for every channel with messages not asked for, after which none is left |
| MessageData.ApiWrap.FinalizeMessageDataRequest | Telegram/SourceFiles/apiwrap.cpp:684-714 | takes out the entries of the request and runs their callbacks, and touches no other entry |
| MessageData.AnswerRunsItsCallbacks | Telegram/SourceFiles/apiwrap.cpp:684-714 | in every reachable state, an answer runs exactly the callbacks waiting for the messages its request listed, and none of them waits afterwards |
| MessageData.CallbackWaits | Telegram/SourceFiles/apiwrap.cpp:583-596 | a callback is put behind those that wait for its message; no other message changes, and one not asked for yet is scheduled |
| MessageData.BatchAsksForAll | Telegram/SourceFiles/apiwrap.cpp:598-651 | a batch asks for every message of its channel that was not asked for, and no other; those entries get its id |
| MessageData.AnswerTakesItsMessages | Telegram/SourceFiles/apiwrap.cpp:691-710 | an answer takes out the messages that hold its id, and no other |
| MessageData.CallbacksOfOneMessageRun | Telegram/SourceFiles/apiwrap.cpp:691-713 | the callbacks of a message are those run |
| MessageData.RunKeepsInv | Telegram/SourceFiles/apiwrap.cpp:583-714 | in every run: callbacks registered are callbacks waiting and callbacks run; the entries with a request id are exactly those the request listed; while no resolve is scheduled every entry has one |
| MessageData.CallbacksRunExactlyOnce | Telegram/SourceFiles/apiwrap.cpp:583-714 | no callback is lost or run twice; when nothing is scheduled or under way all have been run |
| DialogsLoad.FindOffset | Telegram/SourceFiles/apiwrap.cpp:971-1004 | the loops that search backwards find the date of the last chat whose top message came with a date, and the message id and the peer of the last usable chat |
| DialogsLoad.TopDateIs | Telegram/SourceFiles/apiwrap.cpp:991-998 | the date of a chat is that of the last message with its top message's id and its peer, or none |
| DialogsLoad.LastUsableIs | Telegram/SourceFiles/apiwrap.cpp:982-990 | the last chat with a peer and a top message |
| DialogsLoad.LastDatedIs | Telegram/SourceFiles/apiwrap.cpp:978-1004 | the last of those whose top message came with a date |
| DialogsLoad.SameChatIff | Telegram/SourceFiles/apiwrap.cpp:978-1004 | the two are the same chat if and only if the last usable chat came with a date |
| DialogsLoad.OffsetIsOfOneChatIff | Telegram/SourceFiles/apiwrap.cpp:1005-1011 | the offset a page leaves in the load state has the message and the peer of the last usable chat, and the date of that chat if and only if it came with one; otherwise the date is an earlier chat's |
| DialogsLoad.OffsetOfTwoChats | Telegram/SourceFiles/apiwrap.cpp:978-1011 | a page of two chats, with the first one's message only, leaves the date of the first with the message and peer of the second |
| DialogsLoad.OneListRequestAtMost | Telegram/SourceFiles/apiwrap.cpp:865-937 | in every reachable state a list has at most one page request under way; it is the one its load state holds, and a failure finds that state |
| DialogsLoad.RequestMoreSends | Telegram/SourceFiles/apiwrap.cpp:865-937 | a page is asked for exactly if none is yet and the date does not block it, and the pinned chats with it unless they are there or asked for; the offset stays |
| DialogsLoad.PinnedChatsAreRequested | Telegram/SourceFiles/apiwrap.cpp:931-933 | in every run a list whose pages were asked for has its pinned chats or their request under way; once it is complete that answer alone does it |
| DialogsLoad.RequestPinnedSends | Telegram/SourceFiles/apiwrap.cpp:1045-1060 | the pinned chats are asked for exactly if they are neither there nor asked for |
| DialogsLoad.FolderIsLoaded | Telegram/SourceFiles/apiwrap.cpp:858-863 | a folder asked for the first time gets a load state, and its first page is asked for unless the date blocks it |
| DialogsLoad.LimitIsSet | Telegram/SourceFiles/apiwrap.cpp:1078-1088 | the limit is a slice before the offset date, or before now; the main list is asked for again unless its date has come down to it |
| DialogsLoad.PageBlocksIff | Telegram/SourceFiles/apiwrap.cpp:939-949 | after a page of the main list it is blocked if and only if the page's date is at or before the limit |
| DialogsLoad.CompleteListStays | Telegram/SourceFiles/apiwrap.cpp:896-908 | once the list is received its request id stays as it is, not zero, and no page is asked for, until the list is done |
| DialogsLoad.DoneWhenTheLaterArrives | Telegram/SourceFiles/apiwrap.cpp:890-1076 | the list is done exactly on the step on which the later of the whole list and the pinned chats arrives, and its load state goes with it |
| DialogsLoad.DoneOncePerLoad | Telegram/SourceFiles/apiwrap.cpp:1026-1043 | over every run each load state is done at most once, the main list at most once in all |
| DialogsLoad.ListCanBeDoneIff | Telegram/SourceFiles/apiwrap.cpp:865-937 | in every reachable state some run does a list if and only if it is complete, has no request, or its request is under way |
| DialogsLoad.DeadForever | Telegram/SourceFiles/apiwrap.cpp:892-896 | a list whose page was answered as not modified keeps its request id with no request under way, in every run from then on |
| DialogsLoad.NotModifiedIsForever | Telegram/SourceFiles/apiwrap.cpp:880-896 | from the start, the first page answered as not modified leaves the main list in that state |
| DialogsLoad.RunKeepsInv | Telegram/SourceFiles/apiwrap.cpp:858-1100 | the load states and the requests under way agree in every run |
| DialogsLoad.ApiWrap.RequestMoreDialogs | Telegram/SourceFiles/apiwrap.cpp:865-937 | the new state is that of the request step, of which RequestMoreSends and PinnedChatsAreRequested say what is sent |
| DialogsLoad.ApiWrap.OnDialogsDone | Telegram/SourceFiles/apiwrap.cpp:890-926 | the new state is that of the reply step: a whole list, or a page without a date, completes the list; any other page moves the offset and frees the request |
| DialogsLoad.ApiWrap.OnDialogsFail | Telegram/SourceFiles/apiwrap.cpp:927-929 | clears the request id of the state it finds |
| DialogsLoad.ApiWrap.OnPinnedDialogs | Telegram/SourceFiles/apiwrap.cpp:1045-1076 | the new state is that of the arrival step, whether it is done or failed: the pinned chats count as received and a complete list is finished |
| StickerSets.SavedSetsFollowTheOrder | Telegram/SourceFiles/apiwrap.cpp:1590-1733 | after a save the order is the local order without unknown sets; every id in it is an installed set; of that kind, a set that is not archived is installed exactly when it is in the order; every set left is featured, installed, archived, special, emoji or locked |
| StickerSets.EverySetAfterSave | Telegram/SourceFiles/apiwrap.cpp:1590-1733 | every set after a save, field by field: when it is there, archived, installed, its date, and that nothing else of it changes; with the recent sets, which go together |
| StickerSets.OrderIsKept | Telegram/SourceFiles/apiwrap.cpp:1685-1714 | the id at any place of the local order is in the new order if its set is still known, between those before and after it |
| StickerSets.RecentIsKept | Telegram/SourceFiles/apiwrap.cpp:1629-1636 | the recent sticker at any place stays there unless a removed set holds it |
| StickerSets.RecentAfterSave | Telegram/SourceFiles/apiwrap.cpp:1591-1636 | no recent sticker is left when the recent sets are removed, and otherwise those that no removed known set holds |
| StickerSets.RemovedSetsAreUninstalled | Telegram/SourceFiles/apiwrap.cpp:1626-1719 | a removed set that is not put into the order is uninstalled, and kept only if it is featured, special, emoji or locked; an archived set stays archived exactly when it is removed or not in the order |
| StickerSets.OtherKindsAreUntouched | Telegram/SourceFiles/apiwrap.cpp:1673-1733 | a set of another kind in neither list is as before |
| StickerSets.ServerIsTold | Telegram/SourceFiles/apiwrap.cpp:1638-1709 | the server is asked to uninstall exactly the removed sets that were known and not archived, and to install exactly the archived ones of the order that were not removed |
| StickerSets.UninstallsCounted | Telegram/SourceFiles/apiwrap.cpp:1637-1669 | a set that goes is uninstalled once, one that stays as often as it is in the list |
| StickerSets.InstalledOnce | Telegram/SourceFiles/apiwrap.cpp:1692-1713 | a set is installed once, however often it is in the order |
| StickerSets.RecentIsCleared | Telegram/SourceFiles/apiwrap.cpp:1608-1622 | the recent stickers of either kind are cleared on the server exactly when they are removed |
| StickerSets.RecentWithoutRemoved | Telegram/SourceFiles/apiwrap.cpp:1629-1636 | the recent stickers left are those that no removed set holds |
| StickerSets.ApiWrap.EraseRecent | Telegram/SourceFiles/apiwrap.cpp:1629-1636 | the erasing loop leaves the recent stickers without those of the set, in order |
| StickerSets.ApiWrap.RemoveSets | Telegram/SourceFiles/apiwrap.cpp:1590-1670 | the loop over the removed sets has the effect stated for each set, whatever repeats in the list |
| StickerSets.ApiWrap.PlaceOrder | Telegram/SourceFiles/apiwrap.cpp:1685-1719 | the loop over the order has the effect stated for each set, and builds the new order |
| StickerSets.ApiWrap.SweepSets | Telegram/SourceFiles/apiwrap.cpp:1721-1733 | exactly the sets with a reason to stay are left |
| StickerSets.ApiWrap.SaveStickerSets | Telegram/SourceFiles/apiwrap.cpp:1498-1772 | a save makes of the sets, the order, the recent stickers and the requests what the statements above are about |
| StickerSets.ApiWrap.Answered | Telegram/SourceFiles/apiwrap.cpp:1557-1567 | an answer to an install or uninstall request sends the order of its own save once no such request is left |
| StickerSets.ReorderWaitsForTheOthers | Telegram/SourceFiles/apiwrap.cpp:1514-1567 | in every run a reorder request of a kind is under way only while none of its install and uninstall requests is; it is the only one and carries the order of the last save; per save it is sent once nothing is waited for, if the order has two sets or more, and never twice |
| StickerSets.SaveSends | Telegram/SourceFiles/apiwrap.cpp:1645-1709 | every request of a save is sent, and waited for unless it clears recent stickers |
| StickerSets.SaveCancels | Telegram/SourceFiles/apiwrap.cpp:1514-1517 | a save cancels exactly the requests of its kind, but for those that clear recent stickers |
| StickerSets.SaveSendsOrder | Telegram/SourceFiles/apiwrap.cpp:1767-1771 | with nothing to wait for the order is sent at once, if it has two sets or more |
| StickerSets.LastAnswerSendsOrder | Telegram/SourceFiles/apiwrap.cpp:1557-1567 | the answer to the last request waited for sends the order of its save, if it has two sets or more; no other answer sends anything |
| StickerSets.RunKeepsInv | Telegram/SourceFiles/apiwrap.cpp:1514-1771 | every request under way is the one its kind's fields hold, in every run over all kinds |
| WebPages.ApiWrap.GatherPages | Telegram/SourceFiles/apiwrap.cpp:2380-2409 | gives each due page with a known message the temporary id of its channel's list, in which the message is, and leaves all others |
| WebPages.TemporaryIdIsRight | Telegram/SourceFiles/apiwrap.cpp:2400-2403 | the coding -1 and -index-2 is told apart and decodes to the list it was made from |
| WebPages.ApiWrap.StoreRequestIds | Telegram/SourceFiles/apiwrap.cpp:2432-2444 | every temporary id is replaced by the id of the request for its list, always in range |
| WebPages.ApiWrap.ResolveWebPages | Telegram/SourceFiles/apiwrap.cpp:2372-2448 | the two passes together are one resolve step |
| WebPages.ResolveSets | Telegram/SourceFiles/apiwrap.cpp:2372-2448 | no temporary id is left; each due page with a known message holds the id of the one new request addressed to its channel, which lists the message; every other page keeps what it had |
| WebPages.ResolveSends | Telegram/SourceFiles/apiwrap.cpp:2411-2431 | a request is sent for every channel with a due page and for no other, with the messages of its due pages |
| WebPages.ItemsAskedInOrder | Telegram/SourceFiles/apiwrap.cpp:2380-2405 | the messages are in the order the pages come in |
| WebPages.PageIsDelayed | Telegram/SourceFiles/apiwrap.cpp:2349-2354 | a page that failed or waits for nothing is not put off; one that is pending keeps its request |
| WebPages.ApiWrap.GotWebPages | Telegram/SourceFiles/apiwrap.cpp:2683-2701 | takes out exactly the pages of the request, marking those not settled as failed |
| WebPages.GotErasesItsOwnPages | Telegram/SourceFiles/apiwrap.cpp:2683-2701 | in every reachable state a result erases its own request's pages and no other |
| WebPages.RunKeepsInv | Telegram/SourceFiles/apiwrap.cpp:2349-2448 | in every run no page holds a temporary id between resolves, and a page that waits for a request under way is one of those the request was sent for |
| WebPages.FailedPageIsStuck | Telegram/SourceFiles/apiwrap.cpp:2413-2419 | a request has no failure handler: its pages keep its id |
| WebPages.StuckForever | Telegram/SourceFiles/apiwrap.cpp:2380-2383 | from then on, after every run that does not forget it, the page still holds that id and no request sent since asks for it |
| WebPages.PageRecoversIff | Telegram/SourceFiles/apiwrap.cpp:2372-2448 | some run that does not forget a pending page settles it or gives it a new request if and only if it has no request or its request is still under way |
| WebPages.FailureSticks | Telegram/SourceFiles/apiwrap.cpp:2349-2431 | from the start, a page that is asked for and whose request fails is in that state |
| ForwardMessages.EveryItemIsSentOnce | Telegram/SourceFiles/apiwrap.cpp:3483-3493 | the item at any place is sent once, as a document or with the others, after all that stands before it and before all that stands after it |
| ForwardMessages.Forwarding.SendSavedMusic | Telegram/SourceFiles/apiwrap.cpp:3483-3491 | the erasing loop sends the saved music in order, each document for what one message costs as far as approved, and leaves the other items in order |
| ForwardMessages.SplitIsUnique | Telegram/SourceFiles/apiwrap.cpp:3658-3694 | there is only one way to split the items into non-empty batches of one peer each such that neighbours differ |
| ForwardMessages.TotalStars | Telegram/SourceFiles/apiwrap.cpp:3584-3591 | batches paid from what is left pay in all the lesser of what is approved and what the messages cost |
| ForwardMessages.BatchPays | Telegram/SourceFiles/apiwrap.cpp:3584-3591 | each batch pays for its messages from what the batches before it have left |
| ForwardMessages.DocumentsAreSentInOrder | Telegram/SourceFiles/apiwrap.cpp:3483-3487 | each document is sent at its place, for the same number of stars |
| ForwardMessages.CallStaysWithinApprovalIff | Telegram/SourceFiles/api/api_sending.cpp:213-241 | since every document pays from its own copy of what is approved, the whole call stays within the approval if and only if nothing is due, there are no documents, everything together is covered, or a single document is all there is |
| ForwardMessages.CallPaysTooMuch | Telegram/SourceFiles/api/api_sending.cpp:213-241 | a document and a message, or two documents, for one star each cost two with one approved |
| ForwardMessages.Forwarding.SendBatches | Telegram/SourceFiles/apiwrap.cpp:3656-3694 | the accumulating loop sends that split, ids and random ids in order, and pays for it in turn |
| ForwardMessages.Forwarding.ForwardMessages | Telegram/SourceFiles/apiwrap.cpp:3459-3696 | documents, batches, stars of both and the shared counter after the whole call; with nothing left to forward success is reported at once |
| ForwardMessages.SuccessIsReportedOnceIffAllBatchesAreSent | Telegram/SourceFiles/apiwrap.cpp:3577-3620 | over every order of answers the callback is called once if every batch was sent, and never otherwise |
| DomTree.MorphRootReaches | Telegram/Resources/iv_html/morphdom-umd.min.2.7.2.js:1 | for trees without keys and form elements and any hook, which may give the new element another class and leave the old one alone: the tree that morphdom returns has the values, children and, up to case, the names of the target, and its attributes or some that the hook makes alike, except inside elements the hook may keep |
| DomTree.MorphRootIsTarget | Telegram/Resources/iv_html/morphdom-umd.min.2.7.2.js:1 | for such trees, without a hook, or with one that changes nothing and leaves alone only elements that are equal already, it is the target up to the case of node names |
| DomTree.MorphKidsReach | Telegram/Resources/iv_html/morphdom-umd.min.2.7.2.js:1 | for such trees, the children kept, dropped and added one after another become the children of the target, in order |
| DomTree.FirstLikeChildIsKept | Telegram/Resources/iv_html/morphdom-umd.min.2.7.2.js:1 | for any two lists, the first old child of the same kind and name as the first new one is kept and updated for it, and the ones before it, of another kind or name, go |
| DomTree.NewChildrenAreTaken | Telegram/Resources/iv_html/morphdom-umd.min.2.7.2.js:1 | with no such old child the new children are taken as they are |
| DomTree.NamesOfOtherCaseMatch | Telegram/Resources/iv_html/morphdom-umd.min.2.7.2.js:1 | names that differ in case match exactly if one of them is in capitals and the other does not start with one |
| DomTree.HookDecides | Telegram/Resources/iv_html/morphdom-umd.min.2.7.2.js:1 | an element the hook leaves alone stays; any other keeps its kind and name and takes the new attributes, with the class the hook gave |
| DomTree.RootIsUpdated | Telegram/Resources/iv_html/morphdom-umd.min.2.7.2.js:1 | at the root the old element is updated if it has the new one's name; under another name its children still are |
| DomTree.CarefulHookReachesTarget | Telegram/Resources/iv_html/page.js:445 | where only equal elements are kept and only equal attributes are alike, what is reached is the target |
| DomTree.PageIsUpdated | Telegram/Resources/iv_html/page.js:423-448 | with the hook of the instant view, on any two such trees, the result is the new page but for videos and channels with the same source before and after, which are kept as they are, and for the class `loaded`, which elements keep |
| DomTree.MediaStay | Telegram/Resources/iv_html/page.js:423-448 | at every depth where the two pages have the same elements place by place, a video or channel of the same source stays as it is, and what was loaded stays loaded |
| DomTree.LoadedStays | Telegram/Resources/iv_html/page.js:442-445 | an element that is not kept for its source has exactly the classes of the new page's element, and `loaded` if the old one had it |
| DomTree.WordIsAdded | Telegram/Resources/iv_html/page.js:443 | classList.add, which rewrites the attribute, adds that word and no other |
| DomTree.LoadedPhotoIsKept | Telegram/Resources/iv_html/page.js:442-445 | a photo that was loaded stays as it is, which is not what the new page has |
| Morphdom.MorphAttrs | Telegram/Resources/iv_html/morphdom-umd.min.2.7.2.js:1 | the two loops leave the old element with exactly the attributes of the new one |
| Morphdom.MorphChildren | Telegram/Resources/iv_html/morphdom-umd.min.2.7.2.js:1 | for trees without keys and form elements, the nested loops over siblings, moving nodes out of the new tree, leave the children stated by the specification, as a tree of separate nodes: the first old node that fits each new one, itself, and the new ones for which there is none |
| Morphdom.SameNodesStay | Telegram/Resources/iv_html/morphdom-umd.min.2.7.2.js:1 | children alike place by place are the old nodes themselves |
| Morphdom.CleanupFromEl | Telegram/Resources/iv_html/morphdom-umd.min.2.7.2.js:1 | what is left of the old children is removed |
| Morphdom.MoveChildren | Telegram/Resources/iv_html/morphdom-umd.min.2.7.2.js:1 | an element of another name takes over the children in order |
| Morphdom.MorphEl | Telegram/Resources/iv_html/morphdom-umd.min.2.7.2.js:1 | attributes and children of an element in place, with the hook asked first and the class it gives the new element taken over |
| Morphdom.MorphDom | Telegram/Resources/iv_html/morphdom-umd.min.2.7.2.js:1 | the whole call, in place, for such trees: the result is the specified tree and takes the place of the old node in its parent |
| InstantView.PagesShowTheirLatestContent | Telegram/Resources/iv_html/page.js:410-471 | in every run each page's content is that of its last reply; the page on screen shows it, and so does any other page's element unless the page is marked to be updated |
| InstantView.IdlePagesAreFresh | Telegram/Resources/iv_html/page.js:452-482 | in every run a page has at most one load under way, and then it is marked as loading; one that is not marked has its content from a request sent after the last call of reloadPage |
| InstantView.ReloadsDuringLoadMerge | Telegram/Resources/iv_html/page.js:459-482 | any number of reloadPage calls during a load send nothing; the reply then sends one request for all of them, and none if there were none |
| InstantView.LostForever | Telegram/Resources/iv_html/page.js:452-482 | a page whose load has failed stays marked as loading in every run, with the content it has; no call, reloadPage included, sends a request for it again |
| InstantView.LoadingSettlesIff | Telegram/Resources/iv_html/page.js:458-481 | the loading of a page can end in some run if and only if its load is under way |
| InstantView.FailureLosesPage | Telegram/Resources/iv_html/page.js:452-474 | from the start, a page whose first load fails is in that state |
| InstantView.HistoryFindsItsElement | Telegram/Resources/iv_html/page.js:531-595 | browser history, in every run, leads only to pages whose element is there, and shows them |
| InstantView.NavigateToArrivesOrWaits | Telegram/Resources/iv_html/page.js:396-409 | navigateTo shows the page, or waits for it while it is being loaded |
| InstantView.NavigateToSends | Telegram/Resources/iv_html/page.js:396-405 | a page never asked for is asked for, but for the one that came with the document; no other navigation sends anything |
| InstantView.ReloadPageSends | Telegram/Resources/iv_html/page.js:475-481 | reloadPage asks for a page that is not being loaded, and otherwise only notes it |
| InstantView.LoadingIsUnderWayIff | Telegram/Resources/iv_html/page.js:452-474 | in every run in which no load of a page fails it is marked as loading if and only if its load is under way |
| InstantView.ElementComesBack | Telegram/Resources/iv_html/page.js:531-584 | the element that leaves the screen is kept, and comes back with its page |
| InstantView.WaitedPageIsShown | Telegram/Resources/iv_html/page.js:459-471 | the reply for the page waited for puts it on screen with that content |
| InstantView.RunKeepsInv | Telegram/Resources/iv_html/page.js:396-612 | coherence and freshness hold after every run |
| InstantView.IV.NavigateTo | Telegram/Resources/iv_html/page.js:396-409 | keeps coherence and freshness; the new state is that of the navigation step, of which NavigateToSends and NavigateToArrivesOrWaits say what it does |
| InstantView.IV.Onload | Telegram/Resources/iv_html/page.js:459-471 | keeps the invariant; content, update, waiting page and postponed reload in the order of the handler |
| InstantView.IV.ReloadPage | Telegram/Resources/iv_html/page.js:475-481 | keeps the invariant; sends a request or notes that one is wanted |
| InstantView.IV.OnError | Telegram/Resources/iv_html/page.js:458-474 | there is no handler for a failed load: only the request is gone |
| InstantView.IV.ApplyUpdatedContent | Telegram/Resources/iv_html/page.js:410-451 | marks a page that is not on screen, if it has an element, and changes the element on screen otherwise |
| InstantView.IV.NavigateToLoaded | Telegram/Resources/iv_html/page.js:491-501 | makes the element if there is none and goes to it |
| InstantView.IV.ShowDOM | Telegram/Resources/iv_html/page.js:531-595 | keeps the element that leaves the screen and brings the new one up to date |
| InstantView.IV.PopState | Telegram/Resources/iv_html/page.js:654-658 | keeps the invariant and always shows the page |
| SearchToken.RequestToToken | Telegram/SourceFiles/api/api_messages_search.cpp:47-62 | the appending loop builds the query and the lines of sender and tags |
| SearchToken.TokenRoundTrip | Telegram/SourceFiles/api/api_messages_search.cpp:47-62 | a reader of tokens gets a request back if and only if query and emoji are single lines, no tag is the paid reaction and no custom tag has id 0 |
| SearchToken.TokenDetermines | Telegram/SourceFiles/api/api_messages_search.cpp:47-62 | among such requests about one topic, equal tokens mean equal requests |
| SearchToken.TokensAgreeOnLines | Telegram/SourceFiles/api/api_messages_search.cpp:47-62 | any two requests have the same token if and only if they have the same lines |
| SearchToken.TokensAgreeIff | Telegram/SourceFiles/api/api_messages_search.cpp:47-62 | with one-line query and emoji, two requests have the same token if and only if they agree in query, sender and, tag by tag, in custom id and emoji text |
| SearchToken.TokenIsUniqueIff | Telegram/SourceFiles/api/api_messages_search.cpp:47-62 | among requests with one-line texts about one topic, a request is the only one with its token if and only if every tag has a custom id other than 0 or an emoji text that is not empty |
| SearchToken.LookalikesShareToken | Telegram/SourceFiles/api/api_messages_search.cpp:53-60 | the empty emoji, custom id 0 and the paid reaction give the same token |
| Search.ReplyIsPublishedIffCurrent | Telegram/SourceFiles/api/api_messages_search.cpp:149-206 | in every reachable state a reply is published exactly when it answers the latest request, and then it is a page of the current search from the current offset |
| Search.NextPageStartsAfterTheLastMessage | Telegram/SourceFiles/api/api_messages_search.cpp:149-206 | in every reachable state, after a published reply the offset is the id of its last usable message, and the next searchMore asks for what comes after that; with none it is 0 |
| Search.UsableItemIsPublished | Telegram/SourceFiles/api/api_messages_search.cpp:25-45 | the message at any place of a reply is published if it is usable, between those before and after it |
| Search.RepliesAreParsed | Telegram/SourceFiles/api/api_messages_search.cpp:157-201 | the total published for each kind of reply |
| Search.SearchMoreWaits | Telegram/SourceFiles/api/api_messages_search.cpp:81-86 | searchMore does nothing while a request is under way, and otherwise sends one from the offset or publishes the cached page |
| Search.SearchStartsOver | Telegram/SourceFiles/api/api_messages_search.cpp:75-79 | a new search sends its request from the start or publishes the cached page, whatever is under way |
| Search.AnswerFrees | Telegram/SourceFiles/api/api_messages_search.cpp:125-140 | every answer, also a stale one, frees searchMore unless a newer request is under way; a failure changes neither offset nor cache |
| Search.FirstPageIsCached | Telegram/SourceFiles/api/api_messages_search.cpp:198-200 | the first page of a search is cached unless one is already, and no other |
| Search.AnswerIsAboutTheCurrentSearchIff | Telegram/SourceFiles/api/api_messages_search.cpp:125-157 | in every reachable state, what an answer makes the object publish is about the current search, unless it is an empty-query failure of a request for another search: exactly then it is not |
| Search.FailureTokenTells | Telegram/SourceFiles/api/api_messages_search.cpp:129-137 | among plain requests about one topic the published token is the current one if and only if the failed request is for the current search |
| Search.FailureOfOtherTopicLooksCurrent | Telegram/SourceFiles/api/api_messages_search.cpp:129-137 | the same search in two topics and a late failure of the first: its empty result is published under the current token |
| Search.StaleFailureIsPublished | Telegram/SourceFiles/api/api_messages_search.cpp:129-137 | any two different searches and a late failure of the first: its empty result is published |
| Search.CachedSearchPublishesEqualRequestsReply | Telegram/SourceFiles/api/api_messages_search.cpp:75-96 | in every reachable state a search whose token is cached, and a searchMore that is back at the start, send nothing and publish the reply of an earlier start-of-search request with that token, of an equal request where the token tells |
| Search.CacheIgnoresTopic | Telegram/SourceFiles/api/api_messages_search.cpp:88-96 | the topic is not in the token: the same search in another topic is answered with the first one's reply |
| Search.RunKeepsInv | Telegram/SourceFiles/api/api_messages_search.cpp:66-206 | request, offset, ids and cache agree with the requests under way in every run |
| Search.MessagesSearch.SearchRequest | Telegram/SourceFiles/api/api_messages_search.cpp:88-147 | publishes from the cache or sends one request, with the current offset |
| Search.MessagesSearch.SearchReceived | Telegram/SourceFiles/api/api_messages_search.cpp:149-206 | drops a reply that is not the latest's, caches a first page, publishes the usable messages and moves the offset, as NextPageStartsAfterTheLastMessage says |
| SearchMerged.MergedSearchIsRight | Telegram/SourceFiles/api/api_messages_search_merged.cpp:14-75 | under every order of answers, for a non-empty token: the messages are those of the main history's replies and, once it is complete, those of the migrated one's, each once and in order, if and only if no searchMore published messages of a first page again; and then the main history is complete exactly when a reply's total is reached or its search failed for an empty query before any message |
| SearchMerged.MergedListIsWhatWasPublished | Telegram/SourceFiles/api/api_messages_search_merged.cpp:14-75 | in every case the messages are the pages that the two searches published, in order; the total is the sum of both first totals, added once; newFounds fires once, and nextFounds for every later page of either |
| SearchMerged.BothHistoriesAreSearched | Telegram/SourceFiles/api/api_messages_search_merged.cpp:90-97 | a search asks both histories for the same thing, from the start |
| SearchMerged.OneHistoryIsAsked | Telegram/SourceFiles/api/api_messages_search_merged.cpp:99-105 | searchMore asks the main history until it is complete and then the migrated one; an answer goes to the history it came from |
| SearchMerged.NothingRepeatsWithoutEmptyPages | Telegram/SourceFiles/api/api_messages_search.cpp:81-96 | no first page is published again while every reply has a message to go on from |
| SearchMerged.RepeatFollowsEmptyPage | Telegram/SourceFiles/api/api_messages_search.cpp:81-96 | before a first page is published again, a reply came without one |
| SearchMerged.FirstPageIsRepeated | Telegram/SourceFiles/api/api_messages_search_merged.cpp:31-47 | a page with one message, an empty page and two searchMore calls: the message is in the list twice, and a total of two makes the history complete after one |
| SearchMerged.SearchForNothingNeverHasTotal | Telegram/SourceFiles/api/api_messages_search_merged.cpp:16-25 | with an empty token the total stays unknown and newFounds never fires, for every order of answers |
| SearchMerged.MergedRunKeepsInv | Telegram/SourceFiles/api/api_messages_search_merged.cpp:14-105 | the merged object's fields are determined by the pages its two searches have delivered, in every run |
| SearchMerged.MessagesSearchMerged.AddFound | Telegram/SourceFiles/api/api_messages_search_merged.cpp:71-75 | appends the messages of a page |
| SearchMerged.MessagesSearchMerged.OnMainFound | Telegram/SourceFiles/api/api_messages_search_merged.cpp:31-47 | the handler of the main search, first pages and later ones |
| SearchMerged.MessagesSearchMerged.OnMigratedFound | Telegram/SourceFiles/api/api_messages_search_merged.cpp:49-65 | the handler of the migrated search, kept back until the main one is complete |
| SearchMerged.MessagesSearchMerged.Search | Telegram/SourceFiles/api/api_messages_search_merged.cpp:90-97 | starts both searches |
| SearchMerged.MessagesSearchMerged.SearchMore | Telegram/SourceFiles/api/api_messages_search_merged.cpp:99-105 | asks the main search for more, or the migrated one once the main one is complete |
| VectorHash.UpdateIsReversible | Telegram/SourceFiles/api/api_hash.h:40-45 | for each value the step is a bijection of the 64-bit state, with an explicit inverse |
| VectorHash.UpdateReachesEveryState | Telegram/SourceFiles/api/api_hash.h:40-45 | for each state it is a bijection of the value |
| VectorHash.MixedBit | Telegram/SourceFiles/api/api_hash.h:41-43 | every bit of the mixed state, after the shifts by 21, 35 and 4 |
| VectorHash.UpdateAddsValue | Telegram/SourceFiles/api/api_hash.h:44 | the value is added to the mixed state modulo 2^64 |
| Words64.ShiftsAreArithmetic | Telegram/SourceFiles/api/api_hash.h:41-43 | the shifts of the bits are division and multiplication by powers of two in 64 bits |
| VectorHash.SuffixKeepsDifference | Telegram/SourceFiles/api/api_hash.h:64-70 | a common suffix neither merges nor separates two hashes |
| VectorHash.HashIsBijectiveAtEachPosition | Telegram/SourceFiles/api/api_hash.h:64-70 | around any position every 64-bit result is reached by exactly one value there |
| VectorHash.OneEditChangesHash | Telegram/SourceFiles/api/api_hash.h:64-70 | two lists that differ in exactly one position have different hashes |
| VectorHash.HashUpdate | Telegram/SourceFiles/api/api_hash.h:40-45 | the four assignments are that step |
| VectorHash.CountHash | Telegram/SourceFiles/api/api_hash.h:63-70 | the loop computes the hash of the list |
| VectorHash.CountStickersOrderHash | Telegram/SourceFiles/api/api_hash.cpp:38-61 | the hash of the sets known, not special, not archived and not the default set; 0 if the default set is found and asked about |
| VectorHash.SetCountsIff | Telegram/SourceFiles/api/api_hash.cpp:46-56 | a set counts, with its hash, if and only if it is known, not the default set, not special and not archived |
| VectorHash.StickersHashShowsChange | Telegram/SourceFiles/api/api_hash.cpp:38-61 | a new hash of one counted set always shows |
| VectorHash.CountFeaturedHash | Telegram/SourceFiles/api/api_hash.cpp:63-78 | the hash of the ids, each unread one followed by a 1 |
| VectorHash.SetIsFeatured | Telegram/SourceFiles/api/api_hash.cpp:68-75 | a featured set counts with its id, followed by a 1 if it is known and unread |
| VectorHash.FeaturedHashShowsReplacement | Telegram/SourceFiles/api/api_hash.cpp:63-78 | another set in the place of one, equally read or unread, always shows |
| InviteLinks.LookupIsSearch | Telegram/SourceFiles/api/api_invite_links.cpp:124-141 | with the active permanent link only at the front, the front lookup is a search of the whole list |
| InviteLinks.EditedKeepsFrontIff | Telegram/SourceFiles/api/api_invite_links.cpp:286-304 | an edit keeps it at the front if and only if it does not make a link further back active and permanent |
| InviteLinks.UpdatedKeepsFrontIff | Telegram/SourceFiles/api/api_invite_links.cpp:522-531 | an external update keeps it if and only if it does not do that |
| InviteLinks.BroughtToFrontIff | Telegram/SourceFiles/api/api_invite_links.cpp:28-36 | rotating the first one to the front is enough if and only if there is at most one |
| InviteLinks.ReloadedKeepsFrontIff | Telegram/SourceFiles/api/api_invite_links.cpp:426-450 | a reload keeps it if and only if a permanent link was at hand already or the server sends at most one |
| InviteLinks.PrependedKeepsFront | Telegram/SourceFiles/api/api_invite_links.cpp:162-205 | putting a new link in front, behind the permanent one, or in its place keeps the list in order |
| InviteLinks.PermanentSetKeepsFront | Telegram/SourceFiles/api/api_invite_links.cpp:633-663 | setting the permanent link keeps the list in order |
| InviteLinks.PermanentClearedKeepsFront | Telegram/SourceFiles/api/api_invite_links.cpp:678-699 | clearing it leaves none |
| InviteLinks.PrependedLink | Telegram/SourceFiles/api/api_invite_links.cpp:162-195 | what a prepend makes of list and count: the new link in front, behind the permanent one, or in its place, and all other links as they were |
| InviteLinks.SetPermanentLink | Telegram/SourceFiles/api/api_invite_links.cpp:620-663 | setting the permanent link puts it before all others, in the place of another permanent one; the same one only changes its usage |
| InviteLinks.ClearedLink | Telegram/SourceFiles/api/api_invite_links.cpp:678-699 | clearing takes the permanent link out and no other |
| InviteLinks.EditedLink | Telegram/SourceFiles/api/api_invite_links.cpp:286-304 | an edit erases the first link of the name if it is now revoked and was not, and changes it otherwise; all others stay |
| InviteLinks.EditedElsewhere | Telegram/SourceFiles/api/api_invite_links.cpp:286-318 | an edit of a link that is not there changes nothing; one answered with a new link prepends that |
| InviteLinks.UpdatedLink | Telegram/SourceFiles/api/api_invite_links.cpp:522-531 | an external update changes the entries of its link in their places, and no other |
| InviteLinks.ReloadedBehindPermanent | Telegram/SourceFiles/api/api_invite_links.cpp:441-449 | a reload with a permanent link at hand puts the server's links behind it in order, without that link and without active permanent ones |
| InviteLinks.ReloadedAlone | Telegram/SourceFiles/api/api_invite_links.cpp:426-440 | any other reload takes the server's links, the first active permanent one moved to the front |
| InviteLinks.OtherPeersStay | Telegram/SourceFiles/api/api_invite_links.cpp:162-699 | no change for one peer touches another's list |
| InviteLinks.PermanentStaysInFront | Telegram/SourceFiles/api/api_invite_links.cpp:28-699 | over every run with an honest server each peer's list has at most one active permanent link, at the front, and the lookup finds it |
| InviteLinks.ChangedLinkIsNotFound | Telegram/SourceFiles/api/api_invite_links.cpp:286-304 | two links and an edit, or an external update, that makes the second the active permanent one: the lookup does not find it |
| InviteLinks.SecondPermanentIsNotFound | Telegram/SourceFiles/api/api_invite_links.cpp:426-440 | a reload with two active permanent links leaves the second behind the front |
| InviteLinks.BringPermanentToFront | Telegram/SourceFiles/api/api_invite_links.cpp:28-36 | the search and rotation in place, for any list |
| InviteLinks.RemovePermanent | Telegram/SourceFiles/api/api_invite_links.cpp:38-43 | erases every active permanent link and keeps the order of the others |
| InviteLinks.InviteLinks.LookupMyPermanent | Telegram/SourceFiles/api/api_invite_links.cpp:124-134 | looks at the front only |
| InviteLinks.InviteLinks.PrependMyToFirstSlice | Telegram/SourceFiles/api/api_invite_links.cpp:162-205 | the changes of list and count |
| InviteLinks.InviteLinks.OnEditDone | Telegram/SourceFiles/api/api_invite_links.cpp:279-315 | an edited link is changed, or erased when it is now revoked, and the one that replaces it is prepended |
| InviteLinks.InviteLinks.ApplyExternalUpdate | Telegram/SourceFiles/api/api_invite_links.cpp:522-538 | every entry of that link is changed |
| InviteLinks.InviteLinks.SetMyPermanent | Telegram/SourceFiles/api/api_invite_links.cpp:620-676 | the front is replaced, or the link inserted |
| InviteLinks.InviteLinks.ClearMyPermanent | Telegram/SourceFiles/api/api_invite_links.cpp:678-699 | the front is erased |
| InviteLinks.InviteLinks.OnMyLinksDone | Telegram/SourceFiles/api/api_invite_links.cpp:426-450 | the list of a reload, with the permanent link at hand kept |
| UpdaterWalk.OnlyTdataIsSkipped | Telegram/SourceFiles/_other/updater_linux.cpp:260-261 | among the paths the walk comes to, the prefix test skips the top entry tdata and nothing else |
| UpdaterWalk.WalkListsEveryFileAndDirectoryOnce | Telegram/SourceFiles/_other/updater_linux.cpp:232-290 | what a walk is to find: exactly the files (but the ready marker), the directories, the updater's files and the directories that do not open, reached by names not beginning with tdata; each once |
| UpdaterWalk.ReadEntries | Telegram/SourceFiles/_other/updater_linux.cpp:254-288 | the loop over one directory adds exactly what its entries stand for, or meets the updater |
| UpdaterWalk.Walk | Telegram/SourceFiles/_other/updater_linux.cpp:232-290 | the queue runs empty on every finite tree; it fails exactly when the updater is among the files or a directory does not open; otherwise the files and directories listed are exactly those, each file has its target, each directory comes after its parent, and each target lies in a directory listed or in the program's own |
| UpdaterWalk.EntryHasParent | Telegram/SourceFiles/_other/updater_linux.cpp:241-246 | the target directory of an entry is the one of its directory followed by its name |
| UpdaterWalk.PathTellsName | Telegram/SourceFiles/_other/updater_linux.cpp:258 | different entries of a directory never lead to the same path |
| UpdaterWalk.TargetOfNames | Telegram/SourceFiles/_other/updater_linux.cpp:219-229 | what names lead to in the update goes where they lead in the program's directory |
| UpdaterWalk.EqualNamesIff | Telegram/SourceFiles/_other/updater_linux.cpp:197-201 | names are equal if and only if they have the same letters, in either case, and the same other characters |
| UpdaterWalk.ProgramIsRenamed | Telegram/SourceFiles/_other/updater_linux.cpp:272-276 | every file goes to the place of its names but for the program itself, which takes the name the program has |
| UpdaterWalk.PrefixesInOrder | Telegram/SourceFiles/_other/updater_linux.cpp:175-195 | the directories made for a path are its prefixes, each after those it is in |
| UpdaterWalk.EveryCutIsMade | Telegram/SourceFiles/_other/updater_linux.cpp:180-192 | every prefix that ends with a name is made |
| UpdaterWalk.MkPath | Telegram/SourceFiles/_other/updater_linux.cpp:175-195 | the loop that cuts the buffer at one slash after another makes these directories in order, then the whole path, up to the first that fails |

## Left out

- PackerSha1.HashSha1: lengths from 2^32 - 64 on, where the block counter of the loop overflows.
- DomTree.MorphRootIsTarget: trees with keyed nodes (ids) or form elements, which the theorems exclude by `Plain`; with ids the source can fail: from `<div><section></section><p id=k></p><p id=j></p></div>` to `<div><section><p id=k></p></section><p id=j></p></div>` the element k moves into the section while it is the next to be looked at, and insertBefore then gets a reference node of another parent. Namespaced names and the other callbacks of morphdom are not modelled either.
- DomTree.MorphRootReaches: as MorphRootIsTarget.
- DomTree.MorphKidsReach: as MorphRootIsTarget.
- Morphdom.MorphAttrs: attributes with a namespace, which are compared by their local name.
- Morphdom.MorphEl: the keys and the TEXTAREA branch, which `Plain` excludes.
- Morphdom.CleanupFromEl: leftovers with a key, which `Plain` excludes.
- Morphdom.MorphDom: the key index and the removal of keyed leftovers, which `Plain` makes empty.
- Morphdom.MorphChildren: the keyed branches and the form-element handlers, which `Plain` excludes; sibling references are positions in the parent's list of children.
- InstantView.PagesShowTheirLatestContent: content is opaque, and the morph of the element on screen is taken to reach it, which `DomTree.PageIsUpdated` says up to videos, channels and the class `loaded`; positions, hashes, scrolling and animations, and scripts of a page.
- Search.CachedSearchPublishesEqualRequestsReply: the topic, which is not in the token, is taken to be the same; histories.sendRequest is taken to call its function at once.
- SearchMerged.MergedSearchIsRight: replies that are not modified, which the source publishes as nothing found and the merged list is then replaced with; every request carries hash 0, which does not allow them. One search per object, because `isFull` is never reset; disableMigrated during a search.
- SearchMerged.MergedListIsWhatWasPublished: replies that are not modified, as above.
- MessageData.ApiWrap.ResolveMessageDatas: what the messages of a reply do to the session.
- WebPages.ResolveSets: the timer; a page is due by its pendingTill alone.
- StickerSets.ApiWrap.SaveStickerSets: the ids of requests that clear recent stickers and their cancelling, and the flags that say which files are to be written.
- StickerSets.ReorderWaitsForTheOthers: what a failed reorder request makes the program reload.
- ForwardMessages.Forwarding.ForwardMessages: the forks to other forwarding code at its start, the local message of a single forward, options and flags of the request, and 32-bit overflow of a price.
- DialogsLoad.RunKeepsInv: requestMoreDialogsIfNeeded, whose calls are events of their own; the main list and the folders are in one map here.
- InviteLinks.PermanentStaysInFront: `count`, which setMyPermanent does not increase on insertion, is modelled but nothing is claimed of it; joined users, and callbacks of creating and editing.
- UpdaterWalk.Walk: a path in the queue comes with the node it names, which PathTellsName shows to be the only one; a walk that meets both the updater and a directory that does not open may report either; removing and copying of the files listed.
- UpdaterWalk.MkPath: which mkdir calls fail is a parameter.
- PackerFiles.ExpandFiles: the test of path prefixes after the loop; the archive, its signature and compression.
- VectorHash.CountStickersOrderHash: the other counting functions, which are loops of the same kind or single calls.
- Transport, the wire format, timers, user interface, storage on disk and everything else in the repository.
