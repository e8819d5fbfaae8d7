# Anonymous chat feed reconciliation, modelled in Dafny

This project models the client-side feed logic of the anonymous chat view (`AnonymousChat`
and its `ChatInput` box in `src/App.jsx`). The view keeps two lists:

- confirmed messages fetched from the server;
- optimistic ("pending") records the user has sent but the server has not yet returned.

Every fetch brings a batch. The batch is sorted by `postedAt`. Its items whose key
`postedAt + content` is new are spliced in: in front of the list for a history load, behind it
for a poll. Every optimistic record whose content appears in the batch is then dropped
(promotion). History is paged backwards at offset `messages.length` when the user scrolls to the
top. A history page shorter than 50 ends paging for good. After a history load, `scrollTop` is
set to the new scroll height minus the height recorded when the load started. That difference
also includes any height a poll or a send added while the load ran.

Files and modules:

- `wrappers.dfy` (`Wrappers`): `Option`.
- `seqs.dfy` (`Seqs`): `Filter`, the model of `Array.prototype.filter`, with its
  order-preservation and multiplicity lemmas.
- `messages.dfy` (`Messages`): the record types, the deduplication key, and the stable
  insertion sort of a fetched batch. The sort is proved sorted, a permutation and stable.
- `reconcile.dfy` (`Reconcile`): the pure state updaters. These are the batch merge, promotion,
  rollback of a failed send, and the render sequence, with their lemmas.
- `feed.dfy` (`Feed`): class `ChatFeed`, whose fields are the component's state and refs, and
  whose methods are its handlers and effects. Network results are parameters. Each async handler
  is split at its `await`. The file ends with client methods that derive these scenarios from the
  contracts alone: a send confirmed by a poll, a failed send, a short history page, scroll
  anchoring after a history load, a poll that leaves a scrolled-up view alone, and a send that
  makes the view follow the bottom.
- `chat_input.dfy` (`Input`): JavaScript's `trim` and class `ChatInput`, with the blank-input
  guard and `insertText`.

`new Date(postedAt)` is the function `timeOf: string -> int`. It is a constant of `ChatFeed` and
a parameter of the sort lemmas. `Date.now()` and `new Date().toISOString()` are the parameters
`tempId` and `now` of `BeginSend`.

Properties a reader might expect of such a feed, which the code does not provide (the model follows the code):

- The confirmed list is not kept globally sorted. Only each batch is sorted, and a poll that
  brings an older item appends it behind newer ones (`Reconcile.PollCanBreakOrder`).
- Confirmed keys are not unique. Items are deduplicated only against the previous list, so two
  equal new items of one batch are both admitted (`Reconcile.DuplicateInBatchAdmitted`,
  `Reconcile.NewUniqueCount`).
- The key is a plain string concatenation, not a pair. Distinct records can share a key
  (`Messages.KeyIsAmbiguous`). A record whose key is already in the confirmed list is dropped as a
  duplicate, so of two colliding records that arrive in different fetches, the one fetched first
  stays. Two colliding records that arrive in the same batch are both kept, because the batch is
  checked only against the previous list.
- A send is rolled back only when the request throws. A non-ok HTTP status counts as success
  and triggers a poll.
- Optimistic records carry no status field. Malformed batch records are not filtered out.

## Model

| member | source | states |
|---|---|---|
| `Messages.KeyIsAmbiguous` | src/App.jsx:94-95 | the dedup key `postedAt + content` maps two different records to the same key whenever characters move between the end of `postedAt` and the start of `content` |
| `Messages.SortBatch` | src/App.jsx:87 | the sorted batch is ascending by `timeOf(postedAt)` and is a permutation of the fetched batch (same multiset, same length) |
| `Messages.SortBatchStable` | src/App.jsx:87 | the sort is stable: for every timestamp value, the items posted at that time appear in the same relative order as in the fetched batch |
| `Messages.SortBatchOfSorted` | src/App.jsx:87 | a batch already in time order is returned unchanged by the sort |
| `Reconcile.NewUnique` | src/App.jsx:94-95 | an item is new exactly when it is in the batch and its key is not the key of any previously confirmed record; the new items keep their batch order |
| `Reconcile.NewUniqueCount` | src/App.jsx:94-95 | every copy of a batch item with a fresh key is kept and no copy of one with a known key, so duplicates within one batch all get through |
| `Reconcile.MergeBatch` | src/App.jsx:93-98 | the merged list grows by exactly the number of new items; on a history load the old list is its suffix, on a poll its prefix; afterwards the list's keys are the old keys plus every key of the batch |
| `Reconcile.MergeShape` | src/App.jsx:96-97 | a poll yields `prev ++ newUnique` and a history load yields `newUnique ++ prev` |
| `Reconcile.MergeUnchangedIff` | src/App.jsx:94-96 | the merged list equals the old list if and only if every key of the batch is already a confirmed key |
| `Reconcile.MergeIdempotent` | src/App.jsx:93-98 | merging the same batch a second time, from either direction, leaves the list as the first merge left it |
| `Reconcile.MergeKeysCommute` | src/App.jsx:93-98 | two batches merged in either order and from either direction leave the same set of keys |
| `Reconcile.DuplicateInBatchAdmitted` | src/App.jsx:94-95 | a new record that appears twice in one poll batch is appended twice |
| `Reconcile.PollCanBreakOrder` | src/App.jsx:97 | a poll bringing a record older than the last confirmed one leaves the confirmed list out of time order |
| `Reconcile.Promote` | src/App.jsx:100-103 | an optimistic record survives promotion exactly when no batch item has its content, whether or not those items were new; survivors keep their order and nothing is added |
| `Reconcile.PromoteCount` | src/App.jsx:100-103 | promotion removes every copy of a matched record and keeps every copy of an unmatched one |
| `Reconcile.PromoteIgnoresBatchOrder` | src/App.jsx:87-102 | promoting against the sorted batch is the same as promoting against the batch as fetched |
| `Reconcile.PromoteIdempotent` | src/App.jsx:100-103 | promoting twice against the same batch is promoting once |
| `Reconcile.Rollback` | src/App.jsx:141 | a record remains after rollback exactly when it was pending and its id differs from `tempId`; the remaining records keep their original order |
| `Reconcile.RollbackCount` | src/App.jsx:141 | rollback removes every copy of a record carrying `tempId` and keeps every copy of the others |
| `Reconcile.RollbackUndoesSend` | src/App.jsx:128-141 | rolling back a send whose id no other record carries restores the optimistic list as it was before the send |
| `Feed.ChatFeed.MessagesToRender` | src/App.jsx:190 | the memoised render list is the view's confirmed records, in order, then its optimistic records, in order |
| `Reconcile.Render` | src/App.jsx:190 | the render sequence is every confirmed record, in order, followed by every optimistic record, in order; no confirmed entry follows an optimistic one |
| `Feed.ChatFeed.constructor` | src/App.jsx:64-75 | a mounted view starts with empty lists, not sending, not loading, `hasMore` true, no recorded height and auto-scroll on |
| `Feed.ChatFeed.HandleScroll` | src/App.jsx:166-174 | a history load starts exactly when `scrollTop` is 0, none is running, `hasMore` holds and the list is non-empty; it then returns offset `|messages|`, records the scroll height and sets the loading flag; auto-scroll becomes `scrollHeight - scrollTop - clientHeight < 100` |
| `Feed.ChatFeed.CompleteFetch` | src/App.jsx:79-110 | an ok batch is sorted, merged into the confirmed list and used to promote; a non-ok response or a throw leaves both lists unchanged; `hasMore` turns false only on a history batch shorter than 50 and never turns true; a history load always clears the loading flag, a poll never touches it |
| `Feed.ChatFeed.BeginSend` | src/App.jsx:119-130 | the send appends exactly one optimistic record, with the given text, timestamp and id, at the end, and turns auto-scroll and the sending flag on |
| `Feed.ChatFeed.FinishSend` | src/App.jsx:132-144 | a response of any status keeps the optimistic list and requests a poll; a throw removes the records with `tempId` and alerts; the sending flag is cleared either way |
| `Feed.ChatFeed.AfterRender` | src/App.jsx:176-182 | when a height is recorded, the viewport is mounted and no history load is running, `scrollTop` becomes the new height minus the recorded one and the recorded height resets to 0; otherwise nothing changes |
| `Feed.PollDoesNotYank` | src/App.jsx:166-188 | after the user scrolls to at least 100 from the bottom, a following poll, whatever its outcome, does not scroll the view to the bottom |
| `Feed.SendFollows` | src/App.jsx:119-188 | after a send starts, the view scrolls to the bottom on the next list change, wherever the user had scrolled |
| `Feed.SendThenConfirm` | src/App.jsx:119-138 | from an empty view, a send of "hi" answered by a poll returning the confirmed "hi" renders exactly that one confirmed record: the optimistic copy is replaced, not duplicated |
| `Feed.SendThenFail` | src/App.jsx:119-145 | when no pending record already carries `tempId`, a send whose request throws leaves both lists as they were before it; an earlier record with the same millisecond id would be removed as well |
| `Feed.ShortPageExhausts` | src/App.jsx:89-91 | after a history batch shorter than 50, `hasMore` is false and no scroll starts another history load |
| `Feed.HistoryLoadAnchors` | src/App.jsx:166-182 | a history load started at the top and completed sets `scrollTop` to the scroll height after the render minus the height recorded at the trigger, and clears the recorded height and the loading flag |
| `Input.TrimEmptyIff` | src/App.jsx:20 | the trimmed input is empty if and only if every character is one `trim` removes |
| `Input.ChatInput.constructor` | src/App.jsx:8 | the input box starts empty |
| `Input.ChatInput.HandleSubmit` | src/App.jsx:18-23 | blank input is ignored and kept; otherwise the input is sent untrimmed and the box is cleared |
| `Input.ChatInput.InsertText` | src/App.jsx:12-15 | the inserted text and a line break are put in front of the current input |
| `Input.SubmitSendsIff` | src/App.jsx:18-23 | a submission sends exactly when the input holds a character that `trim` does not remove |

## Left out

- Network and JSON: `fetch`, `response.ok`, `response.json()` and the POST are not modelled. Their outcomes are the parameters `FetchOutcome` and `SendOutcome`. Every throw inside the fetch handler, including a body that is not an array, is `FetchFailed`.
- The polling timer (`setInterval` every 3000 ms), the initial fetch on mount and the cleanup on unmount: each tick, and the poll a send triggers, is a call of `CompleteFetch(false, …)` made by the caller.
- Concurrency: async interleaving, React's batching of state updates and stale closures are not modelled. The model is sequential, and the methods may be called in any order.
- Dates: `timeOf` is a total integer function. An unparsable `postedAt`, which makes the comparator return NaN, is not modelled, and neither is `formatTime`.
- The layout effect's dependency list: the caller decides when `AfterRender` runs, namely after a render in which `messages` or `isLoadingHistory` changed.
- DOM behaviour: `scrollIntoView`, `focus` and `setTimeout` are represented only by the values that drive them. The browser clamping an assigned `scrollTop` and fractional scroll metrics are not modelled; scroll values are integers.
- React identity: "return prev" (no re-render) is modelled as returning an equal value.
- Rendering: JSX, theme styles and the theme toggle are not modelled. Neither are the context menu, `handleReply` (which calls `insertText` with a message link) and the window click listener.
- The Enter-key handler of the input, which calls the submit handler, and the disabling of the input while sending are not modelled.
- `page.tsx` (an earlier prototype) and `vite.config.js` (build configuration) are not part of this model.
