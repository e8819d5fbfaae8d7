/**
 * The pure updaters of the feed: dedup-and-splice of a fetched batch into the confirmed list,
 * promotion of optimistic records, rollback of a failed send, and the render sequence.
 */
module Reconcile {
  import opened Seqs
  import opened Messages

  // ----- merging a batch into the confirmed list ----------------------------------------

  /** `new Set(prev.map(m => m.postedAt + m.content))`. */
  function KeySet(ms: seq<Message>): (r: set<string>)
  {
    set m | m in ms :: Key(m)
  }

  function IsNewTo(ids: set<string>): (r: Message -> bool)
  {
    m => Key(m) !in ids
  }

  /**
   * The batch items whose key is not among the keys of `prev`. The key set is built from
   * `prev` alone, so two equal items of one batch are both new.
   */
  function NewUnique(prev: seq<Message>, batch: seq<Message>): (r: seq<Message>)
    ensures forall m :: m in r <==> m in batch && Key(m) !in KeySet(prev)
    ensures IsSubsequence(r, batch)
  {
    FilterIsSubsequence(batch, IsNewTo(KeySet(prev)));
    Filter(batch, IsNewTo(KeySet(prev)))
  }

  /** Every copy of a batch item with a new key is kept, so the list can gain equal records. */
  lemma NewUniqueCount(prev: seq<Message>, batch: seq<Message>, m: Message)
    ensures multiset(NewUnique(prev, batch))[m] == if Key(m) in KeySet(prev) then 0 else multiset(batch)[m]
  {
    FilterCount(batch, IsNewTo(KeySet(prev)), m);
  }

  /**
   * The `setMessages` updater of a fetch: the new items go in front of the confirmed list on a
   * history load and behind it on a poll; with no new item the list is returned as it was.
   */
  function MergeBatch(prev: seq<Message>, batch: seq<Message>, isHistory: bool): (r: seq<Message>)
    ensures |r| == |prev| + |NewUnique(prev, batch)|
    ensures isHistory ==> r[|r| - |prev|..] == prev
    ensures !isHistory ==> r[..|prev|] == prev
    ensures KeySet(r) == KeySet(prev) + KeySet(batch)
  {
    var newUnique := NewUnique(prev, batch);
    assert KeySet(prev + newUnique) == KeySet(prev) + KeySet(batch) by {
      forall k | k in KeySet(batch) && k !in KeySet(prev)
        ensures k in KeySet(newUnique)
      {
        var m :| m in batch && Key(m) == k;
        assert m in newUnique;
      }
    }
    assert KeySet(newUnique + prev) == KeySet(prev + newUnique);
    if |newUnique| == 0 then prev
    else if isHistory then newUnique + prev
    else prev + newUnique
  }

  /** A poll appends exactly the new items; a history load prepends them. */
  lemma MergeShape(prev: seq<Message>, batch: seq<Message>)
    ensures MergeBatch(prev, batch, false) == prev + NewUnique(prev, batch)
    ensures MergeBatch(prev, batch, true) == NewUnique(prev, batch) + prev
  {
  }

  /** The confirmed list is left as it was exactly when every key of the batch is already present. */
  lemma MergeUnchangedIff(prev: seq<Message>, batch: seq<Message>, isHistory: bool)
    ensures MergeBatch(prev, batch, isHistory) == prev
        <==> forall m :: m in batch ==> Key(m) in KeySet(prev)
  {
  }

  /** Merging the same batch a second time, from either direction, changes nothing. */
  lemma MergeIdempotent(prev: seq<Message>, batch: seq<Message>, first: bool, second: bool)
    ensures MergeBatch(MergeBatch(prev, batch, first), batch, second) == MergeBatch(prev, batch, first)
  {
  }

  /** Two batches merged in either order leave the same set of keys. */
  lemma MergeKeysCommute(prev: seq<Message>, a: seq<Message>, b: seq<Message>, ha: bool, hb: bool)
    ensures KeySet(MergeBatch(MergeBatch(prev, a, ha), b, hb))
         == KeySet(MergeBatch(MergeBatch(prev, b, hb), a, ha))
  {
  }

  /** No uniqueness beyond the previous list: a new item that appears twice in a batch is added twice. */
  lemma DuplicateInBatchAdmitted(prev: seq<Message>, m: Message)
    requires Key(m) !in KeySet(prev)
    ensures MergeBatch(prev, [m, m], false) == prev + [m, m]
  {
  }

  /** No global order: a poll that brings an item older than the last confirmed one appends it behind. */
  lemma PollCanBreakOrder(late: Message, early: Message, timeOf: string -> int)
    requires Time(early, timeOf) < Time(late, timeOf)
    requires Key(early) != Key(late)
    ensures !SortedByTime(MergeBatch([late], [early], false), timeOf)
  {
  }

  // ----- promotion and rollback of optimistic records -------------------------------------

  /** `batch.some(s => s.content === c)`. */
  predicate HasContent(batch: seq<Message>, c: string)
  {
    exists s :: s in batch && s.content == c
  }

  function Unconfirmed(batch: seq<Message>): (r: PendingMessage -> bool)
  {
    (p: PendingMessage) => !HasContent(batch, p.content)
  }

  /**
   * The `setPendingMessages` updater of a fetch: every optimistic record whose content equals
   * that of some batch item is dropped, whether or not that item was new.
   */
  function Promote(pending: seq<PendingMessage>, batch: seq<Message>): (r: seq<PendingMessage>)
    ensures forall p :: p in r <==> p in pending && !HasContent(batch, p.content)
    ensures IsSubsequence(r, pending)
    ensures |r| <= |pending|
  {
    if |pending| == 0 then
      pending
    else
      FilterIsSubsequence(pending, Unconfirmed(batch));
      Filter(pending, Unconfirmed(batch))
  }

  /** Promotion drops every copy of a matched record and keeps every copy of the others. */
  lemma PromoteCount(pending: seq<PendingMessage>, batch: seq<Message>, p: PendingMessage)
    ensures multiset(Promote(pending, batch))[p]
         == if HasContent(batch, p.content) then 0 else multiset(pending)[p]
  {
    if |pending| != 0 {
      FilterCount(pending, Unconfirmed(batch), p);
    }
  }

  /** Promotion reads the batch only through its contents, so sorting the batch first does not matter. */
  lemma PromoteIgnoresBatchOrder(pending: seq<PendingMessage>, batch: seq<Message>, timeOf: string -> int)
    ensures Promote(pending, SortBatch(batch, timeOf)) == Promote(pending, batch)
  {
    var sorted := SortBatch(batch, timeOf);
    forall c ensures HasContent(sorted, c) == HasContent(batch, c) {
      if HasContent(sorted, c) {
        var s :| s in sorted && s.content == c;
        assert s in multiset(sorted);
      }
      if HasContent(batch, c) {
        var s :| s in batch && s.content == c;
        assert s in multiset(batch);
      }
    }
    if |pending| != 0 {
      FilterCongruent(pending, Unconfirmed(sorted), Unconfirmed(batch));
    }
  }

  /** Promoting against the same batch twice is promoting once. */
  lemma PromoteIdempotent(pending: seq<PendingMessage>, batch: seq<Message>)
    ensures Promote(Promote(pending, batch), batch) == Promote(pending, batch)
  {
  }

  function HasOtherId(id: int): (r: PendingMessage -> bool)
  {
    (p: PendingMessage) => p.id != id
  }

  /** `prev.filter(m => m.id !== tempId)`: the rollback of a send whose request threw. */
  function Rollback(pending: seq<PendingMessage>, id: int): (r: seq<PendingMessage>)
    ensures forall p :: p in r <==> p in pending && p.id != id
    ensures IsSubsequence(r, pending)
  {
    FilterIsSubsequence(pending, HasOtherId(id));
    Filter(pending, HasOtherId(id))
  }

  /** Rollback removes every copy of a record carrying `id` and keeps every copy of the others. */
  lemma RollbackCount(pending: seq<PendingMessage>, id: int, p: PendingMessage)
    ensures multiset(Rollback(pending, id))[p] == if p.id == id then 0 else multiset(pending)[p]
  {
    FilterCount(pending, HasOtherId(id), p);
  }

  /** Rolling back a send whose id no other record carries restores the records as they were before it. */
  lemma RollbackUndoesSend(pending: seq<PendingMessage>, p: PendingMessage)
    requires forall q :: q in pending ==> q.id != p.id
    ensures Rollback(pending + [p], p.id) == pending
  {
    FilterAppend(pending, [p], HasOtherId(p.id));
    assert [p][1..] == [];
  }

  // ----- the render sequence ----------------------------------------------------------------

  /** `[...messages, ...pendingMessages]`, each entry tagged confirmed or pending. */
  function Render(messages: seq<Message>, pending: seq<PendingMessage>): (r: seq<RenderItem>)
    ensures |r| == |messages| + |pending|
    ensures forall i :: 0 <= i < |messages| ==> r[i] == Confirmed(messages[i])
    ensures forall j :: 0 <= j < |pending| ==> r[|messages| + j] == Pending(pending[j])
    ensures forall i, j :: 0 <= i < j < |r| && r[j].Confirmed? ==> r[i].Confirmed?
  {
    seq(|messages|, i requires 0 <= i < |messages| => Confirmed(messages[i]))
      + seq(|pending|, j requires 0 <= j < |pending| => Pending(pending[j]))
  }
}
