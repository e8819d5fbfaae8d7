/**
 * The records of the chat feed: confirmed messages as the server returns them, optimistic
 * records created by a send, the deduplication key, and the time-ascending sort applied to
 * every fetched batch before it is merged.
 */
module Messages {
  import opened Wrappers
  import opened Seqs

  /** A server-confirmed message. `telegramId` is shown by the UI only; no logic reads it. */
  datatype Message = Message(content: string, postedAt: string, telegramId: Option<string>)

  /** An optimistic record: `postedAt` is the client's ISO clock reading and `id` its millisecond clock. */
  datatype PendingMessage = PendingMessage(content: string, postedAt: string, id: int)

  /** An entry of the rendered feed, tagged with the kind of record it shows. */
  datatype RenderItem = Confirmed(message: Message) | Pending(pending: PendingMessage)

  /**
   * The deduplication key: `postedAt` and `content` joined as plain strings, with no separator
   * and ignoring `telegramId`.
   */
  function Key(m: Message): (r: string)
  {
    m.postedAt + m.content
  }

  /** The key is not injective: moving characters between the end of `postedAt` and the start of `content` keeps it. */
  lemma KeyIsAmbiguous(postedAt: string, moved: string, content: string, t: Option<string>, t': Option<string>)
    requires moved != []
    ensures Message(content, postedAt + moved, t) != Message(moved + content, postedAt, t')
    ensures Key(Message(content, postedAt + moved, t)) == Key(Message(moved + content, postedAt, t'))
  {
  }

  // ----- time-ascending stable sort of a fetched batch -----------------------------------

  /**
   * The comparator's key: `timeOf` stands for `new Date(postedAt)` as a number, so the
   * comparator `(a, b) => new Date(a.postedAt) - new Date(b.postedAt)` orders by `Time`.
   */
  function Time(m: Message, timeOf: string -> int): (r: int)
  {
    timeOf(m.postedAt)
  }

  predicate SortedByTime(s: seq<Message>, timeOf: string -> int)
  {
    forall i, j :: 0 <= i < j < |s| ==> Time(s[i], timeOf) <= Time(s[j], timeOf)
  }

  /** Selects the messages posted at time `t`; the stability statement filters by it. */
  function AtTime(timeOf: string -> int, t: int): (r: Message -> bool)
  {
    m => Time(m, timeOf) == t
  }

  /** Inserts `m` before the first element that is not earlier than it. */
  function Insert(m: Message, s: seq<Message>, timeOf: string -> int): (r: seq<Message>)
    ensures multiset(r) == multiset(s) + multiset{m}
    ensures SortedByTime(s, timeOf) ==> SortedByTime(r, timeOf)
  {
    if s == [] || Time(m, timeOf) <= Time(s[0], timeOf) then [m] + s
    else
      assert s == [s[0]] + s[1..];
      var rest := Insert(m, s[1..], timeOf);
      assert rest[0] in multiset(rest);
      [s[0]] + rest
  }

  /** Stable insertion sort: the model of `data.sort(...)` on a fetched batch. */
  function SortBatch(s: seq<Message>, timeOf: string -> int): (r: seq<Message>)
    ensures SortedByTime(r, timeOf)
    ensures multiset(r) == multiset(s)
    ensures |r| == |s|
  {
    if s == [] then []
    else
      assert s == [s[0]] + s[1..];
      Insert(s[0], SortBatch(s[1..], timeOf), timeOf)
  }

  lemma {:induction false} InsertStable(m: Message, s: seq<Message>, timeOf: string -> int, t: int)
    ensures Filter(Insert(m, s, timeOf), AtTime(timeOf, t))
         == (if Time(m, timeOf) == t then [m] else []) + Filter(s, AtTime(timeOf, t))
  {
    var keep := AtTime(timeOf, t);
    if s == [] || Time(m, timeOf) <= Time(s[0], timeOf) {
      assert ([m] + s)[1..] == s;
    } else {
      var rest := Insert(m, s[1..], timeOf);
      assert Insert(m, s, timeOf) == [s[0]] + rest;
      assert ([s[0]] + rest)[1..] == rest;
      InsertStable(m, s[1..], timeOf, t);
      // s[0] is strictly earlier than m, so it is kept exactly when nothing of time Time(m) is at stake
      assert Filter([s[0]] + rest, keep) == (if keep(s[0]) then [s[0]] else []) + Filter(rest, keep);
      assert Filter(s, keep) == (if keep(s[0]) then [s[0]] else []) + Filter(s[1..], keep);
    }
  }

  /** Messages with equal timestamps keep their relative order from the fetched batch. */
  lemma {:induction false} SortBatchStable(s: seq<Message>, timeOf: string -> int, t: int)
    ensures Filter(SortBatch(s, timeOf), AtTime(timeOf, t)) == Filter(s, AtTime(timeOf, t))
  {
    if s != [] {
      SortBatchStable(s[1..], timeOf, t);
      InsertStable(s[0], SortBatch(s[1..], timeOf), timeOf, t);
      FilterAppend([s[0]], s[1..], AtTime(timeOf, t));
      assert s == [s[0]] + s[1..];
    }
  }

  /** A batch that is already in time order comes out of the sort unchanged. */
  lemma {:induction false} SortBatchOfSorted(s: seq<Message>, timeOf: string -> int)
    requires SortedByTime(s, timeOf)
    ensures SortBatch(s, timeOf) == s
  {
    if s != [] {
      SortBatchOfSorted(s[1..], timeOf);
      assert SortBatch(s[1..], timeOf) == s[1..];
    }
  }
}
