/**
 * The state of the chat view and its handlers: the confirmed and optimistic lists, the history
 * pagination flags and the scroll bookkeeping. Every handler that awaits the network is split
 * at its await: the part before it is one method, and the outcome of the request is a parameter
 * of the method that models the part after it.
 */
module Feed {
  import opened Wrappers
  import opened Messages
  import opened Reconcile

  /** The `limit` of every fetch; a shorter history page means there is nothing older. */
  const PageLimit: nat := 50

  /** The viewport follows new messages while it is less than this far from the bottom. */
  const BottomThreshold: int := 100

  /** What a fetch of the message list ends with. */
  datatype FetchOutcome =
    | Batch(data: seq<Message>)  // an ok response whose body is the array `data`
    | NotOk                      // a response with `response.ok` false
    | FetchFailed                // the request or the body parsing threw

  /** What the POST of a new message ends with. Any HTTP status is a response: only a throw fails. */
  datatype SendOutcome = Responded | SendFailed

  /** What the send handler does after its POST settles. */
  datatype SendEffect =
    | PollNow       // start a forward fetch at once
    | AlertFailure  // tell the user the send failed

  class ChatFeed {
    /** The numeric value of `new Date(postedAt)`, used by the batch sort's comparator. */
    const timeOf: string -> int

    var messages: seq<Message>
    var pending: seq<PendingMessage>
    var isSending: bool
    var isLoadingHistory: bool
    var hasMore: bool
    /** The scroll height recorded when a history load starts; 0 when no anchoring is due. */
    var prevScrollHeight: int
    /** Whether the viewport follows new messages to the bottom. */
    var autoScroll: bool

    /** The state of a freshly mounted view. */
    constructor (timeOf: string -> int)
      ensures this.timeOf == timeOf
      ensures messages == [] && pending == []
      ensures !isSending && !isLoadingHistory && hasMore
      ensures prevScrollHeight == 0 && autoScroll
    {
      this.timeOf := timeOf;
      messages, pending := [], [];
      isSending, isLoadingHistory, hasMore := false, false, true;
      prevScrollHeight, autoScroll := 0, true;
    }

    /** The list the view renders: the confirmed records, then the optimistic ones. */
    function MessagesToRender(): (r: seq<RenderItem>)
      reads this
      ensures |r| == |messages| + |pending|
      ensures forall i :: 0 <= i < |messages| ==> r[i] == Confirmed(messages[i])
      ensures forall j :: 0 <= j < |pending| ==> r[|messages| + j] == Pending(pending[j])
    {
      Render(messages, pending)
    }

    /**
     * A scroll event. At the very top, with no history load running, more history available and
     * at least one confirmed message, it records the scroll height and starts a history load at
     * offset `|messages|`, which it returns. In every case it recomputes the follow-bottom flag.
     */
    method HandleScroll(scrollTop: int, scrollHeight: int, clientHeight: int) returns (historyOffset: Option<nat>)
      modifies this`prevScrollHeight, this`isLoadingHistory, this`autoScroll
      ensures var starts := scrollTop == 0 && !old(isLoadingHistory) && hasMore && |messages| > 0;
        && (historyOffset.Some? <==> starts)
        && (starts ==> historyOffset.value == |messages| && prevScrollHeight == scrollHeight && isLoadingHistory)
        && (!starts ==> prevScrollHeight == old(prevScrollHeight) && isLoadingHistory == old(isLoadingHistory))
      ensures autoScroll == (scrollHeight - scrollTop - clientHeight < BottomThreshold)
    {
      historyOffset := None;
      if scrollTop == 0 && !isLoadingHistory && hasMore && |messages| > 0 {
        prevScrollHeight := scrollHeight;
        // the synchronous start of the history fetch
        isLoadingHistory := true;
        historyOffset := Some(|messages|);
      }
      autoScroll := scrollHeight - scrollTop - clientHeight < BottomThreshold;
    }

    /**
     * The end of a fetch, forward (a poll) or backward (a history load). An ok batch is sorted by
     * time; a short history batch clears `hasMore`; the new items are spliced into the confirmed
     * list and the optimistic records the batch confirms are dropped. Whatever the outcome, a
     * history load clears the loading flag.
     */
    method CompleteFetch(isHistory: bool, outcome: FetchOutcome)
      modifies this`messages, this`pending, this`hasMore, this`isLoadingHistory
      ensures outcome.Batch? ==>
        var sorted := SortBatch(outcome.data, timeOf);
        messages == MergeBatch(old(messages), sorted, isHistory) && pending == Promote(old(pending), sorted)
      ensures !outcome.Batch? ==> messages == old(messages) && pending == old(pending)
      ensures hasMore == (old(hasMore) && !(isHistory && outcome.Batch? && |outcome.data| < PageLimit))
      ensures isLoadingHistory == (old(isLoadingHistory) && !isHistory)
    {
      if outcome.Batch? {
        var sorted := SortBatch(outcome.data, timeOf);
        if |sorted| < PageLimit && isHistory {
          hasMore := false;
        }
        messages := MergeBatch(messages, sorted, isHistory);
        pending := Promote(pending, sorted);
      }
      if isHistory {
        isLoadingHistory := false;
      }
    }

    /** The start of a send: the optimistic record goes last and the view is made to follow the bottom. */
    method BeginSend(text: string, tempId: int, now: string)
      modifies this`pending, this`autoScroll, this`isSending
      ensures pending == old(pending) + [PendingMessage(text, now, tempId)]
      ensures autoScroll && isSending
    {
      pending := pending + [PendingMessage(text, now, tempId)];
      autoScroll := true;
      isSending := true;
    }

    /**
     * The end of a send. A response of any status leaves the optimistic record in place and asks
     * for a poll; a throw removes the records carrying `tempId` and alerts the user.
     */
    method FinishSend(tempId: int, outcome: SendOutcome) returns (effect: SendEffect)
      modifies this`pending, this`isSending
      ensures outcome.Responded? ==> effect == PollNow && pending == old(pending)
      ensures outcome.SendFailed? ==> effect == AlertFailure && pending == Rollback(old(pending), tempId)
      ensures !isSending
    {
      if outcome.Responded? {
        effect := PollNow;
      } else {
        effect := AlertFailure;
        pending := Rollback(pending, tempId);
      }
      isSending := false;
    }

    /**
     * The layout effect after a render. When a recorded height is due and no history load is
     * running, the viewport is moved down by the height the prepended history added, returned
     * as the new `scrollTop`, and the recorded height is reset.
     */
    method AfterRender(viewportMounted: bool, scrollHeight: int) returns (newScrollTop: Option<int>)
      modifies this`prevScrollHeight
      ensures newScrollTop.Some? <==> viewportMounted && old(prevScrollHeight) > 0 && !isLoadingHistory
      ensures newScrollTop.Some? ==> newScrollTop.value == scrollHeight - old(prevScrollHeight) && prevScrollHeight == 0
      ensures newScrollTop.None? ==> prevScrollHeight == old(prevScrollHeight)
    {
      newScrollTop := None;
      if viewportMounted && prevScrollHeight > 0 && !isLoadingHistory {
        newScrollTop := Some(scrollHeight - prevScrollHeight);
        prevScrollHeight := 0;
      }
    }

    /** The effect after `messages` or `pending` change: scroll to the bottom exactly when following it. */
    method ScrollsToBottom() returns (follow: bool)
      ensures follow == autoScroll
    {
      follow := autoScroll;
    }
  }

  // ----- clients: what callers can derive from the contracts alone ------------------------

  /** A send confirmed by the next poll: the optimistic record is replaced, not duplicated. */
  method SendThenConfirm(timeOf: string -> int) returns (rendered: seq<RenderItem>)
    ensures rendered == [Confirmed(Message("hi", "2024-01-01T00:00:00Z", None))]
  {
    var feed := new ChatFeed(timeOf);
    feed.BeginSend("hi", 1, "2024-01-01T00:00:00.000Z");
    var sent := PendingMessage("hi", "2024-01-01T00:00:00.000Z", 1);
    assert feed.MessagesToRender() == [Pending(sent)];
    var effect := feed.FinishSend(1, Responded);
    assert effect == PollNow;
    var confirmed := Message("hi", "2024-01-01T00:00:00Z", None);
    assert [confirmed][1..] == [];
    assert SortBatch([confirmed], timeOf) == [confirmed];
    feed.CompleteFetch(false, Batch([confirmed]));
    assert HasContent([confirmed], "hi");
    assert NewUnique([], [confirmed]) == [confirmed];
    rendered := feed.MessagesToRender();
  }

  /** A poll never pulls down a view the user has scrolled away from the bottom. */
  method PollDoesNotYank(feed: ChatFeed, scrollTop: int, scrollHeight: int, clientHeight: int, outcome: FetchOutcome)
    returns (follow: bool)
    requires scrollHeight - scrollTop - clientHeight >= BottomThreshold
    modifies feed
    ensures !follow
  {
    var offset := feed.HandleScroll(scrollTop, scrollHeight, clientHeight);
    feed.CompleteFetch(false, outcome);
    follow := feed.ScrollsToBottom();
  }

  /** After a send the view follows the bottom, wherever the user had scrolled. */
  method SendFollows(feed: ChatFeed, text: string, tempId: int, now: string) returns (follow: bool)
    modifies feed
    ensures follow
  {
    feed.BeginSend(text, tempId, now);
    follow := feed.ScrollsToBottom();
  }

  /** A send whose request throws leaves the optimistic list as it was before the send. */
  method SendThenFail(feed: ChatFeed, text: string, tempId: int, now: string)
    requires forall p :: p in feed.pending ==> p.id != tempId
    modifies feed
    ensures feed.pending == old(feed.pending)
    ensures feed.messages == old(feed.messages)
  {
    feed.BeginSend(text, tempId, now);
    var effect := feed.FinishSend(tempId, SendFailed);
    RollbackUndoesSend(old(feed.pending), PendingMessage(text, now, tempId));
  }

  /** After a short history page no scroll starts another history load. */
  method ShortPageExhausts(feed: ChatFeed, older: seq<Message>, scrollHeight: int, clientHeight: int)
    returns (offset: Option<nat>)
    requires |older| < PageLimit
    modifies feed
    ensures !feed.hasMore && offset == None
  {
    feed.CompleteFetch(true, Batch(older));
    offset := feed.HandleScroll(0, scrollHeight, clientHeight);
  }

  /**
   * A history load triggered at the top and completed with a batch keeps the old first message
   * in view: the viewport moves down by exactly the height added above it.
   */
  method HistoryLoadAnchors(feed: ChatFeed, heightBefore: int, clientHeight: int, older: seq<Message>, heightAfter: int)
    returns (newScrollTop: Option<int>)
    requires feed.messages != [] && feed.hasMore && !feed.isLoadingHistory
    requires heightBefore > 0
    modifies feed
    ensures newScrollTop.Some? && newScrollTop.value == heightAfter - heightBefore
    ensures feed.prevScrollHeight == 0 && !feed.isLoadingHistory
  {
    var offset := feed.HandleScroll(0, heightBefore, clientHeight);
    feed.CompleteFetch(true, Batch(older));
    newScrollTop := feed.AfterRender(true, heightAfter);
  }
}
