/**
 * The topic-message panel: a send form guarded on its two inputs, a
 * backfill fetch that collects the topic's history for a fixed window and
 * then replaces the log, a live subscription whose every message is
 * appended and the log re-sorted, and the effect that fetches
 * automatically when a topic and a client are present.
 *
 * Mirror-node deliveries and timer expiries are scheduled from outside:
 * each is a method the environment calls. Open backfill collections are a
 * queue, oldest first, because every collection window has the same length.
 */
module MessageManagerComponent {
  import opened Wrappers
  import opened HederaSdk
  import opened HederaTypes
  import opened TopicLog
  import opened HederaAccountHook

  /** The toast the send handler shows. */
  datatype Notice =
    | MissingInformation
    | MessageSent(topicId: string)
    | SendFailed(description: string)
    | SendError(description: string)

  datatype ManagerView = ManagerView(
    topicId: string,
    message: string,
    messages: seq<TopicMessage>,
    isLoading: bool,
    isLoadingMessages: bool,
    isSubscribed: bool,
    openFetches: seq<seq<TopicMessage>>,
    liveTopics: seq<string>,
    pendingRefetches: nat)

  /** The guard shared by the fetch and the subscription: a topic id and a client. */
  predicate CanQuery(topicId: string, hasClient: bool) {
    topicId != "" && hasClient
  }

  /** The effect's condition: fetch when there is a topic and a client and no live subscription. */
  predicate ShouldAutoFetch(topicId: string, hasClient: bool, isSubscribed: bool) {
    CanQuery(topicId, hasClient) && !isSubscribed
  }

  /**
   * Starting a fetch. Without a topic or a client nothing happens. A query
   * that throws on subscribing clears the loading flag again; otherwise a
   * new, empty collection opens and the log is left for the window to set.
   */
  function AfterFetch(v: ManagerView, hasClient: bool, queryThrows: bool): (w: ManagerView)
    ensures !CanQuery(v.topicId, hasClient) ==> w == v
    ensures w.messages == v.messages && w.topicId == v.topicId && w.isSubscribed == v.isSubscribed
    ensures CanQuery(v.topicId, hasClient) ==> (w.isLoadingMessages <==> !queryThrows)
    ensures CanQuery(v.topicId, hasClient) && !queryThrows ==> w.openFetches == v.openFetches + [[]]
    ensures queryThrows ==> w.openFetches == v.openFetches
    ensures w.message == v.message && w.isLoading == v.isLoading
    ensures w.liveTopics == v.liveTopics && w.pendingRefetches == v.pendingRefetches
  {
    if !CanQuery(v.topicId, hasClient) then v
    else if queryThrows then v.(isLoadingMessages := false)
    else v.(isLoadingMessages := true, openFetches := v.openFetches + [[]])
  }

  /**
   * The toast after the send guard passed. It announces success exactly
   * when there was a session and the submission's receipt said "SUCCESS".
   */
  function NoticeFor(hasSession: bool, topicId: string, sub: Submission): (n: Notice)
    ensures n.MessageSent? <==> hasSession && sub.Executed? && sub.receipt.status == SuccessStatus
    ensures n.MessageSent? ==> n.topicId == topicId
    ensures !hasSession ==> n == SendError(NotInitialized)
    ensures hasSession && !n.MessageSent? ==> n == SendFailed(Classify(SendTopicMessageOp, sub).message)
  {
    if !hasSession then SendError(NotInitialized)
    else
      var r := Classify(SendTopicMessageOp, sub);
      if r.success then MessageSent(topicId) else SendFailed(r.message)
  }

  /** A failed send shows the result's message: the fixed failure text or what the SDK threw. */
  lemma SendFailureDescribesCause(topicId: string, sub: Submission)
    requires !NoticeFor(true, topicId, sub).MessageSent?
    ensures var n := NoticeFor(true, topicId, sub);
      (sub.Executed? ==> n.description == "Message sending failed") &&
      (sub.Failed? ==> n.description == sub.thrown.MessageOr("Failed to send message"))
  {
  }

  class MessageManager {
    /** This component's own instance of the wallet-session hook. */
    const hook: WalletSession

    var topicId: string
    var message: string
    var messages: seq<TopicMessage>
    var isLoading: bool
    var isLoadingMessages: bool
    var isSubscribed: bool
    /** The buffers of backfill collections whose window has not yet elapsed, oldest first. */
    var openFetches: seq<seq<TopicMessage>>
    /** The topics of live subscriptions that were opened; none is ever cancelled. */
    var liveTopics: seq<string>
    /** Re-fetches scheduled after a successful send whose delay has not yet elapsed. */
    var pendingRefetches: nat

    constructor (hook: WalletSession)
      ensures this.hook == hook
      ensures View() == ManagerView("", "", [], false, false, false, [], [], 0)
    {
      this.hook := hook;
      topicId, message, messages := "", "", [];
      isLoading, isLoadingMessages, isSubscribed := false, false, false;
      openFetches, liveTopics, pendingRefetches := [], [], 0;
    }

    function View(): ManagerView
      reads this
    {
      ManagerView(topicId, message, messages, isLoading, isLoadingMessages, isSubscribed,
                  openFetches, liveTopics, pendingRefetches)
    }

    function HasClient(): bool
      reads this, hook
    {
      hook.client.Some?
    }

    /** `queryThrows`: whether building or subscribing the history query throws. */
    method FetchMessages(queryThrows: bool)
      modifies this
      ensures View() == AfterFetch(old(View()), HasClient(), queryThrows)
    {
      if topicId == "" || hook.client.None? {
        return;
      }
      isLoadingMessages := true;
      if queryThrows {
        isLoadingMessages := false;
        return;
      }
      openFetches := openFetches + [[]];
    }

    /** The mirror node delivers `m` to the open collection `fetch`. */
    method DeliverBackfillMessage(fetch: nat, m: TopicMessage)
      requires fetch < |openFetches|
      modifies this
      ensures View() == old(View()).(openFetches := old(openFetches)[fetch := old(openFetches)[fetch] + [m]])
    {
      openFetches := openFetches[fetch := openFetches[fetch] + [m]];
    }

    /**
     * The oldest collection's window elapses: the log becomes its messages
     * sorted by sequence number, whatever the log held before.
     */
    method CollectionWindowElapsed()
      requires |openFetches| > 0
      modifies this
      ensures View() == old(View()).(messages := SortBySequenceNumber(old(openFetches)[0]),
                                     isLoadingMessages := false,
                                     openFetches := old(openFetches)[1..])
      ensures Sorted(messages) && multiset(messages) == multiset(old(openFetches)[0])
      ensures SameSubsequences(messages, old(openFetches)[0])
    {
      var collected := openFetches[0];
      SortIsSorted(collected);
      SortIsPermutation(collected);
      forall n ensures WithSequenceNumber(SortBySequenceNumber(collected), n) == WithSequenceNumber(collected, n) {
        SortIsStable(collected, n);
      }
      messages := SortBySequenceNumber(collected);
      isLoadingMessages := false;
      openFetches := openFetches[1..];
    }

    /**
     * One whole backfill while it is the only open collection: `arrivals`
     * are delivered in order and then the window elapses.
     */
    method Backfill(arrivals: seq<TopicMessage>)
      requires |openFetches| == 1
      modifies this
      ensures View() == old(View()).(messages := SortBySequenceNumber(old(openFetches)[0] + arrivals),
                                     isLoadingMessages := false,
                                     openFetches := [])
      ensures Sorted(messages) && multiset(messages) == multiset(old(openFetches)[0] + arrivals)
      ensures SameSubsequences(messages, old(openFetches)[0] + arrivals)
    {
      var i := 0;
      assert old(openFetches)[0] + arrivals[..0] == old(openFetches)[0];
      assert openFetches == [openFetches[0]];
      while i < |arrivals|
        invariant 0 <= i <= |arrivals|
        invariant View() == old(View()).(openFetches := [old(openFetches)[0] + arrivals[..i]])
      {
        assert arrivals[..i + 1] == arrivals[..i] + [arrivals[i]];
        ghost var before := openFetches[0];
        DeliverBackfillMessage(0, arrivals[i]);
        assert openFetches == [before + [arrivals[i]]];
        assert before + [arrivals[i]] == old(openFetches)[0] + arrivals[..i + 1];
        i := i + 1;
      }
      assert arrivals[..i] == arrivals;
      CollectionWindowElapsed();
    }

    /**
     * Opening the live subscription: the flag is set first and cleared again
     * when subscribing throws; nothing guards against a second subscription.
     */
    method SubscribeToTopic(subscribeThrows: bool)
      modifies this
      ensures !CanQuery(old(topicId), HasClient()) ==> View() == old(View())
      ensures CanQuery(old(topicId), HasClient()) ==>
        View() == old(View()).(isSubscribed := !subscribeThrows,
                               liveTopics := if subscribeThrows then old(liveTopics) else old(liveTopics) + [old(topicId)])
    {
      if topicId == "" || hook.client.None? {
        return;
      }
      isSubscribed := true;
      if subscribeThrows {
        isSubscribed := false;
        return;
      }
      liveTopics := liveTopics + [topicId];
    }

    /**
     * A live subscription delivers `m`: it is added to the log, which is
     * re-sorted; a sequence number already present is not merged.
     */
    method DeliverLiveMessage(m: TopicMessage)
      requires |liveTopics| > 0
      modifies this
      ensures View() == old(View()).(messages := LiveUpdate(old(messages), m))
      ensures multiset(messages) == multiset(old(messages)) + multiset{m}
      ensures Sorted(messages)
    {
      messages := LiveUpdate(messages, m);
    }

    /** `network`: what the submission of the message transaction yields. */
    method HandleSendMessage(network: Transaction -> Submission) returns (notice: Notice)
      modifies this
      ensures old(topicId) == "" || old(message) == "" ==> notice == MissingInformation && View() == old(View())
      ensures old(topicId) != "" && old(message) != "" ==>
        notice == NoticeFor(hook.HasSession(), old(topicId),
                            network(SendTopicMessageTransaction(old(topicId), old(message)))) &&
        View() == old(View()).(isLoading := false,
                               message := if notice.MessageSent? then "" else old(message),
                               pendingRefetches := old(pendingRefetches) + if notice.MessageSent? then 1 else 0)
    {
      if topicId == "" || message == "" {
        return MissingInformation;
      }
      isLoading := true;
      var result := hook.SendTopicMessage(topicId, message, network);
      match result {
        case Threw(description) =>
          notice := SendError(description);
        case Returned(sent) =>
          if sent.result.success {
            notice := MessageSent(topicId);
            message := "";
            pendingRefetches := pendingRefetches + 1;
          } else {
            notice := SendFailed(sent.result.message);
          }
      }
      isLoading := false;
    }

    /** The delay after a successful send elapses and the panel fetches again. */
    method RefetchDelayElapsed(queryThrows: bool)
      requires pendingRefetches > 0
      modifies this
      ensures View() == AfterFetch(old(View()).(pendingRefetches := old(pendingRefetches) - 1), HasClient(), queryThrows)
    {
      pendingRefetches := pendingRefetches - 1;
      FetchMessages(queryThrows);
    }

    /** The effect on the topic id and the client runs again. */
    method DependenciesChanged(queryThrows: bool)
      modifies this
      ensures ShouldAutoFetch(old(topicId), HasClient(), old(isSubscribed)) ==>
        View() == AfterFetch(old(View()), HasClient(), queryThrows)
      ensures !ShouldAutoFetch(old(topicId), HasClient(), old(isSubscribed)) ==> View() == old(View())
    {
      if topicId != "" && hook.client.Some? && !isSubscribed {
        FetchMessages(queryThrows);
      }
    }

    /** The topic-id input changes; a changed value re-runs the effect. */
    method EditTopicId(t: string, queryThrows: bool)
      modifies this
      ensures var edited := old(View()).(topicId := t);
        View() == if t != old(topicId) && ShouldAutoFetch(t, HasClient(), old(isSubscribed))
                  then AfterFetch(edited, HasClient(), queryThrows) else edited
    {
      var changed := t != topicId;
      topicId := t;
      if changed {
        DependenciesChanged(queryThrows);
      }
    }

    method EditMessage(text: string)
      modifies this
      ensures View() == old(View()).(message := text)
    {
      message := text;
    }
  }

  /** A live message after a completed fetch leaves a sorted permutation of the collected messages and the new one. */
  lemma BackfillThenLiveStaysSorted(collected: seq<TopicMessage>, m: TopicMessage)
    ensures Sorted(LiveUpdate(SortBySequenceNumber(collected), m))
    ensures multiset(LiveUpdate(SortBySequenceNumber(collected), m)) == multiset(collected) + multiset{m}
  {
    SortIsPermutation(collected);
  }
}
