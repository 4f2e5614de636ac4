/** `useMessages`: the "message just sent" flag and auto-scroll, driven by
    the transcript status observed on each render. */
module UseMessages {
  import opened MessageList

  /** The hook's state: the previous status, the flag, whether auto-scroll
      is on, and how many scroll-to-bottom requests were made. */
  datatype MessagesView = MessagesView(prevStatus: ChatStatus, hasSentMessage: bool, autoScroll: bool, scrollRequests: nat)

  /** One run of the status effect. Updates fire on a change of status
      only: entering `Submitted` sets the flag, turns auto-scroll on and
      scrolls; entering `Ready` clears the flag. */
  function Observed(v: MessagesView, status: ChatStatus): (r: MessagesView)
    ensures r.prevStatus == status
    ensures status == v.prevStatus ==> r == v
    ensures status == Submitted && v.prevStatus != Submitted ==>
              r.hasSentMessage && r.autoScroll && r.scrollRequests == v.scrollRequests + 1
    ensures status == Ready && v.prevStatus != Ready ==> !r.hasSentMessage
    ensures status != Submitted && status != Ready ==> r == v.(prevStatus := status)
    ensures status != Submitted || v.prevStatus == Submitted ==>
              r.autoScroll == v.autoScroll && r.scrollRequests == v.scrollRequests
  {
    var v1 := if status == Submitted && v.prevStatus != Submitted
              then v.(hasSentMessage := true, autoScroll := true, scrollRequests := v.scrollRequests + 1)
              else v;
    var v2 := if status == Ready && v.prevStatus != Ready then v1.(hasSentMessage := false) else v1;
    v2.(prevStatus := status)
  }

  /** Observing the same status twice is observing it once. */
  lemma ObserveTwice(v: MessagesView, status: ChatStatus)
    ensures Observed(Observed(v, status), status) == Observed(v, status)
  {
  }

  /** The flag reports the last entry into `Submitted` or `Ready`: once
      set by a send it survives any number of `Streaming` or `Error`
      observations, and only `Ready` clears it. */
  lemma {:induction false} FlagSurvivesUntilReady(v: MessagesView, statuses: seq<ChatStatus>)
    requires v.hasSentMessage
    requires forall i :: 0 <= i < |statuses| ==> statuses[i] != Ready
    ensures ObservedAll(v, statuses).hasSentMessage
    decreases |statuses|
  {
    if statuses != [] {
      FlagSurvivesUntilReady(Observed(v, statuses[0]), statuses[1..]);
    }
  }

  /** A run of observations, one per render. */
  function ObservedAll(v: MessagesView, statuses: seq<ChatStatus>): (r: MessagesView)
    ensures statuses != [] ==> r.prevStatus == statuses[|statuses| - 1]
    ensures statuses == [] ==> r == v
    decreases |statuses|
  {
    if statuses == [] then v else ObservedAll(Observed(v, statuses[0]), statuses[1..])
  }

  /** The hook's refs and state for one mounted list. */
  class Messages {
    var prevStatus: ChatStatus
    var hasSentMessage: bool
    var autoScroll: bool
    var scrollRequests: nat

    function View(): MessagesView
      reads this
    {
      MessagesView(prevStatus, hasSentMessage, autoScroll, scrollRequests)
    }

    /** The first render remembers the initial status and has sent
        nothing; the scroll helper starts with its own auto-scroll value. */
    constructor (status: ChatStatus, autoScroll: bool)
      ensures View() == MessagesView(status, false, autoScroll, 0)
    {
      prevStatus := status;
      hasSentMessage := false;
      this.autoScroll := autoScroll;
      scrollRequests := 0;
    }

    /** The status effect. */
    method Observe(status: ChatStatus)
      modifies this
      ensures View() == Observed(old(View()), status)
    {
      var previous := prevStatus;
      if status == Submitted && previous != Submitted {
        hasSentMessage := true;
        autoScroll := true;
        scrollRequests := scrollRequests + 1;
      }
      if status == Ready && previous != Ready {
        hasSentMessage := false;
      }
      prevStatus := status;
    }
  }
}
