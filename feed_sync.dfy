/** The frontend's feed synchronizer: the `isLoading` guard of
    `loadMessages`, the submit handler, `addMessage` and the auto-refresh
    tick. Every await-point splits an async function in two: the part that
    runs up to the `fetch` and issues the request, and the continuation that
    runs when the response arrives, which is a separate event. Network
    results are inputs (Response). */
module FeedSync {
  import opened Text
  import opened Messages
  import opened FeedView

  /** A request the page issues. */
  datatype Request = GetMessages | PostMessage(text: string)

  /** How a fetch settles, as the code after its await sees it: an ok
      response whose JSON body was read, a response whose `ok` is false, or a
      rejection (network failure, unreadable body) with its error message. */
  datatype Response<T> = Ok(body: T) | NotOk(status: int) | Failed(reason: string)

  const FetchFailed := "Failed to fetch messages"
  const AddFailed := "Failed to add message"
  const AddErrorPrefix := "Error adding message: "

  /** The page state the synchronizer touches: the `isLoading` flag, the
      message list area, the input box, the requests issued so far, the
      alerts shown, the number of POSTs still awaited, and whether the
      `addMessage` call that started the current load is waiting for it. */
  datatype Sync = Sync(
    loading: bool,
    view: View,
    input: string,
    sent: seq<Request>,
    alerts: seq<string>,
    posting: nat,
    submitAwaitsLoad: bool)

  /** The page when the script starts. */
  const Init := Sync(false, Unrendered, "", [], [], 0, false)

  /** The events that drive the page, one per await-point resumption or user
      action. Refresh is a click on the refresh button or the initial load. */
  datatype Event =
    | Refresh
    | Tick
    | LoadSettled(messagesResponse: Response<seq<Message>>)
    | Edit(value: string)
    | Submit
    | PostSettled(postResponse: Response<Message>)

  /** An event can happen: a response arrives only for a request awaited. */
  predicate Enabled(s: Sync, e: Event)
  {
    match e
    case LoadSettled(_) => s.loading
    case PostSettled(_) => s.posting > 0
    case _ => true
  }

  /** `loadMessages` up to its await: nothing if a load is in progress,
      otherwise raise the flag, show the loading state and issue the GET. */
  function StartLoad(s: Sync): Sync
  {
    if s.loading then s
    else s.(loading := true, view := Loading, sent := s.sent + [GetMessages])
  }

  /** The view the rest of `loadMessages` leaves: the rendered list, or the
      error state with the error's message. */
  function LoadedView(response: Response<seq<Message>>): View
  {
    match response
    case Ok(messages) => Display(messages)
    case NotOk(_) => Error(FetchFailed)
    case Failed(reason) => Error(reason)
  }

  /** The continuation of `loadMessages` (try, catch, finally), then the
      continuation of the `addMessage` that awaited it, if any: it clears
      the input. */
  function FinishLoad(s: Sync, response: Response<seq<Message>>): Sync
  {
    s.(loading := false, view := LoadedView(response),
       input := if s.submitAwaitsLoad then "" else s.input,
       submitAwaitsLoad := false)
  }

  /** The submit handler: trim the input; if nothing is left, do nothing;
      otherwise `addMessage` with the trimmed text issues the POST. */
  function SubmitInput(s: Sync): Sync
  {
    var text := Strip(s.input, JsWhitespace);
    if text == [] then s
    else s.(sent := s.sent + [PostMessage(text)], posting := s.posting + 1)
  }

  /** The continuation of `addMessage` when its POST settles: on success,
      `loadMessages`; if that was dropped because a load is in progress the
      input is cleared at once, otherwise once the load settles. On failure,
      an alert and nothing else. */
  function FinishPost(s: Sync, response: Response<Message>): Sync
    requires s.posting > 0
  {
    var s' := s.(posting := s.posting - 1);
    match response
    case Ok(_) =>
      if s.loading then s'.(input := "")
      else StartLoad(s').(submitAwaitsLoad := true)
    case NotOk(_) => s'.(alerts := s.alerts + [AddErrorPrefix + AddFailed])
    case Failed(reason) => s'.(alerts := s.alerts + [AddErrorPrefix + reason])
  }

  /** One event. The tick calls `loadMessages` only when it is idle. */
  function Step(s: Sync, e: Event): (r: Sync)
    requires Enabled(s, e)
    ensures |s.sent| <= |r.sent| <= |s.sent| + 1 && r.sent[..|s.sent|] == s.sent
    ensures (e == Refresh || e == Tick) && s.loading ==> r == s
    ensures e.LoadSettled? ==> !r.loading
  {
    match e
    case Refresh => StartLoad(s)
    case Tick => if !s.loading then StartLoad(s) else s
    case LoadSettled(response) => FinishLoad(s, response)
    case Edit(value) => s.(input := value)
    case Submit => SubmitInput(s)
    case PostSettled(response) => FinishPost(s, response)
  }

  /** Every event of the trace can happen when it comes. */
  predicate Feasible(s: Sync, events: seq<Event>)
    decreases |events|
  {
    events == [] || (Enabled(s, events[0]) && Feasible(Step(s, events[0]), events[1..]))
  }

  /** The page after a trace of events. */
  function Run(s: Sync, events: seq<Event>): Sync
    requires Feasible(s, events)
    decreases |events|
  {
    if events == [] then s else Run(Step(s, events[0]), events[1..])
  }

  // ---------------------------------------------------------------------
  // The guard: busy means dropped.

  /** While a load is in progress, any number of refresh clicks and ticks
      issue no request and change nothing: they are dropped, not queued. */
  lemma {:induction false} CoalescedWhileBusy(s: Sync, events: seq<Event>)
    requires s.loading
    requires forall i :: 0 <= i < |events| ==> events[i] == Refresh || events[i] == Tick
    ensures Feasible(s, events) && Run(s, events) == s
    decreases |events|
  {
    if events != [] {
      assert Step(s, events[0]) == s;
      CoalescedWhileBusy(s, events[1..]);
    }
  }

  /** When the load settles, successfully or not, the flag is down again and
      no request goes out. The list shows an error exactly when the load
      failed: "Failed to fetch messages" for a non-ok status, the error's own
      message otherwise; a successful load shows the retrieved list. */
  lemma SettleReleasesFlag(s: Sync, response: Response<seq<Message>>)
    requires s.loading
    ensures var t := Step(s, LoadSettled(response));
      !t.loading && t.sent == s.sent && t.posting == s.posting &&
      (t.view.Error? <==> !response.Ok?) &&
      (response.NotOk? ==> t.view == Error(FetchFailed)) &&
      (response.Failed? ==> t.view == Error(response.reason)) &&
      (response.Ok? ==> t.view == Display(response.body))
  {
  }

  /** The number of GET requests in a request log. */
  function Gets(sent: seq<Request>): nat
  {
    if sent == [] then 0
    else Gets(sent[..|sent| - 1]) + (if sent[|sent| - 1] == GetMessages then 1 else 0)
  }

  /** The number of LoadSettled events in a trace. */
  function Settles(events: seq<Event>): nat
  {
    if events == [] then 0
    else (if events[0].LoadSettled? then 1 else 0) + Settles(events[1..])
  }

  function Flag(b: bool): nat { if b then 1 else 0 }

  lemma GetsAppend(sent: seq<Request>, r: Request)
    ensures Gets(sent + [r]) == Gets(sent) + (if r == GetMessages then 1 else 0)
  {
    assert (sent + [r])[..|sent|] == sent;
  }

  /** One event issues a GET exactly when it raises the flag, and delivers a
      response exactly when it lowers it. */
  lemma StepCountsLoads(s: Sync, e: Event)
    requires Enabled(s, e)
    ensures Gets(Step(s, e).sent) + Flag(s.loading)
      == Gets(s.sent) + (if e.LoadSettled? then 1 else 0) + Flag(Step(s, e).loading)
  {
    match e
    case Refresh => GetsAppend(s.sent, GetMessages);
    case Tick => GetsAppend(s.sent, GetMessages);
    case Submit =>
      var text := Strip(s.input, JsWhitespace);
      GetsAppend(s.sent, PostMessage(text));
    case PostSettled(_) => GetsAppend(s.sent, GetMessages);
    case _ =>
  }

  /** At most one retrieval is ever in flight: from the initial page, the
      GETs issued are the responses delivered plus one if a load is in
      progress. */
  lemma {:induction false} RunCountsLoads(s: Sync, events: seq<Event>)
    requires Feasible(s, events)
    ensures Gets(Run(s, events).sent) + Flag(s.loading)
      == Gets(s.sent) + Settles(events) + Flag(Run(s, events).loading)
    decreases |events|
  {
    if events != [] {
      StepCountsLoads(s, events[0]);
      RunCountsLoads(Step(s, events[0]), events[1..]);
    }
  }

  lemma AtMostOneLoadInFlight(events: seq<Event>)
    requires Feasible(Init, events)
    ensures Gets(Run(Init, events).sent) == Settles(events) + Flag(Run(Init, events).loading)
  {
    RunCountsLoads(Init, events);
  }

  // ---------------------------------------------------------------------
  // Submitting.

  /** The submit handler does nothing when the trimmed input is empty. */
  lemma BlankSubmitIsNoOp(s: Sync)
    requires IsBlank(s.input, JsWhitespace)
    ensures Step(s, Submit) == s
  {
    StripEmptyIffBlank(s.input, JsWhitespace);
  }

  /** Otherwise it posts the trimmed text, and nothing else changes. */
  lemma SubmitPostsTrimmed(s: Sync)
    requires !IsBlank(s.input, JsWhitespace)
    ensures Step(s, Submit) ==
      s.(sent := s.sent + [PostMessage(Strip(s.input, JsWhitespace))], posting := s.posting + 1)
  {
    assert Strip(s.input, JsWhitespace) != [] by {
      StripEmptyIffBlank(s.input, JsWhitespace);
    }
    assert Step(s, Submit) == SubmitInput(s);
  }

  /** A failed POST alerts once with the error's message, leaves the input
      and the list as they are and issues no refresh. */
  lemma FailedPostKeepsInput(s: Sync, response: Response<Message>)
    requires s.posting > 0 && !response.Ok?
    ensures var t := Step(s, PostSettled(response));
      t.input == s.input && t.view == s.view && t.sent == s.sent && t.loading == s.loading &&
      t.alerts == s.alerts + [AddErrorPrefix + (if response.NotOk? then AddFailed else response.reason)]
  {
  }

  /** A successful POST while a load is in progress: the refresh is dropped,
      yet the input is cleared straight away. */
  lemma CoalescedPostClearsInput(s: Sync, record: Message)
    requires s.posting > 0 && s.loading
    ensures var t := Step(s, PostSettled(Ok(record)));
      t.input == "" && t.sent == s.sent && t.loading && t.view == s.view
  {
  }

  /** A successful POST on an idle page refreshes first: the GET goes out
      and the input is still there, with `addMessage` waiting for the load.
      Only when that load settles, whatever its outcome, is the input
      cleared, since `loadMessages` catches its own errors. */
  lemma PostRefreshesBeforeClearing(s: Sync, record: Message, response: Response<seq<Message>>)
    requires !s.loading && s.posting > 0
    ensures var t := Step(s, PostSettled(Ok(record)));
      t.input == s.input && t.loading && t.submitAwaitsLoad && t.sent == s.sent + [GetMessages] &&
      Step(t, LoadSettled(response)).input == ""
  {
  }

  /** Submitting "hello"-like input on an idle page, with both requests
      succeeding: exactly one POST carrying the trimmed text, then exactly
      one GET; afterwards the list shows the new feed, the input is empty and
      the flag is down. */
  lemma SubmitRoundTrip(s: Sync, record: Message, messages: seq<Message>)
    requires !s.loading && !IsBlank(s.input, JsWhitespace)
    ensures var events := [Submit, PostSettled(Ok(record)), LoadSettled(Ok(messages))];
      Feasible(s, events) &&
      var t := Run(s, events);
      t.sent == s.sent + [PostMessage(Strip(s.input, JsWhitespace)), GetMessages] &&
      t.input == "" && t.view == Display(messages) && !t.loading && t.posting == s.posting &&
      t.alerts == s.alerts
  {
    SubmitPostsTrimmed(s);
    var events := [Submit, PostSettled(Ok(record)), LoadSettled(Ok(messages))];
    var s1 := Step(s, Submit);
    var s2 := Step(s1, PostSettled(Ok(record)));
    var s3 := Step(s2, LoadSettled(Ok(messages)));
    assert events[1..] == [PostSettled(Ok(record)), LoadSettled(Ok(messages))];
    assert events[1..][1..] == [LoadSettled(Ok(messages))];
    assert Feasible(s3, []);
    assert Feasible(s2, [LoadSettled(Ok(messages))]) && Run(s2, [LoadSettled(Ok(messages))]) == s3;
    assert Feasible(s1, events[1..]) && Run(s1, events[1..]) == s3;
  }

  // ---------------------------------------------------------------------
  // Invariant of the page state.

  /** Text as trim() leaves it: non-empty, with no whitespace at either end. */
  predicate Trimmed(text: string)
  {
    text != [] && text[0] !in JsWhitespace && text[|text| - 1] !in JsWhitespace
  }

  /** Every POST carries trimmed text, and a waiting `addMessage` implies
      the load it waits for is in progress. */
  predicate Inv(s: Sync)
  {
    (s.submitAwaitsLoad ==> s.loading) &&
    forall i :: 0 <= i < |s.sent| && s.sent[i].PostMessage? ==> Trimmed(s.sent[i].text)
  }

  lemma StepPreservesInv(s: Sync, e: Event)
    requires Inv(s) && Enabled(s, e)
    ensures Inv(Step(s, e))
  {
    match e
    case Submit =>
      var i, j := StripSlices(s.input, JsWhitespace);
    case _ =>
  }

  /** Every page state reachable from the start keeps the invariant. */
  lemma ReachableInv(events: seq<Event>)
    requires Feasible(Init, events)
    ensures Inv(Run(Init, events))
  {
    RunPreservesInv(Init, events);
  }

  lemma {:induction false} RunPreservesInv(s: Sync, events: seq<Event>)
    requires Inv(s) && Feasible(s, events)
    ensures Inv(Run(s, events))
    decreases |events|
  {
    if events != [] {
      StepPreservesInv(s, events[0]);
      RunPreservesInv(Step(s, events[0]), events[1..]);
    }
  }

  /** The client's blank test and the server's differ: INFORMATION SEPARATOR
      ONE (U+001F) survives trim() and is posted, yet str.strip() removes it
      and the API answers 400; ZERO WIDTH NO-BREAK SPACE (U+FEFF) is the other
      way round. */
  lemma ClientServerBlankMismatch()
    ensures !IsBlank("\U{1F}", JsWhitespace) && IsBlank("\U{1F}", PythonWhitespace)
    ensures IsBlank("\U{FEFF}", JsWhitespace) && !IsBlank("\U{FEFF}", PythonWhitespace)
  {
    assert "\U{1F}"[0] == '\U{1F}';
    assert "\U{FEFF}"[0] == '\U{FEFF}';
  }

  // ---------------------------------------------------------------------
  // The page itself: module-level state updated step by step.

  class Synchronizer {
    var isLoading: bool
    var view: View
    var input: string
    var sent: seq<Request>
    var alerts: seq<string>
    var posting: nat
    var submitAwaitsLoad: bool

    function State(): Sync
      reads this
    {
      Sync(isLoading, view, input, sent, alerts, posting, submitAwaitsLoad)
    }

    constructor ()
      ensures State() == Init
    {
      isLoading, view, input := false, Unrendered, "";
      sent, alerts, posting, submitAwaitsLoad := [], [], 0, false;
    }

    /** `loadMessages` up to its await; `started` says whether a GET went
        out. */
    method LoadMessages() returns (started: bool)
      modifies this
      ensures started == !old(isLoading)
      ensures State() == StartLoad(old(State()))
    {
      if isLoading {
        return false;
      }
      isLoading := true;
      view := Loading;
      sent := sent + [GetMessages];
      started := true;
    }

    /** `displayMessages`: the empty state, or the entries newest first. */
    method DisplayMessages(messages: seq<Message>)
      modifies this
      ensures State() == old(State()).(view := Display(messages))
    {
      if |messages| == 0 {
        view := Empty;
        return;
      }
      var sorted := ReversedCopy(messages);
      view := Feed(sorted);
    }

    /** The retrieval settles: the rest of `loadMessages`, then the waiting
        `addMessage`, if any, clears the input. */
    method LoadSettled(response: Response<seq<Message>>)
      requires isLoading
      modifies this
      ensures !isLoading
      ensures State() == Step(old(State()), Event.LoadSettled(response))
    {
      match response {
        case Ok(messages) => DisplayMessages(messages);
        case NotOk(_) => view := Error(FetchFailed);
        case Failed(reason) => view := Error(reason);
      }
      isLoading := false;
      if submitAwaitsLoad {
        input := "";
        submitAwaitsLoad := false;
      }
    }

    /** `addMessage` up to its await: the POST goes out. */
    method AddMessage(text: string)
      modifies this
      ensures State() == old(State()).(sent := old(sent) + [PostMessage(text)], posting := old(posting) + 1)
    {
      sent := sent + [PostMessage(text)];
      posting := posting + 1;
    }

    /** The POST settles: the rest of `addMessage`. */
    method PostSettled(response: Response<Message>)
      requires posting > 0
      modifies this
      ensures State() == Step(old(State()), Event.PostSettled(response))
    {
      posting := posting - 1;
      match response {
        case Ok(_) =>
          var started := LoadMessages();
          if started {
            submitAwaitsLoad := true;
          } else {
            input := "";
          }
        case NotOk(_) => alerts := alerts + [AddErrorPrefix + AddFailed];
        case Failed(reason) => alerts := alerts + [AddErrorPrefix + reason];
      }
    }

    /** The form's submit handler. */
    method Submit()
      modifies this
      ensures State() == Step(old(State()), Event.Submit)
    {
      var text := Strip(input, JsWhitespace);
      if text == [] {
        return;
      }
      AddMessage(text);
    }

    /** A click on the refresh button (and the initial load). */
    method Refresh()
      modifies this
      ensures State() == Step(old(State()), Event.Refresh)
    {
      var _ := LoadMessages();
    }

    /** The auto-refresh tick: `loadMessages` is called only when idle. */
    method Tick() returns (called: bool)
      modifies this
      ensures called == !old(isLoading)
      ensures State() == Step(old(State()), Event.Tick)
    {
      called := !isLoading;
      if called {
        var _ := LoadMessages();
      }
    }

    /** The user edits the input box. */
    method Edit(value: string)
      modifies this
      ensures State() == Step(old(State()), Event.Edit(value))
    {
      input := value;
    }
  }
}
