/**
 * The host screen of the Financial Connections sheet. It fetches a session
 * manifest, runs an authentication session, fetches the resulting session and
 * reports one result to its delegate. Network replies and the outcome of the
 * authentication session are inputs: each handler below runs the callback
 * body for the reply it is given, and a handler that starts the next request
 * runs that request's callback with the next reply.
 */
module FinancialConnectionsHost {

  datatype State = NoManifest | ManifestFetched | AuthSessionComplete

  datatype Manifest = Manifest(hostedAuthUrl: string)
  datatype Session = Session(id: string)

  /** What the sheet reports to its delegate. */
  datatype SheetResult = Completed(session: Session) | Canceled | Failed(error: string)

  datatype ManifestReply = ManifestOk(manifest: Manifest) | ManifestError(error: string)
  datatype AuthReply = AuthSuccess | WebCancelled | NativeCancelled | AuthError(error: string)
  datatype SessionReply = SessionOk(session: Session) | SessionError(error: string)

  /** The replies one pass through the flow observes, in the order they arrive. */
  datatype Replies = Replies(manifest: ManifestReply, auth: AuthReply, session: SessionReply)

  /** The controller's observable state: its three fields, whether the error
      view (with its "Try again" button) is shown, whether a delegate is
      attached, and every result the delegate has been handed. */
  datatype Host = Host(
    state: State,
    result: SheetResult,
    hasNotifiedDelegate: bool,
    errorViewShown: bool,
    delegateAttached: bool,
    delivered: seq<SheetResult>)

  function Rank(s: State): nat {
    match s
    case NoManifest => 0
    case ManifestFetched => 1
    case AuthSessionComplete => 2
  }

  function Initial(delegateAttached: bool): Host {
    Host(NoManifest, Canceled, false, false, delegateAttached, [])
  }

  /** The delegate has been handed at most one result, and none before the latch is set. */
  ghost predicate DeliveredAtMostOnce(h: Host) {
    |h.delivered| <= 1 && (!h.hasNotifiedDelegate ==> h.delivered == [])
  }

  // ---------------------------------------------------------------------------
  // Transitions: the callback bodies as functions of the reply

  /** Hands the current result to an attached delegate unless the latch is
      set, then sets it; nothing else changes. */
  function Notify(h: Host): (r: Host)
    ensures r.hasNotifiedDelegate
    ensures r.state == h.state && r.result == h.result && r.errorViewShown == h.errorViewShown
    ensures r.delegateAttached == h.delegateAttached
    ensures r.delivered == h.delivered || (!h.hasNotifiedDelegate && r.delivered == h.delivered + [h.result])
    ensures !h.delegateAttached ==> r.delivered == h.delivered
  {
    if h.hasNotifiedDelegate then h
    else h.(hasNotifiedDelegate := true,
            delivered := if h.delegateAttached then h.delivered + [h.result] else h.delivered)
  }

  /** The session fetch callback: it keeps the flow state and hands over at
      most the one result it sets. */
  function AfterSessionFetch(h: Host, reply: SessionReply): (r: Host)
    ensures r.state == h.state && r.delegateAttached == h.delegateAttached
    ensures r.result == (match reply case SessionOk(s) => Completed(s) case SessionError(e) => Failed(e))
    ensures r.delivered == h.delivered || r.delivered == h.delivered + [r.result]
  {
    match reply
    case SessionOk(session) => Notify(h.(result := Completed(session)))
    case SessionError(e) => h.(result := Failed(e), errorViewShown := true)
  }

  /** The body of the authentication session's completion, up to the session
      fetch that success starts. */
  function OnAuth(h: Host, auth: AuthReply): Host {
    match auth
    case AuthSuccess => h.(state := AuthSessionComplete)
    case WebCancelled => Notify(h.(result := Canceled))
    case NativeCancelled => Notify(h.(result := Canceled))
    case AuthError(e) => Notify(h.(result := Failed(e), errorViewShown := true))
  }

  /** The authentication session callback: only success moves the flow on;
      every outcome sets the result, and a failure is shown. */
  function AfterAuthSession(h: Host, auth: AuthReply, session: SessionReply): (r: Host)
    ensures r.state == (if auth.AuthSuccess? then AuthSessionComplete else h.state)
    ensures r.delegateAttached == h.delegateAttached
    ensures r.result.Failed? ==> r.errorViewShown
    ensures !auth.AuthSuccess? ==> r.hasNotifiedDelegate
    ensures r.delivered == h.delivered || r.delivered == h.delivered + [r.result]
  {
    var h' := OnAuth(h, auth);
    if auth.AuthSuccess? then AfterSessionFetch(h', session) else h'
  }

  /** What `getManifest` does before its request is answered: hide the error view. */
  function StartManifestFetch(h: Host): Host {
    h.(errorViewShown := false)
  }

  /** The body of the manifest fetch's completion, up to the authentication
      session that success starts. */
  function OnManifest(h: Host, reply: ManifestReply): Host {
    match reply
    case ManifestOk(_) => h.(state := ManifestFetched)
    case ManifestError(e) => h.(result := Failed(e), errorViewShown := true)
  }

  /** Fetching the manifest first hides the error view, so afterwards the view
      is shown exactly when the result is a failure. */
  function AfterManifestFetch(h: Host, replies: Replies): (r: Host)
    ensures r.errorViewShown <==> r.result.Failed?
    ensures replies.manifest.ManifestError? ==> r.state == h.state && r.delivered == h.delivered
    ensures replies.manifest.ManifestOk? ==> r.state != NoManifest
    ensures r.delegateAttached == h.delegateAttached
  {
    var h' := OnManifest(StartManifestFetch(h), replies.manifest);
    if replies.manifest.ManifestOk? then AfterAuthSession(h', replies.auth, replies.session) else h'
  }

  /** "Try again" retries the step that failed: the manifest fetch before a
      manifest, the session fetch after the authentication session, and
      nothing in between. The state never moves backwards. */
  function AfterTryAgain(h: Host, replies: Replies): (r: Host)
    ensures Rank(h.state) <= Rank(r.state)
    ensures h.state == ManifestFetched ==> r == h
    ensures h.state == AuthSessionComplete ==>
              r.state == AuthSessionComplete
              && r.result == (match replies.session case SessionOk(s) => Completed(s) case SessionError(e) => Failed(e))
    ensures h.state == NoManifest ==> (r.errorViewShown <==> r.result.Failed?)
    ensures h.state == NoManifest ==> r == AfterManifestFetch(h, replies)
    ensures h.state == AuthSessionComplete ==> r == AfterSessionFetch(h, replies.session)
  {
    match h.state
    case NoManifest => AfterManifestFetch(h, replies)
    case ManifestFetched => h
    case AuthSessionComplete => AfterSessionFetch(h, replies.session)
  }

  // ---------------------------------------------------------------------------
  // Properties of the transitions

  /** Notifying hands over the current result once; later calls change nothing. */
  lemma NotifyOnce(h: Host)
    ensures Notify(h).hasNotifiedDelegate
    ensures !h.hasNotifiedDelegate && h.delegateAttached ==> Notify(h).delivered == h.delivered + [h.result]
    ensures !h.delegateAttached ==> Notify(h) == h.(hasNotifiedDelegate := true)
    ensures h.hasNotifiedDelegate ==> Notify(h) == h
    ensures Notify(Notify(h)) == Notify(h)
  {
  }

  lemma ManifestFetchOutcome(h: Host, replies: Replies)
    requires h.state == NoManifest
    ensures replies.manifest.ManifestError? ==>
              AfterManifestFetch(h, replies) == h.(result := Failed(replies.manifest.error), errorViewShown := true)
    ensures replies.manifest.ManifestOk? ==> AfterManifestFetch(h, replies).state != NoManifest
  {
  }

  /** What each outcome of the authentication session does, as the delegate
      and the screen see it. */
  lemma AuthSessionOutcome(h: Host, auth: AuthReply, session: SessionReply)
    ensures var r := AfterAuthSession(h, auth, session);
            auth.AuthSuccess? ==>
              && r.state == AuthSessionComplete
              && r.result == (match session case SessionOk(s) => Completed(s) case SessionError(e) => Failed(e))
              && (session.SessionError? ==> r.hasNotifiedDelegate == h.hasNotifiedDelegate && r.delivered == h.delivered)
    ensures var r := AfterAuthSession(h, auth, session);
            auth.WebCancelled? || auth.NativeCancelled? ==>
              && r.result == Canceled && r.hasNotifiedDelegate && r.state == h.state
              && r.errorViewShown == h.errorViewShown
              && (!h.hasNotifiedDelegate && h.delegateAttached ==> r.delivered == h.delivered + [Canceled])
              && (h.hasNotifiedDelegate || !h.delegateAttached ==> r.delivered == h.delivered)
    ensures var r := AfterAuthSession(h, auth, session);
            auth.AuthError? ==>
              && r.result == Failed(auth.error) && r.errorViewShown && r.hasNotifiedDelegate && r.state == h.state
              && (!h.hasNotifiedDelegate && h.delegateAttached ==> r.delivered == h.delivered + [Failed(auth.error)])
              && (h.hasNotifiedDelegate || !h.delegateAttached ==> r.delivered == h.delivered)
  {
  }

  /** A fetched session completes the result and notifies; a failed fetch
      records and shows the failure and does not notify. */
  lemma SessionFetchOutcome(h: Host, reply: SessionReply)
    ensures var r := AfterSessionFetch(h, reply);
            reply.SessionError? ==>
              && r.result == Failed(reply.error) && r.errorViewShown
              && r.state == h.state && r.hasNotifiedDelegate == h.hasNotifiedDelegate && r.delivered == h.delivered
    ensures var r := AfterSessionFetch(h, reply);
            reply.SessionOk? ==>
              && r.result == Completed(reply.session) && r.hasNotifiedDelegate
              && r.state == h.state && r.errorViewShown == h.errorViewShown
              && (!h.hasNotifiedDelegate && h.delegateAttached ==> r.delivered == h.delivered + [Completed(reply.session)])
              && (h.hasNotifiedDelegate || !h.delegateAttached ==> r.delivered == h.delivered)
  {
  }

  /** What loading the view hands to an attached delegate, for every
      combination of replies: nothing while a retryable fetch failed, else
      exactly the outcome of the authentication session or session fetch. */
  lemma LoadOutcome(load: Replies)
    ensures var h := AfterManifestFetch(Initial(true), load);
            h.delivered ==
              match (load.manifest, load.auth, load.session)
              case (ManifestError(_), _, _) => []
              case (ManifestOk(_), AuthSuccess, SessionError(_)) => []
              case (ManifestOk(_), AuthSuccess, SessionOk(session)) => [Completed(session)]
              case (ManifestOk(_), WebCancelled, _) => [Canceled]
              case (ManifestOk(_), NativeCancelled, _) => [Canceled]
              case (ManifestOk(_), AuthError(e), _) => [Failed(e)]
    ensures var h := AfterManifestFetch(Initial(true), load);
            h.errorViewShown <==> h.result.Failed?
  {
  }

  /** What "Try again" does, as the delegate and the screen see it: before a
      manifest it fetches the manifest again and, if that succeeds, runs the
      rest of the flow; after the authentication session it fetches the
      session again. */
  lemma TryAgainOutcome(h: Host, replies: Replies)
    ensures var r := AfterTryAgain(h, replies);
            h.state == NoManifest && replies.manifest.ManifestError? ==>
              r == h.(result := Failed(replies.manifest.error), errorViewShown := true)
    ensures var r := AfterTryAgain(h, replies);
            h.state == NoManifest && replies.manifest.ManifestOk? ==>
              r == AfterAuthSession(h.(state := ManifestFetched, errorViewShown := false), replies.auth, replies.session)
    ensures var r := AfterTryAgain(h, replies);
            h.state == AuthSessionComplete && replies.session.SessionError? ==>
              r == h.(result := Failed(replies.session.error), errorViewShown := true)
    ensures var r := AfterTryAgain(h, replies);
            h.state == AuthSessionComplete && replies.session.SessionOk? ==>
              && r.result == Completed(replies.session.session) && r.hasNotifiedDelegate && r.state == h.state
              && (!h.hasNotifiedDelegate && h.delegateAttached ==> r.delivered == h.delivered + [r.result])
              && (h.hasNotifiedDelegate || !h.delegateAttached ==> r.delivered == h.delivered)
  {
  }

  /** After the authentication session failed the error view offers "Try
      again", but in that state the button does nothing: only closing the
      sheet remains. */
  lemma TryAgainAfterAuthFailureIsNoOp(h: Host, manifest: Manifest, e: string, session: SessionReply, retry: Replies)
    requires h.state == NoManifest
    ensures var failed := AfterManifestFetch(h, Replies(ManifestOk(manifest), AuthError(e), session));
            failed.errorViewShown && failed.result == Failed(e) && failed.state == ManifestFetched
            && AfterTryAgain(failed, retry) == failed
  {
  }

  /** Every event the user can cause after loading. "Try again" is accepted even
      while the error view, and so its button, is hidden: the runs below are a
      superset of those a user can cause. */
  datatype UserEvent = TapTryAgain(replies: Replies) | TapClose | Disappear | SetDelegate(attached: bool)

  function Apply(h: Host, e: UserEvent): Host {
    match e
    case TapTryAgain(replies) => AfterTryAgain(h, replies)
    case TapClose => Notify(h)
    case Disappear => Notify(h)
    case SetDelegate(attached) => h.(delegateAttached := attached)
  }

  /** Loading the view fetches the manifest; then the user's events follow. */
  function Run(h: Host, events: seq<UserEvent>): Host
    decreases |events|
  {
    if events == [] then h else Run(Apply(h, events[0]), events[1..])
  }

  lemma ApplyKeepsInvariant(h: Host, e: UserEvent)
    requires DeliveredAtMostOnce(h)
    ensures DeliveredAtMostOnce(Apply(h, e))
    ensures Rank(h.state) <= Rank(Apply(h, e).state)
    ensures h.hasNotifiedDelegate ==> Apply(h, e).hasNotifiedDelegate && Apply(h, e).delivered == h.delivered
  {
  }

  /** Over any sequence of user events after loading: the delegate is handed at
      most one result, the state never moves backwards, and once the delegate
      has been notified nothing more reaches it. */
  lemma {:induction false} RunKeepsInvariant(h: Host, events: seq<UserEvent>)
    requires DeliveredAtMostOnce(h)
    ensures DeliveredAtMostOnce(Run(h, events))
    ensures Rank(h.state) <= Rank(Run(h, events).state)
    ensures h.hasNotifiedDelegate ==> Run(h, events).delivered == h.delivered
    decreases |events|
  {
    if events != [] {
      ApplyKeepsInvariant(h, events[0]);
      RunKeepsInvariant(Apply(h, events[0]), events[1..]);
    }
  }

  lemma {:induction false} WholeFlowDeliversAtMostOnce(delegateAttached: bool, load: Replies, events: seq<UserEvent>)
    ensures var h := Run(AfterManifestFetch(Initial(delegateAttached), load), events);
            |h.delivered| <= 1 && (h.delivered != [] ==> h.hasNotifiedDelegate)
  {
    var loaded := AfterManifestFetch(Initial(delegateAttached), load);
    assert DeliveredAtMostOnce(loaded);
    RunKeepsInvariant(loaded, events);
  }

  // ---------------------------------------------------------------------------
  // Replies arriving in any order

  /** The controller together with the requests it has started and not yet seen
      answered. Several session fetches can be in flight: "Try again" after a
      failed session fetch leaves the error view shown while it fetches again. */
  datatype Flow = Flow(host: Host, manifestPending: bool, authPending: bool, sessionsPending: nat)

  /** Something that happens while the sheet is on screen: a reply to a request
      in flight, or a user action. "Try again" can only be tapped while the
      error view is shown. */
  datatype AsyncEvent =
    | ManifestArrives(manifest: ManifestReply)
    | AuthArrives(auth: AuthReply)
    | SessionArrives(session: SessionReply)
    | TryAgainTapped
    | CloseTapped
    | Disappeared
    | DelegateSet(attached: bool)

  /** `viewDidLoad`: the manifest is requested and nothing else is in flight. */
  function Loading(delegateAttached: bool): Flow {
    Flow(StartManifestFetch(Initial(delegateAttached)), true, false, 0)
  }

  /** One event; a reply to a request that is not in flight cannot arrive and
      changes nothing. */
  function Step(f: Flow, e: AsyncEvent): Flow {
    match e
    case ManifestArrives(reply) =>
      if !f.manifestPending then f
      else f.(host := OnManifest(f.host, reply), manifestPending := false,
              authPending := f.authPending || reply.ManifestOk?)
    case AuthArrives(auth) =>
      if !f.authPending then f
      else f.(host := OnAuth(f.host, auth), authPending := false,
              sessionsPending := if auth.AuthSuccess? then f.sessionsPending + 1 else f.sessionsPending)
    case SessionArrives(reply) =>
      if f.sessionsPending == 0 then f
      else f.(host := AfterSessionFetch(f.host, reply), sessionsPending := f.sessionsPending - 1)
    case TryAgainTapped =>
      if !f.host.errorViewShown then f
      else (match f.host.state
        case NoManifest => f.(host := StartManifestFetch(f.host), manifestPending := true)
        case ManifestFetched => f
        case AuthSessionComplete => f.(sessionsPending := f.sessionsPending + 1))
    case CloseTapped => f.(host := Notify(f.host))
    case Disappeared => f.(host := Notify(f.host))
    case DelegateSet(attached) => f.(host := f.host.(delegateAttached := attached))
  }

  function AsyncRun(f: Flow, events: seq<AsyncEvent>): Flow
    decreases |events|
  {
    if events == [] then f else AsyncRun(Step(f, events[0]), events[1..])
  }

  /** Each request in flight was started in the state its callback expects, and
      the delegate has been handed at most one result. */
  ghost predicate Consistent(f: Flow) {
    && DeliveredAtMostOnce(f.host)
    && (f.manifestPending ==> f.host.state == NoManifest && !f.host.errorViewShown)
    && (f.authPending ==> f.host.state == ManifestFetched)
    && (f.sessionsPending > 0 ==> f.host.state == AuthSessionComplete)
  }

  lemma StepKeepsConsistent(f: Flow, e: AsyncEvent)
    requires Consistent(f)
    ensures Consistent(Step(f, e))
    ensures Rank(f.host.state) <= Rank(Step(f, e).host.state)
    ensures f.host.hasNotifiedDelegate ==>
              Step(f, e).host.hasNotifiedDelegate && Step(f, e).host.delivered == f.host.delivered
  {
  }

  /** However replies and user actions interleave, the delegate is handed at
      most one result, the flow never moves backwards, and once the delegate
      has been notified nothing more reaches it. */
  lemma {:induction false} AsyncRunKeepsConsistent(f: Flow, events: seq<AsyncEvent>)
    requires Consistent(f)
    ensures Consistent(AsyncRun(f, events))
    ensures Rank(f.host.state) <= Rank(AsyncRun(f, events).host.state)
    ensures f.host.hasNotifiedDelegate ==> AsyncRun(f, events).host.delivered == f.host.delivered
    decreases |events|
  {
    if events != [] {
      StepKeepsConsistent(f, events[0]);
      AsyncRunKeepsConsistent(Step(f, events[0]), events[1..]);
    }
  }

  lemma {:induction false} AsyncFlowDeliversAtMostOnce(delegateAttached: bool, events: seq<AsyncEvent>)
    ensures var h := AsyncRun(Loading(delegateAttached), events).host;
            |h.delivered| <= 1 && (h.delivered != [] ==> h.hasNotifiedDelegate)
  {
    assert Consistent(Loading(delegateAttached));
    AsyncRunKeepsConsistent(Loading(delegateAttached), events);
  }

  /** Running each callback as soon as its request starts, as the controller
      below does, is one of the interleavings: the replies arrive in order with
      nothing between them. */
  lemma {:induction false} LoadIsOneInterleaving(h: Host, replies: Replies)
    requires h.state == NoManifest
    ensures var arrivals := [ManifestArrives(replies.manifest), AuthArrives(replies.auth), SessionArrives(replies.session)];
            AsyncRun(Flow(StartManifestFetch(h), true, false, 0), arrivals)
            == Flow(AfterManifestFetch(h, replies), false, false, 0)
  {
    var arrivals := [ManifestArrives(replies.manifest), AuthArrives(replies.auth), SessionArrives(replies.session)];
    var f0 := Flow(StartManifestFetch(h), true, false, 0);
    var f1 := Step(f0, arrivals[0]);
    var f2 := Step(f1, arrivals[1]);
    var f3 := Step(f2, arrivals[2]);
    assert arrivals[1..][1..][1..] == [];
    assert AsyncRun(f0, arrivals) == AsyncRun(f1, arrivals[1..]) == AsyncRun(f2, arrivals[1..][1..]) == f3;
  }

  /** The same holds for "Try again" tapped on the error view: before a
      manifest, and after a failed session fetch. */
  lemma {:induction false} TryAgainIsOneInterleaving(h: Host, replies: Replies)
    requires h.errorViewShown
    ensures var arrivals := [ManifestArrives(replies.manifest), AuthArrives(replies.auth), SessionArrives(replies.session)];
            h.state == NoManifest ==>
              AsyncRun(Flow(h, false, false, 0), [TryAgainTapped] + arrivals)
              == Flow(AfterTryAgain(h, replies), false, false, 0)
    ensures h.state == AuthSessionComplete ==>
              AsyncRun(Flow(h, false, false, 0), [TryAgainTapped, SessionArrives(replies.session)])
              == Flow(AfterTryAgain(h, replies), false, false, 0)
  {
    var arrivals := [ManifestArrives(replies.manifest), AuthArrives(replies.auth), SessionArrives(replies.session)];
    if h.state == NoManifest {
      LoadIsOneInterleaving(h, replies);
      assert ([TryAgainTapped] + arrivals)[1..] == arrivals;
    } else if h.state == AuthSessionComplete {
      var events := [TryAgainTapped, SessionArrives(replies.session)];
      assert events[1..][1..] == [];
      assert AsyncRun(Flow(h, false, false, 0), events)
             == AsyncRun(Flow(h, false, false, 1), events[1..])
             == Flow(AfterSessionFetch(h, replies.session), false, false, 0);
    }
  }

  // ---------------------------------------------------------------------------
  // The controller

  class FinancialConnectionsHostViewController {
    var result: SheetResult
    var state: State
    var hasNotifiedDelegate: bool
    var errorViewShown: bool
    var delegateAttached: bool
    /** The results handed to the delegate so far, in order. */
    var delivered: seq<SheetResult>

    function Snapshot(): Host
      reads this
    {
      Host(state, result, hasNotifiedDelegate, errorViewShown, delegateAttached, delivered)
    }

    ghost predicate Valid()
      reads this
    {
      DeliveredAtMostOnce(Snapshot())
    }

    constructor ()
      ensures Valid()
      ensures Snapshot() == Initial(false)
    {
      result := Canceled;
      state := NoManifest;
      hasNotifiedDelegate := false;
      errorViewShown := false;
      delegateAttached := false;
      delivered := [];
    }

    /** The owner assigns (or the system releases) the weak delegate. */
    method SetDelegate(attached: bool)
      requires Valid()
      modifies this
      ensures Valid()
      ensures Snapshot() == old(Snapshot()).(delegateAttached := attached)
    {
      delegateAttached := attached;
    }

    method ViewDidLoad(replies: Replies)
      requires Valid() && state == NoManifest
      modifies this
      ensures Valid()
      ensures Snapshot() == AfterManifestFetch(old(Snapshot()), replies)
    {
      GetManifest(replies);
    }

    /** Dismissal by swiping down also reports to the delegate. */
    method ViewDidDisappear()
      requires Valid()
      modifies this
      ensures Valid()
      ensures Snapshot() == Notify(old(Snapshot()))
    {
      NotifyDelegate();
    }

    method GetManifest(replies: Replies)
      requires Valid() && state == NoManifest
      modifies this
      ensures Valid()
      ensures Snapshot() == AfterManifestFetch(old(Snapshot()), replies)
      ensures Rank(old(state)) <= Rank(state)
    {
      errorViewShown := false;
      match replies.manifest
      case ManifestOk(manifest) =>
        state := ManifestFetched;
        StartAuthenticationSession(manifest, replies.auth, replies.session);
      case ManifestError(e) =>
        errorViewShown := true;
        result := Failed(e);
    }

    method NotifyDelegate()
      requires Valid()
      modifies this
      ensures Valid()
      ensures Snapshot() == Notify(old(Snapshot()))
    {
      if hasNotifiedDelegate {
        return;
      }
      if delegateAttached {
        delivered := delivered + [result];
      }
      hasNotifiedDelegate := true;
    }

    method StartAuthenticationSession(manifest: Manifest, auth: AuthReply, session: SessionReply)
      requires Valid() && state == ManifestFetched
      modifies this
      ensures Valid()
      ensures Snapshot() == AfterAuthSession(old(Snapshot()), auth, session)
      ensures Rank(old(state)) <= Rank(state)
    {
      match auth {
        case AuthSuccess =>
          state := AuthSessionComplete;
          FetchSession(session);
          return;
        case WebCancelled =>
          result := Canceled;
        case NativeCancelled =>
          result := Canceled;
        case AuthError(e) =>
          errorViewShown := true;
          result := Failed(e);
      }
      NotifyDelegate();
    }

    method FetchSession(reply: SessionReply)
      requires Valid()
      modifies this
      ensures Valid()
      ensures Snapshot() == AfterSessionFetch(old(Snapshot()), reply)
      ensures state == old(state)
    {
      match reply {
        case SessionOk(session) =>
          result := Completed(session);
        case SessionError(e) =>
          errorViewShown := true;
          result := Failed(e);
          return;
      }
      NotifyDelegate();
    }

    method DidTapTryAgainButton(replies: Replies)
      requires Valid()
      modifies this
      ensures Valid()
      ensures Snapshot() == AfterTryAgain(old(Snapshot()), replies)
      ensures Rank(old(state)) <= Rank(state)
    {
      match state
      case NoManifest =>
        GetManifest(replies);
      case ManifestFetched =>
        return;
      case AuthSessionComplete =>
        FetchSession(replies.session);
    }

    method DidTapClose()
      requires Valid()
      modifies this
      ensures Valid()
      ensures Snapshot() == Notify(old(Snapshot()))
    {
      NotifyDelegate();
    }
  }
}
