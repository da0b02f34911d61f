/**
 * The sign-in dialog's outcome latch and teardown state as a pure state
 * machine: one Step per callback the dialog receives, a ghost-style log of
 * delivered outcomes and platform actions, and the theorem that any event
 * sequence delivers at most one outcome, the one of the first terminal event.
 */
module DialogFlow {
  import opened Wrappers
  import opened Navigation

  /** The three listener callbacks: onComplete(token), onAbort(), onError(). */
  datatype Outcome = Complete(accessToken: string) | Abort | Failed

  /** Platform side effects, recorded rather than performed. */
  datatype Action =
    | LoadUrl                  // the web view starts loading the authorization URL
    | StopLoading              // WebView.stopLoading
    | SpinnerShow              // ProgressDialog.show
    | SpinnerDismiss           // ProgressDialog.dismiss
    | WindowDismiss            // Dialog.dismiss of the superclass
    | LaunchExternal(url: string)  // startActivity with ACTION_VIEW
    | SslHandlerCancel         // SslErrorHandler.cancel
    | NullSpinnerDereference   // dismiss before onCreate: the spinner is still null

  /** The callbacks the dialog receives from the platform, the user and the host. */
  datatype Event =
    | Create                   // onCreate: spinner and web view exist, loading starts
    | UrlLoading(url: string)  // shouldOverrideUrlLoading
    | ReceivedError            // onReceivedError
    | ReceivedSslError         // onReceivedSslError
    | PageStarted              // onPageStarted
    | PageFinished             // onPageFinished
    | DialogCancel             // the dialog's OnCancelListener
    | SpinnerCancel            // the spinner's OnCancelListener
    | CloseClick               // the close icon's OnClickListener
    | HostDismiss              // dismiss() called by anyone else
    | Attached                 // onAttachedToWindow
    | Detached                 // onDetachedFromWindow

  /** What the constructor fixes: the prefixes, the token lookup and whether a listener was given. */
  datatype Config = Config(prefixes: Prefixes, accessTokenOf: string -> Option<string>, hasListener: bool)

  datatype State = State(
    created: bool,          // onCreate has run: the web view and the spinner are non-null
    listenerCalled: bool,   // mListenerCalled
    isDetached: bool,       // mIsDetached
    spinnerShowing: bool,   // mSpinner.isShowing()
    outcomes: seq<Outcome>, // listener callbacks fired so far
    actions: seq<Action>)   // platform actions performed so far

  /** The state right after construction: both flags false, nothing created or logged. */
  const Initial := State(false, false, false, false, [], [])

  /** send*ToListener: fires only with a listener and only while the latch is open. */
  function SendStep(cfg: Config, s: State, o: Outcome): (t: State)
    ensures t.outcomes == s.outcomes + (if cfg.hasListener && !s.listenerCalled then [o] else [])
    ensures t.listenerCalled == (s.listenerCalled || cfg.hasListener)
    ensures t == s.(listenerCalled := t.listenerCalled, outcomes := t.outcomes)
  {
    if cfg.hasListener && !s.listenerCalled then
      s.(listenerCalled := true, outcomes := s.outcomes + [o])
    else
      s
  }

  /** The overridden dismiss(). */
  function DismissStep(s: State): (t: State)
    ensures t.outcomes == s.outcomes && t.listenerCalled == s.listenerCalled
    ensures |s.actions| <= |t.actions| && t.actions[..|s.actions|] == s.actions
  {
    var stopped := if s.created then s.(actions := s.actions + [StopLoading]) else s;
    if stopped.isDetached then
      stopped
    else if !stopped.created then
      stopped.(actions := stopped.actions + [NullSpinnerDereference])
    else
      var spun := if stopped.spinnerShowing
        then stopped.(spinnerShowing := false, actions := stopped.actions + [SpinnerDismiss])
        else stopped;
      spun.(actions := spun.actions + [WindowDismiss])
  }

  /** The outcome each event tries to deliver, if any: the reference the latch theorem compares against. */
  function Attempt(cfg: Config, e: Event): Option<Outcome>
  {
    match e
    case UrlLoading(url) =>
      (match Classify(cfg.prefixes, cfg.accessTokenOf, url)
       case TokenRedirect(token) => Some(Complete(token))
       case ErrorRedirect => Some(Failed)
       case _ => None)
    case ReceivedError => Some(Failed)
    case ReceivedSslError => Some(Failed)
    case DialogCancel => Some(Abort)
    case SpinnerCancel => Some(Abort)
    case CloseClick => Some(Abort)
    case _ => None
  }

  /**
   * One callback. The outcome log only grows, by at most one entry; once the
   * latch is closed, or without a listener, it does not grow at all; the
   * action log only grows.
   */
  function Step(cfg: Config, s: State, e: Event): (t: State)
    ensures |s.outcomes| <= |t.outcomes| <= |s.outcomes| + 1 && t.outcomes[..|s.outcomes|] == s.outcomes
    ensures s.listenerCalled ==> t.listenerCalled && t.outcomes == s.outcomes
    ensures !cfg.hasListener ==> t.listenerCalled == s.listenerCalled && t.outcomes == s.outcomes
    ensures |s.actions| <= |t.actions| && t.actions[..|s.actions|] == s.actions
  {
    match e
    case Create => s.(created := true, actions := s.actions + [LoadUrl])
    case UrlLoading(url) =>
      (match Classify(cfg.prefixes, cfg.accessTokenOf, url)
       case Inline => s
       case TokenRedirect(token) => DismissStep(SendStep(cfg, s, Complete(token)))
       case ErrorRedirect => DismissStep(SendStep(cfg, s, Failed))
       case External(u) => s.(actions := s.actions + [LaunchExternal(u)]))
    case ReceivedError => DismissStep(SendStep(cfg, s, Failed))
    case ReceivedSslError =>
      var sent := SendStep(cfg, s, Failed);
      DismissStep(sent.(actions := sent.actions + [SslHandlerCancel]))
    case PageStarted =>
      if s.isDetached then s else s.(spinnerShowing := true, actions := s.actions + [SpinnerShow])
    case PageFinished =>
      if s.isDetached then s else s.(spinnerShowing := false, actions := s.actions + [SpinnerDismiss])
    case DialogCancel => SendStep(cfg, s, Abort)
    case SpinnerCancel => DismissStep(SendStep(cfg, s.(spinnerShowing := false), Abort))
    case CloseClick => DismissStep(SendStep(cfg, s, Abort))
    case HostDismiss => DismissStep(s)
    case Attached => s.(isDetached := false)
    case Detached => s.(isDetached := true)
  }

  function Run(cfg: Config, s: State, events: seq<Event>): State
    decreases |events|
  {
    if events == [] then s else Run(cfg, Step(cfg, s, events[0]), events[1..])
  }

  /** The outcome of the first event in the sequence that tries to deliver one. */
  function FirstAttempt(cfg: Config, events: seq<Event>): Option<Outcome>
  {
    if events == [] then None
    else if Attempt(cfg, events[0]).Some? then Attempt(cfg, events[0])
    else FirstAttempt(cfg, events[1..])
  }

  /** dismiss() neither delivers an outcome nor touches the latch, the flags or the spinner it does not own. */
  lemma DismissKeepsLatch(s: State)
    ensures DismissStep(s).outcomes == s.outcomes
    ensures DismissStep(s).listenerCalled == s.listenerCalled
    ensures DismissStep(s).isDetached == s.isDetached
    ensures DismissStep(s).created == s.created
  {
  }

  /** dismiss() stops loading first whenever the web view exists, and while detached does nothing more. */
  lemma DismissActions(s: State)
    ensures s.created ==>
      |DismissStep(s).actions| > |s.actions| && DismissStep(s).actions[|s.actions|] == StopLoading
    ensures s.isDetached ==>
      DismissStep(s) == s.(actions := s.actions + (if s.created then [StopLoading] else []))
    ensures !s.isDetached && s.created ==>
      DismissStep(s).actions[|DismissStep(s).actions| - 1] == WindowDismiss && !DismissStep(s).spinnerShowing
  {
  }

  /** A single step delivers exactly what Attempt names, and only through an open latch with a listener. */
  lemma StepLatch(cfg: Config, s: State, e: Event)
    ensures Step(cfg, s, e).outcomes ==
      s.outcomes + (if cfg.hasListener && !s.listenerCalled && Attempt(cfg, e).Some?
                    then [Attempt(cfg, e).value] else [])
    ensures Step(cfg, s, e).listenerCalled ==
      (s.listenerCalled || (cfg.hasListener && Attempt(cfg, e).Some?))
  {
    DismissKeepsLatch(SendStep(cfg, s, Abort));
  }

  /** Over any event sequence, only the first attempted outcome can reach the listener. */
  lemma {:induction false} RunLatch(cfg: Config, s: State, events: seq<Event>)
    ensures Run(cfg, s, events).outcomes ==
      s.outcomes + (if cfg.hasListener && !s.listenerCalled && FirstAttempt(cfg, events).Some?
                    then [FirstAttempt(cfg, events).value] else [])
    ensures Run(cfg, s, events).listenerCalled ==
      (s.listenerCalled || (cfg.hasListener && FirstAttempt(cfg, events).Some?))
    decreases |events|
  {
    if events != [] {
      StepLatch(cfg, s, events[0]);
      RunLatch(cfg, Step(cfg, s, events[0]), events[1..]);
    }
  }

  /**
   * At most once: from a freshly constructed dialog, the listener hears at most
   * one outcome, exactly the one of the first terminal event when a listener
   * was given, and none without one.
   */
  lemma AtMostOneOutcome(cfg: Config, events: seq<Event>)
    ensures |Run(cfg, Initial, events).outcomes| <= 1
    ensures Run(cfg, Initial, events).outcomes ==
      (if cfg.hasListener && FirstAttempt(cfg, events).Some? then [FirstAttempt(cfg, events).value] else [])
    ensures !cfg.hasListener ==> !Run(cfg, Initial, events).listenerCalled
  {
    RunLatch(cfg, Initial, events);
  }

  /** Detaching never latches: a later redirect carrying a token still completes. */
  lemma DetachDoesNotFinalize(cfg: Config, url: string, token: string)
    requires cfg.hasListener
    requires Classify(cfg.prefixes, cfg.accessTokenOf, url) == TokenRedirect(token)
    ensures Run(cfg, Initial, [Create, Detached, UrlLoading(url)]).outcomes == [Complete(token)]
  {
    var events := [Create, Detached, UrlLoading(url)];
    AtMostOneOutcome(cfg, events);
    assert events[1..] == [Detached, UrlLoading(url)];
    assert events[1..][1..] == [UrlLoading(url)];
    assert FirstAttempt(cfg, [UrlLoading(url)]) == Some(Complete(token));
  }

  /** A URL that loads inline changes nothing. */
  lemma InlineIsInert(cfg: Config, s: State, url: string)
    requires OnShop(cfg.prefixes, url)
    ensures Step(cfg, s, UrlLoading(url)) == s
  {
  }

  /** An external URL only launches a viewer: no outcome, no dismiss, latch and detach state unchanged. */
  lemma ExternalOnlyLaunches(cfg: Config, s: State, url: string)
    requires !OnShop(cfg.prefixes, url) && !StartsWith(url, cfg.prefixes.redirectUrl)
    ensures Step(cfg, s, UrlLoading(url)) == s.(actions := s.actions + [LaunchExternal(url)])
  {
  }

  /** Attach and detach only toggle the flag. */
  lemma AttachDetachToggle(cfg: Config, s: State)
    ensures Step(cfg, s, Detached) == s.(isDetached := true)
    ensures Step(cfg, s, Attached) == s.(isDetached := false)
  {
  }

  /** While detached, page events leave the spinner alone; while attached they show and hide it. */
  lemma DetachGatesSpinner(cfg: Config, s: State)
    ensures s.isDetached ==> Step(cfg, s, PageStarted) == s && Step(cfg, s, PageFinished) == s
    ensures !s.isDetached ==> Step(cfg, s, PageStarted).spinnerShowing && !Step(cfg, s, PageFinished).spinnerShowing
  {
  }
}
