/**
 * The embedded-browser sign-in dialog. Open is the Java constructor and Init
 * the field assignments it ends with. Each callback method (OnCreate, the
 * web-client, cancel, close, attach and detach handlers, and Dismiss) is
 * proved to move the dialog's state exactly as the corresponding Step of
 * DialogFlow does, so the latch theorem proved there holds of every sequence
 * of callback calls on an AuthWebDialog. SendToListener stands for the private
 * send*ToListener helpers the callbacks call; Dafny cannot make it private,
 * and a direct call to it from outside is not covered by that theorem.
 */
module AuthDialog {
  import opened Wrappers
  import opened AuthScopes
  import opened AuthRequest
  import opened Navigation
  import opened DialogFlow

  class AuthWebDialog {
    /** The authorization URL, represented by its query parameters. */
    const parameters: map<string, string>
    /** mShopUrl, mShopUrlMobile and mRedirectUrl. */
    const prefixes: Prefixes
    /** Parsing a URL and reading its access_token parameter. */
    const accessTokenOf: string -> Option<string>
    /** mOnCompleteListener != null. */
    const hasListener: bool

    var created: bool
    var listenerCalled: bool
    var isDetached: bool
    var spinnerShowing: bool
    ghost var outcomes: seq<Outcome>
    ghost var actions: seq<Action>

    function Cfg(): Config
    {
      Config(prefixes, accessTokenOf, hasListener)
    }

    ghost function Snapshot(): State
      reads this
    {
      State(created, listenerCalled, isDetached, spinnerShowing, outcomes, actions)
    }

    constructor Init(parameters: map<string, string>, prefixes: Prefixes,
                     accessTokenOf: string -> Option<string>, hasListener: bool)
      ensures this.parameters == parameters && this.prefixes == prefixes
      ensures this.accessTokenOf == accessTokenOf && this.hasListener == hasListener
      ensures Snapshot() == Initial
    {
      this.parameters := parameters;
      this.prefixes := prefixes;
      this.accessTokenOf := accessTokenOf;
      this.hasListener := hasListener;
      created, listenerCalled, isDetached, spinnerShowing := false, false, false, false;
      outcomes, actions := [], [];
    }

    /**
     * The Java constructor: builds the parameters (throwing on an empty scope
     * list) and keeps the shop URLs, the redirect URL and the listener.
     */
    static method Open(clientId: string, shopUrl: string, shopUrlMobile: string, scopes: seq<AuthScope>,
                       mode: RequestMode, redirectUrl: string,
                       accessTokenOf: string -> Option<string>, hasListener: bool)
      returns (r: Result<AuthWebDialog, ConstructionError>)
      ensures r.Failure? <==> scopes == []
      ensures r.Success? ==>
        && fresh(r.value)
        && r.value.parameters == AuthorizationParameters(clientId, redirectUrl, scopes, mode).value
        && r.value.prefixes == Prefixes(shopUrl, shopUrlMobile, redirectUrl)
        && r.value.accessTokenOf == accessTokenOf
        && r.value.hasListener == hasListener
        && r.value.Snapshot() == Initial
    {
      var built := BuildParameters(clientId, redirectUrl, scopes, mode);
      if built.Failure? {
        return Failure(built.error);
      }
      var dialog := new AuthWebDialog.Init(built.value, Prefixes(shopUrl, shopUrlMobile, redirectUrl),
                                           accessTokenOf, hasListener);
      r := Success(dialog);
    }

    /** The state onCreate establishes: spinner and web view exist, and the URL is loading. */
    method OnCreate()
      modifies this
      ensures Snapshot() == Step(Cfg(), old(Snapshot()), Create)
    {
      created := true;
      actions := actions + [LoadUrl];
    }

    /** sendSuccessToListener, sendErrorToListener and sendCancelToListener. */
    method SendToListener(o: Outcome)
      modifies this
      ensures Snapshot() == SendStep(Cfg(), old(Snapshot()), o)
    {
      if hasListener && !listenerCalled {
        listenerCalled := true;
        outcomes := outcomes + [o];
      }
    }

    method Dismiss()
      modifies this
      ensures Snapshot() == DismissStep(old(Snapshot()))
    {
      if created {
        actions := actions + [StopLoading];
      }
      if !isDetached {
        if !created {
          actions := actions + [NullSpinnerDereference];
          return;
        }
        if spinnerShowing {
          spinnerShowing := false;
          actions := actions + [SpinnerDismiss];
        }
        actions := actions + [WindowDismiss];
      }
    }

    method OnDetachedFromWindow()
      modifies this
      ensures Snapshot() == Step(Cfg(), old(Snapshot()), Detached)
    {
      isDetached := true;
    }

    method OnAttachedToWindow()
      modifies this
      ensures Snapshot() == Step(Cfg(), old(Snapshot()), Attached)
    {
      isDetached := false;
    }

    /** The dialog's own cancel listener. */
    method OnDialogCancel()
      requires created
      modifies this
      ensures Snapshot() == Step(Cfg(), old(Snapshot()), DialogCancel)
    {
      SendToListener(Abort);
    }

    /** The spinner's cancel listener; cancelling the spinner also hides it. */
    method OnSpinnerCancel()
      requires created
      modifies this
      ensures Snapshot() == Step(Cfg(), old(Snapshot()), SpinnerCancel)
    {
      spinnerShowing := false;
      SendToListener(Abort);
      Dismiss();
    }

    /** The close icon's click listener. */
    method OnCloseClick()
      requires created
      modifies this
      ensures Snapshot() == Step(Cfg(), old(Snapshot()), CloseClick)
    {
      SendToListener(Abort);
      Dismiss();
    }

    /** Returns whether the dialog takes over the URL instead of letting the web view load it. */
    method ShouldOverrideUrlLoading(url: string) returns (overridden: bool)
      requires created
      modifies this
      ensures overridden <==> !OnShop(prefixes, url)
      ensures Snapshot() == Step(Cfg(), old(Snapshot()), UrlLoading(url))
    {
      match Classify(prefixes, accessTokenOf, url)
      case Inline =>
        overridden := false;
      case TokenRedirect(token) =>
        SendToListener(Complete(token));
        Dismiss();
        overridden := true;
      case ErrorRedirect =>
        SendToListener(Failed);
        Dismiss();
        overridden := true;
      case External(u) =>
        actions := actions + [LaunchExternal(u)];
        overridden := true;
    }

    method OnReceivedError()
      requires created
      modifies this
      ensures Snapshot() == Step(Cfg(), old(Snapshot()), ReceivedError)
    {
      SendToListener(Failed);
      Dismiss();
    }

    method OnReceivedSslError()
      requires created
      modifies this
      ensures Snapshot() == Step(Cfg(), old(Snapshot()), ReceivedSslError)
    {
      SendToListener(Failed);
      actions := actions + [SslHandlerCancel];
      Dismiss();
    }

    method OnPageStarted()
      requires created
      modifies this
      ensures Snapshot() == Step(Cfg(), old(Snapshot()), PageStarted)
    {
      if !isDetached {
        spinnerShowing := true;
        actions := actions + [SpinnerShow];
      }
    }

    method OnPageFinished()
      requires created
      modifies this
      ensures Snapshot() == Step(Cfg(), old(Snapshot()), PageFinished)
    {
      if !isDetached {
        spinnerShowing := false;
        actions := actions + [SpinnerDismiss];
      }
    }
  }

  /**
   * A session as the platform drives it: construction, onCreate, a redirect
   * and then a cancel racing in behind it. The listener hears only the token.
   */
  method RedirectThenCancel(shopUrl: string, redirectUrl: string, url: string, token: string,
                            accessTokenOf: string -> Option<string>)
    requires !StartsWith(url, shopUrl) && StartsWith(url, redirectUrl)
    requires accessTokenOf(url) == Some(token)
  {
    var constructed := AuthWebDialog.Open("client", shopUrl, shopUrl, [EMAIL, ID], LOGIN, redirectUrl,
                                     accessTokenOf, true);
    var dialog := constructed.value;
    dialog.OnCreate();
    var overridden := dialog.ShouldOverrideUrlLoading(url);
    assert overridden;
    dialog.OnCloseClick();
    dialog.OnReceivedError();
    assert dialog.outcomes == [Complete(token)];
  }
}
