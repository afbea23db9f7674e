/** components/Chatbar/components/SignInButton.tsx: which wallet button is
    shown, from the flags the wallet kit hands to its render callback. */
module SignInButton {
  import opened Wrappers

  /** The kit's `authenticationStatus`; `None` when the app does not use
      authentication (the field is then undefined). */
  datatype AuthenticationStatus = Loading | Unauthenticated | Authenticated

  datatype Chain = Chain(unsupported: bool)

  /** The flags of one render: the connected account and chain are absent
      until a wallet is connected. */
  datatype Wallet = Wallet(
    mounted: bool,
    authenticationStatus: Option<AuthenticationStatus>,
    account: Option<string>,
    chain: Option<Chain>)

  /** The three buttons. The caption of an action button is an i18n key when
      the spinner is off. */
  datatype Button =
    | ConnectButton(disabled: bool, caption: string)
    | WrongNetworkButton
    | SignInActionButton(disabled: bool, caption: string)

  /** The wrapper is hidden and inert (`aria-hidden`, no pointer events)
      while not ready. */
  datatype View = View(hidden: bool, button: Button)

  /** `ready`: mounted, and the status is not 'loading' (an absent status
      is not 'loading'). */
  predicate Ready(w: Wallet)
  {
    w.mounted && w.authenticationStatus != Some(Loading)
  }

  /** `connected`: ready, an account and a chain, and either no status or
      'authenticated'. */
  predicate Connected(w: Wallet)
  {
    Ready(w) && w.account.Some? && w.chain.Some?
    && (w.authenticationStatus.None? || w.authenticationStatus == Some(Authenticated))
  }

  /** The if-chain of the render callback. */
  function Render(w: Wallet, showSpinner: bool): (v: View)
    ensures v.hidden <==> !(w.mounted && w.authenticationStatus != Some(Loading))
    ensures v.button.ConnectButton? <==>
              !(w.mounted && w.account.Some? && w.chain.Some?
                && (w.authenticationStatus.None? || w.authenticationStatus == Some(Authenticated)))
    ensures v.button.WrongNetworkButton? <==>
              w.mounted && w.account.Some? && w.chain.Some? && w.chain.value.unsupported
              && (w.authenticationStatus.None? || w.authenticationStatus == Some(Authenticated))
    ensures v.button.SignInActionButton? <==>
              w.mounted && w.account.Some? && w.chain.Some? && !w.chain.value.unsupported
              && (w.authenticationStatus.None? || w.authenticationStatus == Some(Authenticated))
    ensures v.button.ConnectButton? ==>
              v.button.disabled == showSpinner
              && v.button.caption == (if showSpinner then "Signing in..." else "Sign-In")
    ensures v.button.SignInActionButton? ==>
              v.button.disabled == showSpinner
              && v.button.caption == (if showSpinner then "Signing in with SSX..." else "Sign-In")
  {
    var button :=
      if !Connected(w) then
        ConnectButton(showSpinner, if showSpinner then "Signing in..." else "Sign-In")
      else if w.chain.value.unsupported then
        WrongNetworkButton
      else
        SignInActionButton(showSpinner, if showSpinner then "Signing in with SSX..." else "Sign-In");
    View(!Ready(w), button)
  }

  /** While not connected, the chain's support flag does not matter. */
  lemma ConnectIgnoresChainSupport(w: Wallet, showSpinner: bool)
    requires !Connected(w) && w.chain.Some?
    ensures Render(w, showSpinner)
         == Render(w.(chain := Some(Chain(!w.chain.value.unsupported))), showSpinner)
  {
  }

  /** A hidden wrapper always holds the connect button, never the action
      that calls `handleSignin`. */
  lemma HiddenMeansConnect(w: Wallet, showSpinner: bool)
    ensures Render(w, showSpinner).hidden ==> Render(w, showSpinner).button.ConnectButton?
  {
  }

  /** An app that uses authentication shows the sign-in action only to an
      authenticated session. */
  lemma ActionNeedsAuthentication(w: Wallet, showSpinner: bool)
    requires w.authenticationStatus.Some?
    ensures Render(w, showSpinner).button.SignInActionButton? ==>
              w.authenticationStatus == Some(Authenticated)
  {
  }
}
