/** components/_ssx.tsx: the provider that binds a session object to the
    connected wallet client (`watchSigner`), and the context it exposes. */
module SsxProvider {
  import opened Wrappers

  /** The wallet client handed out by the wallet kit; its provider drives
      the session object. */
  datatype WalletClient = WalletClient(account: string)

  /** The configuration passed to the session constructor. */
  datatype SsxConfig = SsxConfig(
    siweStatement: string,
    storagePrefix: string,
    autoCreateNewOrbit: bool,
    driver: WalletClient)

  function ConfigFor(client: WalletClient): (c: SsxConfig)
    ensures c.siweStatement == "Sign into ChatBot!" && c.storagePrefix == "chatbot"
    ensures !c.autoCreateNewOrbit && c.driver == client
  {
    SsxConfig("Sign into ChatBot!", "chatbot", false, client)
  }

  /** A session object; `serial` tells apart the objects built by successive
      constructor calls. */
  datatype Instance = Instance(serial: nat, config: SsxConfig)

  /** What the context hands to consumers. */
  datatype Context = Context(ssx: Option<Instance>, signingIn: bool)

  /** The observable side of a watch step, in order. */
  datatype Effect =
    | SetSigningIn(value: bool)
    | SetSsx(ssx: Option<Instance>)
    | Disconnect
    | SignOut(instance: Instance)

  /** The provider's state: the context, plus how many session objects have
      been built so far. */
  datatype State = State(ssx: Option<Instance>, signingIn: bool, built: nat)

  datatype Step = Step(state: State, effects: seq<Effect>)

  /** One `watchSigner` run for the current client. `constructs` says
      whether the session constructor returns (rather than throws). The
      result of `signOut` is swallowed, so it is not an input. */
  function WatchSignerStep(s: State, client: Option<WalletClient>, constructs: bool): (r: Step)
    ensures client.Some? && s.ssx.Some? ==> r == Step(s, [])
    ensures client.Some? && s.ssx.None? ==>
              |r.effects| >= 2 && r.effects[0] == SetSigningIn(true)
              && r.effects[|r.effects| - 1] == SetSigningIn(false)
              && !r.state.signingIn
              && (constructs ==>
                    r.state.ssx == Some(Instance(s.built, ConfigFor(client.value)))
                    && r.state.built == s.built + 1
                    && Disconnect !in r.effects)
              && (!constructs ==>
                    r.state.ssx.None? && r.state.built == s.built && Disconnect in r.effects)
    ensures client.None? ==>
              r.state == State(None, false, s.built)
              && (s.ssx.Some? ==> |r.effects| > 0 && r.effects[0] == SignOut(s.ssx.value))
              && (s.ssx.None? ==> forall e :: e in r.effects ==> !e.SignOut?)
  {
    match client
    case Some(c) =>
      if s.ssx.Some? then Step(s, [])
      else if constructs then
        var instance := Instance(s.built, ConfigFor(c));
        Step(State(Some(instance), false, s.built + 1),
             [SetSigningIn(true), SetSsx(Some(instance)), SetSigningIn(false)])
      else
        Step(s.(signingIn := false), [SetSigningIn(true), Disconnect, SetSigningIn(false)])
    case None =>
      var signOut := if s.ssx.Some? then [SignOut(s.ssx.value)] else [];
      Step(State(None, false, s.built), signOut + [SetSsx(None), SetSigningIn(false)])
  }

  /** One change of the wallet client, with the constructor's outcome. */
  datatype ClientChange = ClientChange(client: Option<WalletClient>, constructs: bool)

  function Run(s: State, changes: seq<ClientChange>): State
    decreases |changes|
  {
    if changes == [] then s
    else Run(WatchSignerStep(s, changes[0].client, changes[0].constructs).state, changes[1..])
  }

  /** `signingIn` is false after every completed run, from the initial
      context on. */
  lemma {:induction false} RunEndsNotSigningIn(s: State, changes: seq<ClientChange>)
    requires !s.signingIn
    ensures !Run(s, changes).signingIn
    decreases |changes|
  {
    if changes != [] {
      RunEndsNotSigningIn(WatchSignerStep(s, changes[0].client, changes[0].constructs).state, changes[1..]);
    }
  }

  /** Once built, the session object is kept, and no other is built, for as
      long as some client stays connected, even if it is another account. */
  lemma {:induction false} BuiltOnceWhileConnected(s: State, changes: seq<ClientChange>)
    requires s.ssx.Some?
    requires forall i :: 0 <= i < |changes| ==> changes[i].client.Some?
    ensures Run(s, changes) == s
    decreases |changes|
  {
    if changes != [] {
      BuiltOnceWhileConnected(WatchSignerStep(s, changes[0].client, changes[0].constructs).state, changes[1..]);
    }
  }

  /** The provider component: `ssx` and `signingIn` are its state hooks;
      `effects` records the setter and wallet calls in order. */
  class Provider {
    var ssx: Option<Instance>
    var signingIn: bool
    var built: nat
    var effects: seq<Effect>

    function Current(): State
      reads this
    {
      State(ssx, signingIn, built)
    }

    /** Between runs nobody is signing in. */
    predicate Valid()
      reads this
    {
      !signingIn
    }

    /** The default, uninitialised context: no session object and not
        signing in. */
    constructor ()
      ensures ssx.None? && !signingIn && built == 0 && effects == []
      ensures Valid()
    {
      ssx := None;
      signingIn := false;
      built := 0;
      effects := [];
    }

    function Exposed(): (c: Context)
      reads this
      ensures c.ssx == ssx && c.signingIn == signingIn
    {
      Context(ssx, signingIn)
    }

    /** `watchSigner`, the effect that runs whenever the client changes. */
    method WatchSigner(client: Option<WalletClient>, constructs: bool)
      requires Valid()
      modifies this
      ensures Valid()
      ensures Current() == WatchSignerStep(old(Current()), client, constructs).state
      ensures effects == old(effects) + WatchSignerStep(old(Current()), client, constructs).effects
    {
      if client.Some? {
        if ssx.Some? {
          return;
        }
        signingIn := true;
        effects := effects + [SetSigningIn(true)];
        var config := ConfigFor(client.value);
        if constructs {
          var instance := Instance(built, config);
          built := built + 1;
          ssx := Some(instance);
          effects := effects + [SetSsx(ssx)];
        } else {
          effects := effects + [Disconnect];
        }
        signingIn := false;
        effects := effects + [SetSigningIn(false)];
      } else {
        if ssx.Some? {
          effects := effects + [SignOut(ssx.value)];
        }
        ssx := None;
        effects := effects + [SetSsx(None)];
        signingIn := false;
        effects := effects + [SetSigningIn(false)];
      }
    }
  }
}
