/** components/Chatbar/components/SSX.tsx: the sidebar panel that signs in,
    provisions the data vault and fetches or collects the OpenAI API key.
    Every outcome of the session object, the storage and the key probe is an
    input (`Services`); `hasSession` says whether the provider's session
    object exists. */
module SsxPanel {
  import Wrappers
  import JsStrings
  import SignInButton

  datatype ModalState = SignIn | CreateVault | OpenAIKey | None

  /** The storage key under which the API key is kept. */
  const StorageOpenAiApiKeyName: string := "openai-api-key"

  /** What `storage.get` produced: it threw, or a response whose `data` may
      be missing. */
  datatype StoredKey = GetThrows | Fetched(data: Wrappers.Option<string>)

  /** What `getModels` did for a key: threw, resolved to a falsy value, or
      resolved to a truthy one. */
  datatype Probe = ProbeThrows | ProbeFalsy | ProbeOk

  /** What `activateSession` did: threw, or said whether the vault exists. */
  datatype Vault = VaultThrows | VaultMissing | VaultFound

  datatype Services = Services(
    storedKey: StoredKey,
    probe: string -> Probe,
    loadOk: bool,
    signInOk: bool,
    vault: Vault,
    hostOrbitOk: bool,
    putOk: bool,
    resetOk: bool)

  /** The fields of the application state the panel dispatches to. */
  datatype HomeField = SsxEnabledField | SignedInField

  /** The calls the panel makes outside its own state, in order. */
  datatype Effect =
    | StorageGet(key: string)
    | StoragePut(key: string, value: string)
    | GetModels(key: string)
    | ApiKeyChange(apiKey: string, save: bool)
    | LoadLocalAndRemote
    | Dispatch(field: HomeField, flag: bool)
    | SsxSignIn
    | ActivateSession
    | HostOrbit
    | SsxSignOut
    | ResetLocal

  /** The component's state hooks. */
  datatype PanelState = PanelState(
    showModal: bool,
    showSpinner: bool,
    modalState: ModalState,
    apiKey: string,
    isApiKeyValid: bool,
    isInvalidApiKey: bool,
    signedIn: bool)

  /** How an async handler settles: the state at that point, the log of
      calls (the calls made before it, then its own), and whether its
      promise rejects. */
  datatype Outcome = Outcome(state: PanelState, effects: seq<Effect>, rejected: bool)

  /** The calls a handler made on top of the log it started from. */
  function CallsSince(o: Outcome, log: seq<Effect>): seq<Effect>
  {
    if |log| <= |o.effects| then o.effects[|log|..] else []
  }

  /** The log a handler hands back starts with the log it was given. */
  predicate Extends(o: Outcome, log: seq<Effect>)
  {
    |log| <= |o.effects| && o.effects[..|log|] == log
  }

  /** The state of a freshly mounted panel. */
  function Initial(ssxEnabled: bool): (s: PanelState)
    ensures s.modalState == SignIn && !s.signedIn && s.showModal == ssxEnabled
    ensures !s.showSpinner && s.apiKey == "" && !s.isApiKeyValid && !s.isInvalidApiKey
  {
    PanelState(ssxEnabled, false, SignIn, "", false, false, false)
  }

  /** The key-validity rule of the input box: the typed value is not empty
      once trimmed. */
  predicate KeyInputValid(value: string)
  {
    JsStrings.Trim(value) != []
  }

  /** The same rule read character by character (see `KeyRule`). */
  predicate HasNonWhitespace(value: string)
  {
    exists i :: 0 <= i < |value| && !JsStrings.IsJsWhitespace(value[i])
  }

  lemma KeyRule(value: string)
    ensures KeyInputValid(value) <==> HasNonWhitespace(value)
  {
    JsStrings.TrimEmpty(value);
  }

  /** What every handler keeps: the modal is closed for good only once
      signed in, and the submit flag agrees with the typed key. */
  predicate Inv(s: PanelState)
  {
    (s.modalState == None ==> s.signedIn)
    && (s.isApiKeyValid <==> HasNonWhitespace(s.apiKey))
  }

  /** The response seen by `checkAPIKey`: without a session object the
      optional chain yields nothing and the data is null. */
  function StoredKeyFor(hasSession: bool, svc: Services): StoredKey
  {
    if hasSession then svc.storedKey else Fetched(Wrappers.None)
  }

  predicate HasStoredKey(hasSession: bool, svc: Services)
  {
    var k := StoredKeyFor(hasSession, svc);
    k.Fetched? && k.data.Some? && k.data.value != ""
  }

  /** The stored key exists and the probe accepts it. */
  predicate KeyAccepted(hasSession: bool, svc: Services)
  {
    HasStoredKey(hasSession, svc) && svc.probe(StoredKeyFor(hasSession, svc).data.value) == ProbeOk
  }

  predicate KeyProbeThrew(hasSession: bool, svc: Services)
  {
    HasStoredKey(hasSession, svc) && svc.probe(StoredKeyFor(hasSession, svc).data.value) == ProbeThrows
  }

  /** `handleSSXLoaded`: load the app's data, then publish `ssxEnabled` and
      `signedIn` and close the modal for good; a failed load rejects before
      any of that. */
  function SsxLoadedStep(s: PanelState, log: seq<Effect>, svc: Services): (o: Outcome)
    ensures o.rejected <==> !svc.loadOk
    ensures o.rejected ==> o == Outcome(s, log + [LoadLocalAndRemote], true)
    ensures !o.rejected ==>
              o.state.modalState == None && o.state.signedIn
              && o.state == s.(signedIn := o.state.signedIn, modalState := o.state.modalState)
              && o.effects == log + [LoadLocalAndRemote, Dispatch(SsxEnabledField, true), Dispatch(SignedInField, true)]
  {
    var loading := log + [LoadLocalAndRemote];
    if !svc.loadOk then Outcome(s, loading, true)
    else
      var dispatched := loading + [Dispatch(SsxEnabledField, true)] + [Dispatch(SignedInField, true)];
      Outcome(s.(signedIn := true).(modalState := None), dispatched, false)
  }

  /** `checkAPIKey`: fetch the stored key; an accepted key loads the app,
      anything else asks for a key. Only a throwing probe raises the
      "invalid or expired" notice. A throwing `storage.get` and a failed
      load reject, the latter because `handleSSXLoaded()` is returned, not
      awaited, inside the `try`. */
  function CheckApiKeyStep(s: PanelState, log: seq<Effect>, hasSession: bool, svc: Services): (o: Outcome)
    ensures o.state.apiKey == s.apiKey && o.state.isApiKeyValid == s.isApiKeyValid
    ensures o.state.showModal == s.showModal
    ensures Extends(o, log)
  {
    var fetched := StoredKeyFor(hasSession, svc);
    var gets := if hasSession then log + [StorageGet(StorageOpenAiApiKeyName)] else log;
    match fetched
    case GetThrows => Outcome(s, gets, true)
    case Fetched(data) =>
      if data.Some? && data.value != "" then
        var key := data.value;
        var asked := gets + [GetModels(key)];
        match svc.probe(key)
        case ProbeThrows =>
          Outcome(s.(isInvalidApiKey := true).(showSpinner := false).(modalState := OpenAIKey).(modalState := OpenAIKey),
                  asked, false)
        case ProbeFalsy => Outcome(s.(modalState := OpenAIKey), asked, false)
        case ProbeOk => SsxLoadedStep(s, asked + [ApiKeyChange(key, false)], svc)
      else Outcome(s.(modalState := OpenAIKey), gets, false)
  }

  /** What `checkAPIKey` leaves in the panel's state, case by case. */
  lemma CheckApiKeyOutcome(s: PanelState, log: seq<Effect>, hasSession: bool, svc: Services, o: Outcome)
    requires o == CheckApiKeyStep(s, log, hasSession, svc)
    ensures !hasSession ==> o == Outcome(s.(modalState := OpenAIKey), log, false)
    ensures o.rejected <==>
              StoredKeyFor(hasSession, svc).GetThrows? || (KeyAccepted(hasSession, svc) && !svc.loadOk)
    ensures o.rejected ==> o.state == s
    ensures !o.rejected && KeyAccepted(hasSession, svc) ==>
              o.state == s.(signedIn := true, modalState := None)
    ensures !o.rejected && !KeyAccepted(hasSession, svc) ==>
              o.state.modalState == OpenAIKey
              && (o.state.isInvalidApiKey <==> s.isInvalidApiKey || KeyProbeThrew(hasSession, svc))
              && (o.state.showSpinner <==> s.showSpinner && !KeyProbeThrew(hasSession, svc))
              && o.state.signedIn == s.signedIn
  {
  }

  /** The calls `checkAPIKey` makes, in order: the storage read (only with a
      session object), the probe of a non-empty stored key and, once it is
      accepted, the hand-over to the chat bar and `handleSSXLoaded`'s calls. */
  lemma CheckApiKeyCalls(s: PanelState, log: seq<Effect>, hasSession: bool, svc: Services, o: Outcome)
    requires o == CheckApiKeyStep(s, log, hasSession, svc)
    ensures var gets := if hasSession then [StorageGet(StorageOpenAiApiKeyName)] else [];
      if !HasStoredKey(hasSession, svc) then o.effects == log + gets
      else
        var key := StoredKeyFor(hasSession, svc).data.value;
        if !KeyAccepted(hasSession, svc) then o.effects == log + gets + [GetModels(key)]
        else
          o.effects == log + gets + [GetModels(key), ApiKeyChange(key, false), LoadLocalAndRemote]
                       + (if svc.loadOk then [Dispatch(SsxEnabledField, true), Dispatch(SignedInField, true)] else [])
  {
    if KeyAccepted(hasSession, svc) {
      var key := StoredKeyFor(hasSession, svc).data.value;
      var gets := if hasSession then log + [StorageGet(StorageOpenAiApiKeyName)] else log;
      var loading := gets + [GetModels(key)] + [ApiKeyChange(key, false)] + [LoadLocalAndRemote];
      assert loading == log + (gets[|log|..]) + [GetModels(key), ApiKeyChange(key, false), LoadLocalAndRemote];
    }
  }

  /** `handleSignin`: with a session object, sign in and open the vault; a
      missing vault leads to the create-vault modal without signing in,
      everything else (a failure included, since it is caught) ends signed
      in with the spinner off. */
  function SigninStep(s: PanelState, log: seq<Effect>, hasSession: bool, svc: Services): (o: Outcome)
    ensures o.state.apiKey == s.apiKey && o.state.isApiKeyValid == s.isApiKeyValid
    ensures o.state.showModal == s.showModal
    ensures Extends(o, log)
  {
    if !hasSession then Outcome(s, log, false)
    else
      var spinning := s.(showSpinner := true);
      var signingIn := log + [SsxSignIn];
      if svc.signInOk && svc.vault == VaultMissing then
        Outcome(spinning.(showSpinner := false).(modalState := CreateVault), signingIn + [ActivateSession], false)
      else
        // every other path, a caught failure included, meets here
        var settled :=
          if !svc.signInOk then Outcome(spinning, signingIn, false)
          else if svc.vault == VaultThrows then Outcome(spinning, signingIn + [ActivateSession], false)
          else CheckApiKeyStep(spinning, signingIn + [ActivateSession], true, svc);
        Outcome(settled.state.(showSpinner := false).(signedIn := true), settled.effects, false)
  }

  /** What `handleSignin` leaves in the panel's state, case by case. */
  lemma SigninOutcome(s: PanelState, log: seq<Effect>, hasSession: bool, svc: Services, o: Outcome)
    requires o == SigninStep(s, log, hasSession, svc)
    ensures !hasSession ==> o == Outcome(s, log, false)
    ensures hasSession ==> !o.rejected && !o.state.showSpinner
    ensures hasSession && svc.signInOk && svc.vault == VaultMissing ==>
              o.state == s.(showSpinner := false, modalState := CreateVault)
    ensures hasSession && !(svc.signInOk && svc.vault == VaultMissing) ==> o.state.signedIn
    ensures hasSession && svc.signInOk && svc.vault == VaultFound ==>
              (KeyAccepted(true, svc) && svc.loadOk ==> o.state.modalState == None)
              && (svc.storedKey.Fetched? && !KeyAccepted(true, svc) ==> o.state.modalState == OpenAIKey)
  {
    if hasSession && svc.signInOk && svc.vault == VaultFound {
      var spinning := s.(showSpinner := true);
      var activating := log + [SsxSignIn] + [ActivateSession];
      CheckApiKeyOutcome(spinning, activating, true, svc, CheckApiKeyStep(spinning, activating, true, svc));
    }
  }

  /** The calls `handleSignin` makes: the sign-in first, the vault check
      once it succeeds, and the data load only when the vault exists. */
  lemma SigninCalls(s: PanelState, log: seq<Effect>, hasSession: bool, svc: Services, o: Outcome)
    requires o == SigninStep(s, log, hasSession, svc)
    ensures hasSession ==> |CallsSince(o, log)| >= 1 && CallsSince(o, log)[0] == SsxSignIn
    ensures hasSession && !svc.signInOk ==> o.effects == log + [SsxSignIn]
    ensures hasSession && svc.signInOk ==>
              |CallsSince(o, log)| >= 2 && CallsSince(o, log)[1] == ActivateSession
    ensures hasSession && svc.signInOk && svc.vault != VaultFound ==>
              o.effects == log + [SsxSignIn, ActivateSession]
  {
    if hasSession {
      var signingIn := log + [SsxSignIn];
      assert o.effects[|log|] == SsxSignIn;
      if svc.signInOk {
        var activating := signingIn + [ActivateSession];
        assert o.effects[|log| + 1] == ActivateSession;
      }
    }
  }

  /** `signOut`: ask the session object to sign out (not awaited), reset the
      local data, then show the sign-in modal signed out. A throwing reset
      rejects before any state changes. */
  function SignOutStep(s: PanelState, log: seq<Effect>, hasSession: bool, svc: Services): (o: Outcome)
    ensures o.effects == log + (if hasSession then [SsxSignOut, ResetLocal] else [ResetLocal])
    ensures o.rejected <==> !svc.resetOk
    ensures o.rejected ==> o.state == s
    ensures !o.rejected ==>
              !o.state.signedIn && o.state.showModal && o.state.modalState == SignIn
              && o.state == s.(signedIn := false, showModal := true, modalState := SignIn)
  {
    var signingOut := if hasSession then log + [SsxSignOut] else log;
    var resetting := signingOut + [ResetLocal];
    if !svc.resetOk then Outcome(s, resetting, true)
    else Outcome(s.(signedIn := false).(showModal := true).(modalState := SignIn), resetting, false)
  }

  /** `handleCreateVault`: host the vault, move to the key modal and check
      for a stored key; every failure is caught (without a session object
      the `hostOrbit` call itself throws), and the spinner ends off. */
  function CreateVaultStep(s: PanelState, log: seq<Effect>, hasSession: bool, svc: Services): (o: Outcome)
    ensures o.state.apiKey == s.apiKey && o.state.isApiKeyValid == s.isApiKeyValid
    ensures o.state.showModal == s.showModal
    ensures Extends(o, log)
  {
    var spinning := s.(showSpinner := true);
    if !hasSession then Outcome(spinning.(showSpinner := false), log, false)
    else
      var hosting := log + [HostOrbit];
      if !svc.hostOrbitOk then Outcome(spinning.(showSpinner := false), hosting, false)
      else
        var checked := CheckApiKeyStep(spinning.(modalState := OpenAIKey), hosting, true, svc);
        Outcome(checked.state.(showSpinner := false), checked.effects, false)
  }

  /** What `handleCreateVault` leads to, case by case. */
  lemma CreateVaultOutcome(s: PanelState, log: seq<Effect>, hasSession: bool, svc: Services, o: Outcome)
    requires o == CreateVaultStep(s, log, hasSession, svc)
    ensures !o.rejected && !o.state.showSpinner
    ensures !(hasSession && svc.hostOrbitOk) ==>
              o.state == s.(showSpinner := false) && o.effects == log + (if hasSession then [HostOrbit] else [])
    ensures hasSession && svc.hostOrbitOk ==>
              |CallsSince(o, log)| >= 2 && CallsSince(o, log)[0] == HostOrbit
              && CallsSince(o, log)[1] == StorageGet(StorageOpenAiApiKeyName)
              && (o.state.modalState == None <==> KeyAccepted(true, svc) && svc.loadOk)
              && (o.state.modalState != None ==> o.state.modalState == OpenAIKey)
  {
    if hasSession && svc.hostOrbitOk {
      var hosting := log + [HostOrbit];
      var keyModal := s.(showSpinner := true, modalState := OpenAIKey);
      var checked := CheckApiKeyStep(keyModal, hosting, true, svc);
      CheckApiKeyOutcome(keyModal, hosting, true, svc, checked);
      CheckApiKeyCalls(keyModal, hosting, true, svc, checked);
      assert o.effects[|log|] == HostOrbit;
      assert o.effects[|log| + 1] == StorageGet(StorageOpenAiApiKeyName);
    }
  }

  /** The typed key is accepted by the probe, stored (when there is a
      session object) and the app loads. */
  predicate SubmitAccepted(s: PanelState, hasSession: bool, svc: Services)
  {
    s.isApiKeyValid && svc.probe(s.apiKey) == ProbeOk && (!hasSession || svc.putOk) && svc.loadOk
  }

  /** `handleSubmitAPIKey`: nothing unless the key is valid; the key is
      probed, stored under "openai-api-key", handed to the chat bar and the
      app loaded, in that order. Failures are swallowed and leave the
      spinner on. */
  function SubmitApiKeyStep(s: PanelState, log: seq<Effect>, hasSession: bool, svc: Services): (o: Outcome)
    ensures o.state.apiKey == s.apiKey && o.state.isApiKeyValid == s.isApiKeyValid
    ensures o.state.showModal == s.showModal
    ensures Extends(o, log)
  {
    if !s.isApiKeyValid then Outcome(s, log, false)
    else
      var spinning := s.(showSpinner := true);
      var asked := log + [GetModels(s.apiKey)];
      if svc.probe(s.apiKey) != ProbeOk then Outcome(spinning, asked, false)
      else
        var stored := if hasSession then asked + [StoragePut(StorageOpenAiApiKeyName, s.apiKey)] else asked;
        if hasSession && !svc.putOk then Outcome(spinning, stored, false)
        else
          var loaded := SsxLoadedStep(spinning, stored + [ApiKeyChange(s.apiKey, false)], svc);
          if loaded.rejected then Outcome(loaded.state, loaded.effects, false)
          else Outcome(loaded.state.(showSpinner := false), loaded.effects, false)
  }

  /** What `handleSubmitAPIKey` leads to, case by case. */
  lemma SubmitApiKeyOutcome(s: PanelState, log: seq<Effect>, hasSession: bool, svc: Services, o: Outcome)
    requires o == SubmitApiKeyStep(s, log, hasSession, svc)
    ensures !s.isApiKeyValid ==> o == Outcome(s, log, false)
    ensures !o.rejected
    ensures s.isApiKeyValid ==>
              |CallsSince(o, log)| >= 1 && CallsSince(o, log)[0] == GetModels(s.apiKey)
              && (o.state.showSpinner <==> !SubmitAccepted(s, hasSession, svc))
    ensures s.isApiKeyValid && !SubmitAccepted(s, hasSession, svc) ==>
              o.state == s.(showSpinner := true) && Dispatch(SignedInField, true) !in CallsSince(o, log)
    ensures SubmitAccepted(s, hasSession, svc) ==>
              o.state == s.(showSpinner := false, signedIn := true, modalState := None)
              && CallsSince(o, log) ==
                   [GetModels(s.apiKey)]
                   + (if hasSession then [StoragePut(StorageOpenAiApiKeyName, s.apiKey)] else [])
                   + [ApiKeyChange(s.apiKey, false), LoadLocalAndRemote,
                      Dispatch(SsxEnabledField, true), Dispatch(SignedInField, true)]
  {
    if s.isApiKeyValid {
      var asked := log + [GetModels(s.apiKey)];
      assert CallsSince(o, log)[0] == asked[|log|];
      if svc.probe(s.apiKey) == ProbeOk {
        var stored := if hasSession then asked + [StoragePut(StorageOpenAiApiKeyName, s.apiKey)] else asked;
        var changed := stored + [ApiKeyChange(s.apiKey, false)];
        if !(hasSession && !svc.putOk) && !svc.loadOk {
          assert CallsSince(o, log) == (changed + [LoadLocalAndRemote])[|log|..];
        }
      } else {
        assert CallsSince(o, log) == [GetModels(s.apiKey)];
      }
    }
  }

  /** The key input's change handler. */
  function ApiKeyInputStep(s: PanelState, value: string): (r: PanelState)
    ensures r.apiKey == value
    ensures r.isApiKeyValid <==> HasNonWhitespace(value)
    ensures r == s.(apiKey := r.apiKey, isApiKeyValid := r.isApiKeyValid)
  {
    KeyRule(value);
    s.(apiKey := value).(isApiKeyValid := KeyInputValid(value))
  }

  /** The sidebar button: signed in, it signs out; otherwise it opens the
      sign-in modal. */
  function SidebarClickStep(s: PanelState, log: seq<Effect>, hasSession: bool, svc: Services): (o: Outcome)
    ensures s.signedIn ==> o == SignOutStep(s, log, hasSession, svc)
    ensures !s.signedIn ==> o == Outcome(s.(showModal := true, modalState := SignIn), log, false)
  {
    if s.signedIn then SignOutStep(s, log, hasSession, svc)
    else Outcome(s.(showModal := true).(modalState := SignIn), log, false)
  }

  function SidebarCaption(signedIn: bool): string
  {
    if signedIn then "Sign-out" else "Sign-in"
  }

  /** What the dialog shows. */
  datatype Content =
    | NoDialog
    | SignInSpinner
    | SignInPrompt(button: SignInButton.View)
    | CreateVaultPrompt(disabled: bool, caption: string)
    | ApiKeyPrompt(invalidNotice: bool, submitDisabled: bool, caption: string)

  datatype Screen = Screen(sidebarCaption: string, content: Content)

  datatype Rendered = Rendered(state: PanelState, screen: Screen)

  /** One render: the sidebar button and, when shown, the modal's content.
      Rendering the closed modal state hides the modal. */
  function RenderStep(s: PanelState, signingIn: bool, wallet: SignInButton.Wallet): (r: Rendered)
    ensures r.screen.sidebarCaption == (if s.signedIn then "Sign-out" else "Sign-in")
    ensures r.state == (if s.showModal && s.modalState == None then s.(showModal := false) else s)
    ensures r.screen.content.NoDialog? <==> !s.showModal || s.modalState == None
    ensures r.screen.content.SignInSpinner? <==>
              s.showModal && s.modalState == SignIn && (signingIn || s.showSpinner)
    ensures r.screen.content.CreateVaultPrompt? ==>
              s.modalState == CreateVault && r.screen.content.disabled == s.showSpinner
    ensures r.screen.content.ApiKeyPrompt? ==>
              s.modalState == OpenAIKey
              && r.screen.content.invalidNotice == s.isInvalidApiKey
              && r.screen.content.submitDisabled == !s.isApiKeyValid
  {
    var caption := SidebarCaption(s.signedIn);
    if !s.showModal then Rendered(s, Screen(caption, NoDialog))
    else
      match s.modalState
      case SignIn =>
        var spinning := signingIn || s.showSpinner;
        if spinning then Rendered(s, Screen(caption, SignInSpinner))
        else Rendered(s, Screen(caption, SignInPrompt(SignInButton.Render(wallet, spinning))))
      case CreateVault =>
        Rendered(s, Screen(caption, CreateVaultPrompt(s.showSpinner,
                                                      if s.showSpinner then "Creating vault..." else "Create Vault")))
      case OpenAIKey =>
        Rendered(s, Screen(caption, ApiKeyPrompt(s.isInvalidApiKey, !s.isApiKeyValid,
                                                 if s.showSpinner then "Submitting..." else "Submit")))
      case None => Rendered(s.(showModal := false), Screen(caption, NoDialog))
  }

  /** The freshly mounted panel satisfies the invariant. */
  lemma InitialInv(ssxEnabled: bool)
    ensures Inv(Initial(ssxEnabled))
  {
  }

  /** `checkAPIKey` keeps the invariant, whatever the services do. */
  lemma CheckApiKeyKeepsInv(s: PanelState, log: seq<Effect>, hasSession: bool, svc: Services)
    requires Inv(s)
    ensures Inv(CheckApiKeyStep(s, log, hasSession, svc).state)
  {
    CheckApiKeyOutcome(s, log, hasSession, svc, CheckApiKeyStep(s, log, hasSession, svc));
  }

  lemma SigninKeepsInv(s: PanelState, log: seq<Effect>, hasSession: bool, svc: Services)
    requires Inv(s)
    ensures Inv(SigninStep(s, log, hasSession, svc).state)
  {
    SigninOutcome(s, log, hasSession, svc, SigninStep(s, log, hasSession, svc));
  }

  lemma CreateVaultKeepsInv(s: PanelState, log: seq<Effect>, hasSession: bool, svc: Services)
    requires Inv(s)
    ensures Inv(CreateVaultStep(s, log, hasSession, svc).state)
  {
    CreateVaultOutcome(s, log, hasSession, svc, CreateVaultStep(s, log, hasSession, svc));
  }

  lemma SubmitApiKeyKeepsInv(s: PanelState, log: seq<Effect>, hasSession: bool, svc: Services)
    requires Inv(s)
    ensures Inv(SubmitApiKeyStep(s, log, hasSession, svc).state)
  {
    SubmitApiKeyOutcome(s, log, hasSession, svc, SubmitApiKeyStep(s, log, hasSession, svc));
  }

  /** Signing out, the sidebar click, typing a key and rendering keep the
      invariant too. */
  lemma SimpleStepsKeepInv(s: PanelState, log: seq<Effect>, hasSession: bool, svc: Services, value: string,
                           signingIn: bool, wallet: SignInButton.Wallet)
    requires Inv(s)
    ensures Inv(SignOutStep(s, log, hasSession, svc).state)
    ensures Inv(SidebarClickStep(s, log, hasSession, svc).state)
    ensures Inv(ApiKeyInputStep(s, value))
    ensures Inv(RenderStep(s, signingIn, wallet).state)
  {
  }

  /** Once raised, the "invalid or expired" notice is never cleared by
      `checkAPIKey`, and so not by the handlers that call it. */
  lemma CheckApiKeyKeepsNotice(s: PanelState, log: seq<Effect>, hasSession: bool, svc: Services)
    requires s.isInvalidApiKey
    ensures CheckApiKeyStep(s, log, hasSession, svc).state.isInvalidApiKey
  {
    CheckApiKeyOutcome(s, log, hasSession, svc, CheckApiKeyStep(s, log, hasSession, svc));
  }

  lemma SigninKeepsNotice(s: PanelState, log: seq<Effect>, hasSession: bool, svc: Services)
    requires s.isInvalidApiKey
    ensures SigninStep(s, log, hasSession, svc).state.isInvalidApiKey
  {
    if hasSession && svc.signInOk && svc.vault == VaultFound {
      CheckApiKeyKeepsNotice(s.(showSpinner := true), log + [SsxSignIn] + [ActivateSession], true, svc);
    }
  }

  lemma CreateVaultKeepsNotice(s: PanelState, log: seq<Effect>, hasSession: bool, svc: Services)
    requires s.isInvalidApiKey
    ensures CreateVaultStep(s, log, hasSession, svc).state.isInvalidApiKey
  {
    if hasSession && svc.hostOrbitOk {
      CheckApiKeyKeepsNotice(s.(showSpinner := true, modalState := OpenAIKey), log + [HostOrbit], true, svc);
    }
  }

  /** Submitting a key does not clear the notice, an accepted key included. */
  lemma SubmitApiKeyKeepsNotice(s: PanelState, log: seq<Effect>, hasSession: bool, svc: Services)
    requires s.isInvalidApiKey
    ensures SubmitApiKeyStep(s, log, hasSession, svc).state.isInvalidApiKey
  {
    SubmitApiKeyOutcome(s, log, hasSession, svc, SubmitApiKeyStep(s, log, hasSession, svc));
  }

  /** Nor do signing out, the sidebar click, typing a key or rendering. */
  lemma SimpleStepsKeepNotice(s: PanelState, log: seq<Effect>, hasSession: bool, svc: Services, value: string,
                              signingIn: bool, wallet: SignInButton.Wallet)
    requires s.isInvalidApiKey
    ensures SignOutStep(s, log, hasSession, svc).state.isInvalidApiKey
    ensures ApiKeyInputStep(s, value).isInvalidApiKey
    ensures SidebarClickStep(s, log, hasSession, svc).state.isInvalidApiKey
    ensures RenderStep(s, signingIn, wallet).state.isInvalidApiKey
  {
  }

  /** The wallet button inside the sign-in modal is only drawn while
      nothing is spinning, so it is never drawn disabled. */
  lemma ModalSignInButtonEnabled(s: PanelState, signingIn: bool, wallet: SignInButton.Wallet)
    requires RenderStep(s, signingIn, wallet).screen.content.SignInPrompt?
    ensures var b := RenderStep(s, signingIn, wallet).screen.content.button.button;
      (b.ConnectButton? || b.SignInActionButton?) ==> !b.disabled && b.caption == "Sign-In"
  {
  }

  /** The panel component. `state` holds its state hooks, each `setX(v)`
      becoming an update of that one field; `effects` records the calls it
      makes. */
  class Panel {
    var state: PanelState
    var effects: seq<Effect>

    predicate Valid()
      reads this
    {
      Inv(state)
    }

    /** Mounting: the modal starts at sign-in, shown exactly when the app
        has the session feature enabled. */
    constructor (ssxEnabled: bool)
      ensures state == Initial(ssxEnabled) && effects == []
      ensures Valid()
    {
      state := PanelState(ssxEnabled, false, SignIn, "", false, false, false);
      effects := [];
      InitialInv(ssxEnabled);
    }

    /** `handleSSXLoaded`. */
    method SsxLoaded(svc: Services) returns (rejected: bool)
      requires Valid()
      modifies this
      ensures Valid()
      ensures state == SsxLoadedStep(old(state), old(effects), svc).state
      ensures effects == SsxLoadedStep(old(state), old(effects), svc).effects
      ensures rejected == SsxLoadedStep(old(state), old(effects), svc).rejected
    {
      effects := effects + [LoadLocalAndRemote];
      if !svc.loadOk {
        return true;
      }
      effects := effects + [Dispatch(SsxEnabledField, true)];
      effects := effects + [Dispatch(SignedInField, true)];
      state := state.(signedIn := true);
      state := state.(modalState := None);
      rejected := false;
    }

    /** `checkAPIKey`. */
    method CheckApiKey(hasSession: bool, svc: Services) returns (rejected: bool)
      requires Valid()
      modifies this
      ensures Valid()
      ensures state == CheckApiKeyStep(old(state), old(effects), hasSession, svc).state
      ensures effects == CheckApiKeyStep(old(state), old(effects), hasSession, svc).effects
      ensures rejected == CheckApiKeyStep(old(state), old(effects), hasSession, svc).rejected
    {
      CheckApiKeyKeepsInv(state, effects, hasSession, svc);
      var response := Fetched(Wrappers.None);
      if hasSession {
        effects := effects + [StorageGet(StorageOpenAiApiKeyName)];
        response := svc.storedKey;
      }
      if response.GetThrows? {
        return true;
      }
      var data := response.data;
      if data.Some? && data.value != "" {
        var key := data.value;
        effects := effects + [GetModels(key)];
        var probed := svc.probe(key);
        if probed == ProbeThrows {
          state := state.(isInvalidApiKey := true);
          state := state.(showSpinner := false);
          state := state.(modalState := OpenAIKey);
        } else if probed == ProbeOk {
          effects := effects + [ApiKeyChange(key, false)];
          rejected := SsxLoaded(svc);
          return;
        }
      }
      state := state.(modalState := OpenAIKey);
      rejected := false;
    }

    /** `handleSignin`. */
    method HandleSignin(hasSession: bool, svc: Services)
      requires Valid()
      modifies this
      ensures Valid()
      ensures state == SigninStep(old(state), old(effects), hasSession, svc).state
      ensures effects == SigninStep(old(state), old(effects), hasSession, svc).effects
    {
      SigninKeepsInv(state, effects, hasSession, svc);
      if !hasSession {
        return;
      }
      state := state.(showSpinner := true);
      effects := effects + [SsxSignIn];
      if svc.signInOk {
        effects := effects + [ActivateSession];
        if svc.vault == VaultMissing {
          state := state.(showSpinner := false);
          state := state.(modalState := CreateVault);
          return;
        }
        if svc.vault == VaultFound {
          // a rejection of checkAPIKey is caught here
          var checkRejected := CheckApiKey(true, svc);
        }
      }
      state := state.(showSpinner := false);
      state := state.(signedIn := true);
    }

    /** `signOut`. */
    method SignOut(hasSession: bool, svc: Services) returns (rejected: bool)
      requires Valid()
      modifies this
      ensures Valid()
      ensures state == SignOutStep(old(state), old(effects), hasSession, svc).state
      ensures effects == SignOutStep(old(state), old(effects), hasSession, svc).effects
      ensures rejected == SignOutStep(old(state), old(effects), hasSession, svc).rejected
    {
      if hasSession {
        effects := effects + [SsxSignOut];
      }
      effects := effects + [ResetLocal];
      if !svc.resetOk {
        return true;
      }
      state := state.(signedIn := false);
      state := state.(showModal := true);
      state := state.(modalState := SignIn);
      rejected := false;
    }

    /** `handleCreateVault`. */
    method HandleCreateVault(hasSession: bool, svc: Services)
      requires Valid()
      modifies this
      ensures Valid()
      ensures state == CreateVaultStep(old(state), old(effects), hasSession, svc).state
      ensures effects == CreateVaultStep(old(state), old(effects), hasSession, svc).effects
    {
      state := state.(showSpinner := true);
      if hasSession {
        effects := effects + [HostOrbit];
        if svc.hostOrbitOk {
          state := state.(modalState := OpenAIKey);
          // a rejection of checkAPIKey is caught here
          var checkRejected := CheckApiKey(true, svc);
        }
      }
      state := state.(showSpinner := false);
    }

    /** `handleSubmitAPIKey`. */
    method HandleSubmitApiKey(hasSession: bool, svc: Services)
      requires Valid()
      modifies this
      ensures Valid()
      ensures state == SubmitApiKeyStep(old(state), old(effects), hasSession, svc).state
      ensures effects == SubmitApiKeyStep(old(state), old(effects), hasSession, svc).effects
    {
      if !state.isApiKeyValid {
        return;
      }
      state := state.(showSpinner := true);
      var apiKey := state.apiKey;
      effects := effects + [GetModels(apiKey)];
      if svc.probe(apiKey) == ProbeOk {
        if hasSession {
          effects := effects + [StoragePut(StorageOpenAiApiKeyName, apiKey)];
          if !svc.putOk {
            return;
          }
        }
        effects := effects + [ApiKeyChange(apiKey, false)];
        var loadRejected := SsxLoaded(svc);
        if !loadRejected {
          state := state.(showSpinner := false);
        }
      }
    }

    /** The key input's `onChange`. */
    method ApiKeyInput(value: string)
      requires Valid()
      modifies this
      ensures Valid()
      ensures state == ApiKeyInputStep(old(state), value)
      ensures effects == old(effects)
    {
      KeyRule(value);
      state := state.(apiKey := value);
      state := state.(isApiKeyValid := KeyInputValid(value));
    }

    /** The sidebar button's `onClick`. */
    method SidebarClick(hasSession: bool, svc: Services)
      requires Valid()
      modifies this
      ensures Valid()
      ensures state == SidebarClickStep(old(state), old(effects), hasSession, svc).state
      ensures effects == SidebarClickStep(old(state), old(effects), hasSession, svc).effects
    {
      if state.signedIn {
        var signOutRejected := SignOut(hasSession, svc);
      } else {
        state := state.(showModal := true);
        state := state.(modalState := SignIn);
      }
    }

    /** One render of the component. */
    method Render(signingIn: bool, wallet: SignInButton.Wallet) returns (screen: Screen)
      requires Valid()
      modifies this
      ensures Valid()
      ensures state == RenderStep(old(state), signingIn, wallet).state
      ensures screen == RenderStep(old(state), signingIn, wallet).screen
      ensures effects == old(effects)
    {
      var caption := if state.signedIn then "Sign-out" else "Sign-in";
      var content := NoDialog;
      if state.showModal {
        match state.modalState {
          case SignIn =>
            var spinning := signingIn || state.showSpinner;
            if spinning {
              content := SignInSpinner;
            } else {
              content := SignInPrompt(SignInButton.Render(wallet, spinning));
            }
          case CreateVault =>
            content := CreateVaultPrompt(state.showSpinner,
                                         if state.showSpinner then "Creating vault..." else "Create Vault");
          case OpenAIKey =>
            content := ApiKeyPrompt(state.isInvalidApiKey, !state.isApiKeyValid,
                                    if state.showSpinner then "Submitting..." else "Submit");
          case None =>
            state := state.(showModal := false);
        }
      }
      screen := Screen(caption, content);
    }
  }
}
