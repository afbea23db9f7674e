/** components/Chatbar/components/Attestation.tsx: the dialog that issues a
    signed attestation of the selected conversation and offers it as a
    download. The wallet's address and signer, the witnessing client and
    `JSON.stringify` are inputs; the issuance itself is `Rebase.Issue`. */
module Attestation {
  import Wrappers
  import JsStrings
  import Json
  import Chat
  import Rebase

  datatype ModalState = AttestInit | AttestLoading | AttestDownload | None

  /** The component's state hooks. */
  datatype AttestState = AttestState(showModal: bool, modalState: ModalState, credential: string)

  /** The state of a freshly mounted dialog: hidden, closed, no credential. */
  function Initial(): (s: AttestState)
    ensures !s.showModal && s.modalState == None && s.credential == ""
  {
    AttestState(false, None, "")
  }

  /** The object `conversationToAttestationText` serialises. */
  function AttestationData(c: Chat.Conversation): (v: Json.JsValue)
    ensures v.JsObject? && Json.Keys(v.fields) == ["model", "prompt", "messages"]
  {
    Json.JsObject([("model", Json.JsString(c.model.id)), ("prompt", Json.JsString(c.prompt)), ("messages", c.messages)])
  }

  /** The serialised object: exactly the model's id, the prompt and the
      messages are attested; the conversation's id, name and the model's
      name are not. */
  lemma AttestationDataFields(a: Chat.Conversation, b: Chat.Conversation)
    ensures AttestationData(a) == AttestationData(b) <==>
              a.model.id == b.model.id && a.prompt == b.prompt && a.messages == b.messages
  {
    if AttestationData(a) == AttestationData(b) {
      assert AttestationData(a).fields[0].1 == AttestationData(b).fields[0].1;
      assert AttestationData(a).fields[1].1 == AttestationData(b).fields[1].1;
      assert AttestationData(a).fields[2].1 == AttestationData(b).fields[2].1;
    }
  }

  /** `conversationToAttestationText`. */
  function AttestationText(c: Chat.Conversation, stringify: Json.JsValue -> string): string
  {
    stringify(AttestationData(c))
  }

  /** Whatever the serialiser, the attested text depends only on the model's
      id, the prompt and the messages. */
  lemma AttestationTextFields(a: Chat.Conversation, b: Chat.Conversation, stringify: Json.JsValue -> string)
    requires a.model.id == b.model.id && a.prompt == b.prompt && a.messages == b.messages
    ensures AttestationText(a, stringify) == AttestationText(b, stringify)
  {
    AttestationDataFields(a, b);
  }

  /** `address || ''`: a missing or empty address is passed as "". */
  function AddressArgument(address: Wrappers.Option<string>): (r: string)
    ensures address.Some? ==> r == address.value
    ensures address.None? ==> r == ""
  {
    if address.Some? && address.value != "" then address.value else ""
  }

  /** The inputs of one generation: the session's address, its signer and
      the witnessing client. */
  datatype Services = Services(
    address: Wrappers.Option<string>,
    signMessage: string -> Wrappers.Result<string, string>,
    client: Rebase.WitnessClient)

  /** How `handleGenerateAttestation` settles: the state, the log of calls
      of the issuance, and whether its promise rejects. */
  datatype Outcome = Outcome(state: AttestState, calls: seq<Rebase.Call>, rejected: bool)

  /** The content attested for a conversation: its serialised data, titled
      with the conversation's name. */
  function ContentFor(c: Chat.Conversation, stringify: Json.JsValue -> string): Rebase.Content
  {
    Rebase.Content(AttestationText(c, stringify), c.name)
  }

  /** `handleGenerateAttestation`: nothing without a session object or a
      selected conversation; otherwise the loading state, then the
      issuance, and on success the credential and the download state. A
      failed issuance rejects with the loading state kept. */
  function GenerateStep(s: AttestState, log: seq<Rebase.Call>, hasSession: bool,
                        selected: Wrappers.Option<Chat.Conversation>,
                        svc: Services, stringify: Json.JsValue -> string): (o: Outcome)
    ensures |log| <= |o.calls| && o.calls[..|log|] == log
    ensures o.state.showModal == s.showModal
    ensures o.rejected ==> o.state.credential == s.credential
    ensures o.rejected ==> o.state.modalState == AttestLoading
    ensures o.state.credential != s.credential ==> o.state.modalState == AttestDownload && o.state.credential != ""
  {
    if !hasSession || selected.None? then Outcome(s, log, false)
    else
      var loading := s.(modalState := AttestLoading);
      var run := Rebase.Issue(ContentFor(selected.value, stringify), AddressArgument(svc.address),
                              svc.signMessage, svc.client);
      match run.result
      case Err(_) => Outcome(loading, log + run.calls, true)
      case Ok(jwt) => Outcome(loading.(credential := jwt).(modalState := AttestDownload), log + run.calls, false)
  }

  /** What `handleGenerateAttestation` leads to, case by case. */
  lemma GenerateOutcome(s: AttestState, log: seq<Rebase.Call>, hasSession: bool,
                        selected: Wrappers.Option<Chat.Conversation>,
                        svc: Services, stringify: Json.JsValue -> string, o: Outcome)
    requires o == GenerateStep(s, log, hasSession, selected, svc, stringify)
    ensures !hasSession || selected.None? ==> o == Outcome(s, log, false)
    ensures hasSession && selected.Some? ==>
              var c := selected.value;
              var content := Rebase.Content(stringify(AttestationData(c)), c.name);
              var run := Rebase.Issue(content, AddressArgument(svc.address), svc.signMessage, svc.client);
              && o.calls == log + run.calls
              && o.calls[|log|] == Rebase.StatementCall(Rebase.StatementRequestFor(content, AddressArgument(svc.address)))
              && (o.rejected <==> run.result.Err?)
              && (o.rejected ==> o.state == s.(modalState := AttestLoading))
              && (!o.rejected ==>
                    o.state == s.(modalState := AttestDownload, credential := run.result.value)
                    && o.state.credential != "")
  {
  }

  /** The signer receives exactly the statement text the witness returned. */
  lemma SignsTheStatement(s: AttestState, log: seq<Rebase.Call>, selected: Chat.Conversation,
                          svc: Services, stringify: Json.JsValue -> string)
    requires var st := Rebase.StatementPhase(ContentFor(selected, stringify), AddressArgument(svc.address), svc.client);
      st.result.Ok?
    ensures var st := Rebase.StatementPhase(ContentFor(selected, stringify), AddressArgument(svc.address), svc.client);
      var o := GenerateStep(s, log, true, Wrappers.Some(selected), svc, stringify);
      |o.calls| >= |log| + 2 && o.calls[|log| + 1] == Rebase.SignCall(st.result.value)
  {
  }

  /** The download name: the conversation's name with its first space, and
      only that one, turned into `_`, then `_credential.jwt`; with no
      conversation the template prints "undefined". */
  function DownloadName(selected: Wrappers.Option<Chat.Conversation>): (r: string)
    ensures |r| >= 15 && r[|r| - 15..] == "_credential.jwt"
    ensures selected.None? ==> r == "undefined_credential.jwt"
    ensures selected.Some? ==> |r| == |selected.value.name| + 15
  {
    (if selected.None? then "undefined" else JsStrings.ReplaceFirst(selected.value.name, ' ', '_'))
    + "_credential.jwt"
  }

  /** A name without spaces is kept; in a name with spaces only the first
      one changes. */
  lemma DownloadNameFirstSpace(c: Chat.Conversation, before: string, after: string)
    ensures ' ' !in c.name ==> DownloadName(Wrappers.Some(c)) == c.name + "_credential.jwt"
    ensures ' ' !in before && c.name == before + " " + after ==>
              DownloadName(Wrappers.Some(c)) == before + "_" + after + "_credential.jwt"
  {
    if ' ' !in c.name {
      assert JsStrings.ReplaceFirst(c.name, ' ', '_') == c.name;
    }
    if ' ' !in before && c.name == before + " " + after {
      JsStrings.ReplaceFirstSplit(before, ' ', '_', after);
    }
  }

  /** The dialog's button: show the dialog at its first state. */
  function OpenStep(s: AttestState): (r: AttestState)
    ensures r.showModal && r.modalState == AttestInit && r.credential == s.credential
  {
    s.(showModal := true).(modalState := AttestInit)
  }

  /** "Done": hide the dialog, keeping its state. */
  function DoneStep(s: AttestState): (r: AttestState)
    ensures !r.showModal && r.modalState == s.modalState && r.credential == s.credential
  {
    s.(showModal := false)
  }

  /** What the dialog shows. */
  datatype Content = NoDialog | InitPrompt | WaitingForSignature | DownloadPanel

  datatype Rendered = Rendered(state: AttestState, content: Content)

  /** One render: the content of the current state; rendering the closed
      state hides the dialog. */
  function RenderStep(s: AttestState): (r: Rendered)
    ensures r.state == (if s.showModal && s.modalState == None then s.(showModal := false) else s)
    ensures r.content.NoDialog? <==> !s.showModal || s.modalState == None
    ensures r.content.InitPrompt? <==> s.showModal && s.modalState == AttestInit
    ensures r.content.WaitingForSignature? <==> s.showModal && s.modalState == AttestLoading
    ensures r.content.DownloadPanel? <==> s.showModal && s.modalState == AttestDownload
  {
    if !s.showModal then Rendered(s, NoDialog)
    else
      match s.modalState
      case AttestInit => Rendered(s, InitPrompt)
      case AttestLoading => Rendered(s, WaitingForSignature)
      case AttestDownload => Rendered(s, DownloadPanel)
      case None => Rendered(s.(showModal := false), NoDialog)
  }

  /** What every step keeps: the download state is only reached with an
      issued, non-empty credential. */
  predicate Inv(s: AttestState)
  {
    s.modalState == AttestDownload ==> s.credential != ""
  }

  lemma InitialInv()
    ensures Inv(Initial())
  {
  }

  lemma GenerateKeepsInv(s: AttestState, log: seq<Rebase.Call>, hasSession: bool,
                         selected: Wrappers.Option<Chat.Conversation>,
                         svc: Services, stringify: Json.JsValue -> string)
    requires Inv(s)
    ensures Inv(GenerateStep(s, log, hasSession, selected, svc, stringify).state)
  {
    GenerateOutcome(s, log, hasSession, selected, svc, stringify, GenerateStep(s, log, hasSession, selected, svc, stringify));
  }

  lemma OtherStepsKeepInv(s: AttestState)
    requires Inv(s)
    ensures Inv(OpenStep(s)) && Inv(DoneStep(s)) && Inv(RenderStep(s).state)
  {
  }

  /** The dialog component. `state` holds its state hooks, `calls` the
      calls of the issuances it ran. */
  class AttestationDialog {
    var state: AttestState
    var calls: seq<Rebase.Call>

    predicate Valid()
      reads this
    {
      Inv(state)
    }

    constructor ()
      ensures state == Initial() && calls == []
      ensures Valid()
    {
      state := AttestState(false, None, "");
      calls := [];
    }

    /** `handleGenerateAttestation`. */
    method GenerateAttestation(hasSession: bool, selected: Wrappers.Option<Chat.Conversation>,
                               svc: Services, stringify: Json.JsValue -> string) returns (rejected: bool)
      requires Valid()
      modifies this
      ensures Valid()
      ensures var o := GenerateStep(old(state), old(calls), hasSession, selected, svc, stringify);
        state == o.state && calls == o.calls && rejected == o.rejected
    {
      GenerateKeepsInv(state, calls, hasSession, selected, svc, stringify);
      if !hasSession {
        return false;
      }
      if selected.None? {
        return false;
      }
      state := state.(modalState := AttestLoading);
      var address := svc.address;
      var body := AttestationText(selected.value, stringify);
      var content := Rebase.Content(body, selected.value.name);
      var run := Rebase.Issue(content, AddressArgument(address), svc.signMessage, svc.client);
      calls := calls + run.calls;
      if run.result.Err? {
        return true;
      }
      var jwt := run.result.value;
      state := state.(credential := jwt);
      state := state.(modalState := AttestDownload);
      rejected := false;
    }

    /** The dialog's button. */
    method Open()
      requires Valid()
      modifies this
      ensures Valid()
      ensures state == OpenStep(old(state)) && calls == old(calls)
    {
      state := state.(showModal := true);
      state := state.(modalState := AttestInit);
    }

    /** The "Done" button. */
    method Done()
      requires Valid()
      modifies this
      ensures Valid()
      ensures state == DoneStep(old(state)) && calls == old(calls)
    {
      state := state.(showModal := false);
    }

    /** One render of the component. */
    method Render() returns (content: Content)
      requires Valid()
      modifies this
      ensures Valid()
      ensures state == RenderStep(old(state)).state && content == RenderStep(old(state)).content
      ensures calls == old(calls)
    {
      content := NoDialog;
      if state.showModal {
        match state.modalState {
          case AttestInit => content := InitPrompt;
          case AttestLoading => content := WaitingForSignature;
          case AttestDownload => content := DownloadPanel;
          case None => state := state.(showModal := false);
        }
      }
    }
  }
}
