/** components/Chatbar/components/Share.tsx: the dialog that uploads the
    selected conversation under a share key and shows a link to it. The
    upload (`updateRemote`) and the session's `generateSharingLink` are
    inputs (`Services`); the page's origin is fixed when the dialog is
    created. The 700 ms timer is a pending callback the environment fires
    later (`TimerFired`). */
module Share {
  import Wrappers
  import Chat

  datatype ModalState = ShareInit | ShareLoading | ShareLink | None

  /** The component's state hooks. */
  datatype ShareState = ShareState(showModal: bool, modalState: ModalState, uniqueLink: string)

  /** The state of a freshly mounted dialog: hidden, in the closed state. */
  function Initial(): (s: ShareState)
    ensures !s.showModal && s.modalState == None && s.uniqueLink == ""
  {
    ShareState(false, None, "")
  }

  /** The storage key the conversation is uploaded under. */
  function ShareFilename(id: string): (r: string)
    ensures |r| == |id| + 6 && r[..6] == "share/" && r[6..] == id
  {
    "share/" + id
  }

  /** The storage path the sharing link is generated for. */
  function SharingPath(filename: string): (r: string)
    ensures |r| == |filename| + 8 && r[..8] == "chatbot/" && r[8..] == filename
  {
    "chatbot/" + filename
  }

  /** Distinct conversations are uploaded under distinct keys and shared
      from distinct paths. */
  lemma ShareKeysInjective(a: string, b: string)
    ensures ShareFilename(a) == ShareFilename(b) <==> a == b
    ensures SharingPath(ShareFilename(a)) == SharingPath(ShareFilename(b)) <==> a == b
  {
    if ShareFilename(a) == ShareFilename(b) {
      assert a == ShareFilename(a)[6..];
      assert b == ShareFilename(b)[6..];
    }
    if SharingPath(ShareFilename(a)) == SharingPath(ShareFilename(b)) {
      assert ShareFilename(a) == SharingPath(ShareFilename(a))[8..];
      assert ShareFilename(b) == SharingPath(ShareFilename(b))[8..];
    }
  }

  /** The query that carries the sharing reference. */
  const ShareQuery: string := "/?share="

  /** The link shown for a generated reference. */
  function ShareUrl(origin: string, reference: string): (r: string)
    ensures ShareReference(r, origin) == Wrappers.Some(reference)
  {
    var url := origin + ShareQuery + reference;
    assert url[..|origin + ShareQuery|] == origin + ShareQuery;
    url
  }

  /** The reader's side: the reference a link of this origin carries, if
      it is a sharing link at all. */
  function ShareReference(url: string, origin: string): (r: Wrappers.Option<string>)
    ensures r.Some? ==> |origin + ShareQuery| <= |url| && r.value == url[|origin + ShareQuery|..]
  {
    var prefix := origin + ShareQuery;
    if |prefix| <= |url| && url[..|prefix|] == prefix then Wrappers.Some(url[|prefix|..]) else Wrappers.None
  }

  /** A sharing link gives back exactly its reference, and every link that
      carries a reference is the sharing link of that reference. */
  lemma ShareUrlRoundTrip(origin: string, reference: string, url: string)
    ensures ShareReference(ShareUrl(origin, reference), origin) == Wrappers.Some(reference)
    ensures ShareReference(url, origin).Some? ==> url == ShareUrl(origin, ShareReference(url, origin).value)
  {
    var prefix := origin + ShareQuery;
    assert ShareUrl(origin, reference) == prefix + reference;
    assert (prefix + reference)[..|prefix|] == prefix;
    assert (prefix + reference)[|prefix|..] == reference;
    if ShareReference(url, origin).Some? {
      assert url == url[..|prefix|] + url[|prefix|..];
    }
  }

  /** The calls the dialog makes outside its own state, in order. */
  datatype Effect =
    | UpdateRemote(key: string, conversation: Chat.Conversation)
    | GenerateSharingLink(path: string)

  /** Whether the upload resolves, and the reference `generateSharingLink`
      resolves to (`None` when it throws). */
  datatype Services = Services(uploadOk: bool, sharing: Wrappers.Option<string>)

  /** How `handleGenerateLink` settles: the state, the log of calls, the
      number of timers still to fire, and whether its promise rejects. */
  datatype Outcome = Outcome(state: ShareState, effects: seq<Effect>, timers: nat, rejected: bool)

  /** `handleGenerateLink`: nothing without a selected conversation or a
      session object; otherwise upload the conversation, generate the link,
      store it, show the loading state and schedule the switch to the link.
      A throwing upload or link generation rejects before any state
      changes. */
  function GenerateLinkStep(s: ShareState, log: seq<Effect>, timers: nat, selected: Wrappers.Option<Chat.Conversation>,
                            hasSession: bool, origin: string, svc: Services): (o: Outcome)
    ensures |log| <= |o.effects| && o.effects[..|log|] == log
    ensures o.rejected ==> o.state == s && o.timers == timers
    ensures o.timers == timers || (o.timers == timers + 1 && o.state.modalState == ShareLoading)
  {
    if selected.None? || !hasSession then Outcome(s, log, timers, false)
    else
      var filename := ShareFilename(selected.value.id);
      var uploading := log + [UpdateRemote(filename, selected.value)];
      if !svc.uploadOk then Outcome(s, uploading, timers, true)
      else
        var linking := uploading + [GenerateSharingLink(SharingPath(filename))];
        match svc.sharing
        case None => Outcome(s, linking, timers, true)
        case Some(reference) =>
          Outcome(s.(uniqueLink := ShareUrl(origin, reference)).(modalState := ShareLoading), linking, timers + 1, false)
  }

  /** What `handleGenerateLink` leads to, case by case. */
  lemma GenerateLinkOutcome(s: ShareState, log: seq<Effect>, timers: nat, selected: Wrappers.Option<Chat.Conversation>,
                            hasSession: bool, origin: string, svc: Services, o: Outcome)
    requires o == GenerateLinkStep(s, log, timers, selected, hasSession, origin, svc)
    ensures selected.None? || !hasSession ==> o == Outcome(s, log, timers, false)
    ensures selected.Some? && hasSession ==>
              var id := selected.value.id;
              && |o.effects| >= |log| + 1
              && o.effects[..|log| + 1] == log + [UpdateRemote("share/" + id, selected.value)]
              && (svc.uploadOk ==> o.effects == log + [UpdateRemote("share/" + id, selected.value),
                                                       GenerateSharingLink("chatbot/share/" + id)])
              && (o.rejected <==> !svc.uploadOk || svc.sharing.None?)
              && (o.rejected ==> o.state == s && o.timers == timers)
              && (!o.rejected ==>
                    o.state == s.(uniqueLink := origin + "/?share=" + svc.sharing.value, modalState := ShareLoading)
                    && o.timers == timers + 1)
  {
    if selected.Some? && hasSession {
      var id := selected.value.id;
      assert SharingPath(ShareFilename(id)) == "chatbot/share/" + id;
    }
  }

  /** The scheduled callback: switch to the link. */
  function TimerStep(s: ShareState): (r: ShareState)
    ensures r.modalState == ShareLink
    ensures r.showModal == s.showModal && r.uniqueLink == s.uniqueLink
  {
    s.(modalState := ShareLink)
  }

  /** The dialog's button: show the dialog at its first state. */
  function OpenStep(s: ShareState): (r: ShareState)
    ensures r.showModal && r.modalState == ShareInit && r.uniqueLink == s.uniqueLink
  {
    s.(showModal := true).(modalState := ShareInit)
  }

  /** "Done": hide the dialog, keeping its state. */
  function DoneStep(s: ShareState): (r: ShareState)
    ensures !r.showModal && r.modalState == s.modalState && r.uniqueLink == s.uniqueLink
  {
    s.(showModal := false)
  }

  /** What the dialog shows. */
  datatype Content = NoDialog | InitPrompt | LoadingNotice | LinkPanel(link: string)

  datatype Rendered = Rendered(state: ShareState, content: Content)

  /** One render: the content of the current state; rendering the closed
      state hides the dialog. */
  function RenderStep(s: ShareState): (r: Rendered)
    ensures r.state == (if s.showModal && s.modalState == None then s.(showModal := false) else s)
    ensures r.content.NoDialog? <==> !s.showModal || s.modalState == None
    ensures r.content.InitPrompt? <==> s.showModal && s.modalState == ShareInit
    ensures r.content.LoadingNotice? <==> s.showModal && s.modalState == ShareLoading
    ensures r.content.LinkPanel? <==> s.showModal && s.modalState == ShareLink
    ensures r.content.LinkPanel? ==> r.content.link == s.uniqueLink
  {
    if !s.showModal then Rendered(s, NoDialog)
    else
      match s.modalState
      case ShareInit => Rendered(s, InitPrompt)
      case ShareLoading => Rendered(s, LoadingNotice)
      case ShareLink => Rendered(s, LinkPanel(s.uniqueLink))
      case None => Rendered(s.(showModal := false), NoDialog)
  }

  /** What every step keeps: once the dialog is loading or showing the link,
      or a switch to the link is pending, the stored link is a sharing link
      of this origin. */
  predicate Inv(s: ShareState, timers: nat, origin: string)
  {
    (s.modalState == ShareLoading || s.modalState == ShareLink || timers > 0)
    ==> ShareReference(s.uniqueLink, origin).Some?
  }

  lemma InitialInv(origin: string)
    ensures Inv(Initial(), 0, origin)
  {
  }

  lemma GenerateLinkKeepsInv(s: ShareState, log: seq<Effect>, timers: nat, selected: Wrappers.Option<Chat.Conversation>,
                             hasSession: bool, origin: string, svc: Services)
    requires Inv(s, timers, origin)
    ensures var o := GenerateLinkStep(s, log, timers, selected, hasSession, origin, svc);
      Inv(o.state, o.timers, origin)
  {
    if selected.Some? && hasSession && svc.uploadOk && svc.sharing.Some? {
      ShareUrlRoundTrip(origin, svc.sharing.value, "");
    }
  }

  /** A firing timer, opening, closing and rendering keep the invariant. */
  lemma OtherStepsKeepInv(s: ShareState, timers: nat, origin: string)
    requires Inv(s, timers, origin)
    ensures timers > 0 ==> Inv(TimerStep(s), timers - 1, origin)
    ensures Inv(OpenStep(s), timers, origin)
    ensures Inv(DoneStep(s), timers, origin)
    ensures Inv(RenderStep(s).state, timers, origin)
  {
  }

  /** So a link panel only ever shows a sharing link of this origin. */
  lemma ShownLinkIsShareUrl(s: ShareState, timers: nat, origin: string)
    requires Inv(s, timers, origin) && RenderStep(s).content.LinkPanel?
    ensures RenderStep(s).content.link == ShareUrl(origin, ShareReference(RenderStep(s).content.link, origin).value)
  {
    ShareUrlRoundTrip(origin, "", s.uniqueLink);
  }

  /** The dialog component. `state` holds its state hooks, `timers` the
      scheduled callbacks not yet fired, `effects` the calls it makes. */
  class ShareDialog {
    const origin: string
    var state: ShareState
    var timers: nat
    var effects: seq<Effect>

    predicate Valid()
      reads this
    {
      Inv(state, timers, origin)
    }

    constructor (origin: string)
      ensures this.origin == origin && state == Initial() && timers == 0 && effects == []
      ensures Valid()
    {
      this.origin := origin;
      state := ShareState(false, None, "");
      timers := 0;
      effects := [];
    }

    /** `handleGenerateLink`. */
    method GenerateLink(selected: Wrappers.Option<Chat.Conversation>, hasSession: bool, svc: Services) returns (rejected: bool)
      requires Valid()
      modifies this
      ensures Valid()
      ensures var o := GenerateLinkStep(old(state), old(effects), old(timers), selected, hasSession, origin, svc);
        state == o.state && effects == o.effects && timers == o.timers && rejected == o.rejected
    {
      GenerateLinkKeepsInv(state, effects, timers, selected, hasSession, origin, svc);
      if selected.None? {
        return false;
      }
      if !hasSession {
        return false;
      }
      var shareFilename := ShareFilename(selected.value.id);
      effects := effects + [UpdateRemote(shareFilename, selected.value)];
      if !svc.uploadOk {
        return true;
      }
      effects := effects + [GenerateSharingLink(SharingPath(shareFilename))];
      if svc.sharing.None? {
        return true;
      }
      var generatedLink := ShareUrl(origin, svc.sharing.value);
      state := state.(uniqueLink := generatedLink);
      state := state.(modalState := ShareLoading);
      timers := timers + 1;
      rejected := false;
    }

    /** The callback scheduled by `handleGenerateLink` fires. */
    method TimerFired()
      requires Valid() && timers > 0
      modifies this
      ensures Valid()
      ensures state == TimerStep(old(state)) && timers == old(timers) - 1 && effects == old(effects)
    {
      OtherStepsKeepInv(state, timers, origin);
      state := state.(modalState := ShareLink);
      timers := timers - 1;
    }

    /** The dialog's button. */
    method Open()
      requires Valid()
      modifies this
      ensures Valid()
      ensures state == OpenStep(old(state)) && timers == old(timers) && effects == old(effects)
    {
      state := state.(showModal := true);
      state := state.(modalState := ShareInit);
    }

    /** The "Done" button. */
    method Done()
      requires Valid()
      modifies this
      ensures Valid()
      ensures state == DoneStep(old(state)) && timers == old(timers) && effects == old(effects)
    {
      state := state.(showModal := false);
    }

    /** One render of the component. */
    method Render() returns (content: Content)
      requires Valid()
      modifies this
      ensures Valid()
      ensures state == RenderStep(old(state)).state && content == RenderStep(old(state)).content
      ensures timers == old(timers) && effects == old(effects)
    {
      content := NoDialog;
      if state.showModal {
        match state.modalState {
          case ShareInit => content := InitPrompt;
          case ShareLoading => content := LoadingNotice;
          case ShareLink => content := LinkPanel(state.uniqueLink);
          case None => state := state.(showModal := false);
        }
      }
    }
  }
}
