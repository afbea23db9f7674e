# Chatbot's sign-in, vault, sharing and attestation core in Dafny

This is a model of the logic of the chatbot web app that goes beyond plain
chat: the session provider that builds the SSX session object for a
connected wallet, the sidebar panel that signs in, creates the data vault and
fetches or collects the OpenAI API key, the wallet button, the dialogs that
share a conversation and attest to it, the attestation protocol against the
Rebase witness, and the merge of local and remote data.

Each source file is one module: `Remote`, `Rebase`, `SsxProvider`,
`SsxPanel`, `SignInButton`, `Share`, `Attestation`. A few more modules model
the JavaScript built-ins those pipelines depend on:

- `JsStrings` for `split`, `join`, `replace`, `trim` and `slice`;
- `Hex` for `toString(16)`;
- `Base64` for `atob`, the forgiving-base64 decode of the WHATWG HTML
  standard, with a reference encoder;
- `Utf8` for a reference encoder following RFC 3629;
- `Uri` for `decodeURIComponent`, the Decode operation of ECMA-262 with an
  empty reserved set;
- `Json` for JavaScript values;
- `Chat` for the conversation record.

A component that updates its state step by step is a `class`:

- the state hooks form one `state` field;
- the calls it makes outside itself are appended to an `effects` (or
  `calls`) log;
- every handler is a method whose `ensures` ties the new state and log to a
  pure step function of the old ones.

The properties are lemmas about those step functions, or invariants that
`Valid()` keeps. Everything the code obtains from outside is an input: the
SDK's session object, storage, the key probe `getModels`, the witness
client, the wallet's signer, `JSON.parse` and `JSON.stringify`. Where a
call may throw, the input says whether it throws.

## Model

| member | source | states |
|---|---|---|
| Remote.FindIndex | utils/app/remote.ts:10-12 | `findIndex` with the id predicate: a found index holds the first record with that id; every entry before it is a record with another id; it throws exactly when a null entry comes before any match |
| Remote.MergeStep | utils/app/remote.ts:9-18 | one remote item grows the list by at most one; anything added is the item itself at the end; and a position changes only to the item, replacing a record with the same id |
| Remote.Merged | utils/app/remote.ts:3-21 | the merged list is at least as long as the local list, and at most longer by the number of remote items |
| Remote.MergeData | utils/app/remote.ts:3-21 | the loop over the remote items computes `Merged(local, remote)`, the fold of one replace-or-append step per item |
| Remote.MergeStepShape | utils/app/remote.ts:9-18 | one remote record replaces the first local record with its id in place, or is appended when no record has that id |
| Remote.MergeStepIds | utils/app/remote.ts:9-18 | one step adds exactly the remote record's id to the set of ids |
| Remote.MergedIds | utils/app/remote.ts:3-21 | on null-free inputs the result has no null entries, and its ids are the union of the local and remote ids |
| Remote.MergedKeepsPositions | utils/app/remote.ts:7-17 | the result is at least as long as `local`, and every local position still holds a record with the same id |
| Remote.MergedKeepsUnmatched | utils/app/remote.ts:13-17 | a local record whose id no remote item carries stays unchanged at its index |
| Remote.MergeStepKeepsFirstIndex | utils/app/remote.ts:10-17 | replacing or appending never moves the first index of an id that is already present |
| Remote.MergedRemoteWins | utils/app/remote.ts:13-14 | remote wins: the last remote record with a local id ends up where the first local record with that id was |
| Remote.MergedAppends | utils/app/remote.ts:15-16 | with unique remote ids, the result is the local list followed by the remote-only records in remote order, and its length is `|local|` plus their number |
| Remote.UnmatchedSkips | utils/app/remote.ts:15-16 | adding an id that no remote record carries does not change which remote records are appended |
| Remote.MergeExample | utils/app/remote.ts:3-21 | merging `[1:a, 2:b]` with `[2:B, 3:c]` gives `[1:a, 2:B, 3:c]` |
| Remote.MergeSkipsOnThrow | utils/app/remote.ts:9-18 | a null remote item is skipped when the working list is non-empty and appended to an empty one, on which `findIndex` calls no predicate; a remote item whose lookup meets a null local entry first is skipped as well |
| Remote.ToArray | utils/app/remote.ts:24-30 | an array is returned as it is; any other value gives the empty array |
| Remote.Parse | utils/app/remote.ts:32-42 | a non-string input comes back unchanged; a string is parsed, and a parse failure is the error "Invalid JSON string" |
| Rebase.SubjectFromAddress | utils/app/rebase.ts:7-16 | the subject is the `pkh.eip155` pair of the address and chain id "1" |
| Rebase.StatementFromContentAndAddress | utils/app/rebase.ts:18-25 | the statement carries the subject of the address, the content's body and title, and `reply_to: null` |
| Rebase.StatementDeterminesInputs | utils/app/rebase.ts:18-25 | two statements are equal exactly when their contents and addresses are |
| Rebase.StatementPhase | utils/app/rebase.ts:27-40 | one statement request for the content and address; it succeeds exactly when the client answers with a truthy statement, which it returns; otherwise the client's error or "No statement found in witness response" |
| Rebase.WitnessPhase | utils/app/rebase.ts:42-60 | one proof request with the signature and the same statement; it succeeds exactly when the client answers with a truthy jwt, which it returns; otherwise the client's error or "No jwt found in witness response" |
| Rebase.Issue | utils/app/rebase.ts:84-88 | statement, then signing exactly the returned text, then witness; the first failure ends the run with its error and makes no later call; success returns the witness's non-empty token after three calls |
| Rebase.Encode | utils/app/rebase.ts:62-64 | `%` followed by the two lower-case hex digits of the character code modulo 256 |
| Rebase.EncodeOctet | utils/app/rebase.ts:62-64 | on a character below 256, `encode` is the percent triplet of that octet |
| Rebase.EncodeAll | utils/app/rebase.ts:75 | every character becomes one three-character triplet; `Rebase.EncodeAllLatin1` shows the triplets are the percent-encoded octets of a binary string |
| Rebase.EncodeAllLatin1 | utils/app/rebase.ts:75 | on a binary string, the split/map/join pipeline percent-encodes every octet |
| Rebase.ToStdAlphabet | utils/app/rebase.ts:74 | every `-` becomes `+` and every `_` becomes `/`; nothing else changes |
| Rebase.DecodePayload | utils/app/rebase.ts:66-76 | the format error is raised exactly when the token does not have three dot-separated parts |
| Rebase.ParseJwt | utils/app/rebase.ts:66-79 | "Invalid JWT format" exactly when the token does not have three dot-separated parts; a value exactly when the payload decodes and its text parses, and then it is what `JSON.parse` makes of that text; a decoding error is passed on unchanged |
| Rebase.ParseJwtRoundTrip | utils/app/rebase.ts:66-79 | a token whose middle part is the unpadded base64url of the UTF-8 of a text yields the parse of that text, or the syntax error when it does not parse, whatever the header and signature |
| Rebase.OnlyPayloadIsDecoded | utils/app/rebase.ts:67-73 | only the middle part matters: tokens with the same payload part decode alike |
| Rebase.RejectsWrongPartCounts | utils/app/rebase.ts:69-71 | tokens with two or four parts are refused |
| Rebase.NoSeparatorInEncoding | utils/app/rebase.ts:67 | a base64url encoding contains no `.` |
| Rebase.PayloadRoundTrip | utils/app/rebase.ts:66-76 | a token whose middle part is the unpadded base64url of the UTF-8 of a text decodes to that text |
| JsStrings.Split | utils/app/rebase.ts:67 | `split` gives one more part than there are separators, and no part contains one |
| JsStrings.Join | utils/app/rebase.ts:75 | pieces without the separator, joined, split back into exactly those pieces (the other direction of `JsStrings.JoinSplit`) |
| JsStrings.JoinSplit | utils/app/rebase.ts:75 | joining the parts of a split with the same separator gives the string back |
| JsStrings.SplitThree | utils/app/rebase.ts:67-69 | three separator-free parts joined by the separator split back into exactly those three |
| JsStrings.ReplaceAll | utils/app/rebase.ts:74 | a global character replace changes every occurrence and nothing else |
| JsStrings.IndexOf | components/Chatbar/components/Attestation.tsx:60-63 | the index of the first occurrence, or -1 exactly when there is none |
| JsStrings.ReplaceFirst | components/Chatbar/components/Attestation.tsx:60-63 | a string-pattern replace changes only the first occurrence |
| JsStrings.ReplaceFirstSplit | components/Chatbar/components/Attestation.tsx:60-63 | the text before the first occurrence and everything after it are kept |
| JsStrings.SliceLast | utils/app/rebase.ts:63 | `slice(-n)` gives the last `n` characters, or all of them when the string is shorter |
| JsStrings.Trim | components/Chatbar/components/SSX.tsx:261 | the result neither starts nor ends with JavaScript white space, and a string that already does not is kept unchanged |
| JsStrings.TrimRemovesOnlyEnds | components/Chatbar/components/SSX.tsx:261 | `trim()` is the piece of the string left once its leading and trailing JavaScript white space is removed: only white space comes before and after it |
| JsStrings.TrimEmpty | components/Chatbar/components/SSX.tsx:261 | `trim()` gives the empty string exactly when every character is JavaScript white space |
| Hex.ToHexString | utils/app/rebase.ts:63 | `toString(16)` ends with the lower-case digit of `n % 16`, has one digit exactly when `n < 16`, and otherwise the digit of `(n / 16) % 16` before that |
| Hex.DigitRoundTrip | utils/app/rebase.ts:63 | every digit is a hex digit and reads back as its value |
| Base64.BytesOfSextets | utils/app/rebase.ts:75 | regrouping the sextets of any bytes gives the bytes back |
| Base64.UrlAndStdDigits | utils/app/rebase.ts:74 | the url alphabet maps to the standard one by `-` to `+` and `_` to `/`, position by position |
| Base64.Atob | utils/app/rebase.ts:75 | a successful `atob` yields a binary string (every code below 256) |
| Base64.AtobOfEncode | utils/app/rebase.ts:75 | `atob` inverts base64 encoding |
| Base64.RemoveAsciiWhitespace | utils/app/rebase.ts:75 | the cleaned text has no ASCII white space and equals the input when it had none |
| Uri.DecodeScalar | utils/app/rebase.ts:76 | decoding the percent-encoded UTF-8 of one character gives that character, whatever follows |
| Uri.DecodeEncoded | utils/app/rebase.ts:75-76 | `decodeURIComponent` gives back any text whose UTF-8 was percent-encoded |
| Uri.DecodeUriComponent | utils/app/rebase.ts:76 | text without `%` comes back unchanged, and a decoded text is never longer than its encoding; `Uri.DecodeEncoded` is its round trip |
| Uri.EncodeScalarShape | utils/app/rebase.ts:76 | the UTF-8 of a character has a lead octet with the right number of leading ones, continuation octets, and the shortest value of the character |
| SsxProvider.ConfigFor | components/_ssx.tsx:84-99 | the session is configured with the statement "Sign into ChatBot!", storage prefix "chatbot", no automatic vault creation, and the wallet as driver |
| SsxProvider.WatchSignerStep | components/_ssx.tsx:72-117 | with a wallet and a session object nothing happens; with a wallet and none, `signingIn` is on then off and a session object is built, or on failure there is none and the wallet is disconnected; without a wallet the session object is signed out if present and removed |
| SsxProvider.RunEndsNotSigningIn | components/_ssx.tsx:72-117 | after any sequence of wallet changes `signingIn` is off again |
| SsxProvider.BuiltOnceWhileConnected | components/_ssx.tsx:76-80 | while a session object exists, wallet changes that keep a wallet, an account change included, never build another or change anything |
| SsxProvider.Provider.constructor | components/_ssx.tsx:46-69 | the context starts with no session object and `signingIn` off |
| SsxProvider.Provider.Exposed | components/_ssx.tsx:124-127 | the context value is the current session object and `signingIn` flag |
| SsxProvider.Provider.WatchSigner | components/_ssx.tsx:72-117 | the method's new state and effects are those of `WatchSignerStep` |
| SignInButton.Render | components/Chatbar/components/SignInButton.tsx:25-75 | hidden exactly when not ready; the connect button exactly when not connected; wrong network exactly when connected on an unsupported chain; otherwise the sign-in action; both action buttons disabled exactly when spinning, with their captions |
| SignInButton.ConnectIgnoresChainSupport | components/Chatbar/components/SignInButton.tsx:44-55 | when not connected, the chain's support flag does not affect what is drawn |
| SignInButton.HiddenMeansConnect | components/Chatbar/components/SignInButton.tsx:25-44 | a hidden button is always the connect button |
| SignInButton.ActionNeedsAuthentication | components/Chatbar/components/SignInButton.tsx:26-73 | with an authentication status, the sign-in action appears only when it is "authenticated" |
| SsxPanel.Initial | components/Chatbar/components/SSX.tsx:33-39 | the modal starts at sign-in, shown exactly when the feature is enabled, with no key, not signed in and no spinner |
| SsxPanel.KeyRule | components/Chatbar/components/SSX.tsx:261 | the input rule `trim() !== ''` holds exactly when some character is not white space |
| SsxPanel.CheckApiKeyStep | components/Chatbar/components/SSX.tsx:42-67 | `checkAPIKey` extends the call log and never touches the typed key, its submit flag or the modal's visibility; `SsxPanel.CheckApiKeyOutcome` and `SsxPanel.CheckApiKeyCalls` state its outcomes |
| SsxPanel.SigninStep | components/Chatbar/components/SSX.tsx:69-90 | the same frame for `handleSignin`; `SsxPanel.SigninOutcome` and `SsxPanel.SigninCalls` state its outcomes |
| SsxPanel.CreateVaultStep | components/Chatbar/components/SSX.tsx:130-142 | the same frame for `handleCreateVault`; `SsxPanel.CreateVaultOutcome` states its outcomes |
| SsxPanel.SubmitApiKeyStep | components/Chatbar/components/SSX.tsx:144-168 | the same frame for `handleSubmitAPIKey`; `SsxPanel.SubmitApiKeyOutcome` states its outcomes |
| SsxPanel.SsxLoadedStep | components/Chatbar/components/SSX.tsx:170-177 | load, then dispatch `ssxEnabled` and `signedIn`, then signed in with the modal closed; a failed load rejects before anything else |
| SsxPanel.CheckApiKeyOutcome | components/Chatbar/components/SSX.tsx:42-67 | rejects exactly when the read throws or an accepted key's load fails, leaving the state unchanged; an accepted key signs in and closes the modal; otherwise the key modal, the notice raised only by a throwing probe, and the spinner turned off only then |
| SsxPanel.CheckApiKeyCalls | components/Chatbar/components/SSX.tsx:43-57 | the exact calls: the storage read only with a session object, the probe of a non-empty stored key, and on acceptance the hand-over of the key and the load |
| SsxPanel.SigninOutcome | components/Chatbar/components/SSX.tsx:69-90 | with a session object it never rejects and ends without spinner; a missing vault leads to the create-vault modal without signing in; every other path, a failure included, ends signed in; with a found vault the modal follows the key check |
| SsxPanel.SigninCalls | components/Chatbar/components/SSX.tsx:73-86 | sign-in first, the vault check only after a successful sign-in, and no key check unless the vault exists |
| SsxPanel.SignOutStep | components/Chatbar/components/SSX.tsx:97-103 | sign out when there is a session object, then reset; a failed reset rejects with the state unchanged; otherwise signed out with the sign-in modal shown |
| SsxPanel.CreateVaultOutcome | components/Chatbar/components/SSX.tsx:130-142 | never rejects and ends without spinner; without a session object or on failure only the spinner is touched; on success the vault is hosted, then the key read, and the modal closes exactly when the stored key is accepted and loads |
| SsxPanel.SubmitApiKeyOutcome | components/Chatbar/components/SSX.tsx:144-168 | nothing when the key is invalid; otherwise the probe first and never a rejection; on full success the exact calls (probe, store under "openai-api-key" when there is a session object, hand-over, load, two dispatches) and signed in with the modal closed; on any failure the spinner stays on and `signedIn` is not dispatched |
| SsxPanel.ApiKeyInputStep | components/Chatbar/components/SSX.tsx:259-262 | the input sets the key, and the submit flag holds exactly when the key has a non-white-space character |
| SsxPanel.SidebarClickStep | components/Chatbar/components/SSX.tsx:105-129 | signed in, the button signs out; otherwise it shows the sign-in modal |
| SsxPanel.RenderStep | components/Chatbar/components/SSX.tsx:192-323 | sidebar caption by `signedIn`; no dialog exactly when hidden or closed, and rendering the closed state hides the modal; the sign-in modal shows the spinner exactly when signing in or spinning; the vault button disabled by the spinner; the key dialog's notice and submit state |
| SsxPanel.InitialInv | components/Chatbar/components/SSX.tsx:33-39 | the initial state satisfies the invariant |
| SsxPanel.CheckApiKeyKeepsInv | components/Chatbar/components/SSX.tsx:42-67 | the panel invariant (the modal is closed only once signed in, and the submit flag agrees with the key) survives `checkAPIKey` |
| SsxPanel.SigninKeepsInv | components/Chatbar/components/SSX.tsx:69-90 | the invariant survives `handleSignin` |
| SsxPanel.CreateVaultKeepsInv | components/Chatbar/components/SSX.tsx:130-142 | the invariant survives `handleCreateVault` |
| SsxPanel.SubmitApiKeyKeepsInv | components/Chatbar/components/SSX.tsx:144-168 | the invariant survives `handleSubmitAPIKey` |
| SsxPanel.SimpleStepsKeepInv | components/Chatbar/components/SSX.tsx:97-323 | the invariant survives signing out, the sidebar click, typing and rendering |
| SsxPanel.CheckApiKeyKeepsNotice | components/Chatbar/components/SSX.tsx:59-63 | once raised, the invalid-key notice is not cleared by `checkAPIKey` |
| SsxPanel.SigninKeepsNotice | components/Chatbar/components/SSX.tsx:69-90 | nor by `handleSignin` |
| SsxPanel.CreateVaultKeepsNotice | components/Chatbar/components/SSX.tsx:130-142 | nor by `handleCreateVault` |
| SsxPanel.SubmitApiKeyKeepsNotice | components/Chatbar/components/SSX.tsx:144-168 | nor by submitting a key, an accepted one included |
| SsxPanel.SimpleStepsKeepNotice | components/Chatbar/components/SSX.tsx:97-323 | nor by signing out, the sidebar click, typing or rendering |
| SsxPanel.ModalSignInButtonEnabled | components/Chatbar/components/SSX.tsx:192-211 | the wallet button inside the sign-in modal is never disabled and reads "Sign-In" |
| SsxPanel.Panel.constructor | components/Chatbar/components/SSX.tsx:33-39 | the mounted panel has the initial state and no calls |
| SsxPanel.Panel.SsxLoaded | components/Chatbar/components/SSX.tsx:170-177 | the handler's state, calls and rejection are those of `SsxLoadedStep`, and the invariant is kept |
| SsxPanel.Panel.CheckApiKey | components/Chatbar/components/SSX.tsx:42-67 | the same for `CheckApiKeyStep` |
| SsxPanel.Panel.HandleSignin | components/Chatbar/components/SSX.tsx:69-90 | the same for `SigninStep` |
| SsxPanel.Panel.SignOut | components/Chatbar/components/SSX.tsx:97-103 | the same for `SignOutStep` |
| SsxPanel.Panel.HandleCreateVault | components/Chatbar/components/SSX.tsx:130-142 | the same for `CreateVaultStep` |
| SsxPanel.Panel.HandleSubmitApiKey | components/Chatbar/components/SSX.tsx:144-168 | the same for `SubmitApiKeyStep` |
| SsxPanel.Panel.ApiKeyInput | components/Chatbar/components/SSX.tsx:259-262 | the same for `ApiKeyInputStep`, with no calls |
| SsxPanel.Panel.SidebarClick | components/Chatbar/components/SSX.tsx:105-129 | the same for `SidebarClickStep` |
| SsxPanel.Panel.Render | components/Chatbar/components/SSX.tsx:311-323 | the screen and the new state are those of `RenderStep` |
| Share.Initial | components/Chatbar/components/Share.tsx:23-25 | the dialog starts hidden, in the closed state, with no link |
| Share.ShareFilename | components/Chatbar/components/Share.tsx:33 | the upload key lies in the `share/` folder and the rest of it is the conversation's id |
| Share.SharingPath | components/Chatbar/components/Share.tsx:36 | the sharing path lies under `chatbot/` and the rest of it is the upload key |
| Share.ShareUrl | components/Chatbar/components/Share.tsx:37 | the link of a reference reads back as exactly that reference |
| Share.ShareKeysInjective | components/Chatbar/components/Share.tsx:33-36 | distinct conversations get distinct upload keys `share/<id>` and distinct sharing paths `chatbot/share/<id>` |
| Share.ShareReference | components/Chatbar/components/Share.tsx:37 | the reader's side of the link: what follows `<origin>/?share=` |
| Share.ShareUrlRoundTrip | components/Chatbar/components/Share.tsx:37 | a generated link gives back exactly its reference, and every link carrying a reference is the link of that reference |
| Share.GenerateLinkOutcome | components/Chatbar/components/Share.tsx:28-43 | nothing without a conversation or a session object; otherwise the upload under `share/<id>`, then link generation for `chatbot/share/<id>`; a throwing call rejects with the state unchanged; on success the link is `<origin>/?share=<reference>`, the state is loading, and one switch to the link is scheduled |
| Share.GenerateLinkStep | components/Chatbar/components/Share.tsx:28-43 | `handleGenerateLink` extends the call log; a rejection leaves the state and the pending timers unchanged; at most one timer is added, and only together with the loading state |
| Share.TimerStep | components/Chatbar/components/Share.tsx:40-42 | the scheduled callback moves to the link state and keeps the rest |
| Share.OpenStep | components/Chatbar/components/Share.tsx:171-174 | opening shows the dialog at its first state |
| Share.DoneStep | components/Chatbar/components/Share.tsx:144 | "Done" hides the dialog and keeps its state |
| Share.RenderStep | components/Chatbar/components/Share.tsx:153-165 | one content per state, the link panel showing the stored link; rendering the closed state hides the dialog |
| Share.InitialInv | components/Chatbar/components/Share.tsx:23-25 | the initial state satisfies the invariant |
| Share.GenerateLinkKeepsInv | components/Chatbar/components/Share.tsx:37-42 | the invariant (while loading, showing the link or with a switch pending, the stored link is a sharing link of the origin) survives `handleGenerateLink` |
| Share.OtherStepsKeepInv | components/Chatbar/components/Share.tsx:40-174 | and survives the timer, opening, "Done" and rendering |
| Share.ShownLinkIsShareUrl | components/Chatbar/components/Share.tsx:109-124 | a link panel only ever shows a sharing link of the origin |
| Share.ShareDialog.constructor | components/Chatbar/components/Share.tsx:23-25 | the mounted dialog has the initial state, no timers and no calls |
| Share.ShareDialog.GenerateLink | components/Chatbar/components/Share.tsx:28-43 | the handler's state, calls, timers and rejection are those of `GenerateLinkStep`, and the invariant is kept |
| Share.ShareDialog.TimerFired | components/Chatbar/components/Share.tsx:40-42 | a pending timer fires as `TimerStep` |
| Share.ShareDialog.Open | components/Chatbar/components/Share.tsx:171-174 | the same for `OpenStep` |
| Share.ShareDialog.Done | components/Chatbar/components/Share.tsx:144 | the same for `DoneStep` |
| Share.ShareDialog.Render | components/Chatbar/components/Share.tsx:153-165 | the same for `RenderStep` |
| Attestation.Initial | components/Chatbar/components/Attestation.tsx:31-33 | the dialog starts hidden, in the closed state, with no credential |
| Attestation.AttestationData | components/Chatbar/components/Attestation.tsx:18-25 | the serialised object has exactly the keys `model`, `prompt`, `messages`, in that order |
| Attestation.AttestationDataFields | components/Chatbar/components/Attestation.tsx:18-25 | two conversations serialise alike exactly when their model ids, prompts and messages agree |
| Attestation.AttestationTextFields | components/Chatbar/components/Attestation.tsx:18-26 | whatever the serialiser, the attested text depends only on the model's id, the prompt and the messages |
| Attestation.AddressArgument | components/Chatbar/components/Attestation.tsx:51 | `address \|\| ''`: the address, or the empty string when there is none |
| Attestation.GenerateOutcome | components/Chatbar/components/Attestation.tsx:41-54 | nothing without a session object or a conversation; otherwise issuance of the serialised data titled with the conversation's name for the address; a failure rejects with the loading state and the old credential; success stores the non-empty credential and shows the download state |
| Attestation.GenerateStep | components/Chatbar/components/Attestation.tsx:41-54 | `handleGenerateAttestation` extends the call log and keeps the dialog's visibility; a rejection keeps the old credential and leaves the loading state; a new credential comes only with the download state and is non-empty |
| Attestation.SignsTheStatement | components/Chatbar/components/Attestation.tsx:47-51 | the signer gets exactly the statement the witness returned |
| Attestation.DownloadNameFirstSpace | components/Chatbar/components/Attestation.tsx:60-63 | the download name keeps a name without spaces, and otherwise turns only the first space into `_`, then appends `_credential.jwt` |
| Attestation.DownloadName | components/Chatbar/components/Attestation.tsx:60-63 | the name always ends in `_credential.jwt`; it is `undefined_credential.jwt` without a conversation, and otherwise as long as the conversation's name plus that suffix |
| Attestation.OpenStep | components/Chatbar/components/Attestation.tsx:170-173 | opening shows the dialog at its first state |
| Attestation.DoneStep | components/Chatbar/components/Attestation.tsx:143 | "Done" hides the dialog and keeps its state |
| Attestation.RenderStep | components/Chatbar/components/Attestation.tsx:152-164 | one content per state; rendering the closed state hides the dialog |
| Attestation.InitialInv | components/Chatbar/components/Attestation.tsx:31-33 | the initial state satisfies the invariant |
| Attestation.GenerateKeepsInv | components/Chatbar/components/Attestation.tsx:41-54 | the invariant (the download state only with a non-empty credential) survives `handleGenerateAttestation` |
| Attestation.OtherStepsKeepInv | components/Chatbar/components/Attestation.tsx:143-173 | and survives opening, "Done" and rendering |
| Attestation.AttestationDialog.constructor | components/Chatbar/components/Attestation.tsx:31-33 | the mounted dialog has the initial state and no calls |
| Attestation.AttestationDialog.GenerateAttestation | components/Chatbar/components/Attestation.tsx:41-54 | the handler's state, calls and rejection are those of `GenerateStep`, and the invariant is kept |
| Attestation.AttestationDialog.Open | components/Chatbar/components/Attestation.tsx:170-173 | the same for `OpenStep` |
| Attestation.AttestationDialog.Done | components/Chatbar/components/Attestation.tsx:143 | the same for `DoneStep` |
| Attestation.AttestationDialog.Render | components/Chatbar/components/Attestation.tsx:152-164 | the same for `RenderStep` |

## Left out

- JSX markup, CSS, `t(...)` translations (captions are the untranslated keys), keyboard and mouse listeners, `window.open`, clipboard writes and the Blob/anchor download mechanics are presentation and DOM I/O. Only the download file name is modelled.
- The 700 ms delay of the share dialog is not modelled. The model keeps only the order: the callback is pending until `TimerFired`.
- The wagmi, RainbowKit and ethers setup (`configureChains`, `createConfig`, `walletClientToEthers5Signer` in components/_ssx.tsx) wraps foreign libraries. The wallet client is an opaque value.
- The SSX SDK (`new SSX`, `signIn`, `activateSession`, `hostOrbit`, `storage.get/put`, `generateSharingLink`, `signOut`), the Rebase client and `getModels` are outside code. Each is an input saying whether it throws and what it returns.
- `JSON.parse` and `JSON.stringify` are parameters, because their grammar is not part of this core.
- pages/_app.tsx and pages/api/home/home.context.tsx are not part of this model. They compose providers and declare types, so `loadLocalAndRemote`, `resetLocal`, `updateRemote` and `dispatch` are recorded as calls with an outcome.
- types/chat.ts and types/remote.ts are not part of this model. The records carry only the fields the core reads.
- Async interleaving and React's batching of updates are not modelled; each handler runs to completion on its own state.
  - The code has no guard against a second sign-in started while one is running, and no discarding of stale results, so no such property is claimed.
  - A share timer still pending when the dialog is reopened moves it to the link state anyway. That is a consequence of the code, kept as it is.
- SsxProvider.WatchSignerStep: a rejected `signOut` is swallowed by its `catch` whatever it carries. It is therefore not an input.
- Remote.MergeData: array elements are records, or `null` and `undefined`, on which reading `.id` throws; both are the one `Null` entry. Numbers, strings and booleans are not modelled: the `DataItem` type rules them out, and they behave unlike `null`, since reading their `.id` gives `undefined` without throwing.
- Strings are sequences of Unicode scalar values, while JavaScript strings are sequences of UTF-16 code units. So `split("")` and `charCodeAt` on a character beyond U+FFFF (`Rebase.EncodeAll` encodes it as one character, where JavaScript encodes its two surrogates), the surrogate pairs `decodeURIComponent` produces, and lone surrogates in names or ids are not modelled. The token pipeline is not affected: `atob` only yields characters below 256.

## Notes on the code

- In `checkAPIKey` (components/Chatbar/components/SSX.tsx:52-56), `return handleSSXLoaded()` inside the `try` is not awaited. A failing `loadLocalAndRemote` therefore escapes the `catch` and rejects `checkAPIKey`. `handleSignin` and `handleCreateVault` catch that rejection, so they still finish their own updates.
- `handleCreateVault` without a session object calls `hostOrbit` on `undefined`. That throws inside the `try`, so only the spinner is switched on and off again.
- `watchSigner` returns early whenever a session object exists (components/_ssx.tsx:80). An account change therefore never rebuilds it; `SsxProvider.BuiltOnceWhileConnected` states this.
- With no selected conversation, the download name's template prints `undefined`, giving `undefined_credential.jwt`.
