/** The attestation protocol of utils/app/rebase.ts: the canonical statement
    built from a content and an address, the statement and witness phases
    against the witnessing client, `issue`, which chains them around the
    signer, and `parseJWT`, which recovers the JSON text of a credential's
    payload. The witnessing client, the signer and `JSON.parse` are
    parameters. */
module Rebase {
  import opened Wrappers
  import Base64
  import Hex
  import JsStrings
  import Uri
  import Utf8

  datatype Content = Content(body: string, title: string)

  datatype Eip155 = Eip155(address: string, chainId: string)
  datatype Pkh = Pkh(eip155: Eip155)
  datatype Subject = Subject(pkh: Pkh)

  /** A BasicPostAttestationStatement; `replyTo == None` is `reply_to: null`. */
  datatype Statement = Statement(subject: Subject, body: string, title: string, replyTo: Option<string>)

  /** The EIP-155 chain id put in every subject: Ethereum mainnet. */
  const MainnetChainId: string := "1"

  function SubjectFromAddress(address: string): (s: Subject)
    ensures s.pkh.eip155.address == address && s.pkh.eip155.chainId == MainnetChainId
  {
    Subject(Pkh(Eip155(address, MainnetChainId)))
  }

  /** The canonical statement: the subject of the address, body and title
      copied from the content, and no reply. */
  function StatementFromContentAndAddress(content: Content, address: string): (st: Statement)
    ensures st.subject == SubjectFromAddress(address)
    ensures st.body == content.body && st.title == content.title && st.replyTo.None?
  {
    Statement(SubjectFromAddress(address), content.body, content.title, None)
  }

  /** The statement and the pair (content, address) determine each other. */
  lemma StatementDeterminesInputs(c1: Content, a1: string, c2: Content, a2: string)
    ensures StatementFromContentAndAddress(c1, a1) == StatementFromContentAndAddress(c2, a2)
        <==> c1 == c2 && a1 == a2
  {
  }

  /** `{ Attestation: { BasicPostAttestation: statement } }` */
  datatype StatementsRequest = StatementsRequest(basicPostAttestation: Statement)

  /** `{ Attestation: { BasicPostAttestation: { signature, statement } } }` */
  datatype ProofsRequest = ProofsRequest(signature: string, statement: Statement)

  datatype StatementResponse = StatementResponse(statement: Option<string>)
  datatype WitnessResponse = WitnessResponse(jwt: Option<string>)

  /** The witnessing client: each call answers, or throws with a message. */
  datatype WitnessClient = WitnessClient(
    statement: StatementsRequest -> Result<StatementResponse, string>,
    witnessJwt: ProofsRequest -> Result<WitnessResponse, string>)

  datatype IssueError =
    | NoStatementFound
    | NoJwtFound
    | ClientFailed(message: string)
    | SigningFailed(message: string)

  /** The message of the error each phase throws itself. */
  function IssueErrorMessage(e: IssueError): string
  {
    match e
    case NoStatementFound => "No statement found in witness response"
    case NoJwtFound => "No jwt found in witness response"
    case ClientFailed(m) => m
    case SigningFailed(m) => m
  }

  /** The external calls of an issuance, in the order they are made. */
  datatype Call =
    | StatementCall(request: StatementsRequest)
    | SignCall(text: string)
    | WitnessCall(proof: ProofsRequest)

  datatype Run = Run(result: Result<string, IssueError>, calls: seq<Call>)

  /** JavaScript truthiness of an optional string field. */
  predicate Truthy(s: Option<string>)
  {
    s.Some? && s.value != ""
  }

  function StatementRequestFor(content: Content, address: string): StatementsRequest
  {
    StatementsRequest(StatementFromContentAndAddress(content, address))
  }

  /** `statement`: one call to the client with the canonical statement; the
      answer's statement text unchanged, or NoStatementFound when it is
      missing or empty. */
  function StatementPhase(content: Content, address: string, client: WitnessClient): (r: Run)
    ensures r.calls == [StatementCall(StatementRequestFor(content, address))]
    ensures var answer := client.statement(StatementRequestFor(content, address));
      && (r.result.Ok? <==> answer.Ok? && Truthy(answer.value.statement))
      && (r.result.Ok? ==> r.result.value == answer.value.statement.value)
      && (answer.Ok? && !Truthy(answer.value.statement) ==> r.result == Err(NoStatementFound))
      && (answer.Err? ==> r.result == Err(ClientFailed(answer.error)))
  {
    var request := StatementRequestFor(content, address);
    var result :=
      match client.statement(request)
      case Err(m) => Err(ClientFailed(m))
      case Ok(resp) =>
        if !Truthy(resp.statement) then Err(NoStatementFound) else Ok(resp.statement.value);
    Run(result, [StatementCall(request)])
  }

  function ProofRequestFor(content: Content, address: string, signature: string): ProofsRequest
  {
    ProofsRequest(signature, StatementFromContentAndAddress(content, address))
  }

  /** `witness`: one call with the signature and the statement rebuilt from
      the same content and address; the answer's token unchanged, or
      NoJwtFound when it is missing or empty. */
  function WitnessPhase(content: Content, address: string, signature: string, client: WitnessClient): (r: Run)
    ensures r.calls == [WitnessCall(ProofRequestFor(content, address, signature))]
    ensures r.calls[0].proof.statement == StatementRequestFor(content, address).basicPostAttestation
    ensures var answer := client.witnessJwt(ProofRequestFor(content, address, signature));
      && (r.result.Ok? <==> answer.Ok? && Truthy(answer.value.jwt))
      && (r.result.Ok? ==> r.result.value == answer.value.jwt.value)
      && (answer.Ok? && !Truthy(answer.value.jwt) ==> r.result == Err(NoJwtFound))
      && (answer.Err? ==> r.result == Err(ClientFailed(answer.error)))
  {
    var request := ProofRequestFor(content, address, signature);
    var result :=
      match client.witnessJwt(request)
      case Err(m) => Err(ClientFailed(m))
      case Ok(resp) =>
        if !Truthy(resp.jwt) then Err(NoJwtFound) else Ok(resp.jwt.value);
    Run(result, [WitnessCall(request)])
  }

  /** `issue`: the statement phase, then the signer on exactly the text it
      returned, then the witness phase with that signature. The first
      failure ends the run: no later call is made and its error is the
      result. A successful run returns the witness phase's non-empty token. */
  function Issue(content: Content, address: string, sign: string -> Result<string, string>,
                 client: WitnessClient): (r: Run)
    ensures 1 <= |r.calls| <= 3 && r.calls[0] == StatementCall(StatementRequestFor(content, address))
    ensures var st := StatementPhase(content, address, client);
      && (st.result.Err? ==> r == st)
      && (st.result.Ok? ==> |r.calls| >= 2 && r.calls[1] == SignCall(st.result.value))
      && (st.result.Ok? && sign(st.result.value).Err? ==>
            r.result == Err(SigningFailed(sign(st.result.value).error)) && |r.calls| == 2)
      && (|r.calls| == 3 <==> st.result.Ok? && sign(st.result.value).Ok?)
      && (|r.calls| == 3 ==>
            var w := WitnessPhase(content, address, sign(st.result.value).value, client);
            r.calls[2] == w.calls[0] && r.result == w.result)
    ensures r.result.Ok? ==> |r.calls| == 3 && r.result.value != ""
  {
    var st := StatementPhase(content, address, client);
    match st.result
    case Err(_) => st
    case Ok(text) =>
      match sign(text)
      case Err(m) => Run(Err(SigningFailed(m)), st.calls + [SignCall(text)])
      case Ok(signature) =>
        var w := WitnessPhase(content, address, signature, client);
        Run(w.result, st.calls + [SignCall(text)] + w.calls)
  }

  /** `encode`: `%` and the last two digits of `"00"` followed by the
      character code in lower-case hexadecimal, that is the two hexadecimal
      digits of the code modulo 256. */
  function Encode(c: char): (e: string)
    ensures e == ['%', Hex.Digit(((c as int) / 16) % 16), Hex.Digit((c as int) % 16)]
  {
    "%" + JsStrings.SliceLast("00" + Hex.ToHexString(c as int), 2)
  }

  /** For a character of a binary string (code below 256), `encode` is the
      percent-encoded triplet of that octet. */
  lemma EncodeOctet(b: Base64.Byte)
    ensures Encode(b as char) == Uri.Triplet(b)
  {
  }

  /** `s.split("").map(encode).join("")`: one three-character triplet per
      character. */
  function EncodeAll(s: string): (r: string)
    ensures |r| == 3 * |s|
  {
    if s == [] then [] else Encode(s[0]) + EncodeAll(s[1..])
  }

  /** On a binary string, `EncodeAll` percent-encodes every octet. */
  lemma {:induction false} EncodeAllLatin1(b: seq<Base64.Byte>)
    ensures EncodeAll(Base64.Latin1(b)) == Uri.PercentEncoded(b)
  {
    if b != [] {
      EncodeAllLatin1(b[1..]);
      assert Base64.Latin1(b)[1..] == Base64.Latin1(b[1..]);
      EncodeOctet(b[0]);
    }
  }

  /** `u.replace(/-/g, "+").replace(/_/g, "/")`: the base64url alphabet
      onto the base64 alphabet. */
  function ToStdAlphabet(u: string): (r: string)
    ensures |r| == |u|
    ensures forall i :: 0 <= i < |u| ==>
              r[i] == (if u[i] == '-' then '+' else if u[i] == '_' then '/' else u[i])
  {
    JsStrings.ReplaceAll(JsStrings.ReplaceAll(u, '-', '+'), '_', '/')
  }

  datatype JwtError =
    | InvalidJwtFormat      // "Invalid JWT format"
    | InvalidCharacter      // thrown by atob
    | MalformedUri          // URIError thrown by decodeURIComponent
    | JsonSyntaxError       // thrown by JSON.parse

  /** The string `parseJWT` hands to `JSON.parse`: the middle of exactly
      three `.`-separated parts, mapped onto the base64 alphabet, decoded by
      `atob`, percent-encoded octet by octet and decoded as UTF-8 by
      `decodeURIComponent`. */
  function DecodePayload(jwt: string): (r: Result<string, JwtError>)
    ensures r == Err(InvalidJwtFormat) <==> JsStrings.Occurrences(jwt, '.') != 2
  {
    var v := JsStrings.Split(jwt, '.');
    if |v| != 3 then Err(InvalidJwtFormat)
    else
      match Base64.Atob(ToStdAlphabet(v[1]))
      case Err(_) => Err(InvalidCharacter)
      case Ok(binary) =>
        match Uri.DecodeUriComponent(EncodeAll(binary))
        case Err(_) => Err(MalformedUri)
        case Ok(json) => Ok(json)
  }

  /** `parseJWT`, with `JSON.parse` as a parameter that fails with None:
      "Invalid JWT format" exactly when the token does not have three parts;
      a value exactly when the payload decodes and its text parses, and then
      the parsed value of that text; a decoding error is passed on. */
  function ParseJwt<J>(jwt: string, jsonParse: string -> Option<J>): (r: Result<J, JwtError>)
    ensures r == Err(InvalidJwtFormat) <==> JsStrings.Occurrences(jwt, '.') != 2
    ensures r.Ok? <==> DecodePayload(jwt).Ok? && jsonParse(DecodePayload(jwt).value).Some?
    ensures r.Ok? ==> jsonParse(DecodePayload(jwt).value) == Some(r.value)
    ensures DecodePayload(jwt).Err? ==> r.Err? && r.error == DecodePayload(jwt).error
  {
    match DecodePayload(jwt)
    case Err(e) => Err(e)
    case Ok(json) =>
      match jsonParse(json)
      case None => Err(JsonSyntaxError)
      case Some(j) => Ok(j)
  }

  /** Two tokens with the same middle part decode alike: the header and the
      signature are never read. */
  lemma OnlyPayloadIsDecoded(jwt1: string, jwt2: string)
    requires |JsStrings.Split(jwt1, '.')| == 3 && |JsStrings.Split(jwt2, '.')| == 3
    requires JsStrings.Split(jwt1, '.')[1] == JsStrings.Split(jwt2, '.')[1]
    ensures DecodePayload(jwt1) == DecodePayload(jwt2)
  {
  }

  /** Two and four parts are refused. */
  lemma RejectsWrongPartCounts()
    ensures DecodePayload("a.b") == Err(InvalidJwtFormat)
    ensures DecodePayload("a.b.c.d") == Err(InvalidJwtFormat)
  {
    assert JsStrings.Occurrences("a.b", '.') == 1 by {
      assert "a.b"[1..] == ".b" && ".b"[1..] == "b" && "b"[1..] == "";
    }
    assert JsStrings.Occurrences("a.b.c.d", '.') == 3 by {
      assert "a.b.c.d"[1..] == ".b.c.d" && ".b.c.d"[1..] == "b.c.d";
      assert "b.c.d"[1..] == ".c.d" && ".c.d"[1..] == "c.d";
      assert "c.d"[1..] == ".d" && ".d"[1..] == "d" && "d"[1..] == "";
    }
  }

  /** A base64url digit is never the separator. */
  lemma NoSeparatorInEncoding(b: seq<Base64.Byte>)
    ensures '.' !in Base64.Encode(b, true)
  {
  }

  /** Round trip: when the middle part is the base64url encoding of the
      UTF-8 bytes of a text, the string handed to `JSON.parse` is that text,
      whatever the header and signature. */
  lemma PayloadRoundTrip(header: string, text: string, signature: string)
    requires '.' !in header && '.' !in signature
    ensures DecodePayload(header + "." + Base64.Encode(Utf8.Encode(text), true) + "." + signature)
         == Ok(text)
  {
    var bytes := Utf8.Encode(text);
    var payload := Base64.Encode(bytes, true);
    NoSeparatorInEncoding(bytes);
    assert header + "." + payload + "." + signature == header + ['.'] + payload + ['.'] + signature;
    JsStrings.SplitThree(header, payload, signature, '.');
    Base64.UrlAndStdDigits(bytes);
    assert ToStdAlphabet(payload) == Base64.Encode(bytes, false);
    Base64.AtobOfEncode(bytes);
    EncodeAllLatin1(bytes);
    Uri.DecodeEncoded(text);
  }

  /** The round trip of `parseJWT`: a token whose middle part is the
      base64url of the UTF-8 of a text yields what `JSON.parse` makes of that
      text, and a syntax error when it cannot parse it. */
  lemma ParseJwtRoundTrip<J>(header: string, text: string, signature: string, jsonParse: string -> Option<J>)
    requires '.' !in header && '.' !in signature
    ensures var r := ParseJwt(header + "." + Base64.Encode(Utf8.Encode(text), true) + "." + signature, jsonParse);
      && (jsonParse(text).Some? ==> r == Ok(jsonParse(text).value))
      && (jsonParse(text).None? ==> r == Err(JsonSyntaxError))
  {
    PayloadRoundTrip(header, text, signature);
  }
}
