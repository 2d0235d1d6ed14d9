/** The slip-scanning endpoint (api/scan-slip.js): request dispatch, the
    data-URL prefix strip, cleaning of the model's reply, amount
    validation and default filling. The AI model, JSON parsing, the
    environment's API key and the clock are parameters. */
module SlipApi {

  import opened Types
  import opened Strings

  // ---------------------------------------------------------------------
  // Data-URL prefix

  /** A character of the regular-expression class `\w`. */
  predicate IsWordChar(c: char) {
    ('a' <= c <= 'z') || ('A' <= c <= 'Z') || ('0' <= c <= '9') || c == '_'
  }

  /** The length of the leading run of word characters. */
  function WordRun(s: string): (k: nat)
    ensures k <= |s|
    ensures forall i :: 0 <= i < k ==> IsWordChar(s[i])
    ensures k < |s| ==> !IsWordChar(s[k])
    decreases |s|
  {
    if |s| > 0 && IsWordChar(s[0]) then 1 + WordRun(s[1..]) else 0
  }

  const ImagePrefix := "data:image/"
  const Base64Marker := ";base64,"

  /** `replace(/^data:image\/\w+;base64,/, '')`. */
  function StripDataUrlPrefix(s: string): (r: string)
    ensures !IsPrefix(ImagePrefix, s) ==> r == s
    ensures r == s || (|r| < |s| && r == s[|s| - |r|..])
  {
    if IsPrefix(ImagePrefix, s) then
      var rest := s[|ImagePrefix|..];
      var k := WordRun(rest);
      if k > 0 && IsPrefix(Base64Marker, rest[k..]) then rest[k + |Base64Marker|..] else s
    else s
  }

  /** Stripping a data URL gives back exactly its payload. */
  lemma StripRoundTrip(kind: string, payload: string)
    requires |kind| > 0 && forall i :: 0 <= i < |kind| ==> IsWordChar(kind[i])
    ensures StripDataUrlPrefix(ImagePrefix + kind + Base64Marker + payload) == payload
  {
    var s := ImagePrefix + kind + Base64Marker + payload;
    var rest := s[|ImagePrefix|..];
    assert rest == kind + (Base64Marker + payload);
    WordRunOf(kind, Base64Marker + payload);
    assert rest[|kind|..] == Base64Marker + payload;
    assert rest[|kind| + |Base64Marker|..] == payload;
  }

  lemma {:induction false} WordRunOf(w: string, tail: string)
    requires forall i :: 0 <= i < |w| ==> IsWordChar(w[i])
    requires |tail| > 0 && !IsWordChar(tail[0])
    ensures WordRun(w + tail) == |w|
    decreases |w|
  {
    if |w| == 0 {
      assert w + tail == tail;
    } else {
      assert (w + tail)[0] == w[0];
      assert (w + tail)[1..] == w[1..] + tail;
      WordRunOf(w[1..], tail);
    }
  }

  // ---------------------------------------------------------------------
  // Reply cleaning

  /** Every non-overlapping `marker`, each with an optional newline after
      it, removed left to right (a global regular-expression replace). */
  function RemoveAll(s: string, marker: string): (r: string)
    requires |marker| > 0
    ensures |r| <= |s|
    decreases |s|
  {
    if IsPrefix(marker + "\n", s) then RemoveAll(s[|marker| + 1..], marker)
    else if IsPrefix(marker, s) then RemoveAll(s[|marker|..], marker)
    else if |s| == 0 then ""
    else [s[0]] + RemoveAll(s[1..], marker)
  }

  const JsonFence := "```json"
  const Fence := "```"

  /** The reply with code fences removed and edge white space trimmed. */
  function CleanReply(text: string): string {
    Trim(RemoveAll(RemoveAll(text, JsonFence), Fence))
  }

  predicate NoBacktick(s: string) {
    forall i :: 0 <= i < |s| ==> s[i] != '`'
  }

  /** Text without backticks passes through untouched, and text after it
      is cleaned on its own. */
  lemma {:induction false} RemoveAllPlain(x: string, y: string, marker: string)
    requires |marker| > 0 && marker[0] == '`' && NoBacktick(x)
    ensures RemoveAll(x + y, marker) == x + RemoveAll(y, marker)
    decreases |x|
  {
    if |x| > 0 {
      assert NoBacktick(x[1..]) by {
        forall i | 0 <= i < |x[1..]| ensures x[1..][i] != '`' {
          assert x[1..][i] == x[i + 1];
        }
      }
      var s := x + y;
      calc {
        RemoveAll(s, marker);
        == { assert s[0] == x[0] != '`'; RemoveAllStep(s, marker); }
        [x[0]] + RemoveAll(s[1..], marker);
        == { assert s[1..] == x[1..] + y; }
        [x[0]] + RemoveAll(x[1..] + y, marker);
        == { RemoveAllPlain(x[1..], y, marker); }
        [x[0]] + (x[1..] + RemoveAll(y, marker));
        == { assert x == [x[0]] + x[1..]; }
        x + RemoveAll(y, marker);
      }
    } else {
      assert x + y == y;
    }
  }

  /** A string whose first character does not start the marker keeps
      that character. */
  lemma RemoveAllStep(s: string, marker: string)
    requires |marker| > 0 && |s| > 0 && marker[0] != s[0]
    ensures RemoveAll(s, marker) == [s[0]] + RemoveAll(s[1..], marker)
  {
    NotPrefixAtFirst(marker, s);
    NotPrefixAtFirst(marker + "\n", s);
  }

  /** A reply wrapped in a JSON code fence cleans to the wrapped text. */
  lemma CleanFencedReply(json: string)
    requires |json| > 0 && NoBacktick(json) && !IsSpace(json[0]) && !IsSpace(json[|json| - 1])
    ensures CleanReply("```json\n" + json + "\n```") == json
  {
    var body := json + "\n";
    assert NoBacktick(body);
    var s := "```json\n" + json + "\n```";
    assert s == (JsonFence + "\n") + (body + Fence);
    assert IsPrefix(JsonFence + "\n", s);
    assert s[|JsonFence| + 1..] == body + Fence;
    assert RemoveAll(s, JsonFence) == RemoveAll(body + Fence, JsonFence);
    RemoveAllPlain(body, Fence, JsonFence);
    assert RemoveAll(Fence, JsonFence) == Fence by {
      assert !IsPrefix(JsonFence + "\n", Fence);
      assert !IsPrefix(JsonFence, Fence);
      assert Fence[1..] == "``";
      assert "``"[1..] == "`";
      assert "`"[1..] == "";
    }
    RemoveAllPlain(body, "", Fence);
    assert body + "" == body;
    assert RemoveAll(body + Fence, Fence) == body by {
      RemoveAllPlain(body, Fence, Fence);
      assert IsPrefix(Fence, Fence);
      assert Fence[|Fence|..] == "";
    }
    TrimNewline(json);
  }

  /** A trailing newline is trimmed away. */
  lemma TrimNewline(x: string)
    requires |x| > 0 && !IsSpace(x[0]) && !IsSpace(x[|x| - 1])
    ensures Trim(x + "\n") == x
  {
    assert (x + "\n")[0] == x[0];
    assert TrimStart(x + "\n") == x + "\n";
    assert (x + "\n")[..|x|] == x;
    assert TrimEnd(x + "\n") == TrimEnd(x);
  }

  // ---------------------------------------------------------------------
  // The handler

  /** A JSON field as the parsed reply may hold it. */
  datatype Field = Missing | Str(s: string) | Number(n: int)

  /** JavaScript truthiness of a field. */
  predicate Truthy(f: Field) {
    match f
    case Missing => false
    case Str(s) => s != ""
    case Number(n) => n != 0
  }

  /** `field || fallback` for a text field. */
  function TextOr(f: Field, fallback: string): string {
    match f
    case Str(s) => if s != "" then s else fallback
    case Number(n) => if n != 0 then IntToString(n) else fallback
    case Missing => fallback
  }

  /** `out` is what `field || fallback` yields: the fallback for a falsy
      field, otherwise the field's own non-empty text. */
  predicate FilledFrom(f: Field, out: string, fallback: string) {
    && (!Truthy(f) ==> out == fallback)
    && (f.Str? && f.s != "" ==> out == f.s)
    && (f.Number? && f.n != 0 ==> out == IntToString(f.n))
    && (Truthy(f) ==> out != "")
  }

  /** `parseFloat(field)`. */
  function AmountOf(f: Field): Num {
    match f
    case Number(n) => Val(n)
    case Str(s) => ParseFloat(s)
    case Missing => NaN
  }

  /** The reply's fields after `JSON.parse`. */
  datatype SlipJson = SlipJson(
    customerName: Field, amount: Field, date: Field, time: Field,
    bank: Field, fromAccount: Field, toAccount: Field, reference: Field)

  /** What the endpoint sends back on success. */
  datatype SlipOut = SlipOut(
    customerName: string, amount: Num, date: string, time: string,
    bank: string, fromAccount: string, toAccount: string, reference: string)

  datatype Body =
    | NoBody
    | ErrorOnly(error: string)        // `{ error }`
    | Failure(error: string)          // `{ success: false, error }`
    | Success(data: SlipOut)          // `{ success: true, data }`

  datatype Response = Response(status: int, body: Body)

  /** The AI model's answer: its text, or a thrown error's message. */
  datatype AiReply = ReplyText(text: string) | AiError(message: string)

  /** `JSON.parse`: the fields, or a thrown error's message. */
  datatype Parsed = Fields(json: SlipJson) | ParseError(message: string)

  /** The incoming request: its HTTP method and the `imageBase64` field. */
  datatype Request = Request(verb: string, imageBase64: Option<string>)

  const ReadFailure := "เกิดข้อผิดพลาดในการอ่านสลิป"
  const NoAmountMessage := "ไม่พบจำนวนเงินในสลิป กรุณาลองใหม่หรือกรอกข้อมูลเอง"

  /** The 500 reply for an error thrown inside the handler. */
  function Thrown(message: string): Response {
    Response(500, Failure(if message != "" then message else ReadFailure))
  }

  /** Default filling for a validated reply. */
  function Fill(d: SlipJson, today: string): (r: SlipOut)
    ensures r.amount == AmountOf(d.amount)
    ensures FilledFrom(d.customerName, r.customerName, "")
    ensures FilledFrom(d.date, r.date, today)
    ensures FilledFrom(d.time, r.time, "")
    ensures FilledFrom(d.bank, r.bank, "")
    ensures FilledFrom(d.fromAccount, r.fromAccount, "")
    ensures FilledFrom(d.toAccount, r.toAccount, "")
    ensures FilledFrom(d.reference, r.reference, "")
  {
    SlipOut(TextOr(d.customerName, ""), AmountOf(d.amount), TextOr(d.date, today), TextOr(d.time, ""),
            TextOr(d.bank, ""), TextOr(d.fromAccount, ""), TextOr(d.toAccount, ""), TextOr(d.reference, ""))
  }

  /** `handler`: the whole request, with the model and parser supplied. */
  function Handle(req: Request, apiKey: string, ai: string -> AiReply, parse: string -> Parsed, today: string): (r: Response)
    ensures req.verb == "OPTIONS" <==> r == Response(200, NoBody)
    ensures req.verb != "OPTIONS" && req.verb != "POST" ==> r == Response(405, ErrorOnly("Method not allowed"))
    ensures req.verb == "POST" && (req.imageBase64.None? || req.imageBase64 == Some("")) ==>
      r == Response(400, ErrorOnly("No image data provided"))
    ensures req.verb == "POST" && req.imageBase64.Some? && req.imageBase64.value != "" && apiKey == "" ==>
      r == Response(500, ErrorOnly("GEMINI_API_KEY not configured"))
    ensures req.verb == "POST" && req.imageBase64.Some? && req.imageBase64.value != "" && apiKey != "" ==>
      match ai(StripDataUrlPrefix(req.imageBase64.value))
      case AiError(m) => r == Thrown(m) && r.status == 500
      case ReplyText(text) => parse(CleanReply(text)).ParseError? ==> r == Thrown(parse(CleanReply(text)).message)
    ensures r.body.Failure? && r.status == 500 ==> r.body.error != ""
    ensures r.status == 200 && r.body.Success? ==> req.verb == "POST" && apiKey != ""
  {
    if req.verb == "OPTIONS" then Response(200, NoBody)
    else if req.verb != "POST" then Response(405, ErrorOnly("Method not allowed"))
    else if req.imageBase64.None? || req.imageBase64 == Some("") then Response(400, ErrorOnly("No image data provided"))
    else if apiKey == "" then Response(500, ErrorOnly("GEMINI_API_KEY not configured"))
    else match ai(StripDataUrlPrefix(req.imageBase64.value))
      case AiError(m) => Thrown(m)
      case ReplyText(text) =>
        match parse(CleanReply(text))
        case ParseError(m) => Thrown(m)
        case Fields(d) =>
          if !Truthy(d.amount) then Response(400, Failure(NoAmountMessage))
          else Response(200, Success(Fill(d, today)))
  }

  /** A missing image or API key is answered without consulting the
      model: the reply does not depend on it. */
  lemma EarlyRepliesSkipModel(req: Request, apiKey: string, ai1: string -> AiReply, ai2: string -> AiReply,
                              parse: string -> Parsed, today: string)
    requires req.imageBase64.None? || req.imageBase64 == Some("") || apiKey == ""
    ensures Handle(req, apiKey, ai1, parse, today) == Handle(req, apiKey, ai2, parse, today)
  {
  }

  /** The model sees only the stripped image: two models that agree on the
      stripped payload give the same reply. */
  lemma ModelSeesPayload(req: Request, apiKey: string, ai1: string -> AiReply, ai2: string -> AiReply,
                         parse: string -> Parsed, today: string)
    requires req.imageBase64.Some? && ai1(StripDataUrlPrefix(req.imageBase64.value)) == ai2(StripDataUrlPrefix(req.imageBase64.value))
    ensures Handle(req, apiKey, ai1, parse, today) == Handle(req, apiKey, ai2, parse, today)
  {
  }

  /** A reply whose amount is missing, empty or zero is refused with 400;
      any other parsed reply succeeds with the defaults filled in. */
  lemma AmountValidation(req: Request, apiKey: string, ai: string -> AiReply, parse: string -> Parsed, today: string, text: string, d: SlipJson)
    requires req.verb == "POST" && req.imageBase64.Some? && req.imageBase64.value != "" && apiKey != ""
    requires ai(StripDataUrlPrefix(req.imageBase64.value)) == ReplyText(text)
    requires parse(CleanReply(text)) == Fields(d)
    ensures !Truthy(d.amount) ==> Handle(req, apiKey, ai, parse, today) == Response(400, Failure(NoAmountMessage))
    ensures Truthy(d.amount) ==> Handle(req, apiKey, ai, parse, today) == Response(200, Success(Fill(d, today)))
  {
  }
}
