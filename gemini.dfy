/** One call to the hosted generation endpoint, as the chat session makes it:
    the missing-key check, the prompt built from the persona's instructions,
    the recent conversation and the new message, the request that is sent, and
    the reading of the reply out of whatever came back. The network itself is
    not modelled: what `requests.post` produced is an input, `NetResult`. */
module Gemini {
  import opened Wrappers
  import Text
  import Json
  import Personas

  const ApiUrl: string := "https://generativelanguage.googleapis.com/v1beta/models/gemini-2.0-flash:generateContent"

  /** What posting the request produced: one of the failures `requests.post`
      raises, or an HTTP response with its status, its text and that text read
      as JSON. */
  datatype NetResult =
    | Timeout
    | ConnectionError
    | RequestException(detail: string)
    | Response(status: nat, text: string, body: Body)

  /** `response.json()`: the decoded document, or the decoder's complaint. */
  datatype Body = Parsed(value: Json.Value) | Unparsable(detail: string)

  /** Every way a call can end. All but `Generated` are failures that the call
      turns into a reply string instead of raising. */
  datatype Outcome =
    | Generated(text: string)
    | MissingApiKey
    | NoCandidates
    | NoContent
    | NoParts
    | ApiError(status: nat, body: string)
    | TimedOut
    | ConnectionFailed
    | RequestFailed(detail: string)
    | JsonDecodeFailed(detail: string)
    | Unexpected(detail: string)

  /** The request the call sends: endpoint, the key for the `X-goog-api-key`
      header, and the JSON payload. */
  datatype Request = Request(url: string, apiKey: string, payload: Json.Value)

  /** What one call did: the request it sent, if it got that far, and the reply
      string it returned. */
  datatype Exchange = Exchange(sent: Option<Request>, reply: string)

  // The reply strings of the failures. They begin with the same marker
  // character except the two network notices, which carry their own.

  const ErrorTag: string := "\U{274C} Error: "
  const MissingKeyText: string :=
    ErrorTag + "GEMINI_API_KEY" + " not found in environment variables. Please set your API key."
  const NoCandidatesText: string := ErrorTag + "No candidates" + " found in response"
  const NoContentText: string := ErrorTag + "No content" + " found in response"
  const NoPartsText: string := ErrorTag + "No parts" + " found in response content"
  const TimedOutText: string := "\U{23F0}" + " Request timed out. Please try again."
  const ConnectionText: string := "\U{1F310}" + " Connection error. Please check your internet connection."
  const ApiErrorPrefix: string := "\U{274C} API Error "
  const RequestErrorPrefix: string := "\U{274C} Request error: "
  const JsonErrorPrefix: string := "\U{274C} JSON parsing error: "
  const UnexpectedPrefix: string := "\U{274C} Unexpected error: "

  /** The string the call returns for an outcome; for a non-success status
      it is `"API Error <code>: <response text>"` behind the marker. */
  function ReplyText(o: Outcome): string {
    match o
    case Generated(t) => t
    case MissingApiKey => MissingKeyText
    case NoCandidates => NoCandidatesText
    case NoContent => NoContentText
    case NoParts => NoPartsText
    case ApiError(code, body) => ApiErrorPrefix + Text.NatToString(code) + ": " + body
    case TimedOut => TimedOutText
    case ConnectionFailed => ConnectionText
    case RequestFailed(d) => RequestErrorPrefix + d
    case JsonDecodeFailed(d) => JsonErrorPrefix + d
    case Unexpected(d) => UnexpectedPrefix + d
  }

  predicate StartsWith(s: string, prefix: string) {
    |prefix| <= |s| && s[..|prefix|] == prefix
  }

  /** Reads `"<code>: <body>"`, the part of an API error reply after its prefix. */
  function ApiErrorParts(rest: string): Option<(nat, string)> {
    var k := Text.DigitRun(rest);
    if 0 < k && k + 2 <= |rest| && rest[k..k + 2] == ": " then
      Some((Text.ParseNat(rest[..k]), rest[k + 2..]))
    else
      None
  }

  /** Reads a reply string back as the outcome it reports; any string that is
      not shaped like a failure reads as generated text. */
  function Classify(s: string): Outcome {
    if s == MissingKeyText then MissingApiKey
    else if s == NoCandidatesText then NoCandidates
    else if s == NoContentText then NoContent
    else if s == NoPartsText then NoParts
    else if s == TimedOutText then TimedOut
    else if s == ConnectionText then ConnectionFailed
    else if StartsWith(s, ApiErrorPrefix) && ApiErrorParts(s[|ApiErrorPrefix|..]).Some? then
      var (code, body) := ApiErrorParts(s[|ApiErrorPrefix|..]).value;
      ApiError(code, body)
    else if StartsWith(s, RequestErrorPrefix) then RequestFailed(s[|RequestErrorPrefix|..])
    else if StartsWith(s, JsonErrorPrefix) then JsonDecodeFailed(s[|JsonErrorPrefix|..])
    else if StartsWith(s, UnexpectedPrefix) then Unexpected(s[|UnexpectedPrefix|..])
    else Generated(s)
  }

  /** The first and third characters of the failure replies, which tell the
      kinds apart. */
  lemma ReplyMarks()
    ensures |MissingKeyText| > 9 && MissingKeyText[0] == '\U{274C}' && MissingKeyText[2] == 'E'
    ensures |NoCandidatesText| > 9 && NoCandidatesText[0] == '\U{274C}' && NoCandidatesText[2] == 'E'
    ensures |NoContentText| > 9 && NoContentText[0] == '\U{274C}' && NoContentText[2] == 'E'
    ensures |NoPartsText| > 9 && NoPartsText[0] == '\U{274C}' && NoPartsText[2] == 'E'
    ensures |TimedOutText| > 2 && TimedOutText[0] == '\U{23F0}'
    ensures |ConnectionText| > 2 && ConnectionText[0] == '\U{1F310}'
    ensures |ApiErrorPrefix| > 2 && ApiErrorPrefix[0] == '\U{274C}' && ApiErrorPrefix[2] == 'A'
    ensures |RequestErrorPrefix| > 2 && RequestErrorPrefix[0] == '\U{274C}' && RequestErrorPrefix[2] == 'R'
    ensures |JsonErrorPrefix| > 2 && JsonErrorPrefix[0] == '\U{274C}' && JsonErrorPrefix[2] == 'J'
    ensures |UnexpectedPrefix| > 2 && UnexpectedPrefix[0] == '\U{274C}' && UnexpectedPrefix[2] == 'U'
  {
  }

  /** A failure reply with a fixed text reads back as its failure. */
  lemma ClassifyFixedReply(o: Outcome)
    requires o.MissingApiKey? || o.NoCandidates? || o.NoContent? || o.NoParts? || o.TimedOut? || o.ConnectionFailed?
    ensures Classify(ReplyText(o)) == o
  {
    var s := ReplyText(o);
    match o
    case MissingApiKey =>
    case NoCandidates =>
      assert s[9] == 'N';
    case NoContent =>
      assert s[9] == 'N' && s[13] == 'o';
    case NoParts =>
      assert s[9] == 'N' && s[12] == 'p';
    case TimedOut =>
      assert s[0] == '\U{23F0}';
    case ConnectionFailed =>
      assert s[0] == '\U{1F310}';
  }

  /** The part of an API error reply after its prefix reads back as the status
      code and the response text. */
  lemma ApiErrorPartsOf(code: nat, body: string)
    ensures ApiErrorParts(Text.NatToString(code) + ": " + body) == Some((code, body))
  {
    var d := Text.NatToString(code);
    var rest := d + ": " + body;
    Text.DigitRunOfDigits(d, ": " + body);
    assert rest[..|d|] == d;
    assert rest[|d|..|d| + 2] == ": ";
    assert rest[|d| + 2..] == body;
    Text.ParseNatToString(code);
  }

  /** The API error reply gives back its status code and response text. */
  lemma ClassifyApiErrorReply(code: nat, body: string)
    ensures Classify(ReplyText(ApiError(code, body))) == ApiError(code, body)
  {
    var s := ReplyText(ApiError(code, body));
    var rest := Text.NatToString(code) + ": " + body;
    ReplyMarks();
    assert s == ApiErrorPrefix + rest;
    assert s[0] == '\U{274C}' && s[2] == 'A';
    assert s[|ApiErrorPrefix|..] == rest;
    ApiErrorPartsOf(code, body);
  }

  /** A failure reply that carries an exception's text gives that text back. */
  lemma ClassifyDetailReply(o: Outcome)
    requires o.RequestFailed? || o.JsonDecodeFailed? || o.Unexpected?
    ensures Classify(ReplyText(o)) == o
  {
    var s := ReplyText(o);
    ReplyMarks();
    match o
    case RequestFailed(x) =>
      assert s[0] == '\U{274C}' && s[2] == 'R';
      assert s[|RequestErrorPrefix|..] == x;
    case JsonDecodeFailed(x) =>
      assert s[0] == '\U{274C}' && s[2] == 'J';
      assert s[|JsonErrorPrefix|..] == x;
    case Unexpected(x) =>
      assert s[0] == '\U{274C}' && s[2] == 'U';
      assert s[|UnexpectedPrefix|..] == x;
  }

  /** Every failure reply reads back as the failure it reports. */
  lemma ClassifyReplyText(o: Outcome)
    requires !o.Generated?
    ensures Classify(ReplyText(o)) == o
  {
    match o
    case ApiError(code, body) => ClassifyApiErrorReply(code, body);
    case RequestFailed(_) => ClassifyDetailReply(o);
    case JsonDecodeFailed(_) => ClassifyDetailReply(o);
    case Unexpected(_) => ClassifyDetailReply(o);
    case _ => ClassifyFixedReply(o);
  }

  /** Distinct failures give distinct replies. */
  lemma FailureRepliesDistinct(o1: Outcome, o2: Outcome)
    requires !o1.Generated? && !o2.Generated?
    requires ReplyText(o1) == ReplyText(o2)
    ensures o1 == o2
  {
    ClassifyReplyText(o1);
    ClassifyReplyText(o2);
  }

  // ---- Reading the generated text out of a 200 response ----

  /** The detail reported when a level of the document has a type the
      extraction does not expect. */
  const ShapeDetail: string := "unexpected response shape"

  /** The nested lookups of a 200 response, level by level: a missing or empty
      `candidates`, a missing `content` and a missing `parts` each have their
      own failure; an empty `parts` list or a part without `text` fail with the
      message of the exception the lookup raises. */
  function Extract(result: Json.Value): Outcome {
    if !result.Object? then Unexpected(ShapeDetail)
    else if "candidates" !in result.fields then NoCandidates
    else
      var candidates := result.fields["candidates"];
      if !candidates.Array? then Unexpected(ShapeDetail)
      else if |candidates.items| == 0 then NoCandidates
      else
        var candidate := candidates.items[0];
        if !candidate.Object? then Unexpected(ShapeDetail)
        else if "content" !in candidate.fields then NoContent
        else
          var content := candidate.fields["content"];
          if !content.Object? then Unexpected(ShapeDetail)
          else if "parts" !in content.fields then NoParts
          else
            var parts := content.fields["parts"];
            if !parts.Array? then Unexpected(ShapeDetail)
            else if |parts.items| == 0 then Unexpected("list index out of range")
            else
              var part := parts.items[0];
              if !part.Object? then Unexpected(ShapeDetail)
              else if "text" !in part.fields then Unexpected("'text'")
              else
                var text := part.fields["text"];
                if text.Str? then Generated(text.s) else Unexpected(ShapeDetail)
  }

  /** Where the generated text sits in a response document. */
  const TextPath: seq<Json.Step> :=
    [Json.Key("candidates"), Json.Index(0), Json.Key("content"), Json.Key("parts"), Json.Index(0), Json.Key("text")]

  /** The extraction, stated as lookups along `TextPath`: the text is generated
      exactly when a string sits at the end of the path, and each named failure
      happens exactly when its level is the first one missing. Anything else
      is an unexpected failure. */
  lemma ExtractFollowsPath(v: Json.Value)
    ensures Extract(v).Generated? <==> Json.At(v, TextPath).Some? && Json.At(v, TextPath).value.Str?
    ensures Extract(v).Generated? ==> Json.At(v, TextPath) == Some(Json.Str(Extract(v).text))
    ensures Extract(v) == NoCandidates <==>
              v.Object? && (Json.At(v, TextPath[..1]).None? || Json.At(v, TextPath[..1]) == Some(Json.Array([])))
    ensures Extract(v) == NoContent <==>
              Json.At(v, TextPath[..2]).Some? && Json.At(v, TextPath[..2]).value.Object? && Json.At(v, TextPath[..3]).None?
    ensures Extract(v) == NoParts <==>
              Json.At(v, TextPath[..3]).Some? && Json.At(v, TextPath[..3]).value.Object? && Json.At(v, TextPath[..4]).None?
    ensures Extract(v).Generated? || Extract(v).NoCandidates? || Extract(v).NoContent? ||
            Extract(v).NoParts? || Extract(v).Unexpected?
  {
    var p := TextPath;
    assert p[..0] == [];
    forall k | 0 <= k < 6
      ensures Json.At(v, p[..k + 1]) ==
                match Json.At(v, p[..k])
                case None => None
                case Some(w) => Json.Child(w, p[k])
    {
      assert p[..k + 1] == p[..k] + [p[k]];
      Json.AtSnoc(v, p[..k], p[k]);
    }
    assert p[..6] == p;
  }

  /** What a call learns from what came back: a status other than 200 is an
      API error carrying the status and the response text; a 200 response is
      read by `Extract`; the request failures keep their own outcomes. */
  function Interpret(net: NetResult): (o: Outcome)
    ensures o.Generated? <==>
              net.Response? && net.status == 200 && net.body.Parsed? &&
              Json.At(net.body.value, TextPath).Some? && Json.At(net.body.value, TextPath).value.Str?
    ensures o.Generated? ==> Json.At(net.body.value, TextPath) == Some(Json.Str(o.text))
    ensures net.Response? && net.status != 200 ==> o == ApiError(net.status, net.text)
    ensures o.NoCandidates? || o.NoContent? || o.NoParts? || o.JsonDecodeFailed? ==> net.Response? && net.status == 200
    ensures !o.MissingApiKey?
  {
    match net
    case Timeout => TimedOut
    case ConnectionError => ConnectionFailed
    case RequestException(d) => RequestFailed(d)
    case Response(status, text, body) =>
      if status != 200 then ApiError(status, text)
      else match body
        case Unparsable(d) => JsonDecodeFailed(d)
        case Parsed(v) => ExtractFollowsPath(v); Extract(v)
  }

  // ---- The prompt and the request ----

  const ContextHeading: string := "\n\nPrevious conversation context:\n"
  const MessageHeading: string := "\n\nCurrent user message: "
  const WordHeading: string := "\n\nPlease respond authentically as a "
  const Closing: string := " would. Stay in character and provide helpful, caring responses."

  /** `piece` sits intact in `s` starting at index `at`. */
  predicate Occurs(piece: string, s: string, at: nat) {
    at + |piece| <= |s| && s[at..at + |piece|] == piece
  }

  function ContextAt(system: string): nat { |system| + |ContextHeading| }

  function MessageAt(system: string, context: string): nat {
    ContextAt(system) + |context| + |MessageHeading|
  }

  function WordAt(system: string, context: string, message: string): nat {
    MessageAt(system, context) + |message| + |WordHeading|
  }

  lemma OccursAtEnd(s: string, piece: string)
    ensures Occurs(piece, s + piece, |s|)
  {
    assert (s + piece)[|s|..] == piece;
  }

  lemma OccursExtended(piece: string, s: string, t: string, at: nat)
    requires Occurs(piece, s, at)
    ensures Occurs(piece, s + t, at)
  {
    assert (s + t)[at..at + |piece|] == s[at..at + |piece|];
  }

  /** The full prompt: the persona's instructions, then the recent
      conversation, then the new message, then the persona's first word, each
      behind its fixed heading, and a closing request to stay in character. */
  function BuildPrompt(system: string, context: string, message: string, word: string): (prompt: string)
    ensures Occurs(system, prompt, 0)
    ensures Occurs(context, prompt, ContextAt(system))
    ensures Occurs(message, prompt, MessageAt(system, context))
    ensures Occurs(word, prompt, WordAt(system, context, message))
    ensures |system| < ContextAt(system) + 1 && ContextAt(system) + |context| < MessageAt(system, context)
    ensures MessageAt(system, context) + |message| < WordAt(system, context, message)
  {
    var p2 := system + ContextHeading;
    var p3 := p2 + context;
    var p4 := p3 + MessageHeading;
    var p5 := p4 + message;
    var p6 := p5 + WordHeading;
    var p7 := p6 + word;
    var prompt := p7 + Closing;
    OccursAtEnd([], system);
    assert [] + system == system;
    OccursExtended(system, system, ContextHeading, 0);
    OccursExtended(system, p2, context, 0);
    OccursExtended(system, p3, MessageHeading, 0);
    OccursExtended(system, p4, message, 0);
    OccursExtended(system, p5, WordHeading, 0);
    OccursExtended(system, p6, word, 0);
    OccursExtended(system, p7, Closing, 0);
    OccursAtEnd(p2, context);
    OccursExtended(context, p3, MessageHeading, |p2|);
    OccursExtended(context, p4, message, |p2|);
    OccursExtended(context, p5, WordHeading, |p2|);
    OccursExtended(context, p6, word, |p2|);
    OccursExtended(context, p7, Closing, |p2|);
    OccursAtEnd(p4, message);
    OccursExtended(message, p5, WordHeading, |p4|);
    OccursExtended(message, p6, word, |p4|);
    OccursExtended(message, p7, Closing, |p4|);
    OccursAtEnd(p6, word);
    OccursExtended(word, p7, Closing, |p6|);
    prompt
  }

  /** Where the endpoint reads the prompt in the request payload. */
  const PromptPath: seq<Json.Step> :=
    [Json.Key("contents"), Json.Index(0), Json.Key("parts"), Json.Index(0), Json.Key("text")]

  /** The request payload: one content holding one part whose text is the
      prompt. */
  function Payload(prompt: string): (payload: Json.Value)
    ensures Json.At(payload, PromptPath) == Some(Json.Str(prompt))
    ensures payload.Object? && payload.fields.Keys == {"contents"}
    ensures var contents := Json.At(payload, PromptPath[..1]);
              contents.Some? && contents.value.Array? && |contents.value.items| == 1
    ensures var content := Json.At(payload, PromptPath[..2]);
              content.Some? && content.value.Object? && content.value.fields.Keys == {"parts"}
    ensures var parts := Json.At(payload, PromptPath[..3]);
              parts.Some? && parts.value.Array? && |parts.value.items| == 1
    ensures var part := Json.At(payload, PromptPath[..4]);
              part.Some? && part.value.Object? && part.value.fields.Keys == {"text"}
  {
    var part := Json.Object(map["text" := Json.Str(prompt)]);
    var content := Json.Object(map["parts" := Json.Array([part])]);
    var payload := Json.Object(map["contents" := Json.Array([content])]);
    var p := PromptPath;
    assert p[..0] == [];
    forall k | 0 <= k < 5
      ensures Json.At(payload, p[..k + 1]) ==
                match Json.At(payload, p[..k])
                case None => None
                case Some(w) => Json.Child(w, p[k])
    {
      assert p[..k + 1] == p[..k] + [p[k]];
      Json.AtSnoc(payload, p[..k], p[k]);
    }
    assert p[..5] == p;
    payload
  }

  // ---- The whole call ----

  /** The key counts as missing when it is absent or empty. */
  predicate MissingKey(apiKey: Option<string>) {
    apiKey.None? || apiKey.value == ""
  }

  /** One call to the endpoint at `url`: with no key nothing is built or sent
      and the missing-key reply comes back. Otherwise the persona's
      instructions are looked up (an unknown persona fails with the lookup's
      message, the `repr` of the name), the prompt is built with the
      first word of the persona's name (a blank name fails with the message of
      the indexing that finds no word), the request is sent, and what came back
      is interpreted. */
  function Call(url: string, apiKey: Option<string>, table: map<string, Personas.Role>, context: string,
                message: string, role: string, net: NetResult): (x: Exchange)
    ensures MissingKey(apiKey) ==> x == Exchange(None, MissingKeyText)
    ensures x.sent.Some? <==> !MissingKey(apiKey) && role in table && !Text.IsBlank(role)
    ensures x.sent.Some? ==>
              x.sent.value.url == url && x.sent.value.apiKey == apiKey.value &&
              Json.At(x.sent.value.payload, PromptPath) ==
                Some(Json.Str(BuildPrompt(Personas.SystemPrompt(table[role]), context, message, Text.FirstWord(role).value)))
    ensures x.sent.Some? ==> x.reply == ReplyText(Interpret(net))
    ensures !MissingKey(apiKey) && role !in table ==> x.reply == ReplyText(Unexpected(Text.Repr(role)))
    ensures x.sent.None? ==> !Classify(x.reply).Generated?
  {
    if MissingKey(apiKey) then
      ClassifyReplyText(MissingApiKey);
      Exchange(None, MissingKeyText)
    else if role !in table then
      var o := Unexpected(Text.Repr(role));
      ClassifyReplyText(o);
      Exchange(None, ReplyText(o))
    else
      var system := Personas.SystemPrompt(table[role]);
      match Text.FirstWord(role)
      case None =>
        var o := Unexpected("list index out of range");
        ClassifyReplyText(o);
        Exchange(None, ReplyText(o))
      case Some(word) =>
        var prompt := BuildPrompt(system, context, message, word);
        Exchange(Some(Request(url, apiKey.value, Payload(prompt))), ReplyText(Interpret(net)))
  }

  /** With a key and a role from the session's table, the call always gets as
      far as sending its request. */
  lemma TableRoleSends(url: string, apiKey: Option<string>, context: string, message: string,
                       role: string, net: NetResult)
    requires !MissingKey(apiKey) && role in Personas.Table()
    ensures Call(url, apiKey, Personas.Table(), context, message, role, net).sent.Some?
  {
    Personas.TableRolesHaveAWord(role);
  }
}
