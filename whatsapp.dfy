/** The WhatsApp side of lib/whatsapp.ts: the phone-number normalisation and
    the credential check that come before the Green API request, the outcome
    built from the reply, and the dispatch alert text. The HTTP request itself
    is a function parameter. */
module WhatsApp {
  import opened Domain
  import opened Strings
  import opened Sorting

  // ------------------------------------------------------------ phone number

  /** The characters `\s` matches in a JavaScript regular expression: the
      ECMAScript white space and line terminators. */
  predicate IsJsSpace(c: char)
  {
    c == '\t' || c == '\n' || c == '\U{000B}' || c == '\U{000C}' || c == '\r' || c == ' '
    || c == '\U{00A0}' || c == '\U{1680}' || ('\U{2000}' <= c <= '\U{200A}')
    || c == '\U{2028}' || c == '\U{2029}' || c == '\U{202F}' || c == '\U{205F}'
    || c == '\U{3000}' || c == '\U{FEFF}'
  }

  /** The class `[\s\-\+]`. */
  predicate Stripped(c: char)
  {
    IsJsSpace(c) || c == '-' || c == '+'
  }

  /** `to.replace(/[\s\-\+]/g, "")`. */
  function Clean(s: string): (r: string)
    ensures forall c :: c in r <==> c in s && !Stripped(c)
    ensures |r| <= |s|
  {
    if s == [] then []
    else (if Stripped(s[0]) then [] else [s[0]]) + Clean(s[1..])
  }

  /** Cleaning works character by character, so it distributes over `+`. */
  lemma {:induction false} CleanAppend(a: string, b: string)
    ensures Clean(a + b) == Clean(a) + Clean(b)
  {
    if a == [] {
      assert a + b == b;
    } else {
      assert (a + b)[0] == a[0] && (a + b)[1..] == a[1..] + b;
      CleanAppend(a[1..], b);
    }
  }

  /** The kept characters stay in their original order. */
  lemma {:induction false} CleanKeepsOrder(s: string)
    ensures IsSubsequence(Clean(s), s)
  {
    if s != [] {
      CleanKeepsOrder(s[1..]);
      if Stripped(s[0]) {
        assert Clean(s) == Clean(s[1..]);
        SubsequenceSkip(Clean(s[1..]), s[0], s[1..]);
        assert [s[0]] + s[1..] == s;
      } else {
        assert Clean(s) == [s[0]] + Clean(s[1..]);
      }
    }
  }

  /** A number with nothing to strip is left as it is, so cleaning twice is
      cleaning once. */
  lemma {:induction false} CleanIdempotent(s: string)
    ensures Clean(Clean(s)) == Clean(s)
  {
    CleanNothingToStrip(Clean(s));
  }

  lemma {:induction false} CleanNothingToStrip(s: string)
    requires forall c :: c in s ==> !Stripped(c)
    ensures Clean(s) == s
  {
    if s != [] {
      assert s[0] in s;
      CleanNothingToStrip(s[1..]);
      assert [s[0]] + s[1..] == s;
    }
  }

  const CountryCode: string := "91"

  predicate StartsWith(s: string, prefix: string)
  {
    |prefix| <= |s| && s[..|prefix|] == prefix
  }

  /** `cleaned.startsWith("91") ? cleaned : "91" + cleaned`. */
  function IntlPhone(cleaned: string): (r: string)
    ensures StartsWith(r, CountryCode)
  {
    if StartsWith(cleaned, CountryCode) then cleaned else CountryCode + cleaned
  }

  /** The code is prepended exactly when the number does not already start
      with it, and otherwise the number is kept. */
  lemma IntlPhoneCases(cleaned: string)
    ensures IntlPhone(cleaned) == cleaned <==> StartsWith(cleaned, CountryCode)
    ensures !StartsWith(cleaned, CountryCode) ==> IntlPhone(cleaned) == CountryCode + cleaned
  {
    if !StartsWith(cleaned, CountryCode) {
      assert |IntlPhone(cleaned)| == |cleaned| + 2;
    }
  }

  /** Normalising an already normalised number changes nothing. */
  lemma IntlPhoneIdempotent(cleaned: string)
    ensures IntlPhone(IntlPhone(cleaned)) == IntlPhone(cleaned)
  {
  }

  /** A ten-digit national number that happens to begin with 91 gets no country
      code: the rule looks at the leading digits only, not at the length. */
  lemma NationalNumberStartingWith91()
    ensures IntlPhone("9123456789") == "9123456789"
  {
    assert "9123456789"[..2] == "91";
  }

  /** `${intlPhone}@c.us`. */
  function ChatId(to: string): (r: string)
    ensures r == IntlPhone(Clean(to)) + "@c.us"
  {
    IntlPhone(Clean(to)) + "@c.us"
  }

  /** The chat id is always "91", then the cleaned digits, then "@c.us", and
      holds no white space, dash or plus before the suffix. */
  lemma ChatIdShape(to: string)
    ensures StartsWith(ChatId(to), CountryCode)
    ensures var id := ChatId(to); |id| >= 7 && id[|id| - 5..] == "@c.us"
    ensures forall c :: c in IntlPhone(Clean(to)) ==> !Stripped(c)
  {
    var intl := IntlPhone(Clean(to));
    assert (intl + "@c.us")[..2] == intl[..2];
    assert (intl + "@c.us")[|intl|..] == "@c.us";
    if !StartsWith(Clean(to), CountryCode) {
      assert forall c :: c in intl ==> c in CountryCode || c in Clean(to);
    }
  }

  // -------------------------------------------------------------- the request

  const GreenApiUrl: string := "https://api.green-api.com"

  /** What `fetch` is given: the endpoint, the chat id and the message text. */
  datatype Request = Request(url: string, chatId: string, message: string)

  /** What comes back: a parsed reply (`res.ok`, `data.idMessage`,
      `data?.message`), or a thrown error whose `message` is Some when it is an
      `Error`. */
  datatype Reply =
    | Answered(ok: bool, idMessage: Option<string>, message: Option<string>)
    | Threw(errorMessage: Option<string>)

  datatype WhatsAppResult = WhatsAppResult(success: bool, messageId: Option<string>, error: Option<string>)

  /** An unset and an empty environment variable are both missing. */
  predicate Configured(credential: Option<string>)
  {
    credential.Some? && credential.value != ""
  }

  function RequestFor(instanceId: string, apiToken: string, to: string, message: string): Request
  {
    Request(GreenApiUrl + "/waInstance" + instanceId + "/sendMessage/" + apiToken, ChatId(to), message)
  }

  /** `sendWhatsAppMessage`, with `send` standing for the request and the
      parsing of its JSON answer. */
  function SendWhatsAppMessage(instanceId: Option<string>, apiToken: Option<string>, to: string, message: string,
                               send: Request -> Reply): (r: WhatsAppResult)
    ensures !Configured(instanceId) || !Configured(apiToken) ==>
              r == WhatsAppResult(false, None, Some("Green API credentials not configured"))
    ensures r.success <==> r.error == None
  {
    if !Configured(instanceId) || !Configured(apiToken) then
      WhatsAppResult(false, None, Some("Green API credentials not configured"))
    else
      match send(RequestFor(instanceId.value, apiToken.value, to, message))
      case Answered(ok, idMessage, errorText) =>
        if !ok then
          WhatsAppResult(false, None, Some(if errorText.Some? && errorText.value != "" then errorText.value
                                           else "Failed to send WhatsApp message"))
        else WhatsAppResult(true, idMessage, None)
      case Threw(errorMessage) =>
        WhatsAppResult(false, None, Some(Coalesce(errorMessage, "WhatsApp send failed")))
  }

  /** Without both credentials nothing is sent: the outcome is the same whatever
      the network would have done. */
  lemma MissingCredentialsSendNothing(instanceId: Option<string>, apiToken: Option<string>, to: string,
                                      message: string, send1: Request -> Reply, send2: Request -> Reply)
    requires !Configured(instanceId) || !Configured(apiToken)
    ensures SendWhatsAppMessage(instanceId, apiToken, to, message, send1)
         == SendWhatsAppMessage(instanceId, apiToken, to, message, send2)
    ensures !SendWhatsAppMessage(instanceId, apiToken, to, message, send1).success
  {
  }

  /** With both credentials the one request goes to the instance's sendMessage
      endpoint with the normalised chat id and the message unchanged. A success
      carries the id of the sent message; a refusal carries the reply's message,
      or a fixed text when it has none; a thrown error carries its own message,
      or a fixed text when it is not an `Error`. */
  lemma ConfiguredSendsOnce(instanceId: Option<string>, apiToken: Option<string>, to: string, message: string,
                            send: Request -> Reply)
    requires Configured(instanceId) && Configured(apiToken)
    ensures var req := RequestFor(instanceId.value, apiToken.value, to, message);
            req.chatId == IntlPhone(Clean(to)) + "@c.us" && req.message == message
            && StartsWith(req.url, GreenApiUrl + "/waInstance")
            && (SendWhatsAppMessage(instanceId, apiToken, to, message, send).success
                <==> send(req).Answered? && send(req).ok)
            && (SendWhatsAppMessage(instanceId, apiToken, to, message, send).success
                ==> SendWhatsAppMessage(instanceId, apiToken, to, message, send).messageId == send(req).idMessage)
    ensures var req := RequestFor(instanceId.value, apiToken.value, to, message);
            send(req).Answered? && !send(req).ok ==>
              SendWhatsAppMessage(instanceId, apiToken, to, message, send).error
              == Some(if send(req).message.Some? && send(req).message.value != "" then send(req).message.value
                      else "Failed to send WhatsApp message")
    ensures var req := RequestFor(instanceId.value, apiToken.value, to, message);
            send(req).Threw? ==>
              SendWhatsAppMessage(instanceId, apiToken, to, message, send).error
              == Some(if send(req).errorMessage.Some? then send(req).errorMessage.value
                      else "WhatsApp send failed")
  {
    var req := RequestFor(instanceId.value, apiToken.value, to, message);
    var base := GreenApiUrl + "/waInstance";
    assert req.url == base + (instanceId.value + "/sendMessage/" + apiToken.value);
    assert req.url[..|base|] == base;
  }

  // ------------------------------------------------------------ the message

  /** A number as JavaScript would test it for truthiness (`value`) and as it
      would print it in a template (`text`). */
  datatype Coordinate = Coordinate(value: real, text: string)

  /** `null`, `undefined` and 0 are falsy. */
  predicate Truthy(c: Option<Coordinate>)
  {
    c.Some? && c.value.value != 0.0
  }

  datatype MessageParams = MessageParams(
    villageName: string,
    priority: string,
    tankerReg: string,
    tripsAssigned: string,
    villageLat: string,
    villageLng: string,
    sourceLat: Option<Coordinate>,
    sourceLng: Option<Coordinate>)

  const DirectionsBase: string := "https://www.google.com/maps/dir/"
  const SearchBase: string := "https://www.google.com/maps/search/"

  function MapsLink(p: MessageParams): string
  {
    if Truthy(p.sourceLat) && Truthy(p.sourceLng) then
      DirectionsBase + p.sourceLat.value.text + "," + p.sourceLng.value.text + "/" + p.villageLat + "," + p.villageLng
    else SearchBase + p.villageLat + "," + p.villageLng
  }

  /** The link gives directions exactly when both source coordinates are
      truthy (a zero coordinate falls back to a search), and it always ends
      at the village. */
  lemma MapsLinkKind(p: MessageParams)
    ensures StartsWith(MapsLink(p), DirectionsBase) <==> Truthy(p.sourceLat) && Truthy(p.sourceLng)
    ensures !StartsWith(MapsLink(p), DirectionsBase) ==> StartsWith(MapsLink(p), SearchBase)
    ensures var tail := p.villageLat + "," + p.villageLng;
            |tail| <= |MapsLink(p)| && MapsLink(p)[|MapsLink(p)| - |tail|..] == tail
  {
    var link := MapsLink(p);
    var tail := p.villageLat + "," + p.villageLng;
    if Truthy(p.sourceLat) && Truthy(p.sourceLng) {
      var mid := p.sourceLat.value.text + "," + p.sourceLng.value.text + "/";
      assert link == DirectionsBase + mid + tail;
      assert link[..|DirectionsBase|] == DirectionsBase;
      assert link[|link| - |tail|..] == tail;
    } else {
      assert link == SearchBase + tail;
      assert link[..|SearchBase|] == SearchBase;
      assert link[28] == 's' && DirectionsBase[28] == 'd';
      assert link[|link| - |tail|..] == tail;
    }
  }

  /** ASCII case mapping of `toUpperCase`. */
  function UpperChar(c: char): char
  {
    if 'a' <= c <= 'z' then (c as int - 'a' as int + 'A' as int) as char else c
  }

  function Upper(s: string): (r: string)
    ensures |r| == |s|
    ensures forall i :: 0 <= i < |s| ==> r[i] == UpperChar(s[i])
  {
    if s == [] then [] else [UpperChar(s[0])] + Upper(s[1..])
  }

  /** The upper-cased priority has no lower-case ASCII letter left, and
      upper-casing it a second time changes nothing. */
  lemma UpperIsUpper(s: string)
    ensures forall i :: 0 <= i < |s| ==> !('a' <= Upper(s)[i] <= 'z')
    ensures Upper(Upper(s)) == Upper(s)
  {
  }

  const Title: string := "*JalSarthi Dispatch Alert*"

  /** The closing instruction, written as three pieces: the verifier checks that a
      text has no line feed piece by piece far more cheaply than in one long literal. */
  const Closing: string := "Please proceed to the village" + " immediately. Contact" + " control room for updates."

  /** The ten lines of the alert, in order. */
  function MessageLines(p: MessageParams): (r: seq<string>)
    ensures |r| == 10
  {
    [ Title,
      "",
      "Village: *" + p.villageName + "*",
      "Priority: *" + Upper(p.priority) + "*",
      "Tanker: " + p.tankerReg,
      "Trips Assigned: " + p.tripsAssigned,
      "",
      "Navigate: " + MapsLink(p),
      "",
      Closing ]
  }

  /** `buildDispatchMessage`. */
  function BuildDispatchMessage(p: MessageParams): string
  {
    Join(MessageLines(p), '\n')
  }

  predicate SingleLine(s: string)
  {
    '\n' !in s
  }

  predicate SingleLineParams(p: MessageParams)
  {
    SingleLine(p.villageName) && SingleLine(p.priority) && SingleLine(p.tankerReg)
    && SingleLine(p.tripsAssigned) && SingleLine(p.villageLat) && SingleLine(p.villageLng)
    && (p.sourceLat.Some? ==> SingleLine(p.sourceLat.value.text))
    && (p.sourceLng.Some? ==> SingleLine(p.sourceLng.value.text))
  }

  /** When no field holds a line feed, the message splits back into exactly
      the ten template lines: the title, the village in bold, the upper-cased
      priority in bold, the tanker, the trips, the navigation link and the
      closing instruction, with blank lines between the blocks. */
  lemma MessageSplitsIntoLines(p: MessageParams)
    requires SingleLineParams(p)
    ensures var lines := Split(BuildDispatchMessage(p), '\n');
            |lines| == 10
            && lines[0] == Title && lines[1] == "" && lines[6] == "" && lines[8] == ""
            && lines[2] == "Village: *" + p.villageName + "*"
            && lines[3] == "Priority: *" + Upper(p.priority) + "*"
            && lines[4] == "Tanker: " + p.tankerReg
            && lines[5] == "Trips Assigned: " + p.tripsAssigned
            && lines[7] == "Navigate: " + MapsLink(p)
            && lines[9] == Closing
  {
    var lines := MessageLines(p);
    LinesSingle(p);
    SplitJoin(lines, '\n');
  }

  /** Splitting a concatenation's line feeds is splitting each part's. */
  lemma SingleLineConcat(a: string, b: string)
    ensures SingleLine(a + b) <==> SingleLine(a) && SingleLine(b)
  {
    assert forall c :: c in a + b <==> c in a || c in b;
  }

  lemma MapsLinkSingle(p: MessageParams)
    requires SingleLineParams(p)
    ensures SingleLine(MapsLink(p))
  {
    assert SingleLine(",") && SingleLine("/");
    assert SingleLine(DirectionsBase) && SingleLine(SearchBase);
    var tail := p.villageLat + "," + p.villageLng;
    SingleLineConcat(p.villageLat, ",");
    SingleLineConcat(p.villageLat + ",", p.villageLng);
    if Truthy(p.sourceLat) && Truthy(p.sourceLng) {
      var a := p.sourceLat.value.text;
      var b := p.sourceLng.value.text;
      SingleLineConcat(DirectionsBase, a);
      SingleLineConcat(DirectionsBase + a, ",");
      SingleLineConcat(DirectionsBase + a + ",", b);
      SingleLineConcat(DirectionsBase + a + "," + b, "/");
      SingleLineConcat(DirectionsBase + a + "," + b + "/", p.villageLat);
      SingleLineConcat(DirectionsBase + a + "," + b + "/" + p.villageLat, ",");
      SingleLineConcat(DirectionsBase + a + "," + b + "/" + p.villageLat + ",", p.villageLng);
    } else {
      SingleLineConcat(SearchBase, p.villageLat);
      SingleLineConcat(SearchBase + p.villageLat, ",");
      SingleLineConcat(SearchBase + p.villageLat + ",", p.villageLng);
    }
  }

  lemma LinesSingle(p: MessageParams)
    requires SingleLineParams(p)
    ensures forall k :: 0 <= k < 10 ==> SingleLine(MessageLines(p)[k])
  {
    var lines := MessageLines(p);
    ConstantLinesSingle();
    UpperSingleLine(p.priority);
    MapsLinkSingle(p);
    assert SingleLine("Village: *") && SingleLine("*") && SingleLine("Priority: *");
    assert SingleLine("Tanker: ") && SingleLine("Trips Assigned: ") && SingleLine("Navigate: ");
    SingleLineConcat("Village: *", p.villageName);
    SingleLineConcat("Village: *" + p.villageName, "*");
    SingleLineConcat("Priority: *", Upper(p.priority));
    SingleLineConcat("Priority: *" + Upper(p.priority), "*");
    SingleLineConcat("Tanker: ", p.tankerReg);
    SingleLineConcat("Trips Assigned: ", p.tripsAssigned);
    SingleLineConcat("Navigate: ", MapsLink(p));
  }

  lemma UpperSingleLine(s: string)
    requires SingleLine(s)
    ensures SingleLine(Upper(s))
  {
    forall i | 0 <= i < |s| ensures Upper(s)[i] != '\n' {
      assert s[i] != '\n';
    }
  }

  lemma ConstantLinesSingle()
    ensures SingleLine(Title) && SingleLine("") && SingleLine(Closing)
  {
    ClosingSingle();
  }

  lemma ClosingSingle()
    ensures SingleLine(Closing)
  {
    var a, b, c := "Please proceed to the village", " immediately. Contact", " control room for updates.";
    assert SingleLine(a) && SingleLine(b) && SingleLine(c);
    SingleLineConcat(a, b);
    SingleLineConcat(a + b, c);
  }
}
