/**
 * The pure part of the upload page (frontend/src/components/UploadPage.jsx):
 * the image payload taken from a data URL, and the endpoint, JSON body and
 * Authorization header that a submission sends.
 */
module RequestBuilder {
  import opened Common
  import opened Text

  /** The JSON values that cross the wire. */
  datatype Json =
    | JNull
    | JBool(b: bool)
    | JString(s: string)
    | JArray(items: seq<Json>)
    | JObject(fields: map<string, Json>)

  /** `recommendationMode`: 'ai' (structured soil analysis) or 'chat'. */
  datatype Mode = Ai | Chat

  /** The upload form: the base64 image payload and the two coordinates,
      kept as the text the inputs hold ("" when empty). */
  datatype FormData = FormData(soilImage: string, lat: string, long: string)

  /** What `axios.post` is given: the URL, the JSON body and the value of the
      Authorization header. */
  datatype Request = Request(endpoint: string, body: map<string, Json>, authorization: string)

  const AskAiEndpoint: string := "http://localhost:8000/ask/ai"
  const ChatEndpoint: string := "http://localhost:8000/chat"
  const BaseMessage: string := "Analyze this soil image"
  const LocationPrefix: string := " from location: lat="

  /** The string value of a `recommendationMode`. */
  function ModeName(mode: Mode): (name: string)
    ensures name == "ai" <==> mode == Ai
  {
    if mode == Ai then "ai" else "chat"
  }

  // ---------------------------------------------------------------------
  // Image payload

  /** `dataUrl.split(',')[1]`: the text between the first comma and the next
      one. Where JavaScript yields `undefined` (no comma at all) the model
      yields "", which every later use of the field treats alike (both are
      falsy, and the submission is refused before a request is built). */
  function DataUrlPayload(dataUrl: string): (payload: string)
    ensures ',' !in payload
    ensures ',' !in dataUrl ==> payload == ""
  {
    var parts := Split(dataUrl, ',');
    if |parts| > 1 then parts[1] else ""
  }

  /** The characters of standard base64 text, padding included. */
  predicate IsBase64Char(c: char) {
    ('A' <= c <= 'Z') || ('a' <= c <= 'z') || ('0' <= c <= '9') || c == '+' || c == '/' || c == '='
  }

  /** The form in which a file reader delivers a file: a data URL with a
      media type and base64 content. */
  function DataUrl(mediaType: string, base64: string): string {
    "data:" + mediaType + ";base64," + base64
  }

  /** The payload taken from a data URL is exactly the base64 content the
      reader encoded, whatever the (comma-free) media type. */
  lemma DataUrlRoundTrip(mediaType: string, base64: string)
    requires ',' !in mediaType
    requires forall k :: 0 <= k < |base64| ==> IsBase64Char(base64[k])
    ensures DataUrlPayload(DataUrl(mediaType, base64)) == base64
  {
    var header := "data:" + mediaType + ";base64";
    assert ',' !in header by {
      assert ',' !in "data:" && ',' !in ";base64";
    }
    assert ',' !in base64 by {
      assert forall k :: 0 <= k < |base64| ==> base64[k] != ',';
    }
    var parts := [header, base64];
    assert Join(parts, ',') == header + [','] + base64 by {
      assert parts[1..] == [base64];
    }
    assert DataUrl(mediaType, base64) == header + [','] + base64;
    SplitJoin(parts, ',');
  }

  // ---------------------------------------------------------------------
  // Request construction

  /** The inverse of `OrNull`: null reads back as the empty input. */
  function FieldText(j: Json): string {
    if j.JString? then j.s else ""
  }

  /** `value || null`: an empty coordinate is sent as null, never as an
      empty string, and a non-empty one survives the coercion. */
  function OrNull(value: string): (j: Json)
    ensures FieldText(j) == value
    ensures j == JNull <==> value == ""
    ensures j != JString("")
  {
    if value == "" then JNull else JString(value)
  }

  /** The URL a submission goes to: chosen by the mode alone. */
  function Endpoint(mode: Mode): (url: string)
    ensures url == AskAiEndpoint <==> mode == Ai
    ensures url == ChatEndpoint <==> mode == Chat
  {
    assert |AskAiEndpoint| == 28 && |ChatEndpoint| == 26;
    match mode
    case Ai => AskAiEndpoint
    case Chat => ChatEndpoint
  }

  /** The chat instruction. Only `lat` decides whether the location clause
      is added; `long` is embedded as it is, even when empty. The message
      always opens with the fixed instruction, and is exactly that
      instruction when, and only when, `lat` is empty. */
  function ChatMessage(lat: string, long: string): (m: string)
    ensures |m| >= |BaseMessage| && m[..|BaseMessage|] == BaseMessage
    ensures m == BaseMessage <==> lat == ""
  {
    BaseMessage + (if lat != "" then LocationPrefix + lat + ", long=" + long else "")
  }

  /** `a + [sep] + b` is split uniquely at its first separator. */
  lemma SeparatedPairUnique(a: string, b: string, c: string, d: string, sep: char)
    requires sep !in a && sep !in c
    requires a + [sep] + b == c + [sep] + d
    ensures a == c && b == d
  {
    FirstSeparator(a, sep, b);
    FirstSeparator(c, sep, d);
    var s := a + [sep] + b;
    assert a == s[..|a|] && b == s[|a| + 1..];
    assert c == s[..|c|] && d == s[|c| + 1..];
  }

  /** For comma-free latitudes (as a number input produces) the message
      determines both coordinates: no two locations give the same text. */
  lemma {:induction false} ChatMessageDeterminesLocation(lat1: string, long1: string, lat2: string, long2: string)
    requires lat1 != "" && lat2 != ""
    requires ',' !in lat1 && ',' !in lat2
    requires ChatMessage(lat1, long1) == ChatMessage(lat2, long2)
    ensures lat1 == lat2 && long1 == long2
  {
    var p := BaseMessage + LocationPrefix;
    var t1 := lat1 + [','] + (" long=" + long1);
    var t2 := lat2 + [','] + (" long=" + long2);
    assert ChatMessage(lat1, long1) == p + t1;
    assert ChatMessage(lat2, long2) == p + t2;
    assert t1 == (p + t1)[|p|..] == (p + t2)[|p|..] == t2;
    SeparatedPairUnique(lat1, " long=" + long1, lat2, " long=" + long2, ',');
    assert long1 == (" long=" + long1)[6..] == (" long=" + long2)[6..] == long2;
  }

  /** The chat message for a located image carries the coordinates verbatim:
      17.409258, 81.691905 gives "lat=17.409258, long=81.691905". */
  lemma ChatMessageExample()
    ensures OccursAt(ChatMessage("17.409258", "81.691905"), "lat=17.409258, long=81.691905", |BaseMessage| + 16)
    ensures ChatMessage("", "81.691905") == BaseMessage
  {
  }

  /** The body fields that depend on the mode: the structured-analysis body,
      plus `user_message` in chat mode. */
  function RequestData(mode: Mode, form: FormData): (body: map<string, Json>)
    ensures mode == Ai ==> body.Keys == {"soil_image", "lat", "long"}
    ensures mode == Chat ==> body.Keys == {"soil_image", "lat", "long", "user_message"}
    ensures body["soil_image"] == JString(form.soilImage)
    ensures FieldText(body["lat"]) == form.lat && FieldText(body["long"]) == form.long
    ensures mode == Chat ==> body["user_message"] == JString(ChatMessage(form.lat, form.long))
  {
    var shared := map["soil_image" := JString(form.soilImage), "lat" := OrNull(form.lat), "long" := OrNull(form.long)];
    assert shared.Keys == {"soil_image", "lat", "long"};
    if mode == Ai then shared
    else
      var chat := shared["user_message" := JString(ChatMessage(form.lat, form.long))];
      chat
  }

  /** The chat body is the analysis body with exactly one field added. */
  lemma ChatBodyExtendsAnalysisBody(form: FormData)
    ensures "user_message" !in RequestData(Ai, form)
    ensures RequestData(Chat, form) == RequestData(Ai, form)["user_message" := JString(ChatMessage(form.lat, form.long))]
  {
  }

  /** The request a submission sends, once the stored credentials are known
      to be present: `{...requestData, username, password}` to the mode's
      endpoint, with `Bearer ${token || ''}` as Authorization. */
  function BuildRequest(mode: Mode, form: FormData, username: string, password: string, token: Option<string>): (r: Request)
    ensures r.endpoint == Endpoint(mode)
    ensures r.body.Keys == {"soil_image", "lat", "long", "username", "password"} + (if mode == Chat then {"user_message"} else {})
    ensures r.body["soil_image"] == JString(form.soilImage)
    ensures FieldText(r.body["lat"]) == form.lat && (r.body["lat"] == JNull <==> form.lat == "")
    ensures FieldText(r.body["long"]) == form.long && (r.body["long"] == JNull <==> form.long == "")
    ensures r.body["username"] == JString(username) && r.body["password"] == JString(password)
    ensures mode == Chat ==> r.body["user_message"] == JString(ChatMessage(form.lat, form.long))
    ensures |r.authorization| >= 7 && r.authorization[..7] == "Bearer "
    ensures r.authorization[7..] == (if token.Some? then token.value else "")
  {
    var tokenText := if token.Some? then token.value else "";
    Request(Endpoint(mode), RequestData(mode, form)["username" := JString(username)]["password" := JString(password)], "Bearer " + tokenText)
  }
}
