/**
 * The LLM-backed video-title parser: it renders a prompt from a song's title
 * and artist hints, sends one chat-completion request, validates the JSON the
 * model answers with, and returns either the song with a cleaned title and
 * artist list or, on any failure whatsoever, the song it was given.
 *
 * The HTTP exchange is a parameter `send` (it sees exactly the request the
 * parser builds) and `JSON.parse` a parameter `parse`; everything between
 * them is modelled statement by statement, with the `try`/`catch` made
 * explicit as a `Result` that ParseVideoTitle collapses to a song.
 */
module Llm {
  import opened JsRuntime
  import opened LlmPrompt

  /** A song as the player hands it over: the title and artist list the
      parser reads, the `isVideo` flag (any JavaScript value), and every
      other field, which the parser only copies. */
  datatype Song = Song(title: string, artist: seq<string>, isVideo: JsValue, rest: map<string, JsValue>)

  /** The three settings the parser reads: endpoint URL, API key, model name. */
  datatype Config = Config(endpoint: string, apiKey: string, model: string)

  datatype ChatMessage = ChatMessage(role: string, content: string)

  /** The chat-completion request body before `JSON.stringify`. */
  datatype CompletionRequest = CompletionRequest(model: string, messages: seq<ChatMessage>, temperature: real, maxTokens: nat)

  datatype HttpRequest = HttpRequest(httpMethod: string, url: string, headers: seq<(string, string)>, body: CompletionRequest)

  /** What the transport delivers: a status code with the decoded response
      text, or nothing because sending failed (network error, cancellation,
      an endpoint the HTTP library rejects). */
  datatype Outcome = Response(status: int, text: string) | TransportFailure

  /** Why a call fell back to the original song. */
  datatype Failure =
    | TransportFailed
    | HttpStatus(code: int)
    | Thrown(exc: Exception)
    | InvalidShape

  datatype Result<+T> = Ok(value: T) | Err(failure: Failure) {
    predicate IsFailure() { Err? }

    function PropagateFailure<U>(): Result<U>
      requires Err?
    {
      Err(failure)
    }

    function Extract(): T
      requires Ok?
    {
      value
    }
  }

  /** An exception raised inside the `try` block, as the `catch` sees it. */
  function Catch<T>(c: Completion<T>): (r: Result<T>)
    ensures c.Normal? <==> r.Ok?
    ensures c.Normal? ==> r.value == c.value
  {
    match c
    case Normal(v) => Ok(v)
    case Throw(e) => Err(Thrown(e))
  }

  /** The validated answer: the new title and artist list. */
  datatype Parsed = Parsed(title: string, artist: seq<string>)

  const Temperature: real := 0.1
  const MaxTokens: nat := 200

  /** The HTTP request the parser sends: a POST to the endpoint with a JSON
      content type and a bearer token, whose body names the configured model
      and carries the prompt as the one user message. */
  function BuildHttpRequest(config: Config, song: Song): (r: HttpRequest)
    ensures r.httpMethod == "POST" && r.url == config.endpoint
    ensures r.headers == [("Content-Type", "application/json"), ("Authorization", "Bearer " + config.apiKey)]
    ensures r.body.model == config.model
    ensures |r.body.messages| == 1
    ensures r.body.messages[0].role == "user"
    ensures r.body.messages[0].content == BuildPrompt(song.title, song.artist)
    ensures r.body.temperature == Temperature && r.body.maxTokens == MaxTokens
  {
    var body := CompletionRequest(config.model, [ChatMessage("user", BuildPrompt(song.title, song.artist))], Temperature, MaxTokens);
    HttpRequest("POST", config.endpoint,
                [("Content-Type", "application/json"), ("Authorization", "Bearer " + config.apiKey)], body)
  }

  /** `result.choices[0].message.content`: each step throws a TypeError
      when the value it reads from is `null` or `undefined`. */
  function ExtractContent(outer: JsValue): (r: Completion<JsValue>)
    ensures r.Throw? ==> r.exc == TypeError
    ensures outer == Undefined || outer == Null ==> r.Throw?
  {
    var choices :- Get(outer, "choices");
    var first :- Get(choices, "0");
    var message :- Get(first, "message");
    Get(message, "content")
  }

  /** The filter callback `a => a && a.trim()`: a falsy element is dropped,
      a string is kept when its trim is non-empty, and any other truthy
      element has no callable `trim`, so the call throws a TypeError. */
  function KeepArtist(a: JsValue): (r: Completion<bool>)
    ensures r.Throw? <==> Truthy(a) && !a.Str?
    ensures r.Throw? ==> r.exc == TypeError
    ensures r.Normal? ==> (r.value <==> a.Str? && Trim(a.s) != "")
  {
    if !Truthy(a) then Normal(false)
    else if a.Str? then Normal(Trim(a.s) != "")
    else Throw(TypeError)
  }

  /** `parsed.artist.filter(a => a && a.trim())`: the kept elements, in
      order and untrimmed; the first truthy non-string aborts the filter. */
  function FilterArtists(elems: seq<JsValue>): (r: Completion<seq<string>>)
    ensures r.Throw? <==> exists i :: 0 <= i < |elems| && Truthy(elems[i]) && !elems[i].Str?
    ensures r.Throw? ==> r.exc == TypeError
    ensures r.Normal? ==> |r.value| <= |elems|
    ensures r.Normal? ==> forall k :: 0 <= k < |r.value| ==> Trim(r.value[k]) != ""
  {
    if |elems| == 0 then Normal([])
    else
      var keep :- KeepArtist(elems[0]);
      var rest :- FilterArtists(elems[1..]);
      assert forall i :: 1 <= i < |elems| ==> elems[i] == elems[1..][i - 1];
      Normal(if keep then [elems[0].s] + rest else rest)
  }

  /** `Array.isArray(parsed.artist) ? parsed.artist.filter(...) : []`. */
  function NormalizeArtists(v: JsValue): (r: Completion<seq<string>>)
    ensures !v.Arr? ==> r == Normal([])
    ensures r.Normal? ==> forall k :: 0 <= k < |r.value| ==> Trim(r.value[k]) != ""
  {
    if v.Arr? then FilterArtists(v.elems) else Normal([])
  }

  /** `parsed.title && typeof parsed.title === 'string'`: a non-empty
      string, before any trimming. */
  predicate UsableTitle(v: JsValue): (b: bool)
    ensures b <==> v.Str? && v.s != ""
  {
    Truthy(v) && v.Str?
  }

  /** Everything the parser does with the response: the status check, the
      two JSON parses, the content path and the title and artist rules. */
  function Interpret(status: int, text: string, parse: string -> Option<JsValue>): (r: Result<Parsed>)
    ensures status != 200 ==> r == Err(HttpStatus(status))
    ensures parse(text).None? ==> r.Err?
    ensures r.Ok? ==> status == 200
    ensures r.Ok? ==> r.value.title == [] || (!IsWhitespace(r.value.title[0]) && !IsWhitespace(r.value.title[|r.value.title| - 1]))
    ensures r.Ok? ==> forall k :: 0 <= k < |r.value.artist| ==> Trim(r.value.artist[k]) != ""
  {
    if status != 200 then Err(HttpStatus(status))
    else
      var outer :- Catch(JsonParse(parse, text));
      var content :- Catch(ExtractContent(outer));
      var contentText :- Catch(ToJsString(content));
      var inner :- Catch(JsonParse(parse, contentText));
      var title :- Catch(Get(inner, "title"));
      if !UsableTitle(title) then Err(InvalidShape)
      else
        var artistValue :- Catch(Get(inner, "artist"));
        var artists :- Catch(NormalizeArtists(artistValue));
        Ok(Parsed(Trim(title.s), artists))
  }

  /** The body of the `try` block once the transport has answered: a
      failed send or a rejected response is a failure, and a usable answer
      is spread over the song as its new title and artist list. */
  function Respond(song: Song, outcome: Outcome, parse: string -> Option<JsValue>): (r: Result<Song>)
    ensures r.Ok? ==> r.value == song.(title := r.value.title, artist := r.value.artist)
    ensures outcome.TransportFailure? ==> r == Err(TransportFailed)
    ensures outcome.Response? ==> (r.Ok? <==> Interpret(outcome.status, outcome.text, parse).Ok?)
    ensures outcome.Response? && r.Ok? ==>
      var p := Interpret(outcome.status, outcome.text, parse).value;
      r.value.title == p.title && r.value.artist == p.artist
    ensures outcome.Response? && r.Err? ==> r.failure == Interpret(outcome.status, outcome.text, parse).failure
  {
    match outcome
    case TransportFailure => Err(TransportFailed)
    case Response(status, text) =>
      var parsed :- Interpret(status, text, parse);
      Ok(song.(title := parsed.title, artist := parsed.artist))
  }

  /** The `try`/`catch` around Respond: every failure, returned or thrown,
      gives back the original song. */
  function Settle(song: Song, outcome: Outcome, parse: string -> Option<JsValue>): (r: Song)
    ensures Respond(song, outcome, parse).Err? ==> r == song
    ensures Respond(song, outcome, parse).Ok? ==> r == Respond(song, outcome, parse).value
    ensures r == song.(title := r.title, artist := r.artist)
  {
    match Respond(song, outcome, parse)
    case Ok(s) => s
    case Err(_) => song
  }

  /** `LLMParser.parseVideoTitle`: build the request, hand it to the
      transport, and settle its outcome; whatever happens, the result
      differs from the input song in its title and artist list at most. */
  function ParseVideoTitle(config: Config, song: Song, send: HttpRequest -> Outcome,
                           parse: string -> Option<JsValue>): (r: Song)
    ensures r == song.(title := r.title, artist := r.artist)
  {
    Settle(song, send(BuildHttpRequest(config, song)), parse)
  }

  /** `shouldUseLLM`: strict equality with `true`, not truthiness. */
  predicate ShouldUseLLM(song: Song): (b: bool)
    ensures b <==> song.isVideo.Bool? && song.isVideo.b
    ensures Truthy(song.isVideo) && !song.isVideo.Bool? ==> !b
  {
    song.isVideo == Bool(true)
  }
}
