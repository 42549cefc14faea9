/**
 * What the title parser promises its callers, proved about the model in
 * module Llm: it always yields a song, every failure gives back the song it
 * was given, success changes only the title and the artist list, and the
 * artist list is exactly the kept elements of the model's answer, in order.
 */
module LlmProperties {
  import opened JsRuntime
  import opened Llm

  // ---------------------------------------------------------------------
  // Fallback: every failure gives back the original song

  /** Sending failed (network error, cancellation, rejected endpoint). */
  lemma TransportFailureKeepsSong(song: Song, parse: string -> Option<JsValue>)
    ensures Respond(song, TransportFailure, parse) == Err(TransportFailed)
    ensures Settle(song, TransportFailure, parse) == song
  {
  }

  /** Any status other than 200. */
  lemma NonOkStatusKeepsSong(song: Song, parse: string -> Option<JsValue>,
                             status: int, text: string)
    requires status != 200
    ensures Respond(song, Response(status, text), parse) == Err(HttpStatus(status))
    ensures Settle(song, Response(status, text), parse) == song
  {
  }

  /** The response body is not JSON. */
  lemma OuterParseFailureKeepsSong(song: Song, parse: string -> Option<JsValue>,
                                   text: string)
    requires parse(text) == None
    ensures Respond(song, Response(200, text), parse) == Err(Thrown(SyntaxError))
    ensures Settle(song, Response(200, text), parse) == song
  {
  }

  /** `choices[0].message.content` cannot be read (a step is `null` or
      `undefined`), or reads as `undefined`, whose coercion "undefined" is
      not JSON. */
  lemma MissingContentKeepsSong(song: Song, parse: string -> Option<JsValue>,
                                text: string, outer: JsValue)
    requires parse(text) == Some(outer)
    requires ExtractContent(outer).Throw? || (ExtractContent(outer) == Normal(Undefined) && parse("undefined") == None)
    ensures Respond(song, Response(200, text), parse).Err?
    ensures Settle(song, Response(200, text), parse) == song
  {
  }

  /** The message content is a string that is not JSON. */
  lemma InnerParseFailureKeepsSong(song: Song, parse: string -> Option<JsValue>,
                                   text: string, outer: JsValue, content: string)
    requires parse(text) == Some(outer)
    requires ExtractContent(outer) == Normal(Str(content))
    requires parse(content) == None
    ensures Respond(song, Response(200, text), parse) == Err(Thrown(SyntaxError))
    ensures Settle(song, Response(200, text), parse) == song
  {
  }

  /** `JSON.parse` coerces a non-string content with ToString: an array
      holding one JSON text is parsed as that text, while an object becomes
      "[object Object]", which is not JSON. */
  lemma ContentCoercion(s: string, props: map<string, JsValue>)
    ensures ToJsString(Arr([Str(s)])) == Normal(s)
    ensures ToJsString(Arr([Null, Str(s)])) == Normal("," + s)
    ensures "toString" !in props ==> ToJsString(Obj(props)) == Normal("[object Object]")
    ensures "toString" in props ==> ToJsString(Obj(props)) == Throw(TypeError)
  {
    var elems := [Null, Str(s)];
    assert elems[1..] == [Str(s)];
    assert ElementsToString(elems[1..]) == Normal(s);
    assert ElementsToString(elems) == Normal("" + "," + s);
    assert "" + "," + s == "," + s;
    assert ToJsString(Arr(elems)) == ElementsToString(elems);
  }

  /** The answer parses but its `title` is missing, not a string, or "". */
  lemma UnusableTitleKeepsSong(song: Song, parse: string -> Option<JsValue>,
                               text: string, outer: JsValue, content: string, inner: JsValue)
    requires parse(text) == Some(outer)
    requires ExtractContent(outer) == Normal(Str(content))
    requires parse(content) == Some(inner)
    requires Get(inner, "title").Throw? || !(Get(inner, "title").value.Str? && Get(inner, "title").value.s != "")
    ensures Respond(song, Response(200, text), parse).Err?
    ensures Settle(song, Response(200, text), parse) == song
  {
  }

  /** One truthy non-string artist element makes `trim` throw inside the
      filter, so a usable title is discarded along with the list. */
  lemma NonStringArtistKeepsSong(song: Song, parse: string -> Option<JsValue>,
                                 text: string, outer: JsValue, content: string, props: map<string, JsValue>, i: nat)
    requires parse(text) == Some(outer)
    requires ExtractContent(outer) == Normal(Str(content))
    requires parse(content) == Some(Obj(props))
    requires "title" in props && props["title"].Str? && props["title"].s != ""
    requires "artist" in props && props["artist"].Arr?
    requires i < |props["artist"].elems| && Truthy(props["artist"].elems[i]) && !props["artist"].elems[i].Str?
    ensures Respond(song, Response(200, text), parse) == Err(Thrown(TypeError))
    ensures Settle(song, Response(200, text), parse) == song
  {
  }

  // ---------------------------------------------------------------------
  // Success

  /** A well-formed answer replaces the title by its trim and the artist
      list by the normalised `artist` value, and copies everything else.
      The content may be any value whose string coercion is the answer's
      JSON text, not only a string. */
  lemma SuccessReplacesTitleAndArtist(song: Song, parse: string -> Option<JsValue>,
                                      text: string, outer: JsValue, content: JsValue, contentText: string,
                                      props: map<string, JsValue>, artists: seq<string>)
    requires parse(text) == Some(outer)
    requires ExtractContent(outer) == Normal(content)
    requires ToJsString(content) == Normal(contentText)
    requires parse(contentText) == Some(Obj(props))
    requires "title" in props && props["title"].Str? && props["title"].s != ""
    requires NormalizeArtists(if "artist" in props then props["artist"] else Undefined) == Normal(artists)
    ensures Settle(song, Response(200, text), parse)
            == Song(Trim(props["title"].s), artists, song.isVideo, song.rest)
  {
    var inner := Obj(props);
    var artistValue := if "artist" in props then props["artist"] else Undefined;
    assert JsonParse(parse, text) == Normal(outer);
    assert JsonParse(parse, contentText) == Normal(inner);
    assert Get(inner, "title") == Normal(props["title"]);
    assert Get(inner, "artist") == Normal(artistValue);
    assert Interpret(200, text, parse) == Ok(Parsed(Trim(props["title"].s), artists));
  }

  /** The converse: an accepted response is one whose body parses, whose
      content can be read and coerced to JSON text, and whose answer has a
      usable title; the new title is that title's trim and the new artist
      list the normalised `artist` value. */
  lemma SuccessOnlyFromUsableAnswer(text: string, parse: string -> Option<JsValue>, p: Parsed)
    requires Interpret(200, text, parse) == Ok(p)
    ensures parse(text).Some? && ExtractContent(parse(text).value).Normal?
    ensures var content := ExtractContent(parse(text).value).value;
      ToJsString(content).Normal? && parse(ToJsString(content).value).Some?
    ensures var inner := parse(ToJsString(ExtractContent(parse(text).value).value).value).value;
      Get(inner, "title").Normal? && UsableTitle(Get(inner, "title").value)
      && p.title == Trim(Get(inner, "title").value.s)
      && Get(inner, "artist").Normal? && NormalizeArtists(Get(inner, "artist").value) == Normal(p.artist)
  {
    var outer := JsonParse(parse, text);
    assert outer.Normal?;
    var content := ExtractContent(outer.value);
    assert content.Normal?;
    var contentText := ToJsString(content.value);
    assert contentText.Normal?;
    var inner := JsonParse(parse, contentText.value);
    assert inner.Normal?;
  }

  /** A non-empty title made of whitespace passes the check and becomes "". */
  lemma WhitespaceTitleBecomesEmpty(song: Song, parse: string -> Option<JsValue>,
                                    text: string, outer: JsValue, content: string, props: map<string, JsValue>)
    requires parse(text) == Some(outer)
    requires ExtractContent(outer) == Normal(Str(content))
    requires parse(content) == Some(Obj(props))
    requires "title" in props && props["title"].Str? && props["title"].s != "" && AllWhitespace(props["title"].s)
    requires "artist" !in props
    ensures Settle(song, Response(200, text), parse) == song.(title := "", artist := [])
  {
  }

  /** An `artist` that is not an array (absent, a string, an object, ...)
      becomes the empty list rather than a failure. */
  lemma NonArrayArtistBecomesEmpty(v: JsValue)
    requires !v.Arr?
    ensures NormalizeArtists(v) == Normal([])
  {
  }

  /** The content path `choices[0].message.content` of a standard
      chat-completion envelope. */
  lemma ContentOfEnvelope(content: JsValue, others: seq<JsValue>)
    ensures ExtractContent(Obj(map["choices" := Arr([Obj(map["message" := Obj(map["content" := content])])] + others)]))
            == Normal(content)
  {
  }

  /** A missing `choices` field reads as `undefined`, and indexing it throws. */
  lemma MissingChoicesThrows(props: map<string, JsValue>)
    requires "choices" !in props
    ensures ExtractContent(Obj(props)) == Throw(TypeError)
  {
  }

  // ---------------------------------------------------------------------
  // The artist filter against an index-based reference

  /** An element the filter keeps. */
  predicate Keepable(v: JsValue) {
    v.Str? && Trim(v.s) != ""
  }

  /** Which elements the filter keeps, one flag per element. */
  ghost function KeepFlags(elems: seq<JsValue>): (flags: seq<bool>)
    ensures |flags| == |elems| && forall i :: 0 <= i < |elems| ==> (flags[i] <==> Keepable(elems[i]))
  {
    seq(|elems|, i requires 0 <= i < |elems| => Keepable(elems[i]))
  }

  /** The indices `i >= from` of the set flags, in increasing order. */
  ghost function KeptFrom(flags: seq<bool>, from: nat): (r: seq<nat>)
    requires from <= |flags|
    decreases |flags| - from
    ensures forall k :: 0 <= k < |r| ==> from <= r[k] < |flags| && flags[r[k]]
    ensures forall k, l :: 0 <= k < l < |r| ==> r[k] < r[l]
  {
    if from == |flags| then []
    else (if flags[from] then [from] else []) + KeptFrom(flags, from + 1)
  }

  /** The indices of the keepable elements of `elems`, in increasing order. */
  ghost function KeptIndices(elems: seq<JsValue>): seq<nat> {
    KeptFrom(KeepFlags(elems), 0)
  }

  /** No set flag at or after `from` is missed. */
  lemma {:induction false} KeptFromComplete(flags: seq<bool>, from: nat, i: nat)
    requires from <= i < |flags| && flags[i]
    decreases i - from
    ensures i in KeptFrom(flags, from)
  {
    var head: seq<nat> := if flags[from] then [from] else [];
    var tail := KeptFrom(flags, from + 1);
    assert KeptFrom(flags, from) == head + tail;
    if i > from {
      KeptFromComplete(flags, from + 1, i);
      assert i in tail;
    } else {
      assert i in head;
    }
  }

  /** KeptIndices lists every keepable index and nothing else, in
      increasing order. */
  lemma KeptIndicesExact(elems: seq<JsValue>, i: nat)
    requires i < |elems|
    ensures i in KeptIndices(elems) <==> Keepable(elems[i])
    ensures forall k, l :: 0 <= k < l < |KeptIndices(elems)| ==> KeptIndices(elems)[k] < KeptIndices(elems)[l]
  {
    if Keepable(elems[i]) {
      KeptFromComplete(KeepFlags(elems), 0, i);
    }
  }

  /** One step of the filter: the first element is kept when keepable,
      then the rest is filtered. */
  lemma FilterStep(elems: seq<JsValue>)
    requires |elems| > 0 && FilterArtists(elems).Normal?
    ensures FilterArtists(elems[1..]).Normal?
    ensures FilterArtists(elems).value
            == (if Keepable(elems[0]) then [elems[0].s] else []) + FilterArtists(elems[1..]).value
  {
  }

  /** The filter over the suffix from `from` on selects KeptFrom. */
  lemma {:induction false} FilterSelectsKeptFrom(elems: seq<JsValue>, from: nat)
    requires from <= |elems| && FilterArtists(elems[from..]).Normal?
    decreases |elems| - from
    ensures var r := FilterArtists(elems[from..]).value; var idx := KeptFrom(KeepFlags(elems), from);
      |r| == |idx| && forall k :: 0 <= k < |r| ==> elems[idx[k]] == Str(r[k])
  {
    if from < |elems| {
      var suffix := elems[from..];
      assert suffix[0] == elems[from];
      assert suffix[1..] == elems[from + 1..];
      FilterStep(suffix);
      FilterSelectsKeptFrom(elems, from + 1);
      var rest := FilterArtists(elems[from + 1..]).value;
      var tidx := KeptFrom(KeepFlags(elems), from + 1);
      var head: seq<string> := if Keepable(elems[from]) then [elems[from].s] else [];
      var hidx: seq<nat> := if KeepFlags(elems)[from] then [from] else [];
      assert FilterArtists(suffix).value == head + rest;
      assert KeptFrom(KeepFlags(elems), from) == hidx + tidx;
      assert |head| == |hidx|;
      Concatenated(elems, head, hidx, rest, tidx);
    }
  }

  /** Index-wise agreement survives concatenation. */
  lemma Concatenated(elems: seq<JsValue>, head: seq<string>, hidx: seq<nat>, rest: seq<string>, tidx: seq<nat>)
    requires |head| == |hidx| && |rest| == |tidx|
    requires forall k :: 0 <= k < |hidx| ==> hidx[k] < |elems| && elems[hidx[k]] == Str(head[k])
    requires forall k :: 0 <= k < |tidx| ==> tidx[k] < |elems| && elems[tidx[k]] == Str(rest[k])
    ensures forall k :: 0 <= k < |head + rest| ==> (hidx + tidx)[k] < |elems| && elems[(hidx + tidx)[k]] == Str((head + rest)[k])
  {
    forall k | 0 <= k < |head + rest|
      ensures (hidx + tidx)[k] < |elems| && elems[(hidx + tidx)[k]] == Str((head + rest)[k])
    {
      if k >= |head| {
        assert (hidx + tidx)[k] == tidx[k - |head|];
        assert (head + rest)[k] == rest[k - |head|];
      } else {
        assert (hidx + tidx)[k] == hidx[k];
        assert (head + rest)[k] == head[k];
      }
    }
  }

  /** When the filter does not throw, its result is the elements at
      KeptIndices, in that order and untrimmed: an in-order subsequence of
      the answer that misses none of its keepable elements. */
  lemma FilterArtistsSelectsKept(elems: seq<JsValue>)
    requires FilterArtists(elems).Normal?
    ensures var r := FilterArtists(elems).value; var idx := KeptIndices(elems);
      |r| == |idx| && forall k :: 0 <= k < |r| ==> elems[idx[k]] == Str(r[k])
  {
    assert elems[0..] == elems;
    FilterSelectsKeptFrom(elems, 0);
  }

  // ---------------------------------------------------------------------
  // A worked example

  /** A one-element answer whose element is a string with a non-empty trim. */
  lemma FilterOfOne(name: string)
    requires Trim(name) != ""
    ensures FilterArtists([Str(name)]) == Normal([name])
  {
    var elems := [Str(name)];
    assert elems[1..] == [];
    assert KeepArtist(elems[0]) == Normal(true);
    assert FilterArtists(elems[1..]) == Normal([]);
    assert FilterArtists(elems) == Normal([elems[0].s] + []);
    assert [elems[0].s] + [] == [name];
  }

  /** The "Look at the Sky" exchange of the prompt's examples: the
      envelope and answer below, parsed as JSON, give the clean title and
      the one artist, whatever the song held before. */
  lemma LookAtTheSkyExample(song: Song, parse: string -> Option<JsValue>, text: string, content: string)
    requires parse(text) == Some(Obj(map["choices" := Arr([Obj(map["message" := Obj(map["content" := Str(content)])])])]))
    requires parse(content) == Some(Obj(map["title" := Str("Look at the Sky"), "artist" := Arr([Str("Porter Robinson")])]))
    ensures Settle(song, Response(200, text), parse) == song.(title := "Look at the Sky", artist := ["Porter Robinson"])
  {
    var envelope := Obj(map["choices" := Arr([Obj(map["message" := Obj(map["content" := Str(content)])])])]);
    var props := map["title" := Str("Look at the Sky"), "artist" := Arr([Str("Porter Robinson")])];
    ContentOfEnvelope(Str(content), []);
    assert ToJsString(Str(content)) == Normal(content);
    assert [Obj(map["message" := Obj(map["content" := Str(content)])])] + [] == [Obj(map["message" := Obj(map["content" := Str(content)])])];
    TrimOfTrimmed("Look at the Sky");
    TrimOfTrimmed("Porter Robinson");
    FilterOfOne("Porter Robinson");
    SuccessReplacesTitleAndArtist(song, parse, text, envelope, Str(content), content, props, ["Porter Robinson"]);
  }

  // ---------------------------------------------------------------------
  // End to end

  /** When the request the parser builds cannot be sent, `parseVideoTitle`
      returns the input song. */
  lemma ParseVideoTitleUnsent(config: Config, song: Song, send: HttpRequest -> Outcome,
                              parse: string -> Option<JsValue>)
    requires send(BuildHttpRequest(config, song)) == TransportFailure
    ensures ParseVideoTitle(config, song, send, parse) == song
  {
  }

  /** When the request the parser builds is answered with a status other
      than 200, `parseVideoTitle` returns the input song. */
  lemma ParseVideoTitleRejected(config: Config, song: Song, send: HttpRequest -> Outcome,
                                parse: string -> Option<JsValue>, status: int, text: string)
    requires send(BuildHttpRequest(config, song)) == Response(status, text)
    requires status != 200
    ensures ParseVideoTitle(config, song, send, parse) == song
  {
  }

  /** When the answer to the request the parser builds is accepted,
      `parseVideoTitle` returns the input song with the accepted title and
      artist list. */
  lemma ParseVideoTitleSucceeds(config: Config, song: Song, send: HttpRequest -> Outcome,
                                parse: string -> Option<JsValue>, text: string, p: Parsed)
    requires send(BuildHttpRequest(config, song)) == Response(200, text)
    requires Interpret(200, text, parse) == Ok(p)
    ensures ParseVideoTitle(config, song, send, parse) == song.(title := p.title, artist := p.artist)
  {
  }
}
