# LLM video-title parser: a Dafny model

This project models the title parser of the desktop-lyric extension. When the
player reports a video instead of a song, the extension asks an
OpenAI-compatible chat-completion endpoint to turn the noisy video title into a
clean song title and an artist list. It then checks the answer and falls back
to the song it was given on any failure.

The model has four modules:

- `JsRuntime` (`js_runtime.dfy`) covers the JavaScript semantics the parser relies on:
  - the values `JSON.parse` produces, plus `undefined`;
  - truthiness;
  - property reads that throw on `null`/`undefined`;
  - the ToString coercion that `JSON.parse` applies to a non-string argument;
  - `Array.prototype.join`;
  - `String.prototype.trim`, with ECMAScript's whitespace set.
- `LlmPrompt` (`llm_prompt.dfy`) holds the prompt template of `parseVideoTitle`:
  - the fixed text, verbatim;
  - the artist line `join(', ') || 'unknown'`;
  - where the title and the artist line sit in the prompt;
  - the fact that a prompt gives back the title it was built from, for titles without a line break.
- `Llm` (`llm.dfy`) covers `LLMParser.parseVideoTitle` and `shouldUseLLM`:
  - the request;
  - the status check;
  - the outer and inner JSON parses;
  - the `choices[0].message.content` path;
  - the title check and trim;
  - the artist filter;
  - the `try`/`catch`. `Respond` is the `try` block once the transport has answered, and it yields a `Result`. `Settle` is the `catch`, which collapses a failure to the input song. `ParseVideoTitle` builds the request, hands it to `send` and settles the outcome.
- `LlmProperties` (`llm_properties.dfy`) proves what callers rely on:
  - every failure returns the original song;
  - success changes only `title` and `artist`;
  - the artist list is exactly the kept elements of the answer, in order.

The HTTP exchange is a parameter `send: HttpRequest -> Outcome`. It receives the exact request the parser builds, and it answers with a status and the decoded text, or with a failure. `JSON.parse` is a parameter `parse: string -> Option<JsValue>`. Facts about `parse` that a property needs are stated as that lemma's preconditions. For example, `MissingContentKeepsSong` requires that "undefined" is not JSON.

Behaviour modelled as the code does it, which differs from a tidier reading:

- The title check runs on the untrimmed value. A whitespace-only title passes and becomes "".
- Kept artist elements are not trimmed.
- A truthy non-string artist element makes `trim` throw, so the whole call falls back.
- `join(', ') || 'unknown'` gives "unknown" only for `[]` and `[""]`. Two empty hints join to ", ".
- `parseVideoTitle` does not check `isVideo` itself. Callers gate it with `shouldUseLLM`.

## Model

| member | source | states |
|---|---|---|
| `JsRuntime.Get` | src/llm.js:104 | reading a property throws a TypeError exactly when the base is `null` or `undefined`; a key an object lacks reads as `undefined` |
| `JsRuntime.JsonParse` | src/llm.js:103 | `JSON.parse` throws a SyntaxError exactly when the text is not JSON, and otherwise yields the parsed value |
| `JsRuntime.ToJsString` | src/llm.js:107 | the coercion of the message content before the inner parse: a string is passed unchanged, and the only exception it can raise is a TypeError |
| `JsRuntime.ElementsToString` | src/llm.js:107 | the `join(",")` used when an array content is coerced can only throw a TypeError |
| `JsRuntime.Join` | src/llm.js:35 | joining one hint gives that hint; joining two or more is at least as long as the separator |
| `JsRuntime.JoinEmptyIff` | src/llm.js:35 | with a non-empty separator the join is empty exactly for `[]` and `[""]` |
| `JsRuntime.LeadingEnd` | src/llm.js:114 | the leading run of whitespace ends at the first non-whitespace character |
| `JsRuntime.TrailingStart` | src/llm.js:114 | the trailing run of whitespace starts after the last non-whitespace character |
| `JsRuntime.Trim` | src/llm.js:114 | `trim` returns a slice of the input with whitespace only cut from either side, and neither end of the slice is whitespace; the slice is empty exactly when the input is all whitespace |
| `JsRuntime.TrimIdempotent` | src/llm.js:114 | trimming twice is trimming once |
| `JsRuntime.TrimOfTrimmed` | src/llm.js:114 | a string with no whitespace at either end is its own trim |
| `Llm.Catch` | src/llm.js:127-133 | an exception thrown inside the `try` becomes a failure, and a normal value passes through unchanged |
| `LlmPrompt.ArtistLine` | src/llm.js:35 | the artist line is "unknown" for `[]` and `[""]` and the ", "-join otherwise, and it is never empty |
| `LlmPrompt.BuildPrompt` | src/llm.js:32-62 | the template literal: the fixed head, the title, the artist label, the artist line and the fixed tail, concatenated; what this means for where each part sits is PromptLayout's contract |
| `LlmPrompt.PromptLayout` | src/llm.js:32-62 | the prompt is the fixed head ending "Video Title: ", then the title verbatim, then the artist label and line, then the fixed rules and examples, and its length is the sum of theirs |
| `LlmPrompt.PromptDeterminesInputs` | src/llm.js:34-35 | two prompts built from line-break-free titles are equal only when the titles and the artist lines are equal |
| `LlmPrompt.ArtistLineOfEmptyHints` | src/llm.js:35 | `[]` and `[""]` render "unknown", `["", ""]` renders ", ", and one name renders as itself |
| `Llm.BuildHttpRequest` | src/llm.js:64-74 | the request is a POST to the endpoint with JSON content type and a bearer key; its body names the configured model and holds exactly one message, with role "user" and the prompt as content; temperature is 0.1 and max_tokens is 200 |
| `Llm.ExtractContent` | src/llm.js:104 | `choices[0].message.content` can only throw a TypeError, and it always throws when the envelope is `null` |
| `Llm.KeepArtist` | src/llm.js:115 | the filter callback throws exactly on a truthy non-string; otherwise it keeps exactly the strings with a non-empty trim |
| `Llm.FilterArtists` | src/llm.js:115 | the filter throws exactly when some element is truthy and not a string; otherwise every kept element has a non-empty trim and the list is no longer than the input |
| `Llm.NormalizeArtists` | src/llm.js:115 | an `artist` that is not an array gives `[]`; every element of the result has a non-empty trim |
| `Llm.UsableTitle` | src/llm.js:111 | the title check accepts exactly the non-empty strings, whitespace-only ones included |
| `Llm.Interpret` | src/llm.js:96-120 | a status other than 200 fails with that status; an unparsable body fails; on success the status was 200, the title has no whitespace at either end, and every artist has a non-empty trim |
| `Llm.Respond` | src/llm.js:90-119 | a failed send is a transport failure; a response succeeds exactly when Interpret accepts it, fails with Interpret's failure otherwise, and on success yields the input song with `title` and `artist` replaced by Interpret's values |
| `Llm.Settle` | src/llm.js:110-133 | any failure, returned or thrown, gives back the input song, and success gives Respond's record; either way only `title` and `artist` can differ from the input |
| `Llm.ParseVideoTitle` | src/llm.js:26-134 | the call always yields a song that differs from the input in `title` and `artist` at most, so `isVideo` and every other field are copied |
| `Llm.ShouldUseLLM` | src/llm.js:142-144 | `shouldUseLLM` holds exactly for the boolean `true`; truthy non-booleans give false |
| `LlmProperties.TransportFailureKeepsSong` | src/llm.js:90-94 | a failed or cancelled send returns the input song |
| `LlmProperties.NonOkStatusKeepsSong` | src/llm.js:96-98 | any status other than 200 fails with that status and returns the input song |
| `LlmProperties.OuterParseFailureKeepsSong` | src/llm.js:103 | an unparsable response body returns the input song |
| `LlmProperties.MissingContentKeepsSong` | src/llm.js:104 | an unreadable `choices[0].message.content`, or an absent one (its coercion "undefined" is not JSON), returns the input song |
| `LlmProperties.InnerParseFailureKeepsSong` | src/llm.js:107 | message content that is not JSON returns the input song |
| `LlmProperties.ContentCoercion` | src/llm.js:107 | a one-string array content is parsed as that string; `null` elements render empty; an object renders "[object Object]", or throws if it has a `toString` key |
| `LlmProperties.UnusableTitleKeepsSong` | src/llm.js:111-125 | a `title` that cannot be read, is missing, is not a string, or is "" returns the input song |
| `LlmProperties.NonStringArtistKeepsSong` | src/llm.js:115 | one truthy non-string artist element throws a TypeError and returns the input song, even when the title is usable |
| `LlmProperties.SuccessReplacesTitleAndArtist` | src/llm.js:103-119 | a usable answer yields the input song with the trimmed title and the normalised artist list, and every other field copied; the content may be any value whose string coercion is the answer's JSON |
| `LlmProperties.SuccessOnlyFromUsableAnswer` | src/llm.js:103-119 | conversely, an accepted response has a parsable body, readable content whose coercion parses, and a usable title; the new title is that title's trim and the new artists the normalised `artist` value |
| `LlmProperties.WhitespaceTitleBecomesEmpty` | src/llm.js:111-114 | a whitespace-only title is accepted and becomes "" |
| `LlmProperties.NonArrayArtistBecomesEmpty` | src/llm.js:115 | an `artist` that is not an array becomes `[]`, not a failure |
| `LlmProperties.ContentOfEnvelope` | src/llm.js:104 | a standard chat-completion envelope yields its first choice's message content |
| `LlmProperties.MissingChoicesThrows` | src/llm.js:104 | an envelope without `choices` throws a TypeError |
| `LlmProperties.ParseVideoTitleUnsent` | src/llm.js:90-94 | when the request the parser builds cannot be sent, the call returns the input song |
| `LlmProperties.ParseVideoTitleRejected` | src/llm.js:96-98 | when that request is answered with a status other than 200, the call returns the input song |
| `LlmProperties.ParseVideoTitleSucceeds` | src/llm.js:90-119 | when that request is answered with 200 and an accepted answer, the call returns the input song with the answer's title and artist list |
| `LlmProperties.KeptFrom` | src/llm.js:115 | the reference list of keepable indices is strictly increasing and lists only keepable elements |
| `LlmProperties.KeptIndicesExact` | src/llm.js:115 | an index is listed exactly when its element is a string with a non-empty trim |
| `LlmProperties.FilterArtistsSelectsKept` | src/llm.js:115 | when the filter does not throw, its result is the untrimmed strings at the keepable indices, in order |
| `LlmProperties.LookAtTheSkyExample` | src/llm.js:103-119 | the "Look at the Sky" exchange of the prompt's examples turns any song into one titled "Look at the Sky" with artist `["Porter Robinson"]` |

## Left out

- Left out: the HTTP transport. This covers building the Soup message, the headers, the body bytes, `send_and_read_async`, priority and cancellation (src/llm.js:83-94). They are I/O. The model passes the built request to `send` and takes its outcome, and an invalid endpoint, a network error or a cancellation is a `TransportFailure`.
- Left out: `JSON.stringify` of the request body, `TextEncoder`, and the decoding of the response bytes. They are foreign calls. The body is kept as a record and the response text is taken as given.
- Left out: `JSON.parse` itself. It is a builtin and is abstracted as the oracle `parse`.
- Left out: every `console.log`, including the 500-character truncation. They have no effect on the result.
- Left out: `async`/`await`. Only which song is returned is modelled, not when.
- Left out: the temperature 0.1 is a float. It is kept as the real constant 0.1.
- Left out: settings storage and the key constants. Configuration is three read-only strings.
- Left out: src/llm-config.js. It is a preferences-UI descriptor with no logic.
- JsRuntime.Get: defined only for the six keys the parser reads. String indexing yields the first code point rather than the first UTF-16 code unit.
- JsRuntime.Truthy: a number is represented by its `Number.prototype.toString` text. Only "0" and "NaN" count as falsy, and the text is assumed to be canonical.
- Llm.Song: `title` is a string and `artist` a list of strings. The case where `song.artist` is not an array, so that `join` throws before the request, is not modelled.
- Llm.Song: a value, not an object. On success the source spreads the own enumerable properties of `song` into a fresh object, and on failure it returns the very object it was given. The model compares songs by value, so "returns the original song" and "does not modify the input" hold only in that sense, and object identity and prototype are not modelled.
- Llm.Interpret: its own `Ok` clauses give only the shape of the result (a trimmed title, artists with a non-empty trim). The values are stated by SuccessReplacesTitleAndArtist and SuccessOnlyFromUsableAnswer.
- Llm.ParseVideoTitle: no check on `isVideo`. The source has none either: `shouldUseLLM` is the callers' gate.
