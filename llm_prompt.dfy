/**
 * The prompt the title parser sends: fixed instructions with the video
 * title and the artist hints interpolated, followed by fixed rules and
 * worked examples.
 */
module LlmPrompt {
  import opened JsRuntime

  /** The prompt text up to the interpolated title. */
  const PromptHead: string :=
    "You must parse this video title and extract the song name and artist, then return ONLY a valid JSON object with no additional text, explanation, or markdown formatting."
    + "\n"
    + "\nVideo Title: "

  /** The text between the title and the artist hints. */
  const ArtistLabel: string := "\nMPRIS Artist (may be uploader): "

  /** The fixed rules and worked examples after the artist hints. */
  const PromptTail: string :=
    "\n"
    + "\nRules:"
    + "\n- Remove tags like 【game】, (Official Video), (cover), (CV: xxx), channel names, etc."
    + "\n- Extract the actual song title and artist name"
    + "\n- For covers, the artist is the cover singer, not the original artist"
    + "\n- If artist is unclear, return empty array"
    + "\n"
    + "\nRequired JSON format (ONLY return this, nothing else):"
    + "\n{\"title\": \"song name\", \"artist\": [\"artist name\"]}"
    + "\n"
    + "\nExamples:"
    + "\nInput: \"【ゼンゼロ】モエチャッカファイア / エレン・ジョー（CV：若山詩音）cover\""
    + "\nOutput: {\"title\": \"モエチャッカファイア\", \"artist\": [\"エレン・ジョー\"]}"
    + "\n"
    + "\nInput: \"キャットラビング/沙花叉クロヱ(cover)\""
    + "\nOutput: {\"title\": \"キャットラビング\", \"artist\": [\"沙花叉クロヱ\"]}"
    + "\n"
    + "\nInput: \"Look at the Sky - Porter Robinson (Official Video)\""
    + "\nOutput: {\"title\": \"Look at the Sky\", \"artist\": [\"Porter Robinson\"]}"
    + "\n"
    + "\nInput: \"「Vivy- Fluorite Eye's Song」 ed /八木海莉- Fluorite Eye's Song (日中歌詞)\""
    + "\nOutput: {\"title\": \"Fluorite Eye's Song\", \"artist\": [\"八木海莉\"]}"
    + "\n"
    + "\nInput: \"DECO*27 - Rabbit Hole feat. Hatsune Miku\""
    + "\nOutput: {\"title\": \"Rabbit Hole\", \"artist\": [\"DECO*27\"]}"
    + "\n"
    + "\nNow parse and return JSON only:"

  /** `song.artist.join(', ') || 'unknown'`: the hints joined by ", ", or
      "unknown" when that join is empty, which happens for `[]` and `[""]`
      only (two empty hints already join to ", "). */
  function ArtistLine(artists: seq<string>): (r: string)
    ensures r == if artists == [] || artists == [""] then "unknown" else Join(artists, ", ")
    ensures r != ""
  {
    JoinEmptyIff(artists, ", ");
    var joined := Join(artists, ", ");
    if joined == "" then "unknown" else joined
  }

  /** The prompt: the fixed head ending in "Video Title: ", the title
      verbatim, the artist label and line, then the fixed rules and examples. */
  function BuildPrompt(title: string, artists: seq<string>): string {
    Fill(PromptHead, title, ArtistLabel, ArtistLine(artists), PromptTail)
  }

  /** The template-literal interpolation `${h}${t}${l}${m}${e}`. */
  function Fill(h: string, t: string, l: string, m: string, e: string): string {
    h + t + l + m + e
  }

  /** Where the title, the artist line and the fixed parts sit in a prompt. */
  lemma PromptLayout(title: string, artists: seq<string>)
    ensures var r := BuildPrompt(title, artists);
      |r| == |PromptHead| + |title| + |ArtistLabel| + |ArtistLine(artists)| + |PromptTail|
      && r[..|PromptHead|] == PromptHead
      && r[|PromptHead|..|PromptHead| + |title|] == title
      && r[|PromptHead| + |title|..|r| - |PromptTail|] == ArtistLabel + ArtistLine(artists)
      && r[|r| - |PromptTail|..] == PromptTail
  {
    FillLayout(PromptHead, title, ArtistLabel, ArtistLine(artists), PromptTail);
  }

  /** Where each part sits in `Fill(h, t, l, m, e)`. */
  lemma FillLayout(h: string, t: string, l: string, m: string, e: string)
    ensures var r := Fill(h, t, l, m, e);
      |r| == |h| + |t| + |l| + |m| + |e|
      && r[..|h|] == h && r[|h|..|h| + |t|] == t
      && r[|h| + |t|..|r| - |e|] == l + m && r[|r| - |e|..] == e
  {
    var r := h + t + l + m + e;
    assert r == h + (t + (l + m)) + e;
    assert r[..|h|] == h;
  }

  /** A prompt gives back the title and the artist line it was rendered
      from, as long as the titles hold no line break: the title ends where
      the artist label's line break starts. */
  lemma PromptDeterminesInputs(t1: string, a1: seq<string>, t2: string, a2: seq<string>)
    requires '\n' !in t1 && '\n' !in t2
    requires BuildPrompt(t1, a1) == BuildPrompt(t2, a2)
    ensures t1 == t2
    ensures ArtistLine(a1) == ArtistLine(a2)
  {
    FilledDeterminesInputs(PromptHead, ArtistLabel, PromptTail, t1, ArtistLine(a1), t2, ArtistLine(a2));
  }

  /** `h + t + l + m + e` determines `t` and `m` when `t` has no line break
      and the label `l` starts with one. */
  lemma FilledDeterminesInputs(h: string, l: string, e: string, t1: string, m1: string, t2: string, m2: string)
    requires |l| > 0 && l[0] == '\n'
    requires '\n' !in t1 && '\n' !in t2
    requires Fill(h, t1, l, m1, e) == Fill(h, t2, l, m2, e)
    ensures t1 == t2 && m1 == m2
  {
    var x1, x2 := l + m1 + e, l + m2 + e;
    assert h + t1 + l + m1 + e == h + t1 + x1;
    assert h + t2 + l + m2 + e == h + t2 + x2;
    SplitAtLineBreak(h, t1, x1, t2, x2);
    CancelAround(l, m1, m2, e);
  }

  /** `h + t + x` splits uniquely when `t` has no line break and `x`
      starts with one. */
  lemma SplitAtLineBreak(h: string, t1: string, x1: string, t2: string, x2: string)
    requires '\n' !in t1 && '\n' !in t2
    requires |x1| > 0 && x1[0] == '\n' && |x2| > 0 && x2[0] == '\n'
    requires h + t1 + x1 == h + t2 + x2
    ensures t1 == t2 && x1 == x2
  {
    var p := h + t1 + x1;
    assert forall j :: |h| <= j < |h| + |t1| ==> p[j] == t1[j - |h|];
    assert forall j :: |h| <= j < |h| + |t2| ==> p[j] == (h + t2 + x2)[j] == t2[j - |h|];
    assert forall j :: |h| <= j < |h| + |t1| ==> p[j] != '\n';
    assert forall j :: |h| <= j < |h| + |t2| ==> p[j] != '\n';
    assert p[|h| + |t1|] == '\n' && p[|h| + |t2|] == (h + t2 + x2)[|h| + |t2|] == '\n';
    assert t1 == p[|h|..|h| + |t1|] == t2;
    assert x1 == p[|h| + |t1|..] == x2;
  }

  /** A fixed prefix and suffix cancel. */
  lemma CancelAround(l: string, m1: string, m2: string, t: string)
    requires l + m1 + t == l + m2 + t
    ensures m1 == m2
  {
    var p := l + m1 + t;
    assert m1 == p[|l|..|p| - |t|];
  }

  /** Two empty hints are not "unknown": they join to ", ". */
  lemma ArtistLineOfEmptyHints()
    ensures ArtistLine([]) == "unknown"
    ensures ArtistLine([""]) == "unknown"
    ensures ArtistLine(["", ""]) == ", "
    ensures ArtistLine(["Porter Robinson"]) == "Porter Robinson"
  {
  }
}
