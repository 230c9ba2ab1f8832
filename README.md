# Sanvii widget, modelled in Dafny

Sanvii is a chat-and-voice assistant widget written as an Angular component,
`SanviiWidgetComponent`. The user speaks or types a request. The widget logs
it, waits a moment, then answers with a reply text and sometimes an
`open_url` action, and speaks the reply. This project models that component
and proves properties of the model.

What it models:

- **The reply dispatcher** (`generateResponse`), in `responder.dfy`. The
  input is lower-cased and trimmed. A fixed chain of about thirty tests then
  picks one intent, and the intent decides the reply and the action. Each
  regular expression of the chain is written out as a predicate over
  strings:
  - a literal occurrence;
  - a prefix;
  - "`a`, then later on the same line one of `b0|b1|...`";
  - a word end after `x`.

  The dispatcher also rewrites the query:
  - the YouTube query is stripped of "play", "on youtube" and the media
    words;
  - the search query is stripped of its trigger words;
  - the weather query is cut down to the city;
  - the arithmetic expression is sanitized before evaluation.

  `randomPick` and `getTimeGreeting` live here too.
- **JavaScript's string operations**, in `js_text.dfy`:
  - `trim`, with the white-space set of `String.prototype.trim` and `\s`;
  - lower-casing;
  - `includes` and `startsWith`;
  - a first-occurrence `replace`;
  - a global `replace` over an alternation, as the leftmost scan the
    regular-expression engine performs.
- **The speech helpers**, in `speech.dfy`:
  - the chain of `find`s in `loadVoices` that chooses a voice;
  - the cleaning at the start of `speak`: the emoji class is cut out, line
    feeds become ". ", and the result is trimmed.
- **The component's state**, in `widget.dfy`. This is a class with the five
  flags, the typed input, the message log, the selected voice and the owner's
  name, plus the methods that change them. The delayed continuations
  (`generateResponse` after the thinking delay, the greeting after start-up)
  are methods the host calls.

The laws are in three files:

- `dispatch_laws.dfy`: the chain picks the first test that succeeds, and
  only that one. It also shows three inputs on which an earlier branch
  shadows a later one, and proves that blank input falls through to the
  final `else`.
- `reply_laws.dfy`:
  - round trips for the query rewriting;
  - what the arithmetic sanitizer keeps and what it changes;
  - every entry of a reply list can be drawn;
  - the greeting buckets.
- `respond_examples.dfy`: end-to-end facts about `Respond`.

What the browser supplies is a parameter of the model, held in `Env`:

- the draw of `Math.random`, as a real in [0, 1);
- the clock and calendar texts;
- `encodeURIComponent`;
- the result of evaluating the sanitized expression as code.

The hour for the greeting and the list of installed voices are also
parameters.

Two points of the code the model keeps as they are:

- `Function(...)` does not throw on `10/0`: it returns `Infinity`, so the
  reply is "10/0 = Infinity 🧮". Only a thrown exception gives the failure
  reply, and the injected evaluator reports that case as `None`.
- `expr.replace(/x/g, '*')` replaces every lowercase `x`, and so does
  `Sanitize`.

## Model

| member | source | states |
|---|---|---|
| JsText.ToLower | src/app/sanvii-widget/sanvii-widget.component.ts:212 | `toLowerCase`: same length, and each character is lower-cased, so no ASCII capital is left |
| JsText.ToLowerUnchanged | src/app/sanvii-widget/sanvii-widget.component.ts:212 | a text without capitals is left unchanged by lower-casing |
| JsText.Trim | src/app/sanvii-widget/sanvii-widget.component.ts:212 | `trim`: the result is the middle slice after the leading white space; only white space is cut at the end; the result neither starts nor ends in white space; it is empty iff the text is all white space |
| JsText.TrimUnchanged | src/app/sanvii-widget/sanvii-widget.component.ts:176 | a text that neither starts nor ends in white space is its own trim |
| JsText.TrimIdempotent | src/app/sanvii-widget/sanvii-widget.component.ts:176 | trimming twice is trimming once |
| JsText.TrimSpacePrefix | src/app/sanvii-widget/sanvii-widget.component.ts:212 | white space added in front does not change the trim |
| JsText.TrimKeepsLower | src/app/sanvii-widget/sanvii-widget.component.ts:212 | trimming a text without capitals leaves none |
| JsText.LineEnd | src/app/sanvii-widget/sanvii-widget.component.ts:217 | the end of the line for `.`: the first line terminator at or after the start, with none in between |
| JsText.LineStart | src/app/sanvii-widget/sanvii-widget.component.ts:314 | the start of the line a `.*` match can reach back to: just after a line terminator or at 0, with none in between |
| JsText.IndexOf | src/app/sanvii-widget/sanvii-widget.component.ts:233 | the first occurrence: found iff the pattern occurs, it occurs there, and nowhere before |
| JsText.LastIndexAtMost | src/app/sanvii-widget/sanvii-widget.component.ts:314 | the last occurrence at or before a bound: it occurs there and nowhere between it and the bound |
| JsText.NotContainsByPair | src/app/sanvii-widget/sanvii-widget.component.ts:217-412 | a pattern whose characters at k and k+1 never appear adjacent in the text does not occur in it |
| JsText.NotContainsAnyByPair | src/app/sanvii-widget/sanvii-widget.component.ts:217-412 | the same for every alternative that shares that pair |
| JsText.ContainsAnyEmpty | src/app/sanvii-widget/sanvii-widget.component.ts:217-412 | no nonempty alternative occurs in the empty text |
| JsText.StartsWithAnyEmpty | src/app/sanvii-widget/sanvii-widget.component.ts:338 | the empty text starts with no nonempty alternative |
| JsText.RemoveFirst | src/app/sanvii-widget/sanvii-widget.component.ts:233-234 | `replace` with a literal pattern: unchanged when the pattern does not occur; otherwise one occurrence shorter, and putting the pattern back at its first index restores the text |
| JsText.PrefixIndex | src/app/sanvii-widget/sanvii-widget.component.ts:248 | the alternative an alternation picks at a position: the first one the text starts with; none iff it starts with none |
| JsText.RemoveAll | src/app/sanvii-widget/sanvii-widget.component.ts:235 | a global `replace` over an alternation never lengthens the text |
| JsText.RemoveAllUnchangedIff | src/app/sanvii-widget/sanvii-widget.component.ts:235 | a global removal leaves the text unchanged iff no alternative occurs in it |
| JsText.RemoveAllNoMatch | src/app/sanvii-widget/sanvii-widget.component.ts:248 | a text with no alternative in it is unchanged by the removal |
| JsText.RemoveAllShrinks | src/app/sanvii-widget/sanvii-widget.component.ts:248 | a text with an alternative in it strictly shrinks |
| JsText.RemoveAllKeepsChar | src/app/sanvii-widget/sanvii-widget.component.ts:235 | a character no alternative starts with is kept, and the scan continues after it |
| JsText.RemoveAllAfterPrefix | src/app/sanvii-widget/sanvii-widget.component.ts:248 | an alternative chosen at the front is cut, and the scan resumes after it |
| Responder.PickIndex | src/app/sanvii-widget/sanvii-widget.component.ts:509 | `Math.floor(r * n)` for r in [0, 1) is the index i below n with i <= r*n < i+1 |
| Responder.RandomPick | src/app/sanvii-widget/sanvii-widget.component.ts:508-510 | `randomPick` returns a member of the nonempty list |
| Responder.GreetingReplies | src/app/sanvii-widget/sanvii-widget.component.ts:339-346 | the greeting list has five entries, all nonempty |
| Responder.ThanksReplies | src/app/sanvii-widget/sanvii-widget.component.ts:351-356 | the thanks list has four entries, all nonempty |
| Responder.MotivationReplies | src/app/sanvii-widget/sanvii-widget.component.ts:392-398 | the motivation list has five entries, all nonempty |
| Responder.FallbackReplies | src/app/sanvii-widget/sanvii-widget.component.ts:418-422 | the default list has three entries, all nonempty |
| Responder.Sanitize | src/app/sanvii-widget/sanvii-widget.component.ts:382 | the sanitized expression is no longer than the input and holds only digits, `+ - * / ( ) . %` and spaces |
| Responder.CalcReply | src/app/sanvii-widget/sanvii-widget.component.ts:380-387 | the calculation branch always replies with a nonempty text |
| Responder.SiteLink | src/app/sanvii-widget/sanvii-widget.component.ts:259-327 | every open-site and news branch has a nonempty reply and a nonempty URL |
| Responder.ChatReply | src/app/sanvii-widget/sanvii-widget.component.ts:330-414 | every branch without an action has a nonempty reply |
| Responder.SiteAnswer | src/app/sanvii-widget/sanvii-widget.component.ts:259-311 | a site branch answers with a nonempty reply and an `open_url` action with a nonempty URL and a label |
| Responder.PlayAnswer | src/app/sanvii-widget/sanvii-widget.component.ts:237-242 | the YouTube branch does the same |
| Responder.SearchAnswer | src/app/sanvii-widget/sanvii-widget.component.ts:250-255 | the search branch does the same |
| Responder.WeatherAnswer | src/app/sanvii-widget/sanvii-widget.component.ts:315-320 | the weather branch does the same |
| Responder.FallbackAnswer | src/app/sanvii-widget/sanvii-widget.component.ts:416-427 | the final `else` does the same |
| Responder.UrlAnswer | src/app/sanvii-widget/sanvii-widget.component.ts:231-327 | every branch that assigns an action assigns an `open_url` action with a nonempty URL and a label, and a nonempty reply |
| Responder.Answer | src/app/sanvii-widget/sanvii-widget.component.ts:217-428 | the chosen branch's reply is nonempty; there is an action iff the branch is a URL branch, and it is then a well-formed `open_url` action |
| Responder.Respond | src/app/sanvii-widget/sanvii-widget.component.ts:210-432 | `generateResponse`'s reply is never empty; an action is set iff the intent chosen for the normalized input is one of the YouTube, search, open-site, weather, news or default branches; that action is `open_url` with a nonempty URL |
| Responder.UrlToOpen | src/app/sanvii-widget/sanvii-widget.component.ts:486-490 | `executeAction` opens a URL iff the type is `open_url` and the URL is present and nonempty, and then it opens exactly that URL |
| DispatchLaws.FirstMatchFromIsFirst | src/app/sanvii-widget/sanvii-widget.component.ts:217-428 | the chain from rule j returns either a rule whose test succeeds after every earlier test failed, or the final `else` when every test fails |
| DispatchLaws.FirstMatchFromIff | src/app/sanvii-widget/sanvii-widget.component.ts:217-428 | over any chain, the result is k iff k is the first match |
| DispatchLaws.ClassifyIsFirstMatch | src/app/sanvii-widget/sanvii-widget.component.ts:217-428 | the dispatcher takes branch k iff k is the first branch whose test succeeds |
| DispatchLaws.FirstMatchUnique | src/app/sanvii-widget/sanvii-widget.component.ts:217-428 | exactly one branch fires: two first matches are the same branch |
| DispatchLaws.FirstMatchFromAt | src/app/sanvii-widget/sanvii-widget.component.ts:217-428 | a rule whose test succeeds after all earlier tests failed is the one the chain picks |
| DispatchLaws.FirstMatchFromNone | src/app/sanvii-widget/sanvii-widget.component.ts:416-427 | when no test succeeds, the chain ends in the final `else` |
| DispatchLaws.NoTestMatchesEmpty | src/app/sanvii-widget/sanvii-widget.component.ts:217-412 | no test of the chain succeeds on the empty text |
| DispatchLaws.EmptyTextFallsThrough | src/app/sanvii-widget/sanvii-widget.component.ts:416-427 | the empty text reaches the final `else` |
| DispatchLaws.PlayShadowsSearch | src/app/sanvii-widget/sanvii-widget.component.ts:231-246 | "play search this song" passes the search test too, but the YouTube branch takes it |
| DispatchLaws.TodayShadowsWeather | src/app/sanvii-widget/sanvii-widget.component.ts:223-313 | "what's today's weather" passes the weather test too, but the date branch takes it |
| DispatchLaws.SearchShadowsOpenYoutube | src/app/sanvii-widget/sanvii-widget.component.ts:246-259 | "open youtube and search cats" passes the open-YouTube test too, but the search branch takes it |
| ReplyLaws.NormalizeIdempotent | src/app/sanvii-widget/sanvii-widget.component.ts:212 | lower-casing and trimming a second time changes nothing |
| ReplyLaws.NormalizeIgnoresCase | src/app/sanvii-widget/sanvii-widget.component.ts:212 | the dispatcher sees the same text whatever the case of ASCII letters |
| ReplyLaws.NormalizeIgnoresLeadingSpace | src/app/sanvii-widget/sanvii-widget.component.ts:212 | the dispatcher sees the same text whatever white space comes first |
| ReplyLaws.TrimAfterSpace | src/app/sanvii-widget/sanvii-widget.component.ts:236 | trimming a space followed by a trimmed text gives that text |
| ReplyLaws.YoutubeQueryOfPlay | src/app/sanvii-widget/sanvii-widget.component.ts:232-236 | "play q" queries YouTube for q, for any trimmed q without "on youtube", "song", "music" or "video" |
| ReplyLaws.RemoveAllMusic | src/app/sanvii-widget/sanvii-widget.component.ts:235 | the media-word removal turns " music" into " " |
| ReplyLaws.PlayMusicCuts | src/app/sanvii-widget/sanvii-widget.component.ts:233-234 | cutting "play" and then "on youtube" out of "play music" leaves " music" |
| ReplyLaws.YoutubeQueryDefault | src/app/sanvii-widget/sanvii-widget.component.ts:232-236 | "play music" leaves nothing, so the query is "trending music" |
| ReplyLaws.SearchQueryOfSearchFor | src/app/sanvii-widget/sanvii-widget.component.ts:247-249 | "search for q" searches for q, for any trimmed q without a trigger word |
| ReplyLaws.SearchQueryFallsBackToInput | src/app/sanvii-widget/sanvii-widget.component.ts:247-249 | a request that is only "search for", "search", "google", "look up" or "find me" searches for the raw, un-lowercased input |
| ReplyLaws.WeatherInOnlyAtStart | src/app/sanvii-widget/sanvii-widget.component.ts:314 | in "weather in c", with no "weather" in c, the only "weather" is at index 0 |
| ReplyLaws.SkipConnectiveIn | src/app/sanvii-widget/sanvii-widget.component.ts:314 | skipping the white space and the optional in/for/at/of after "weather" turns " in c" into c |
| ReplyLaws.StripWeatherAtStart | src/app/sanvii-widget/sanvii-widget.component.ts:314 | a text whose only "weather" is at the start loses that word and the connective after it |
| ReplyLaws.StripWeatherIn | src/app/sanvii-widget/sanvii-widget.component.ts:314 | the weather regular expression reduces "weather in c" to c |
| ReplyLaws.WeatherCityOfWeatherIn | src/app/sanvii-widget/sanvii-widget.component.ts:314 | "weather in c" asks for the weather at c, for any trimmed c without "weather" |
| ReplyLaws.WeatherCityDefault | src/app/sanvii-widget/sanvii-widget.component.ts:314 | a bare "weather" asks for "my location" |
| ReplyLaws.SanitizeUnchangedIff | src/app/sanvii-widget/sanvii-widget.component.ts:382 | sanitizing leaves an expression unchanged iff it holds only arithmetic characters |
| ReplyLaws.SanitizeKeeps | src/app/sanvii-widget/sanvii-widget.component.ts:382 | an expression of arithmetic characters only is unchanged |
| ReplyLaws.SanitizeIdempotent | src/app/sanvii-widget/sanvii-widget.component.ts:382 | sanitizing twice is sanitizing once |
| ReplyLaws.SanitizeCountsStars | src/app/sanvii-widget/sanvii-widget.component.ts:382 | every `x` becomes a `*`: the output has as many `*` as the input has `*` and `x` together |
| ReplyLaws.SanitizeCountsKept | src/app/sanvii-widget/sanvii-widget.component.ts:382 | every other allowed character is kept as often as it occurs |
| ReplyLaws.SanitizeOne | src/app/sanvii-widget/sanvii-widget.component.ts:382 | one character: `x` becomes `*`, then an arithmetic character is kept and any other dropped |
| ReplyLaws.SanitizeAppend | src/app/sanvii-widget/sanvii-widget.component.ts:382 | sanitizing distributes over concatenation, so the kept characters stay in order |
| ReplyLaws.CalcExpressionOfRequest | src/app/sanvii-widget/sanvii-widget.component.ts:380 | "calculate e", "what's e" and "what is e" give back the expression e, for a trimmed e without those words |
| ReplyLaws.CalcReplyOutcome | src/app/sanvii-widget/sanvii-widget.component.ts:380-387 | the reply is the fixed failure text iff evaluation fails; on success it begins with the unsanitized expression, " = " and the result |
| ReplyLaws.PickIndexReaches | src/app/sanvii-widget/sanvii-widget.component.ts:509 | every index below n is the pick of the draw i/n |
| ReplyLaws.RandomPickReaches | src/app/sanvii-widget/sanvii-widget.component.ts:508-510 | every entry of a nonempty list is the pick of some draw in [0, 1) |
| ReplyLaws.GreetingTextsDiffer | src/app/sanvii-widget/sanvii-widget.component.ts:502-505 | the four greeting texts differ pairwise, whatever the owner's name |
| ReplyLaws.TimeGreetingBuckets | src/app/sanvii-widget/sanvii-widget.component.ts:500-506 | `getTimeGreeting` gives morning iff h < 12, afternoon iff 12 <= h < 17, evening iff 17 <= h < 21, and the midnight text iff h >= 21 |
| RespondExamples.RespondTakesFirstMatch | src/app/sanvii-widget/sanvii-widget.component.ts:210-432 | the response is the body of the branch whose test succeeds first on the normalized input |
| RespondExamples.RespondPlays | src/app/sanvii-widget/sanvii-widget.component.ts:231-242 | a request sent to the YouTube branch plays its YouTube query |
| RespondExamples.RespondPicksFromLists | src/app/sanvii-widget/sanvii-widget.component.ts:338-427 | the greeting, thanks, joke, motivation and default branches reply only with an entry of their own list |
| RespondExamples.RespondToBlank | src/app/sanvii-widget/sanvii-widget.component.ts:416-427 | a blank request gets a stock reply and a Google search for the raw input |
| RespondExamples.NormalizePlayKesariya | src/app/sanvii-widget/sanvii-widget.component.ts:212 | "Play Kesariya" normalizes to "play kesariya" |
| RespondExamples.ClassifyPlayKesariya | src/app/sanvii-widget/sanvii-widget.component.ts:231 | "play kesariya" goes to the YouTube branch |
| RespondExamples.KesariyaQuery | src/app/sanvii-widget/sanvii-widget.component.ts:232-236 | its query is "kesariya" |
| RespondExamples.RespondPlayKesariya | src/app/sanvii-widget/sanvii-widget.component.ts:231-242 | "Play Kesariya" opens the YouTube search for the encoded "kesariya", whatever the draw, clock or owner |
| RespondExamples.NormalizeOpenGitHub | src/app/sanvii-widget/sanvii-widget.component.ts:212 | "Open GitHub" normalizes to "open github" |
| RespondExamples.OpenGithubNotEarlier | src/app/sanvii-widget/sanvii-widget.component.ts:217-259 | none of the five tests before the GitHub test succeeds on "open github" |
| RespondExamples.ClassifyOpenGithub | src/app/sanvii-widget/sanvii-widget.component.ts:263 | "open github" goes to the GitHub branch |
| RespondExamples.RespondOpenGitHub | src/app/sanvii-widget/sanvii-widget.component.ts:263-266 | "Open GitHub" gives GitHub's fixed reply and opens github.com with its label |
| Speech.Tier | src/app/sanvii-widget/sanvii-widget.component.ts:77-85 | a voice's tier is the first of the five `find` tests it passes, or 6 |
| Speech.FindFrom | src/app/sanvii-widget/sanvii-widget.component.ts:77 | `find`: the index found passes the test, and no voice before it does |
| Speech.SelectIndex | src/app/sanvii-widget/sanvii-widget.component.ts:75-87 | the chosen index is in range, and there is none iff there are no voices |
| Speech.SelectVoice | src/app/sanvii-widget/sanvii-widget.component.ts:75-87 | `loadVoices` selects one of the installed voices, and `null` iff there are none |
| Speech.FoundIsBest | src/app/sanvii-widget/sanvii-widget.component.ts:77-85 | when no voice passes an earlier test, the voice found by a test is the best voice |
| Speech.FindNone | src/app/sanvii-widget/sanvii-widget.component.ts:77-85 | a test whose `find` failed is passed by no voice |
| Speech.SelectIndexIsBest | src/app/sanvii-widget/sanvii-widget.component.ts:75-87 | the chain of `find`s selects the earliest voice of the best tier |
| Speech.BestVoiceUnique | src/app/sanvii-widget/sanvii-widget.component.ts:75-87 | there is only one best voice |
| Speech.SelectIndexIff | src/app/sanvii-widget/sanvii-widget.component.ts:75-87 | the selected index is i iff voice i is the earliest voice of the best tier |
| Speech.RemoveEmoji | src/app/sanvii-widget/sanvii-widget.component.ts:444-447 | the emoji `replace` leaves no character of the class and never lengthens the text |
| Speech.ExpandNewlines | src/app/sanvii-widget/sanvii-widget.component.ts:449 | the line-feed `replace` leaves no line feed and never shortens the text |
| Speech.CleanForSpeechSafe | src/app/sanvii-widget/sanvii-widget.component.ts:443-451 | the text handed to the synthesizer has no emoji of the class, no line feed, and no white space at either end |
| Speech.ExpandKeepsNonEmoji | src/app/sanvii-widget/sanvii-widget.component.ts:449 | expanding line feeds brings in no emoji of the class |
| Speech.RemoveEmojiKeeps | src/app/sanvii-widget/sanvii-widget.component.ts:444-447 | a text without emoji of the class passes the first `replace` unchanged |
| Speech.ExpandNewlinesKeeps | src/app/sanvii-widget/sanvii-widget.component.ts:449 | a text without line feeds passes the second `replace` unchanged |
| Speech.RemoveEmojiOne | src/app/sanvii-widget/sanvii-widget.component.ts:444-447 | one character: a character of the class is removed, any other kept |
| Speech.RemoveEmojiAppend | src/app/sanvii-widget/sanvii-widget.component.ts:444-447 | the emoji `replace` distributes over concatenation, so the other characters survive in order |
| Speech.ExpandNewlinesOne | src/app/sanvii-widget/sanvii-widget.component.ts:449 | one character: a line feed becomes ". ", any other is kept |
| Speech.ExpandNewlinesAppend | src/app/sanvii-widget/sanvii-widget.component.ts:449 | the line-feed `replace` distributes over concatenation, so the text keeps its order |
| Speech.CleanDropsTrailingEmoji | src/app/sanvii-widget/sanvii-widget.component.ts:443-451 | a reply ending in one emoji, with no other emoji and no line feed, is spoken as the trimmed text before the emoji |
| Speech.CleanForSpeechIdempotent | src/app/sanvii-widget/sanvii-widget.component.ts:443-451 | cleaning a cleaned text changes nothing |
| Speech.RemoveEmojiOfEmoji | src/app/sanvii-widget/sanvii-widget.component.ts:444-447 | a text made only of the class is removed entirely |
| Speech.RemoveEmojiDropsCjk | src/app/sanvii-widget/sanvii-widget.component.ts:446 | the range U+24C2 to U+1F251 also covers the CJK ideographs U+4E00 to U+9FFF, so a text written in them is removed entirely |
| Widget.Utterance | src/app/sanvii-widget/sanvii-widget.component.ts:438-453 | `speak` says nothing exactly when muted or when nothing is left after cleaning; otherwise it says the cleaned text |
| Widget.SanviiWidget.constructor | src/app/sanvii-widget/sanvii-widget.component.ts:26-43 | every flag is off, the input and the log are empty, no voice is selected, the owner is "Boss", and the log is valid |
| Widget.SanviiWidget.AddMessage | src/app/sanvii-widget/sanvii-widget.component.ts:180-197 | exactly one record is pushed onto the log and nothing else changes; the log stays valid iff the new record is well formed |
| Widget.SanviiWidget.LoadVoices | src/app/sanvii-widget/sanvii-widget.component.ts:75-87 | the selected voice becomes the chain's choice among the reported voices, and nothing else changes |
| Widget.SanviiWidget.Speak | src/app/sanvii-widget/sanvii-widget.component.ts:438-453 | the spoken text is the utterance of the reply; a voice is chosen only when unmuted with none selected; nothing else changes |
| Widget.SanviiWidget.HandleUserMessage | src/app/sanvii-widget/sanvii-widget.component.ts:164-172 | one user record with the text is appended, the input is cleared, listening stops and thinking starts; the log stays valid |
| Widget.SanviiWidget.SendTypedMessage | src/app/sanvii-widget/sanvii-widget.component.ts:174-178 | nothing changes when the input trims to empty; otherwise the trimmed input is handled as a user message |
| Widget.SanviiWidget.GenerateResponse | src/app/sanvii-widget/sanvii-widget.component.ts:210-432 | thinking stops, exactly one widget record with `Respond`'s reply and action is appended, and that reply is spoken; a voice is chosen only when unmuted with none selected; the log stays valid |
| Widget.SanviiWidget.ClearChat | src/app/sanvii-widget/sanvii-widget.component.ts:199-204 | the log becomes exactly one widget message, "Chat cleared! How can I help, <owner>?", which is also spoken; a voice is chosen only when unmuted with none selected |
| Widget.SanviiWidget.Greet | src/app/sanvii-widget/sanvii-widget.component.ts:59-63 | the greeting for the hour is appended as one widget message |
| Widget.SanviiWidget.StartListening | src/app/sanvii-widget/sanvii-widget.component.ts:133-149 | without recognition nothing changes; otherwise speaking stops, the chat is open and the rest is unchanged |
| Widget.SanviiWidget.StopListening | src/app/sanvii-widget/sanvii-widget.component.ts:151-154 | listening stops and nothing else changes |
| Widget.SanviiWidget.ToggleListening | src/app/sanvii-widget/sanvii-widget.component.ts:156-158 | stop when listening, start otherwise |
| Widget.SanviiWidget.ToggleMute | src/app/sanvii-widget/sanvii-widget.component.ts:474-480 | mute flips, and muting also stops speaking |
| Widget.SanviiWidget.ToggleChat | src/app/sanvii-widget/sanvii-widget.component.ts:496-498 | the chat flips between open and closed, and nothing else changes |

## Left out

- Speech recognition (`initSpeechRecognition`, lines 93-131) and the synthesizer calls of `speak` (lines 453-471) are browser I/O. The model keeps only the text that would be spoken. The `isListening` and `isSpeaking` changes made by the recognizer's and the utterance's event callbacks are not modelled. Neither are the pitch, rate and volume settings.
- `ngOnDestroy` only cancels browser speech and recognition, so it is not modelled.
- `setTimeout` delays are left to the host, which calls `GenerateResponse` and `Greet` itself. The scrolling of the chat body and `alert` are also left out.
- `window.open` is not modelled. `UrlToOpen` returns the URL `executeAction` would open.
- Angular's dependency injection, `NgZone` and `ChangeDetectorRef` are not modelled.
- `encodeURIComponent` is an uninterpreted parameter function. The URLs are stated in terms of it.
- The evaluation of the sanitized expression (`Function(...)()`, line 383) is an opaque parameter. It returns the result's text, or `None` when it throws. Floating-point results are not modelled.
- `Math.random` is a real draw in [0, 1), and `Math.floor(r * n)` is exact real arithmetic. Floating-point rounding of the product is not modelled.
- `Message.time` is the clock text `toLocaleTimeString` gives. The date and time texts of the time and date branches are parameters too.
- JsText.ToLower: only ASCII capitals are lowered. JavaScript's `toLowerCase` also lowers other scripts, which matters only for input outside ASCII.
- The model works on code points. Lone UTF-16 surrogates, which a JavaScript string may contain, have no counterpart.
- `src/app/app.component.ts` is not part of this model. It only hosts the component.
- `src/app/sanvii-widget/sanvii-widget.spec.ts` is not part of this model. It is a creation test only.
