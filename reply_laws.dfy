/**
 * What the reply-building parts of `generateResponse` guarantee: the query
 * rewriting gives back the user's words, the calculation branch hands the
 * evaluator only arithmetic characters, `randomPick` can reach every entry,
 * and the time greeting picks exactly one of four texts.
 */
module ReplyLaws {
  import opened Opt
  import opened JsText
  import opened Responder

  // ---------------------------------------------------------------------------
  // Normalization
  // ---------------------------------------------------------------------------

  /** Lower-casing and trimming a second time changes nothing. */
  lemma NormalizeIdempotent(input: string)
    ensures Normalize(Normalize(input)) == Normalize(input)
  {
    var l := ToLower(input);
    TrimKeepsLower(l);
    ToLowerUnchanged(Trim(l));
    TrimIdempotent(l);
  }

  /** The dispatcher does not see the case of ASCII letters. */
  lemma NormalizeIgnoresCase(input: string)
    ensures Normalize(ToLower(input)) == Normalize(input)
  {
    assert ToLower(ToLower(input)) == ToLower(input);
  }

  /** The dispatcher does not see white space in front of the input. */
  lemma NormalizeIgnoresLeadingSpace(c: char, input: string)
    requires IsSpace(c)
    ensures Normalize([c] + input) == Normalize(input)
  {
    assert ToLower([c] + input) == [c] + ToLower(input);
    TrimSpacePrefix(c, ToLower(input));
  }

  // ---------------------------------------------------------------------------
  // Query round trips
  // ---------------------------------------------------------------------------

  /** A text without surrounding white space. */
  predicate Trimmed(q: string) {
    q != [] && !IsSpace(q[0]) && !IsSpace(q[|q| - 1])
  }

  /** Trimming `" " + q` gives back a trimmed `q`. */
  lemma TrimAfterSpace(q: string)
    requires Trimmed(q)
    ensures Trim([' '] + q) == q
  {
    TrimSpacePrefix(' ', q);
    TrimUnchanged(q);
  }

  /**
   * "play <q>": the YouTube query is `q` itself when `q` has no surrounding
   * white space and none of the words the branch cuts out.
   */
  lemma YoutubeQueryOfPlay(q: string)
    requires Trimmed(q)
    requires !Contains(q, "on youtube")
    requires !ContainsAny(q, MediaCuts)
    ensures YoutubeQuery("play " + q) == q
  {
    var t := "play " + q;
    assert OccursAt(t, "play", 0);
    assert IndexOf(t, "play") == Some(0);
    var u := RemoveFirst(t, "play");
    assert u == [' '] + q;
    ContainsAfterChar(' ', q, "on youtube");
    assert RemoveFirst(u, "on youtube") == u;
    RemoveAllKeepsChar(' ', q, MediaCuts);
    RemoveAllNoMatch(q, MediaCuts);
    TrimAfterSpace(q);
  }

  /** A media word on its own is cut out entirely. */
  lemma RemoveAllMusic()
    ensures RemoveAll(" music", MediaCuts) == " "
  {
    RemoveAllKeepsChar(' ', "music", MediaCuts);
    assert " music" == [' '] + "music";
    assert "music"[0] != MediaCuts[0][0];
    assert PrefixIndex("music", MediaCuts) == Some(1);
    assert "music"[5..] == [];
  }

  /** "play music": nothing is left once the trigger words are cut out, so the query is the default. */
  lemma YoutubeQueryDefault()
    ensures YoutubeQuery("play music") == "trending music"
  {
    PlayMusicCuts();
    RemoveAllMusic();
    assert Trim(" ") == [];
  }

  /** Cutting "play" and then "on youtube" out of "play music" leaves " music". */
  lemma PlayMusicCuts()
    ensures RemoveFirst(RemoveFirst("play music", "play"), "on youtube") == " music"
  {
    var t := "play music";
    assert OccursAt(t, "play", 0);
    assert RemoveFirst(t, "play") == " music";
    NotContainsByPair(" music", "on youtube", 0);
  }

  /**
   * "search for <q>": the search query is `q` itself when `q` has no
   * surrounding white space and no search trigger.
   */
  lemma SearchQueryOfSearchFor(q: string, input: string)
    requires Trimmed(q)
    requires !ContainsAny(q, SearchTriggers)
    ensures SearchQuery("search for " + q, input) == q
  {
    var t := "search for " + q;
    assert StartsWith(t, SearchTriggers[0]);
    assert PrefixIndex(t, SearchTriggers) == Some(0);
    assert t[|SearchTriggers[0]|..] == [' '] + q;
    RemoveAllKeepsChar(' ', q, SearchTriggers);
    RemoveAllNoMatch(q, SearchTriggers);
    TrimAfterSpace(q);
  }

  /**
   * A request made only of one of the triggers "search for", "search",
   * "google", "look up" and "find me" searches for the raw, un-lowercased
   * input. ("find " is a trigger only with its space, which trimming has
   * already taken off.)
   */
  lemma SearchQueryFallsBackToInput(k: nat, input: string)
    requires k < 5
    ensures SearchQuery(SearchTriggers[k], input) == input
  {
    var t := SearchTriggers[k];
    assert t + [] == t;
    assert StartsWith(t, SearchTriggers[k]);
    if k == 1 {
      assert !StartsWith(t, SearchTriggers[0]);
    } else if k > 1 {
      assert forall j | 0 <= j < k :: SearchTriggers[j][0] != t[0];
    }
    assert PrefixIndex(t, SearchTriggers) == Some(k);
    RemoveAllAfterPrefix(t, [], SearchTriggers);
  }

  /** The only "weather" in "weather in <c>" is the first word, when `c` has none. */
  lemma WeatherInOnlyAtStart(c: string, w: nat)
    requires !Contains(c, "weather")
    requires OccursAt("weather in " + c, "weather", w)
    ensures w == 0
  {
    var t := "weather in " + c;
    var h := "weather in ";
    if w >= |h| {
      OccursInRight(h, c, "weather", w - |h|);
      assert false;
    }
    OccursAtChars(t, "weather", w);
    assert h[w] == t[w] == 'w';
    assert forall k | 0 < k < |h| :: h[k] != 'w';
  }

  /** Skipping the connective of " in <c>" leaves `c`. */
  lemma SkipConnectiveIn(c: string)
    requires Trimmed(c)
    ensures SkipConnective(" in " + c) == c
  {
    var s := " in " + c;
    assert LeadingSpaces(s) == 1 by {
      assert s[1..] == "in " + c;
      assert LeadingSpaces(s[1..]) == 0;
    }
    var a := s[1..];
    assert a == "in " + c;
    assert PrefixIndex(a, Connectives) == Some(0);
    var b := a[2..];
    assert b == [' '] + c;
    assert LeadingSpaces(b) == 1 by {
      assert b[1..] == c;
      assert LeadingSpaces(c) == 0;
    }
    assert b[1..] == c;
  }

  /** A text whose only "weather" starts it loses exactly that word and the connective after it. */
  lemma StripWeatherAtStart(t: string)
    requires OccursAt(t, "weather", 0)
    requires forall w | OccursAt(t, "weather", w) :: w == 0
    ensures StripWeatherPrefix(t) == SkipConnective(t[7..])
  {
    assert IndexOf(t, "weather") == Some(0);
    assert LineStart(t, 0) == 0;
    assert t[..0] == [];
  }

  /** "weather in <c>" starts with the word "weather". */
  lemma WeatherInStarts(c: string)
    ensures OccursAt("weather in " + c, "weather", 0)
    ensures ("weather in " + c)[7..] == " in " + c
  {
  }

  /** The prefix up to "weather in " is stripped from "weather in <c>". */
  lemma StripWeatherIn(c: string)
    requires Trimmed(c)
    requires !Contains(c, "weather")
    ensures StripWeatherPrefix("weather in " + c) == c
  {
    var t := "weather in " + c;
    WeatherInStarts(c);
    forall w | OccursAt(t, "weather", w) ensures w == 0 {
      WeatherInOnlyAtStart(c, w);
    }
    StripWeatherAtStart(t);
    SkipConnectiveIn(c);
  }

  /** "weather in <c>": the location is `c` itself when it has no surrounding white space and no "weather". */
  lemma WeatherCityOfWeatherIn(c: string)
    requires Trimmed(c)
    requires !Contains(c, "weather")
    ensures WeatherCity("weather in " + c) == c
  {
    StripWeatherIn(c);
    TrimUnchanged(c);
  }

  /** A bare "weather" asks for the weather at "my location". */
  lemma WeatherCityDefault()
    ensures WeatherCity("weather") == "my location"
  {
    var t := "weather";
    assert OccursAt(t, "weather", 0);
    assert IndexOf(t, "weather") == Some(0);
    assert LineEnd(t, 0) == 7;
    assert LastIndexAtMost(t, "weather", 7) == Some(0);
    assert t[7..] == [];
    assert SkipConnective([]) == [];
  }

  // ---------------------------------------------------------------------------
  // The calculation branch
  // ---------------------------------------------------------------------------

  /** Sanitizing leaves an expression alone exactly when it has only arithmetic characters. */
  lemma {:induction false} SanitizeUnchangedIff(e: string)
    ensures Sanitize(e) == e <==> forall i | 0 <= i < |e| :: IsExprChar(e[i])
  {
    if forall i | 0 <= i < |e| :: IsExprChar(e[i]) {
      SanitizeKeeps(e);
    }
  }

  lemma {:induction false} SanitizeKeeps(e: string)
    requires forall i | 0 <= i < |e| :: IsExprChar(e[i])
    ensures Sanitize(e) == e
  {
    if e != [] {
      assert e[0] != 'x';
      SanitizeKeeps(e[1..]);
      assert e == [e[0]] + e[1..];
    }
  }

  /** Sanitizing twice is sanitizing once. */
  lemma SanitizeIdempotent(e: string)
    ensures Sanitize(Sanitize(e)) == Sanitize(e)
  {
    SanitizeKeeps(Sanitize(e));
  }

  /** Sanitizing works character by character: `x` becomes `*`, then only an arithmetic character is kept. */
  lemma SanitizeOne(c: char)
    ensures Sanitize([c]) ==
      var d := if c == 'x' then '*' else c; if IsExprChar(d) then [d] else []
  {
  }

  /** Sanitizing keeps the order of what it keeps: it distributes over concatenation. */
  lemma {:induction false} SanitizeAppend(a: string, b: string)
    ensures Sanitize(a + b) == Sanitize(a) + Sanitize(b)
  {
    if a == [] {
      assert a + b == b;
    } else {
      assert (a + b)[0] == a[0];
      assert (a + b)[1..] == a[1..] + b;
      SanitizeAppend(a[1..], b);
    }
  }

  /** How many times `c` occurs in `s`. */
  function Count(s: string, c: char): nat {
    if s == [] then 0 else (if s[0] == c then 1 else 0) + Count(s[1..], c)
  }

  /** Every `x` becomes a `*`: the result has as many `*` as the input has `*` and `x` together. */
  lemma {:induction false} SanitizeCountsStars(e: string)
    ensures Count(Sanitize(e), '*') == Count(e, '*') + Count(e, 'x')
  {
    if e != [] {
      SanitizeCountsStars(e[1..]);
      var rest := Sanitize(e[1..]);
      if e[0] == 'x' || e[0] == '*' {
        assert Sanitize(e) == ['*'] + rest;
        assert (['*'] + rest)[1..] == rest;
      } else if IsExprChar(e[0]) {
        assert Sanitize(e) == [e[0]] + rest;
        assert ([e[0]] + rest)[1..] == rest;
      } else {
        assert Sanitize(e) == rest;
      }
      assert Count(e, '*') == (if e[0] == '*' then 1 else 0) + Count(e[1..], '*');
    }
  }

  /** Every other arithmetic character is kept as often as it occurs. */
  lemma {:induction false} SanitizeCountsKept(e: string, c: char)
    requires IsExprChar(c) && c != '*'
    ensures Count(Sanitize(e), c) == Count(e, c)
  {
    assert c != 'x';
    if e != [] {
      SanitizeCountsKept(e[1..], c);
      var rest := Sanitize(e[1..]);
      if e[0] == 'x' {
        assert Sanitize(e) == ['*'] + rest;
        assert (['*'] + rest)[1..] == rest;
      } else if IsExprChar(e[0]) {
        assert Sanitize(e) == [e[0]] + rest;
        assert ([e[0]] + rest)[1..] == rest;
      } else {
        assert Sanitize(e) == rest;
        assert e[0] != c;
      }
    }
  }

  /**
   * "calculate <e>", "what's <e>" and "what is <e>": the expression is `e`
   * itself when `e` has no surrounding white space and none of the words the
   * branch cuts out.
   */
  lemma CalcExpressionOfRequest(k: nat, e: string)
    requires k < |CalcCuts|
    requires Trimmed(e)
    requires !ContainsAny(e, CalcCuts)
    ensures CalcExpression(CalcCuts[k] + " " + e) == e
  {
    var w := CalcCuts[k];
    var t := w + " " + e;
    assert t == w + ([' '] + e);
    assert t[..|w|] == w;
    assert StartsWith(t, w);
    if k > 0 {
      assert t[0] == w[0] != CalcCuts[0][0];
      assert !StartsWith(t, CalcCuts[0]);
    }
    if k == 2 {
      assert t[4] == w[4] != CalcCuts[1][4];
      assert !StartsWith(t, CalcCuts[1]);
    }
    assert PrefixIndex(t, CalcCuts) == Some(k);
    RemoveAllAfterPrefix(w, [' '] + e, CalcCuts);
    RemoveAllKeepsChar(' ', e, CalcCuts);
    RemoveAllNoMatch(e, CalcCuts);
    TrimAfterSpace(e);
  }

  /**
   * The calculation reply is the fixed failure text exactly when evaluating
   * the sanitized expression fails; otherwise it starts with the expression
   * as the user wrote it, followed by the evaluator's result.
   */
  lemma CalcReplyOutcome(e: string, evaluate: string -> Option<string>)
    ensures CalcReply(e, evaluate) == CalcFailureReply <==> evaluate(Sanitize(e)).None?
    ensures evaluate(Sanitize(e)).Some? ==>
      StartsWith(CalcReply(e, evaluate), e + " = " + evaluate(Sanitize(e)).value)
  {
    var s := CalcReply(e, evaluate);
    if evaluate(Sanitize(e)).Some? {
      var v := evaluate(Sanitize(e)).value;
      var p := e + " = " + v;
      assert s == p + " \U{1F9EE}";
      assert s[|s| - 1] == '\U{1F9EE}';
      assert CalcFailureReply[|CalcFailureReply| - 1] == '\U{1F914}';
    }
  }

  // ---------------------------------------------------------------------------
  // randomPick
  // ---------------------------------------------------------------------------

  /** The draw `i / n` picks index `i`: every index can be picked. */
  lemma PickIndexReaches(n: nat, i: nat)
    requires i < n
    ensures 0.0 <= i as real / n as real < 1.0
    ensures PickIndex(n, i as real / n as real) == i
  {
    var r := i as real / n as real;
    assert r * n as real == i as real;
    var k := PickIndex(n, r);
    assert k as real <= i as real < (k + 1) as real;
  }

  /** Every entry of a nonempty list is the pick of some draw. */
  lemma RandomPickReaches(options: seq<string>, j: nat)
    requires j < |options|
    ensures exists r: real | 0.0 <= r < 1.0 :: RandomPick(options, r) == options[j]
  {
    var r := j as real / |options| as real;
    PickIndexReaches(|options|, j);
    assert RandomPick(options, r) == options[j];
  }

  // ---------------------------------------------------------------------------
  // getTimeGreeting
  // ---------------------------------------------------------------------------

  /** The four greeting texts are told apart by their first or sixth character. */
  lemma GreetingTextsDiffer(owner: string)
    ensures Address(MorningGreeting, owner) != Address(AfternoonGreeting, owner)
    ensures Address(MorningGreeting, owner) != Address(EveningGreeting, owner)
    ensures Address(AfternoonGreeting, owner) != Address(EveningGreeting, owner)
    ensures Address(NightGreeting, owner) != Address(MorningGreeting, owner)
    ensures Address(NightGreeting, owner) != Address(AfternoonGreeting, owner)
    ensures Address(NightGreeting, owner) != Address(EveningGreeting, owner)
  {
    var m := Address(MorningGreeting, owner);
    var a := Address(AfternoonGreeting, owner);
    var e := Address(EveningGreeting, owner);
    var n := Address(NightGreeting, owner);
    assert m[0] == 'G' && m[5] == 'm';
    assert a[0] == 'G' && a[5] == 'a';
    assert e[0] == 'G' && e[5] == 'e';
    assert n[0] == 'B';
  }

  /** Each hour falls in exactly one bucket, and each bucket has its own text. */
  lemma TimeGreetingBuckets(owner: string, h: int)
    ensures TimeGreeting(owner, h) == Address(MorningGreeting, owner) <==> h < 12
    ensures TimeGreeting(owner, h) == Address(AfternoonGreeting, owner) <==> 12 <= h < 17
    ensures TimeGreeting(owner, h) == Address(EveningGreeting, owner) <==> 17 <= h < 21
    ensures TimeGreeting(owner, h) == Address(NightGreeting, owner) <==> 21 <= h
  {
    GreetingTextsDiffer(owner);
  }
}
