/**
 * What the branch selection of `generateResponse` guarantees: the chain picks
 * the first branch, in source order, whose test succeeds, and no other one.
 */
module DispatchLaws {
  import opened JsText
  import opened Responder

  /** What the chain from rule `j` on returns: the first rule at or after `j` whose test succeeds, or `Fallback`. */
  lemma {:induction false} FirstMatchFromIsFirst(rules: seq<Intent>, t: string, j: nat)
    requires Fallback !in rules
    requires j <= |rules|
    ensures var k := FirstMatchFrom(rules, t, j);
      if k == Fallback then
        forall i | j <= i < |rules| :: !Matches(rules[i], t)
      else
        exists n | j <= n < |rules| ::
          rules[n] == k && Matches(k, t) && forall i | j <= i < n :: !Matches(rules[i], t)
    decreases |rules| - j
  {
    if j == |rules| {
    } else if Matches(rules[j], t) {
      assert rules[j] != Fallback;
      assert FirstMatchFrom(rules, t, j) == rules[j];
    } else {
      FirstMatchFromIsFirst(rules, t, j + 1);
      var k := FirstMatchFrom(rules, t, j + 1);
      assert FirstMatchFrom(rules, t, j) == k;
      if k != Fallback {
        var n :| j + 1 <= n < |rules| &&
          rules[n] == k && Matches(k, t) && forall i | j + 1 <= i < n :: !Matches(rules[i], t);
        assert forall i | j <= i < n :: !Matches(rules[i], t);
      }
    }
  }

  /** Over any chain without `Fallback` among its rules, the chain returns `k` iff `k` is the first match. */
  lemma FirstMatchFromIff(rules: seq<Intent>, t: string, k: Intent)
    requires Fallback !in rules
    ensures FirstMatchFrom(rules, t, 0) == k <==> IsFirstMatchIn(rules, k, t)
  {
    FirstMatchFromIsFirst(rules, t, 0);
  }

  /** The dispatcher takes exactly the branch that matches first. */
  lemma ClassifyIsFirstMatch(t: string, k: Intent)
    ensures Classify(t) == k <==> IsFirstMatch(k, t)
  {
    assert Fallback !in Rules;
    FirstMatchFromIff(Rules, t, k);
  }

  /** At most one branch is the first match. */
  lemma FirstMatchUnique(t: string, k1: Intent, k2: Intent)
    requires IsFirstMatch(k1, t) && IsFirstMatch(k2, t)
    ensures k1 == k2
  {
    ClassifyIsFirstMatch(t, k1);
    ClassifyIsFirstMatch(t, k2);
  }

  /** A rule whose test succeeds after all earlier tests from `j` on failed is the one the chain picks. */
  lemma {:induction false} FirstMatchFromAt(rules: seq<Intent>, t: string, j: nat, n: nat)
    requires j <= n < |rules|
    requires Matches(rules[n], t)
    requires forall i | j <= i < n :: !Matches(rules[i], t)
    ensures FirstMatchFrom(rules, t, j) == rules[n]
    decreases n - j
  {
    if j < n {
      FirstMatchFromAt(rules, t, j + 1, n);
    }
  }

  /** Every test of the chain needs at least one character. */
  lemma NoTestMatchesEmpty(k: Intent)
    requires k != Fallback
    ensures !Matches(k, [])
  {
    var t: string := [];
    match k
    case TellTime => ContainsAnyEmpty(["what's the time", "what is the time", "current time", "time now"]);
    case TellDate => ContainsAnyEmpty(DatePhrases);
    case WebSearch => ContainsAnyEmpty(SearchWords);
    case OpenX => assert !Contains(t, "open twitter");
    case OpenChatgpt => ContainsAnyEmpty(["open chatgpt", "open chat gpt"]);
    case OpenGmail => ContainsAnyEmpty(["open gmail", "open email", "open mail"]);
    case OpenStackOverflow => ContainsAnyEmpty(["open stackoverflow", "open stack overflow"]);
    case News => ContainsAnyEmpty(["news", "headlines", "what's happening", "what is happening"]);
    case About => ContainsAnyEmpty(["who are you", "your name", "what are you", "introduce"]);
    case Capabilities => ContainsAnyEmpty(["what can you do", "help", "capabilities", "features"]);
    case Greeting => StartsWithAnyEmpty(GreetingOpeners);
    case Thanks => ContainsAnyEmpty(["thanks", "thank you", "thx", "appreciate"]);
    case HowAreYou => ContainsAnyEmpty(["how are you", "how're you doing", "how are you doing"]);
    case Joke => ContainsAnyEmpty(["joke", "funny", "laugh", "humor"]);
    case Motivation => ContainsAnyEmpty(["motivat", "inspire", "encourage", "sad", "depressed", "feel down"]);
    case Goodbye => ContainsAnyEmpty(["bye", "goodbye", "see you", "good night", "later", "cya"]);
    case Compliment => ContainsAnyEmpty(ComplimentPhrases);
    case Creator => ContainsAnyEmpty(["who made you", "who created you", "who built you", "who designed you"]);
    case _ =>
  }

  /** When no test from rule `j` on succeeds, the chain ends in the final `else`. */
  lemma {:induction false} FirstMatchFromNone(rules: seq<Intent>, t: string, j: nat)
    requires j <= |rules|
    requires forall i | j <= i < |rules| :: !Matches(rules[i], t)
    ensures FirstMatchFrom(rules, t, j) == Fallback
    decreases |rules| - j
  {
    if j < |rules| {
      FirstMatchFromNone(rules, t, j + 1);
    }
  }

  /** No test succeeds on an empty text, so the final `else` answers it. */
  lemma EmptyTextFallsThrough()
    ensures Classify([]) == Fallback
  {
    var t: string := [];
    assert Fallback !in Rules;
    forall i | 0 <= i < |Rules| ensures !Matches(Rules[i], t) {
      NoTestMatchesEmpty(Rules[i]);
    }
    FirstMatchFromNone(Rules, t, 0);
  }

  // ---------------------------------------------------------------------------
  // Inputs on which an earlier branch shadows a later one
  // ---------------------------------------------------------------------------

  const PlaySearchSong := "play search this song"

  lemma PlaySearchSongNotTime()
    ensures !IsTimeQuery(PlaySearchSong)
  {
    var t := PlaySearchSong;
    NotContainsAnyByPair(t, ["what's the time", "what is the time"], 'w', 'h');
    NotContainsByPair(t, "current time", 0);
    NotContainsByPair(t, "time now", 0);
    NotContainsByPair(t, "tell", 0);
  }

  lemma PlaySearchSongNotDate()
    ensures !ContainsAny(PlaySearchSong, DatePhrases)
  {
    var t := PlaySearchSong;
    NotContainsAnyByPair(t, DatePhrases[..13], 'w', 'h');
    NotContainsByPair(t, "today", 0);
    assert DatePhrases == DatePhrases[..13] + ["today"];
  }

  /** "play search this song" also passes the search test, but the YouTube branch comes first. */
  lemma PlayShadowsSearch()
    ensures Matches(WebSearch, PlaySearchSong)
    ensures Classify(PlaySearchSong) == PlayOnYoutube
  {
    var t := PlaySearchSong;
    assert OccursAt(t, SearchWords[0], 5);
    PlaySearchSongNotTime();
    PlaySearchSongNotDate();
    assert StartsWith(t, "play ");
    assert Rules[0] == TellTime && Rules[1] == TellDate && Rules[2] == PlayOnYoutube;
    FirstMatchFromAt(Rules, t, 0, 2);
  }

  const TodaysWeather := "what's today's weather"

  lemma TodaysWeatherNotTime()
    ensures !IsTimeQuery(TodaysWeather)
  {
    var t := TodaysWeather;
    NotContainsByPair(t, "what's the time", 9);
    NotContainsByPair(t, "what is the time", 3);
    NotContainsByPair(t, "current time", 0);
    NotContainsByPair(t, "time now", 0);
    NotContainsByPair(t, "tell", 0);
  }

  /** "what's today's weather" also passes the weather test, but the date branch comes first. */
  lemma TodayShadowsWeather()
    ensures Matches(Weather, TodaysWeather)
    ensures Classify(TodaysWeather) == TellDate
  {
    var t := TodaysWeather;
    assert OccursAt(t, "weather", 15);
    assert OccursAt(t, DatePhrases[13], 7);
    TodaysWeatherNotTime();
    assert Rules[0] == TellTime && Rules[1] == TellDate;
    FirstMatchFromAt(Rules, t, 0, 1);
  }

  const OpenYoutubeSearchCats := "open youtube and search cats"

  lemma SearchCatsNotTime()
    ensures !IsTimeQuery(OpenYoutubeSearchCats)
  {
    var t := OpenYoutubeSearchCats;
    NotContainsAnyByPair(t, ["what's the time", "what is the time"], 'w', 'h');
    NotContainsByPair(t, "current time", 0);
    NotContainsByPair(t, "time now", 0);
    NotContainsByPair(t, "tell", 0);
  }

  lemma SearchCatsNotDate()
    ensures !ContainsAny(OpenYoutubeSearchCats, DatePhrases)
  {
    var t := OpenYoutubeSearchCats;
    NotContainsAnyByPair(t, DatePhrases[..13], 'w', 'h');
    NotContainsByPair(t, "today", 0);
    assert DatePhrases == DatePhrases[..13] + ["today"];
  }

  lemma SearchCatsNotPlay()
    ensures !IsPlayRequest(OpenYoutubeSearchCats)
  {
    var t := OpenYoutubeSearchCats;
    NotContainsByPair(t, "play ", 0);
    assert !StartsWith(t, "play ") by {
      assert t[0] != "play "[0];
    }
  }

  /** "open youtube and search cats" also passes the open-YouTube test, but the search branch comes first. */
  lemma SearchShadowsOpenYoutube()
    ensures Matches(OpenYoutube, OpenYoutubeSearchCats)
    ensures Classify(OpenYoutubeSearchCats) == WebSearch
  {
    var t := OpenYoutubeSearchCats;
    assert OccursAt(t, "open youtube", 0);
    assert OccursAt(t, SearchWords[0], 17);
    SearchCatsNotTime();
    SearchCatsNotDate();
    SearchCatsNotPlay();
    assert Rules[0] == TellTime && Rules[1] == TellDate && Rules[2] == PlayOnYoutube && Rules[3] == WebSearch;
    FirstMatchFromAt(Rules, t, 0, 3);
  }
}
