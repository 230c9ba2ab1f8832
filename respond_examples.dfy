/**
 * `generateResponse` end to end: the response is the body of the first
 * branch whose test succeeds, shown in general and on a few typed requests.
 */
module RespondExamples {
  import opened Opt
  import opened JsText
  import opened Responder
  import opened DispatchLaws
  import opened ReplyLaws

  /** The response is the body of the branch whose test succeeds first. */
  lemma RespondTakesFirstMatch(input: string, env: Env, k: Intent)
    requires 0.0 <= env.draw < 1.0
    requires IsFirstMatch(k, Normalize(input))
    ensures Respond(input, env) == Answer(k, Normalize(input), input, env)
  {
    ClassifyIsFirstMatch(Normalize(input), k);
  }

  /** A request the dispatcher sends to the YouTube branch is answered by playing its query. */
  lemma RespondPlays(input: string, env: Env)
    requires 0.0 <= env.draw < 1.0
    requires Classify(Normalize(input)) == PlayOnYoutube
    ensures Respond(input, env) == PlayAnswer(YoutubeQuery(Normalize(input)), env)
  {
    var t := Normalize(input);
    assert !IsSiteIntent(PlayOnYoutube);
    assert UrlAnswer(PlayOnYoutube, t, input, env) == PlayAnswer(YoutubeQuery(t), env);
  }

  /** The branches that draw a reply at random answer only with an entry of their own list. */
  lemma RespondPicksFromLists(input: string, env: Env)
    requires 0.0 <= env.draw < 1.0
    ensures var k, reply := Classify(Normalize(input)), Respond(input, env).reply;
      && (k == Greeting ==> reply in GreetingReplies(env.ownerName))
      && (k == Thanks ==> reply in ThanksReplies(env.ownerName))
      && (k == Joke ==> reply in Jokes)
      && (k == Motivation ==> reply in MotivationReplies(env.ownerName))
      && (k == Fallback ==> reply in FallbackReplies(env.ownerName))
  {
  }

  /** A blank request gets the final `else`: a stock reply and a search for the raw input. */
  lemma RespondToBlank(input: string, env: Env)
    requires 0.0 <= env.draw < 1.0
    requires forall i | 0 <= i < |input| :: IsSpace(input[i])
    ensures Respond(input, env) == FallbackAnswer(input, env)
  {
    var l := ToLower(input);
    assert forall i | 0 <= i < |l| :: IsSpace(l[i]) by {
      forall i | 0 <= i < |l| ensures IsSpace(l[i]) {
        assert l[i] == LowerChar(input[i]);
      }
    }
    assert Normalize(input) == [];
    EmptyTextFallsThrough();
  }

  // ---------------------------------------------------------------------------
  // "Play Kesariya"
  // ---------------------------------------------------------------------------

  const PlayKesariya := "Play Kesariya"

  lemma NormalizePlayKesariya()
    ensures Normalize(PlayKesariya) == "play kesariya"
  {
    assert ToLower(PlayKesariya) == "play kesariya";
    TrimUnchanged("play kesariya");
  }

  lemma PlayKesariyaNotTimeOrDate()
    ensures !IsTimeQuery("play kesariya")
    ensures !ContainsAny("play kesariya", DatePhrases)
  {
    var t := "play kesariya";
    NotContainsAnyByPair(t, ["what's the time", "what is the time"], 'w', 'h');
    NotContainsByPair(t, "current time", 0);
    NotContainsByPair(t, "time now", 0);
    NotContainsByPair(t, "tell", 0);
    NotContainsAnyByPair(t, DatePhrases[..13], 'w', 'h');
    NotContainsByPair(t, "today", 0);
    assert DatePhrases == DatePhrases[..13] + ["today"];
  }

  lemma ClassifyPlayKesariya()
    ensures Classify("play kesariya") == PlayOnYoutube
  {
    var t := "play kesariya";
    PlayKesariyaNotTimeOrDate();
    assert StartsWith(t, "play ");
    assert Rules[0] == TellTime && Rules[1] == TellDate && Rules[2] == PlayOnYoutube;
    FirstMatchFromAt(Rules, t, 0, 2);
  }

  lemma KesariyaQuery()
    ensures YoutubeQuery("play kesariya") == "kesariya"
  {
    var q := "kesariya";
    NotContainsByPair(q, "on youtube", 0);
    NotContainsAnyByPair(q, [MediaCuts[0]], 's', 'o');
    NotContainsAnyByPair(q, [MediaCuts[1]], 'm', 'u');
    NotContainsAnyByPair(q, [MediaCuts[2]], 'v', 'i');
    assert MediaCuts == [MediaCuts[0]] + [MediaCuts[1]] + [MediaCuts[2]];
    assert "play " + q == "play kesariya";
    YoutubeQueryOfPlay(q);
  }

  /** "Play Kesariya" plays "kesariya" on YouTube, whatever the draw, clock or owner. */
  lemma RespondPlayKesariya(env: Env)
    requires 0.0 <= env.draw < 1.0
    ensures Respond(PlayKesariya, env).action.Some?
    ensures Respond(PlayKesariya, env).action.value.url == Some(YoutubeSearchUrl + env.encode("kesariya"))
  {
    NormalizePlayKesariya();
    ClassifyPlayKesariya();
    KesariyaQuery();
    RespondPlays(PlayKesariya, env);
  }

  // ---------------------------------------------------------------------------
  // "Open GitHub"
  // ---------------------------------------------------------------------------

  const OpenGitHubRequest := "Open GitHub"

  lemma NormalizeOpenGitHub()
    ensures Normalize(OpenGitHubRequest) == "open github"
  {
    assert ToLower(OpenGitHubRequest) == "open github";
    TrimUnchanged("open github");
  }

  lemma OpenGithubNotEarlier()
    ensures !IsTimeQuery("open github")
    ensures !ContainsAny("open github", DatePhrases)
    ensures !IsPlayRequest("open github")
    ensures !ContainsAny("open github", SearchWords)
    ensures !Contains("open github", "open youtube")
  {
    var t := "open github";
    NotContainsAnyByPair(t, ["what's the time", "what is the time"], 'w', 'h');
    NotContainsByPair(t, "current time", 0);
    NotContainsByPair(t, "time now", 0);
    NotContainsByPair(t, "tell", 0);
    NotContainsAnyByPair(t, DatePhrases[..13], 'w', 'h');
    NotContainsByPair(t, "today", 0);
    assert DatePhrases == DatePhrases[..13] + ["today"];
    NotContainsByPair(t, "play ", 0);
    assert t[0] != "play "[0];
    NotContainsByPair(t, "search", 0);
    NotContainsByPair(t, "google", 0);
    NotContainsByPair(t, "look up", 0);
    NotContainsAnyByPair(t, ["find me", "find "], 'f', 'i');
    assert SearchWords == ["search", "google", "look up"] + ["find me", "find "];
    NotContainsByPair(t, "open youtube", 4);
  }

  lemma ClassifyOpenGithub()
    ensures Classify("open github") == OpenGithub
  {
    var t := "open github";
    OpenGithubNotEarlier();
    assert OccursAt(t, "open github", 0);
    assert Rules[0] == TellTime && Rules[1] == TellDate && Rules[2] == PlayOnYoutube;
    assert Rules[3] == WebSearch && Rules[4] == OpenYoutube && Rules[5] == OpenGithub;
    FirstMatchFromAt(Rules, t, 0, 5);
  }

  /** "Open GitHub" opens github.com with its fixed reply, whatever the draw, clock or owner. */
  lemma RespondOpenGitHub(env: Env)
    requires 0.0 <= env.draw < 1.0
    ensures Respond(OpenGitHubRequest, env) ==
      Response(GithubLink.reply, Some(OpenUrl(GithubLink.url, GithubLink.caption)))
  {
    NormalizeOpenGitHub();
    ClassifyOpenGithub();
  }
}
