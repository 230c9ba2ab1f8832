/**
 * The reply dispatcher of the widget (`generateResponse` of
 * SanviiWidgetComponent) and its small pure helpers (`randomPick`,
 * `getTimeGreeting`). The user's text is lower-cased and trimmed, then a
 * fixed-priority chain of tests picks exactly one intent; the intent decides
 * the reply text and, for some intents, an `open_url` action.
 *
 * What the browser supplies is a parameter: the draw of `Math.random`, the
 * clock and calendar texts of `toLocaleTimeString`/`toLocaleDateString`,
 * `encodeURIComponent`, and the result of running the sanitized arithmetic
 * expression as code.
 */
module Responder {
  import opened Opt
  import opened JsText

  // ---------------------------------------------------------------------------
  // Data model
  // ---------------------------------------------------------------------------

  /** `{ type, url?, label? }` */
  datatype Action = Action(kind: string, url: Option<string>, labelText: Option<string>)

  /** What one call of the dispatcher produces: the `reply` and the `action` locals. */
  datatype Response = Response(reply: string, action: Option<Action>)

  /** What the dispatcher reads from its surroundings. */
  datatype Env = Env(
    ownerName: string,
    draw: real,                          // Math.random(), in [0, 1)
    clockText: string,                   // new Date().toLocaleTimeString(...)
    dateText: string,                    // new Date().toLocaleDateString(...)
    encode: string -> string,            // encodeURIComponent
    evaluate: string -> Option<string>)  // Function('"use strict"; return (' + e + ')')(), as text; None when it throws

  const OpenUrlKind := "open_url"

  function OpenUrl(url: string, caption: string): Action {
    Action(OpenUrlKind, Some(url), Some(caption))
  }

  /** One intent per branch of the dispatcher, in source order; `Fallback` is the final `else`. */
  datatype Intent =
    | TellTime | TellDate | PlayOnYoutube | WebSearch
    | OpenYoutube | OpenGithub | OpenGoogle | OpenX | OpenInstagram | OpenLinkedin
    | OpenChatgpt | OpenNetflix | OpenSpotify | OpenWhatsapp | OpenGmail | OpenReddit
    | OpenStackOverflow | Weather | News | About | Capabilities | Greeting | Thanks
    | HowAreYou | Joke | Calculate | Motivation | Goodbye | Compliment | Creator
    | Fallback

  /** The tested branches in the order the dispatcher tries them. */
  const Rules: seq<Intent> := [
    TellTime, TellDate, PlayOnYoutube, WebSearch,
    OpenYoutube, OpenGithub, OpenGoogle, OpenX, OpenInstagram, OpenLinkedin,
    OpenChatgpt, OpenNetflix, OpenSpotify, OpenWhatsapp, OpenGmail, OpenReddit,
    OpenStackOverflow, Weather, News, About, Capabilities, Greeting, Thanks,
    HowAreYou, Joke, Calculate, Motivation, Goodbye, Compliment, Creator
  ]

  // ---------------------------------------------------------------------------
  // The tests of the branches, one regular expression each, written out
  // ---------------------------------------------------------------------------

  /** `input.toLowerCase().trim()` */
  function Normalize(input: string): string {
    Trim(ToLower(input))
  }

  /** `/what('s| is) the time|current time|time now|tell.*time/` */
  predicate IsTimeQuery(t: string) {
    || ContainsAny(t, ["what's the time", "what is the time", "current time", "time now"])
    || FollowsInLine(t, "tell", ["time"])
  }

  /** `/what('s| is) (the |today'?s? )?date|what day|today/`, the optional group expanded. */
  const DatePhrases: seq<string> := [
    "what's date", "what's the date", "what's today date", "what's today' date",
    "what's todays date", "what's today's date",
    "what is date", "what is the date", "what is today date", "what is today' date",
    "what is todays date", "what is today's date",
    "what day", "today"
  ]

  const MediaWords: seq<string> := ["youtube", "song", "music", "video"]

  /** `/play .*(youtube|song|music|video)/i` or `/^play /` */
  predicate IsPlayRequest(t: string) {
    FollowsInLine(t, "play ", MediaWords) || StartsWith(t, "play ")
  }

  /** `/search|google|look up|find me|find /` */
  const SearchWords: seq<string> := ["search", "google", "look up", "find me", "find "]

  // The signs + - * / ( ) . % of the arithmetic character classes.
  predicate IsArithmeticSign(c: char) {
    c == '+' || c == '-' || c == '*' || c == '/' || c == '(' || c == ')' || c == '.' || c == '%'
  }

  // /^[\d\s+\-*/().%]+$/ : one or more digits, white space or arithmetic signs.
  predicate IsArithmeticText(t: string) {
    |t| > 0 && forall i | 0 <= i < |t| :: IsDigit(t[i]) || IsSpace(t[i]) || IsArithmeticSign(t[i])
  }

  /** `/what('s| is) \d/` */
  predicate AsksWhatIsNumber(t: string) {
    exists i | 0 <= i < |t| ::
      || (OccursAt(t, "what's ", i) && i + 7 < |t| && IsDigit(t[i + 7]))
      || (OccursAt(t, "what is ", i) && i + 8 < |t| && IsDigit(t[i + 8]))
  }

  /** `/^(hi|hello|hey|yo|sup|what'?s? up|good morning|good afternoon|good evening)/` */
  const GreetingOpeners: seq<string> := [
    "hi", "hello", "hey", "yo", "sup", "what up", "what' up", "whats up", "what's up",
    "good morning", "good afternoon", "good evening"
  ]

  /** `/i love you|you('re| are) (amazing|awesome|great|the best)/` */
  const ComplimentPhrases: seq<string> := [
    "i love you",
    "you're amazing", "you're awesome", "you're great", "you're the best",
    "you are amazing", "you are awesome", "you are great", "you are the best"
  ]

  /** Whether the test of branch `k` succeeds on the normalized text `t`. */
  predicate Matches(k: Intent, t: string) {
    match k
    case TellTime => IsTimeQuery(t)
    case TellDate => ContainsAny(t, DatePhrases)
    case PlayOnYoutube => IsPlayRequest(t)
    case WebSearch => ContainsAny(t, SearchWords)
    case OpenYoutube => Contains(t, "open youtube")
    case OpenGithub => Contains(t, "open github")
    case OpenGoogle => Contains(t, "open google")
    case OpenX => Contains(t, "open twitter") || ContainsWordEnd(t, "open x")
    case OpenInstagram => Contains(t, "open instagram")
    case OpenLinkedin => Contains(t, "open linkedin")
    case OpenChatgpt => ContainsAny(t, ["open chatgpt", "open chat gpt"])
    case OpenNetflix => Contains(t, "open netflix")
    case OpenSpotify => Contains(t, "open spotify")
    case OpenWhatsapp => Contains(t, "open whatsapp")
    case OpenGmail => ContainsAny(t, ["open gmail", "open email", "open mail"])
    case OpenReddit => Contains(t, "open reddit")
    case OpenStackOverflow => ContainsAny(t, ["open stackoverflow", "open stack overflow"])
    case Weather => Contains(t, "weather")
    case News => ContainsAny(t, ["news", "headlines", "what's happening", "what is happening"])
    case About => ContainsAny(t, ["who are you", "your name", "what are you", "introduce"])
    case Capabilities => ContainsAny(t, ["what can you do", "help", "capabilities", "features"])
    case Greeting => StartsWithAny(t, GreetingOpeners)
    case Thanks => ContainsAny(t, ["thanks", "thank you", "thx", "appreciate"])
    case HowAreYou => ContainsAny(t, ["how are you", "how're you doing", "how are you doing"])
    case Joke => ContainsAny(t, ["joke", "funny", "laugh", "humor"])
    case Calculate => IsArithmeticText(t) || Contains(t, "calculate") || AsksWhatIsNumber(t)
    case Motivation =>
      ContainsAny(t, ["motivat", "inspire", "encourage", "sad", "depressed", "feel down"])
    case Goodbye => ContainsAny(t, ["bye", "goodbye", "see you", "good night", "later", "cya"])
    case Compliment => ContainsAny(t, ComplimentPhrases)
    case Creator =>
      ContainsAny(t, ["who made you", "who created you", "who built you", "who designed you"])
    case Fallback => true
  }

  /**
   * The if / else-if chain over `rules` from rule `j` on: the first rule
   * whose test succeeds, `Fallback` when none does.
   */
  function FirstMatchFrom(rules: seq<Intent>, t: string, j: nat): Intent
    requires j <= |rules|
    decreases |rules| - j
  {
    if j == |rules| then Fallback
    else if Matches(rules[j], t) then rules[j]
    else FirstMatchFrom(rules, t, j + 1)
  }

  /** The branch the dispatcher takes on the normalized text `t`. */
  function Classify(t: string): Intent {
    FirstMatchFrom(Rules, t, 0)
  }

  /**
   * `k` is the branch of the chain over `rules` whose test succeeds first: a
   * rule whose test succeeds after every earlier rule's test failed, or
   * `Fallback` when every rule's test fails.
   */
  ghost predicate IsFirstMatchIn(rules: seq<Intent>, k: Intent, t: string) {
    if k == Fallback then
      forall i | 0 <= i < |rules| :: !Matches(rules[i], t)
    else
      exists j | 0 <= j < |rules| ::
        rules[j] == k && Matches(k, t) && forall i | 0 <= i < j :: !Matches(rules[i], t)
  }

  ghost predicate IsFirstMatch(k: Intent, t: string) {
    IsFirstMatchIn(Rules, k, t)
  }

  // ---------------------------------------------------------------------------
  // Query rewriting
  // ---------------------------------------------------------------------------

  /** `/song|music|video/gi`, the words cut out of a YouTube query. */
  const MediaCuts: seq<string> := ["song", "music", "video"]

  /**
   * The YouTube query: the first "play" and the first "on youtube" cut out,
   * every "song", "music" and "video" cut out, trimmed, "trending music" when
   * nothing is left.
   */
  function YoutubeQuery(t: string): string {
    var q := Trim(RemoveAll(RemoveFirst(RemoveFirst(t, "play"), "on youtube"), MediaCuts));
    if q == [] then "trending music" else q
  }

  /** `/search( for)?|google|look up|find me|find /gi`; the optional group is tried first. */
  const SearchTriggers: seq<string> := ["search for", "search", "google", "look up", "find me", "find "]

  /** The search query: every trigger cut out, trimmed, the raw input when nothing is left. */
  function SearchQuery(t: string, input: string): string {
    var q := Trim(RemoveAll(t, SearchTriggers));
    if q == [] then input else q
  }

  /** `(in|for|at|of)`, tried in this order. */
  const Connectives: seq<string> := ["in", "for", "at", "of"]

  /** What follows `\s*(in|for|at|of)?\s*`: the greedy first `\s*` leaves no space for the last one unless the group matched. */
  function SkipConnective(s: string): string {
    var a := s[LeadingSpaces(s)..];
    match PrefixIndex(a, Connectives)
    case Some(k) =>
      var b := a[|Connectives[k]|..];
      b[LeadingSpaces(b)..]
    case None => a
  }

  // t.replace(/.*weather\s*(in|for|at|of)?\s*/i, ''). The leftmost match
  // starts at the beginning of the line of the first "weather"; the greedy
  // `.*` runs to the last "weather" of that line.
  function StripWeatherPrefix(t: string): string {
    match IndexOf(t, "weather")
    case None => t
    case Some(f) =>
      var b := LineStart(t, f);
      var e := LineEnd(t, f);
      match LastIndexAtMost(t, "weather", e)
      case None => assert false; t
      case Some(w) => t[..b] + SkipConnective(t[w + 7..])
  }

  /** The weather location: the prefix stripped, trimmed, "my location" when nothing is left. */
  function WeatherCity(t: string): string {
    var c := Trim(StripWeatherPrefix(t));
    if c == [] then "my location" else c
  }

  /** `/calculate|what('s| is)/gi`, the words cut out of a calculation. */
  const CalcCuts: seq<string> := ["calculate", "what's", "what is"]

  /** The expression of the calculation branch: every word of `CalcCuts` cut out, trimmed. */
  function CalcExpression(t: string): string {
    Trim(RemoveAll(t, CalcCuts))
  }

  // The characters /[^0-9+\-*/().% ]/g keeps.
  predicate IsExprChar(c: char) {
    IsDigit(c) || IsArithmeticSign(c) || c == ' '
  }

  // e.replace(/x/g, '*').replace(/[^0-9+\-*/().% ]/g, '')
  function Sanitize(e: string): (r: string)
    ensures |r| <= |e|
    ensures forall i | 0 <= i < |r| :: IsExprChar(r[i])
  {
    if e == [] then []
    else
      var c := if e[0] == 'x' then '*' else e[0];
      (if IsExprChar(c) then [c] else []) + Sanitize(e[1..])
  }

  // ---------------------------------------------------------------------------
  // Random choice and the fixed reply lists
  // ---------------------------------------------------------------------------

  /** Scaling by a fraction in [0, 1) stays in [0, b). */
  lemma ScaleBelow(r: real, b: real)
    requires 0.0 <= r < 1.0 && b > 0.0
    ensures 0.0 <= r * b < b
  {
    assert b - r * b == (1.0 - r) * b;
  }

  /** `Math.floor(r * n)` for a draw `r` in [0, 1), in exact arithmetic. */
  function PickIndex(n: nat, r: real): (i: nat)
    requires n > 0 && 0.0 <= r < 1.0
    ensures i < n
    ensures i as real <= r * n as real < (i + 1) as real
  {
    var x := r * n as real;
    ScaleBelow(r, n as real);
    assert x.Floor as real <= x < n as real;
    x.Floor
  }

  /** `randomPick`: the option at index `Math.floor(r * options.length)`. */
  function RandomPick(options: seq<string>, r: real): (s: string)
    requires |options| > 0 && 0.0 <= r < 1.0
    ensures s in options
  {
    options[PickIndex(|options|, r)]
  }

  /** A reply that names the owner: the text before the name and the text after it. */
  datatype Addressed = Addressed(before: string, after: string)

  function Address(a: Addressed, owner: string): string {
    a.before + owner + a.after
  }

  /** Every reply in a list of replies is a nonempty text. */
  predicate NonEmptyReplies(rs: seq<string>) {
    forall i | 0 <= i < |rs| :: |rs[i]| > 0
  }

  const HeyWhatsUp := Addressed("Hey ", "! What's up? \U{1F60A}")
  const HelloHowCanIHelp := Addressed("Hello ", "! How can I help? \U{1F31F}")
  const HeyThere := "Hey there! Ready when you are! \U{26A1}"
  const HiWhatDoYouNeed := Addressed("Hi ", "! What do you need? \U{1F4AA}")
  const YoAtYourService := "Yo! Sanvii at your service! \U{1F7E3}"

  function GreetingReplies(owner: string): (rs: seq<string>)
    ensures |rs| == 5 && NonEmptyReplies(rs)
  {
    [ Address(HeyWhatsUp, owner), Address(HelloHowCanIHelp, owner), HeyThere,
      Address(HiWhatDoYouNeed, owner), YoAtYourService ]
  }

  const YoureWelcome := Addressed("You're welcome, ", "! \U{1F60A}")
  const Anytime := "Anytime! That's what I'm here for! \U{1F31F}"
  const HappyToHelp := "Happy to help! Need anything else? \U{26A1}"
  const MyPleasure := "My pleasure! \U{1F49C}"

  function ThanksReplies(owner: string): (rs: seq<string>)
    ensures |rs| == 4 && NonEmptyReplies(rs)
  {
    [ Address(YoureWelcome, owner), Anytime, HappyToHelp, MyPleasure ]
  }

  const Jokes: seq<string> := [
    "Why do programmers prefer dark mode? Light attracts bugs! \U{1F41B}\U{1F604}",
    "Why was the JavaScript developer sad? He didn't Node how to Express himself! \U{1F602}",
    "What's a programmer's favorite place? Foo Bar! \U{1F37A}",
    "Why do Java devs wear glasses? They don't C#! \U{1F453}\U{1F602}",
    "There are 10 kinds of people: those who understand binary and those who don't! \U{1F913}",
    "A SQL query walks into a bar, sees two tables, asks 'Can I JOIN you?' \U{1F604}",
    "Why did the developer go broke? Used up all his cache! \U{1F4B8}",
    "!false \U{2014} it's funny because it's true! \U{1F602}"
  ]

  const JobsQuote := "\"The only way to do great work is to love what you do.\" \U{2014} Steve Jobs \U{1F4AA}"
  const StayHungry := "\"Stay hungry, stay foolish.\" \U{2B50}"
  const KeepGoing := Addressed("", ", you're building something amazing. Keep going! \U{1F4BB}\U{1F525}")
  const DreamsQuote := "\"The future belongs to those who believe in their dreams.\" \U{1F31F}"
  const DontStopNow := Addressed("Don't stop now, ", ". You're closer than you think! \U{1F49C}")

  function MotivationReplies(owner: string): (rs: seq<string>)
    ensures |rs| == 5 && NonEmptyReplies(rs)
  {
    [ JobsQuote, StayHungry, Address(KeepGoing, owner), DreamsQuote, Address(DontStopNow, owner) ]
  }

  const InterestingQuestion := "Interesting question! Let me find that for you. \U{1F50D}"
  const GreatQuestion := Addressed("Great question, ", "! Searching now. \U{1F50D}")
  const ImOnIt := "I'm on it! Let me look that up. \U{1F50D}"

  function FallbackReplies(owner: string): (rs: seq<string>)
    ensures |rs| == 3 && NonEmptyReplies(rs)
  {
    [ InterestingQuestion, Address(GreatQuestion, owner), ImOnIt ]
  }

  const CalcFailureReply :=
    "Couldn't calculate that. Try something like \"calculate 45 * 23\" \U{1F914}"

  const CapabilitiesReply :=
    "Here's what I can do:\n\U{1F3B5} Play songs on YouTube\n\U{1F50D} Search Google\n"
    + "\U{1F310} Open websites\n\U{1F4F0} Show news\n\U{23F0} Tell time & date\n"
    + "\U{1F324}\U{FE0F} Check weather\n\U{1F9EE} Calculate\n\U{1F602} Tell jokes\n"
    + "\U{1F4AA} Motivate you\n\U{1F4AC} Chat with you!\n\n"
    + "Try: \"Play Kesariya\" or \"Open GitHub\""

  const AboutReply := Addressed(
    "I'm Sanvii \U{2014} your personal AI assistant, ",
    "! I can play music, search the web, open apps, tell jokes, do math, and keep you company. Always here for you! \U{1F7E3}")
  const HowAreYouReply := Addressed("All systems running perfectly, ", "! How about you? \U{26A1}")
  const GoodbyeReply := Addressed("See you later, ", "! I'll be right here! \U{1F44B}\U{1F7E3}")
  const ComplimentReply := Addressed("Aww, that means a lot, ", "! You're amazing too! \U{1F49C}\U{2728}")
  const CreatorReply := Addressed("I was created by ", "! The most brilliant developer I know. \U{1F49C}")

  const YoutubeSearchUrl := "https://www.youtube.com/results?search_query="
  const GoogleSearchUrl := "https://www.google.com/search?q="

  const MorningGreeting := Addressed("Good morning, ", "! Ready to crush it today? \U{1F4AA}")
  const AfternoonGreeting := Addressed("Good afternoon, ", "! How can I help? \U{1F31F}")
  const EveningGreeting := Addressed("Good evening, ", "! Need anything? \U{2728}")
  const NightGreeting := Addressed("Burning the midnight oil, ", "? I'm here! \U{1F319}")

  /** `getTimeGreeting`, for the hour `h` of `new Date().getHours()`. */
  function TimeGreeting(owner: string, h: int): string {
    if h < 12 then Address(MorningGreeting, owner)
    else if h < 17 then Address(AfternoonGreeting, owner)
    else if h < 21 then Address(EveningGreeting, owner)
    else Address(NightGreeting, owner)
  }

  // ---------------------------------------------------------------------------
  // The dispatcher
  // ---------------------------------------------------------------------------

  /** The intents whose branch assigns an action. */
  predicate OpensUrl(k: Intent) {
    !(|| k.TellTime? || k.TellDate? || k.About? || k.Capabilities? || k.Greeting?
      || k.Thanks? || k.HowAreYou? || k.Joke? || k.Calculate? || k.Motivation?
      || k.Goodbye? || k.Compliment? || k.Creator?)
  }

  /** The reply and action of `generateResponse(input)`. */
  function Respond(input: string, env: Env): (r: Response)
    requires 0.0 <= env.draw < 1.0
    ensures |r.reply| > 0
    ensures r.action.Some? <==> OpensUrl(Classify(Normalize(input)))
    ensures r.action.Some? ==> IsUrlAction(r.action.value)
  {
    var t := Normalize(input);
    Answer(Classify(t), t, input, env)
  }

  /** The intents whose branch opens a fixed site with a fixed reply. */
  predicate IsSiteIntent(k: Intent) {
    || k.OpenYoutube? || k.OpenGithub? || k.OpenGoogle? || k.OpenX? || k.OpenInstagram?
    || k.OpenLinkedin? || k.OpenChatgpt? || k.OpenNetflix? || k.OpenSpotify?
    || k.OpenWhatsapp? || k.OpenGmail? || k.OpenReddit? || k.OpenStackOverflow? || k.News?
  }

  /** The fixed reply, URL and label of a site branch. */
  datatype Link = Link(reply: string, url: string, caption: string)

  const YoutubeLink := Link("Opening YouTube! \U{1F4FA}", "https://www.youtube.com", "\U{1F4FA} YouTube")
  const GithubLink := Link("Opening GitHub! Let's code! \U{1F4BB}", "https://github.com", "\U{1F4BB} GitHub")
  const GoogleLink := Link("Opening Google! \U{1F310}", "https://www.google.com", "\U{1F310} Google")
  const XLink := Link("Opening X! \U{1F426}", "https://x.com", "\U{1F426} X")
  const InstagramLink := Link("Opening Instagram! \U{1F4F8}", "https://www.instagram.com", "\U{1F4F8} Instagram")
  const LinkedinLink := Link("Opening LinkedIn! \U{1F4BC}", "https://www.linkedin.com", "\U{1F4BC} LinkedIn")
  const ChatgptLink := Link("Opening ChatGPT! \U{1F916}", "https://chat.openai.com", "\U{1F916} ChatGPT")
  const NetflixLink := Link("Movie time! \U{1F37F}", "https://www.netflix.com", "\U{1F37F} Netflix")
  const SpotifyLink := Link("Let's vibe! \U{1F3A7}", "https://open.spotify.com", "\U{1F3A7} Spotify")
  const WhatsappLink := Link("Opening WhatsApp! \U{1F4AC}", "https://web.whatsapp.com", "\U{1F4AC} WhatsApp")
  const GmailLink := Link("Opening Gmail! \U{1F4E7}", "https://mail.google.com", "\U{1F4E7} Gmail")
  const RedditLink := Link("Opening Reddit! \U{1F4F1}", "https://www.reddit.com", "\U{1F4F1} Reddit")
  const StackOverflowLink :=
    Link("Opening StackOverflow! \U{1F9D1}\U{200D}\U{1F4BB}", "https://stackoverflow.com",
         "\U{1F9D1}\U{200D}\U{1F4BB} StackOverflow")
  const NewsLink := Link("Here are the latest headlines! \U{1F4F0}", "https://news.google.com", "\U{1F4F0} Google News")

  function SiteLink(k: Intent): (l: Link)
    requires IsSiteIntent(k)
    ensures |l.reply| > 0 && |l.url| > 0
  {
    if k.OpenYoutube? then YoutubeLink
    else if k.OpenGithub? then GithubLink
    else if k.OpenGoogle? then GoogleLink
    else if k.OpenX? then XLink
    else if k.OpenInstagram? then InstagramLink
    else if k.OpenLinkedin? then LinkedinLink
    else if k.OpenChatgpt? then ChatgptLink
    else if k.OpenNetflix? then NetflixLink
    else if k.OpenSpotify? then SpotifyLink
    else if k.OpenWhatsapp? then WhatsappLink
    else if k.OpenGmail? then GmailLink
    else if k.OpenReddit? then RedditLink
    else if k.OpenStackOverflow? then StackOverflowLink
    else NewsLink
  }

  /** The reply of a branch that assigns no action. */
  function ChatReply(k: Intent, t: string, env: Env): (s: string)
    requires !OpensUrl(k) && 0.0 <= env.draw < 1.0
    ensures |s| > 0
  {
    var owner := env.ownerName;
    if k.TellTime? then "It's " + env.clockText + ", " + owner + ". \U{23F0}"
    else if k.TellDate? then "Today is " + env.dateText + ". \U{1F4C5}"
    else if k.About? then Address(AboutReply, owner)
    else if k.Capabilities? then CapabilitiesReply
    else if k.Greeting? then RandomPick(GreetingReplies(owner), env.draw)
    else if k.Thanks? then RandomPick(ThanksReplies(owner), env.draw)
    else if k.HowAreYou? then Address(HowAreYouReply, owner)
    else if k.Joke? then RandomPick(Jokes, env.draw)
    else if k.Calculate? then CalcReply(CalcExpression(t), env.evaluate)
    else if k.Motivation? then RandomPick(MotivationReplies(owner), env.draw)
    else if k.Goodbye? then Address(GoodbyeReply, owner)
    else if k.Compliment? then Address(ComplimentReply, owner)
    else Address(CreatorReply, owner)
  }

  /** The `try`/`catch` of the calculation branch around the evaluation of the sanitized expression. */
  function CalcReply(e: string, evaluate: string -> Option<string>): (s: string)
    ensures |s| > 0
  {
    match evaluate(Sanitize(e))
    case Some(v) => e + " = " + v + " \U{1F9EE}"
    case None => CalcFailureReply
  }

  /** An `open_url` action with a nonempty URL and a label, as every URL branch builds it. */
  predicate IsUrlAction(a: Action) {
    a.kind == OpenUrlKind && a.url.Some? && |a.url.value| > 0 && a.labelText.Some?
  }

  /** The reply and action of a site branch. */
  function SiteAnswer(l: Link): (r: Response)
    requires |l.reply| > 0 && |l.url| > 0
    ensures |r.reply| > 0 && r.action.Some? && IsUrlAction(r.action.value)
  {
    Response(l.reply, Some(OpenUrl(l.url, l.caption)))
  }

  /** The YouTube branch: play the query `q`. */
  function PlayAnswer(q: string, env: Env): (r: Response)
    ensures |r.reply| > 0 && r.action.Some? && IsUrlAction(r.action.value)
  {
    Response("Playing \"" + q + "\" on YouTube, " + env.ownerName + "! \U{1F3B5}",
             Some(OpenUrl(YoutubeSearchUrl + env.encode(q), "\U{25B6} Play \"" + q + "\"")))
  }

  /** The search branch: search Google for `q`. */
  function SearchAnswer(q: string, env: Env): (r: Response)
    ensures |r.reply| > 0 && r.action.Some? && IsUrlAction(r.action.value)
  {
    Response("Searching for \"" + q + "\", " + env.ownerName + "! \U{1F50D}",
             Some(OpenUrl(GoogleSearchUrl + env.encode(q), "\U{1F50D} Search \"" + q + "\"")))
  }

  /** The weather branch: search Google for the weather at `city`. */
  function WeatherAnswer(city: string, env: Env): (r: Response)
    ensures |r.reply| > 0 && r.action.Some? && IsUrlAction(r.action.value)
  {
    Response("Checking weather for " + city + "! \U{1F324}\U{FE0F}",
             Some(OpenUrl(GoogleSearchUrl + "weather+" + env.encode(city), "\U{1F324}\U{FE0F} Weather: " + city)))
  }

  /** The final `else`: a stock reply and a Google search for the raw input. */
  function FallbackAnswer(input: string, env: Env): (r: Response)
    requires 0.0 <= env.draw < 1.0
    ensures |r.reply| > 0 && r.action.Some? && IsUrlAction(r.action.value)
  {
    Response(RandomPick(FallbackReplies(env.ownerName), env.draw),
             Some(OpenUrl(GoogleSearchUrl + env.encode(input), "\U{1F50D} Search \"" + input + "\"")))
  }

  /** The body of a branch that assigns an action. */
  function UrlAnswer(k: Intent, t: string, input: string, env: Env): (r: Response)
    requires OpensUrl(k) && 0.0 <= env.draw < 1.0
    ensures |r.reply| > 0 && r.action.Some? && IsUrlAction(r.action.value)
  {
    if IsSiteIntent(k) then SiteAnswer(SiteLink(k))
    else if k.PlayOnYoutube? then PlayAnswer(YoutubeQuery(t), env)
    else if k.WebSearch? then SearchAnswer(SearchQuery(t, input), env)
    else if k.Weather? then WeatherAnswer(WeatherCity(t), env)
    else FallbackAnswer(input, env)
  }

  /** The body of the branch for intent `k`, on the normalized text `t` of `input`. */
  function Answer(k: Intent, t: string, input: string, env: Env): (r: Response)
    requires 0.0 <= env.draw < 1.0
    ensures |r.reply| > 0
    ensures r.action.Some? <==> OpensUrl(k)
    ensures r.action.Some? ==> IsUrlAction(r.action.value)
  {
    if OpensUrl(k) then UrlAnswer(k, t, input, env)
    else Response(ChatReply(k, t, env), None)
  }

  /** `executeAction`: the URL handed to `window.open`, when there is one. */
  function UrlToOpen(a: Action): (u: Option<string>)
    ensures u.Some? <==> a.kind == OpenUrlKind && a.url.Some? && a.url.value != ""
    ensures u.Some? ==> u == a.url
  {
    if a.kind == OpenUrlKind && a.url.Some? && a.url.value != "" then a.url else None
  }
}
