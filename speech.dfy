/**
 * The two pure steps around the browser's speech synthesis: the choice of a
 * voice among the installed ones (`loadVoices`), and the text handed to the
 * synthesizer (the cleaning at the start of `speak`).
 */
module Speech {
  import opened Opt
  import opened JsText

  // ---------------------------------------------------------------------------
  // Voice choice
  // ---------------------------------------------------------------------------

  /** The two fields of a `SpeechSynthesisVoice` the choice looks at. */
  datatype Voice = Voice(name: string, lang: string)

  /** The test of the `k`-th `find` of the chain, for `k` from 1 to 5. */
  predicate PassesTier(k: nat, v: Voice) {
    if k == 1 then Contains(v.name, "Google US English")
    else if k == 2 then Contains(v.name, "Microsoft Zira")
    else if k == 3 then Contains(v.name, "Samantha")
    else if k == 4 then Contains(ToLower(v.name), "female") && StartsWith(v.lang, "en")
    else if k == 5 then StartsWith(v.lang, "en")
    else false
  }

  /** How much the widget likes a voice: the first test it passes, 6 when it passes none. */
  function Tier(v: Voice): (k: nat)
    ensures 1 <= k <= 6
    ensures k <= 5 ==> PassesTier(k, v)
    ensures forall j | 1 <= j < k :: !PassesTier(j, v)
  {
    if PassesTier(1, v) then 1
    else if PassesTier(2, v) then 2
    else if PassesTier(3, v) then 3
    else if PassesTier(4, v) then 4
    else if PassesTier(5, v) then 5
    else 6
  }

  /** `voices.find(test k)`, as an index: the first voice from `j` on that passes the test. */
  function FindFrom(voices: seq<Voice>, k: nat, j: nat): (r: Option<nat>)
    requires j <= |voices|
    ensures r.Some? ==> j <= r.value < |voices| && PassesTier(k, voices[r.value])
    ensures forall i | j <= i < |voices| && (r.None? || i < r.value) :: !PassesTier(k, voices[i])
    decreases |voices| - j
  {
    if j == |voices| then None
    else if PassesTier(k, voices[j]) then Some(j)
    else FindFrom(voices, k, j + 1)
  }

  /** The index of the voice `loadVoices` selects: the five `find`s in turn, then `voices[0]`, then `null`. */
  function SelectIndex(voices: seq<Voice>): (r: Option<nat>)
    ensures r.Some? ==> r.value < |voices|
    ensures r.None? <==> voices == []
  {
    var f1 := FindFrom(voices, 1, 0);
    if f1.Some? then f1 else
    var f2 := FindFrom(voices, 2, 0);
    if f2.Some? then f2 else
    var f3 := FindFrom(voices, 3, 0);
    if f3.Some? then f3 else
    var f4 := FindFrom(voices, 4, 0);
    if f4.Some? then f4 else
    var f5 := FindFrom(voices, 5, 0);
    if f5.Some? then f5 else
    if voices != [] then Some(0) else None
  }

  /** `loadVoices`: the selected voice, `None` for `null`. */
  function SelectVoice(voices: seq<Voice>): (r: Option<Voice>)
    ensures r.None? <==> voices == []
    ensures r.Some? ==> r.value in voices
  {
    match SelectIndex(voices)
    case None => None
    case Some(i) => Some(voices[i])
  }

  /**
   * `i` is the best voice: no voice has a better tier, and every voice before
   * it has a worse one.
   */
  ghost predicate IsBestVoice(voices: seq<Voice>, i: nat) {
    && i < |voices|
    && (forall j | 0 <= j < |voices| :: Tier(voices[i]) <= Tier(voices[j]))
    && (forall j | 0 <= j < i :: Tier(voices[i]) < Tier(voices[j]))
  }

  /** When no voice passes a test below `k`, a voice found by test `k` is the best one. */
  lemma FoundIsBest(voices: seq<Voice>, k: nat, i: nat)
    requires 1 <= k <= 5
    requires FindFrom(voices, k, 0) == Some(i)
    requires forall j, m | 0 <= j < |voices| && 1 <= m < k :: !PassesTier(m, voices[j])
    ensures IsBestVoice(voices, i)
  {
    assert Tier(voices[i]) == k;
    forall j | 0 <= j < |voices| ensures k <= Tier(voices[j]) {
      assert forall m | 1 <= m < k :: !PassesTier(m, voices[j]);
    }
    forall j | 0 <= j < i ensures k < Tier(voices[j]) {
      assert !PassesTier(k, voices[j]);
    }
  }

  /** A test whose `find` failed is passed by no voice. */
  lemma FindNone(voices: seq<Voice>, k: nat)
    requires FindFrom(voices, k, 0).None?
    ensures forall j | 0 <= j < |voices| :: !PassesTier(k, voices[j])
  {
  }

  /** The chain of `find`s selects the earliest voice of the best tier. */
  lemma SelectIndexIsBest(voices: seq<Voice>)
    requires voices != []
    ensures SelectIndex(voices).Some? && IsBestVoice(voices, SelectIndex(voices).value)
  {
    var i := SelectIndex(voices).value;
    if FindFrom(voices, 1, 0).Some? {
      FoundIsBest(voices, 1, i);
    } else if FindFrom(voices, 2, 0).Some? {
      FoundIsBest(voices, 2, i);
    } else if FindFrom(voices, 3, 0).Some? {
      FoundIsBest(voices, 3, i);
    } else if FindFrom(voices, 4, 0).Some? {
      FoundIsBest(voices, 4, i);
    } else if FindFrom(voices, 5, 0).Some? {
      FoundIsBest(voices, 5, i);
    } else {
      assert i == 0;
      forall j | 0 <= j < |voices| ensures Tier(voices[j]) == 6 {
        assert !PassesTier(1, voices[j]) && !PassesTier(2, voices[j]) && !PassesTier(3, voices[j]);
        assert !PassesTier(4, voices[j]) && !PassesTier(5, voices[j]);
      }
    }
  }

  /** There is only one best voice. */
  lemma BestVoiceUnique(voices: seq<Voice>, i: nat, j: nat)
    requires IsBestVoice(voices, i) && IsBestVoice(voices, j)
    ensures i == j
  {
    var ti, tj := Tier(voices[i]), Tier(voices[j]);
    assert i < j ==> tj < ti;
    assert j < i ==> ti < tj;
  }

  /** The selected index is the best voice, and the best voice is the selected one. */
  lemma SelectIndexIff(voices: seq<Voice>, i: nat)
    ensures SelectIndex(voices) == Some(i) <==> IsBestVoice(voices, i)
  {
    if voices != [] {
      SelectIndexIsBest(voices);
      if IsBestVoice(voices, i) {
        BestVoiceUnique(voices, i, SelectIndex(voices).value);
      }
    }
  }

  // ---------------------------------------------------------------------------
  // The text handed to the synthesizer
  // ---------------------------------------------------------------------------

  /** The code points of the character class the first `replace` of `speak` removes. */
  predicate IsEmoji(c: char) {
    || ('\U{1F600}' <= c <= '\U{1F64F}') || ('\U{1F300}' <= c <= '\U{1F5FF}')
    || ('\U{1F680}' <= c <= '\U{1F6FF}') || ('\U{1F1E0}' <= c <= '\U{1F1FF}')
    || ('\U{2702}' <= c <= '\U{27B0}') || ('\U{24C2}' <= c <= '\U{1F251}')
    || ('\U{1F900}' <= c <= '\U{1F9FF}') || ('\U{1FA00}' <= c <= '\U{1FA6F}')
    || ('\U{1FA70}' <= c <= '\U{1FAFF}') || ('\U{2600}' <= c <= '\U{26FF}')
    || ('\U{2700}' <= c <= '\U{27BF}')
  }

  /** The first `replace`: every character of the class cut out. */
  function RemoveEmoji(s: string): (r: string)
    ensures |r| <= |s|
    ensures forall i | 0 <= i < |r| :: !IsEmoji(r[i])
  {
    if s == [] then []
    else (if IsEmoji(s[0]) then [] else [s[0]]) + RemoveEmoji(s[1..])
  }

  /** The second `replace`: every line feed becomes ". ". */
  function ExpandNewlines(s: string): (r: string)
    ensures |r| >= |s|
    ensures forall i | 0 <= i < |r| :: r[i] != '\n'
  {
    if s == [] then []
    else (if s[0] == '\n' then ". " else [s[0]]) + ExpandNewlines(s[1..])
  }

  /** The text `speak` hands to the synthesizer; an empty one is not spoken. */
  function CleanForSpeech(text: string): string {
    Trim(ExpandNewlines(RemoveEmoji(text)))
  }

  /** No character of the class and no line feed reaches the synthesizer, and the text does not start or end in white space. */
  lemma CleanForSpeechSafe(text: string)
    ensures var c := CleanForSpeech(text);
      && (forall i | 0 <= i < |c| :: !IsEmoji(c[i]) && c[i] != '\n')
      && (c != [] ==> !IsSpace(c[0]) && !IsSpace(c[|c| - 1]))
  {
    var e := ExpandNewlines(RemoveEmoji(text));
    var c := Trim(e);
    forall i | 0 <= i < |c| ensures !IsEmoji(c[i]) && c[i] != '\n' {
      ExpandKeepsNonEmoji(RemoveEmoji(text), LeadingSpaces(e) + i);
    }
  }

  /** A character of the expansion is one of the input's or one of ". ". */
  lemma {:induction false} ExpandKeepsNonEmoji(s: string, i: nat)
    requires forall k | 0 <= k < |s| :: !IsEmoji(s[k])
    requires i < |ExpandNewlines(s)|
    ensures !IsEmoji(ExpandNewlines(s)[i])
  {
    var head := if s[0] == '\n' then ". " else [s[0]];
    assert ExpandNewlines(s) == head + ExpandNewlines(s[1..]);
    if i >= |head| {
      ExpandKeepsNonEmoji(s[1..], i - |head|);
    }
  }

  /** A text without characters of the class passes the first `replace` unchanged. */
  lemma {:induction false} RemoveEmojiKeeps(s: string)
    requires forall k | 0 <= k < |s| :: !IsEmoji(s[k])
    ensures RemoveEmoji(s) == s
  {
    if s != [] {
      RemoveEmojiKeeps(s[1..]);
      assert s == [s[0]] + s[1..];
    }
  }

  /** A text without line feeds passes the second `replace` unchanged. */
  lemma {:induction false} ExpandNewlinesKeeps(s: string)
    requires forall k | 0 <= k < |s| :: s[k] != '\n'
    ensures ExpandNewlines(s) == s
  {
    if s != [] {
      ExpandNewlinesKeeps(s[1..]);
      assert s == [s[0]] + s[1..];
    }
  }

  /** The first `replace` works character by character: a character of the class goes, any other stays. */
  lemma RemoveEmojiOne(c: char)
    ensures RemoveEmoji([c]) == if IsEmoji(c) then [] else [c]
  {
  }

  /** The first `replace` keeps the order of what it keeps: it distributes over concatenation. */
  lemma {:induction false} RemoveEmojiAppend(a: string, b: string)
    ensures RemoveEmoji(a + b) == RemoveEmoji(a) + RemoveEmoji(b)
  {
    if a == [] {
      assert a + b == b;
    } else {
      assert (a + b)[0] == a[0];
      assert (a + b)[1..] == a[1..] + b;
      RemoveEmojiAppend(a[1..], b);
    }
  }

  /** The second `replace` works character by character: a line feed becomes ". ", any other character stays. */
  lemma ExpandNewlinesOne(c: char)
    ensures ExpandNewlines([c]) == if c == '\n' then ". " else [c]
  {
  }

  /** The second `replace` keeps the order of the text: it distributes over concatenation. */
  lemma {:induction false} ExpandNewlinesAppend(a: string, b: string)
    ensures ExpandNewlines(a + b) == ExpandNewlines(a) + ExpandNewlines(b)
  {
    if a == [] {
      assert a + b == b;
    } else {
      assert (a + b)[0] == a[0];
      assert (a + b)[1..] == a[1..] + b;
      ExpandNewlinesAppend(a[1..], b);
    }
  }

  /**
   * A reply that ends in one character of the class, and has none elsewhere
   * and no line feed, is spoken without it: only the text before it, trimmed.
   */
  lemma CleanDropsTrailingEmoji(s: string, e: char)
    requires forall k | 0 <= k < |s| :: !IsEmoji(s[k]) && s[k] != '\n'
    requires IsEmoji(e)
    ensures CleanForSpeech(s + [e]) == Trim(s)
  {
    RemoveEmojiAppend(s, [e]);
    RemoveEmojiKeeps(s);
    RemoveEmojiOne(e);
    assert RemoveEmoji(s + [e]) == s;
    ExpandNewlinesKeeps(s);
  }

  /** Cleaning a cleaned text changes nothing. */
  lemma CleanForSpeechIdempotent(text: string)
    ensures CleanForSpeech(CleanForSpeech(text)) == CleanForSpeech(text)
  {
    var c := CleanForSpeech(text);
    CleanForSpeechSafe(text);
    RemoveEmojiKeeps(c);
    ExpandNewlinesKeeps(c);
    TrimUnchanged(c);
  }

  /** A text made only of characters of the class is removed entirely by the first `replace`. */
  lemma {:induction false} RemoveEmojiOfEmoji(s: string)
    requires forall k | 0 <= k < |s| :: IsEmoji(s[k])
    ensures RemoveEmoji(s) == []
  {
    if s != [] {
      RemoveEmojiOfEmoji(s[1..]);
    }
  }

  /**
   * The range U+24C2 to U+1F251 of the class also covers the CJK unified
   * ideographs, so an owner name written in them is not spoken.
   */
  lemma {:induction false} RemoveEmojiDropsCjk(name: string)
    requires forall k | 0 <= k < |name| :: '\U{4E00}' <= name[k] <= '\U{9FFF}'
    ensures RemoveEmoji(name) == []
  {
    if name != [] {
      RemoveEmojiDropsCjk(name[1..]);
    }
  }
}
