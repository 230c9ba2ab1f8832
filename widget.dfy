/**
 * The state of SanviiWidgetComponent and the methods that change it: the
 * chat log, the typed input and the open/listening/thinking/speaking/muted
 * flags. The timers of the component are the caller's business: the host
 * calls `GenerateResponse` once the delay after `HandleUserMessage` is over,
 * and `Greet` once the delay after start-up is over.
 */
module Widget {
  import opened Opt
  import opened JsText
  import opened Responder
  import opened Speech

  datatype Sender = User | Ai

  /** One entry of `messages`: who wrote it, the text, the clock time it was added, and an optional action. */
  datatype Message = Message(sender: Sender, text: string, time: string, action: Option<Action>)

  /** What the log may hold: user messages carry no action, and the widget's own messages are nonempty, with URL actions only. */
  predicate WellFormed(m: Message) {
    && (m.sender.User? ==> m.action.None?)
    && (m.sender.Ai? ==> |m.text| > 0 && (m.action.Some? ==> IsUrlAction(m.action.value)))
  }

  const ChatCleared := Addressed("Chat cleared! How can I help, ", "?")

  /** `speak`'s outcome: nothing when muted, otherwise the cleaned text, unless it is empty. */
  function Utterance(muted: bool, text: string): (u: Option<string>)
    ensures u.None? <==> muted || CleanForSpeech(text) == []
    ensures u.Some? ==> u.value == CleanForSpeech(text) && u.value != []
  {
    if muted || CleanForSpeech(text) == [] then None else Some(CleanForSpeech(text))
  }

  class SanviiWidget {
    var isOpen: bool
    var isListening: bool
    var isThinking: bool
    var isSpeaking: bool
    var isMuted: bool
    var typedInput: string
    var messages: seq<Message>
    var selectedVoice: Option<Voice>
    var ownerName: string
    /** Whether the browser offers speech recognition (`recognition` is set). */
    const hasRecognition: bool

    /** Every message in the log is well formed. */
    ghost predicate Valid()
      reads this
    {
      forall i | 0 <= i < |messages| :: WellFormed(messages[i])
    }

    /** The five flags, to say in one place that a method leaves them alone. */
    function Flags(): (bool, bool, bool, bool, bool)
      reads this
    {
      (isOpen, isListening, isThinking, isSpeaking, isMuted)
    }

    constructor (hasRecognition: bool)
      ensures !isOpen && !isListening && !isThinking && !isSpeaking && !isMuted
      ensures typedInput == "" && messages == [] && selectedVoice.None? && ownerName == "Boss"
      ensures this.hasRecognition == hasRecognition
      ensures Valid()
    {
      isOpen, isListening, isThinking, isSpeaking, isMuted := false, false, false, false, false;
      typedInput := "";
      messages := [];
      selectedVoice := None;
      ownerName := "Boss";
      this.hasRecognition := hasRecognition;
    }

    /** `addMessage`: one record pushed onto the log, stamped with the clock text `time`. */
    method AddMessage(sender: Sender, text: string, time: string, action: Option<Action>)
      modifies this
      ensures messages == old(messages) + [Message(sender, text, time, action)]
      ensures Flags() == old(Flags()) && typedInput == old(typedInput)
      ensures selectedVoice == old(selectedVoice) && ownerName == old(ownerName)
      ensures Valid() <==> old(Valid()) && WellFormed(Message(sender, text, time, action))
    {
      messages := messages + [Message(sender, text, time, action)];
      assert forall i | 0 <= i < |old(messages)| :: messages[i] == old(messages)[i];
      assert messages[|old(messages)|] == Message(sender, text, time, action);
    }

    /** `loadVoices`, over the voices the browser reports. */
    method LoadVoices(voices: seq<Voice>)
      modifies this
      ensures selectedVoice == SelectVoice(voices)
      ensures Flags() == old(Flags()) && typedInput == old(typedInput)
      ensures messages == old(messages) && ownerName == old(ownerName)
    {
      selectedVoice := SelectVoice(voices);
    }

    /**
     * `speak`: nothing when muted; otherwise a voice is chosen if none is,
     * and the cleaned text, if any is left, goes to the synthesizer.
     */
    method Speak(text: string, voices: seq<Voice>) returns (spoken: Option<string>)
      modifies this
      ensures spoken == Utterance(old(isMuted), text)
      ensures selectedVoice ==
        if old(isMuted) || old(selectedVoice).Some? then old(selectedVoice) else SelectVoice(voices)
      ensures Flags() == old(Flags()) && typedInput == old(typedInput)
      ensures messages == old(messages) && ownerName == old(ownerName)
    {
      if isMuted {
        return None;
      }
      if selectedVoice.None? {
        LoadVoices(voices);
      }
      var clean := CleanForSpeech(text);
      if clean == [] {
        return None;
      }
      spoken := Some(clean);
    }

    /** `handleUserMessage`: the user's text is logged, the input box emptied, and the widget starts thinking. */
    method HandleUserMessage(text: string, time: string)
      requires Valid()
      modifies this
      ensures messages == old(messages) + [Message(User, text, time, None)]
      ensures typedInput == "" && !isListening && isThinking
      ensures isOpen == old(isOpen) && isSpeaking == old(isSpeaking) && isMuted == old(isMuted)
      ensures selectedVoice == old(selectedVoice) && ownerName == old(ownerName)
      ensures Valid()
    {
      AddMessage(User, text, time, None);
      typedInput := "";
      isListening := false;
      isThinking := true;
    }

    /** `sendTypedMessage`: the trimmed input is sent, unless nothing is left of it. */
    method SendTypedMessage(time: string) returns (sent: Option<string>)
      requires Valid()
      modifies this
      ensures Trim(old(typedInput)) == [] ==> sent.None? && unchanged(this)
      ensures Trim(old(typedInput)) != [] ==>
        && sent == Some(Trim(old(typedInput)))
        && messages == old(messages) + [Message(User, Trim(old(typedInput)), time, None)]
        && typedInput == "" && !isListening && isThinking
        && isOpen == old(isOpen) && isSpeaking == old(isSpeaking) && isMuted == old(isMuted)
        && selectedVoice == old(selectedVoice) && ownerName == old(ownerName)
      ensures Valid()
    {
      var text := Trim(typedInput);
      if text == [] {
        return None;
      }
      HandleUserMessage(text, time);
      sent := Some(text);
    }

    /**
     * `generateResponse`: the widget stops thinking, logs the reply and the
     * action of the branch that answers `input`, and speaks the reply.
     */
    method GenerateResponse(input: string, env: Env, time: string, voices: seq<Voice>)
      returns (spoken: Option<string>)
      requires Valid()
      requires env.ownerName == ownerName && 0.0 <= env.draw < 1.0
      modifies this
      ensures messages == old(messages) + [Message(Ai, Respond(input, env).reply, time, Respond(input, env).action)]
      ensures !isThinking
      ensures spoken == Utterance(old(isMuted), Respond(input, env).reply)
      ensures selectedVoice ==
        if old(isMuted) || old(selectedVoice).Some? then old(selectedVoice) else SelectVoice(voices)
      ensures isOpen == old(isOpen) && isListening == old(isListening)
      ensures isSpeaking == old(isSpeaking) && isMuted == old(isMuted)
      ensures typedInput == old(typedInput) && ownerName == old(ownerName)
      ensures Valid()
    {
      isThinking := false;
      var r := Respond(input, env);
      AddMessage(Ai, r.reply, time, r.action);
      spoken := Speak(r.reply, voices);
    }

    /** `clearChat`: the log is replaced by the one message saying so, which is also spoken. */
    method ClearChat(time: string, voices: seq<Voice>) returns (spoken: Option<string>)
      modifies this
      ensures messages == [Message(Ai, Address(ChatCleared, old(ownerName)), time, None)]
      ensures spoken == Utterance(old(isMuted), Address(ChatCleared, old(ownerName)))
      ensures selectedVoice ==
        if old(isMuted) || old(selectedVoice).Some? then old(selectedVoice) else SelectVoice(voices)
      ensures Flags() == old(Flags()) && typedInput == old(typedInput) && ownerName == old(ownerName)
      ensures Valid()
    {
      messages := [];
      var msg := Address(ChatCleared, ownerName);
      AddMessage(Ai, msg, time, None);
      spoken := Speak(msg, voices);
    }

    /** The greeting the component logs once it has started, for the hour `hour` of the clock. */
    method Greet(hour: int, time: string)
      requires Valid()
      modifies this
      ensures messages == old(messages) + [Message(Ai, TimeGreeting(ownerName, hour), time, None)]
      ensures Flags() == old(Flags()) && typedInput == old(typedInput)
      ensures selectedVoice == old(selectedVoice) && ownerName == old(ownerName)
      ensures Valid()
    {
      AddMessage(Ai, TimeGreeting(ownerName, hour), time, None);
    }

    /**
     * `startListening`: without recognition nothing changes (the browser
     * shows an alert); otherwise speech is cut off and the chat opened. The
     * listening flag is set by the recognizer's start event, not here.
     */
    method StartListening()
      modifies this
      ensures !hasRecognition ==> unchanged(this)
      ensures hasRecognition ==>
        && isOpen && !isSpeaking
        && isListening == old(isListening) && isThinking == old(isThinking) && isMuted == old(isMuted)
        && typedInput == old(typedInput) && messages == old(messages)
        && selectedVoice == old(selectedVoice) && ownerName == old(ownerName)
    {
      if !hasRecognition {
        return;
      }
      if isSpeaking {
        isSpeaking := false;
      }
      if !isOpen {
        isOpen := true;
      }
    }

    /** `stopListening` */
    method StopListening()
      modifies this
      ensures !isListening
      ensures isOpen == old(isOpen) && isThinking == old(isThinking)
      ensures isSpeaking == old(isSpeaking) && isMuted == old(isMuted)
      ensures typedInput == old(typedInput) && messages == old(messages)
      ensures selectedVoice == old(selectedVoice) && ownerName == old(ownerName)
    {
      isListening := false;
    }

    /** `toggleListening`: stop when listening, start otherwise. */
    method ToggleListening()
      modifies this
      ensures old(isListening) ==> !isListening && isOpen == old(isOpen) && isSpeaking == old(isSpeaking)
      ensures !old(isListening) && hasRecognition ==> isOpen && !isSpeaking && !isListening
      ensures !old(isListening) && !hasRecognition ==> unchanged(this)
      ensures isThinking == old(isThinking) && isMuted == old(isMuted)
      ensures typedInput == old(typedInput) && messages == old(messages)
      ensures selectedVoice == old(selectedVoice) && ownerName == old(ownerName)
    {
      if isListening {
        StopListening();
      } else {
        StartListening();
      }
    }

    /** `toggleMute`: muting also cuts off speech. */
    method ToggleMute()
      modifies this
      ensures isMuted == !old(isMuted)
      ensures isSpeaking == (old(isSpeaking) && !isMuted)
      ensures isOpen == old(isOpen) && isListening == old(isListening) && isThinking == old(isThinking)
      ensures typedInput == old(typedInput) && messages == old(messages)
      ensures selectedVoice == old(selectedVoice) && ownerName == old(ownerName)
    {
      isMuted := !isMuted;
      if isMuted {
        isSpeaking := false;
      }
    }

    /** `toggleChat` */
    method ToggleChat()
      modifies this
      ensures isOpen == !old(isOpen)
      ensures isListening == old(isListening) && isThinking == old(isThinking)
      ensures isSpeaking == old(isSpeaking) && isMuted == old(isMuted)
      ensures typedInput == old(typedInput) && messages == old(messages)
      ensures selectedVoice == old(selectedVoice) && ownerName == old(ownerName)
    {
      isOpen := !isOpen;
    }
  }
}
