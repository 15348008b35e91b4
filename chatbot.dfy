/**
 * The floating chat widget: the text input with its send guard, and the
 * microphone button on a browser without speech recognition.
 */
module Chatbot {
  import opened JsText
  import opened ChatContext

  /** The alert shown when the browser offers no speech recognition. */
  const UnsupportedAlert := "Voice input is not supported in this browser."

  /** What a click on the microphone button asks of the browser. */
  datatype MicEffect = AlertUnsupported | StopRecognition | StartRecognition

  /** `handleMicClick`: without recognition, only an alert; otherwise stop while
      listening and start while idle. */
  function MicClick(supported: bool, listening: bool): (e: MicEffect)
    ensures e == AlertUnsupported <==> !supported
    ensures supported ==> (e == StopRecognition <==> listening)
  {
    if !supported then AlertUnsupported
    else if listening then StopRecognition
    else StartRecognition
  }

  /** `disabled={!inputText.trim()}`: the send button is enabled for non-blank input. */
  predicate SendEnabled(input: string) {
    !IsBlank(input)
  }

  /** The send button is enabled exactly when the input holds a character that is
      not whitespace. */
  lemma SendEnabledIff(input: string)
    ensures SendEnabled(input) <==> exists i :: 0 <= i < |input| && !IsJsWhitespace(input[i])
  {
    BlankIffAllWhitespace(input);
  }

  class ChatWidget {
    const store: ChatStore
    var inputText: string
    var isListening: bool
    /** Alerts shown by the widget, oldest first. */
    var alerts: seq<string>

    ghost predicate Valid()
      reads this, store
    {
      store.Valid()
    }

    /** The input starts empty and the widget is not listening. */
    constructor(store: ChatStore)
      requires store.Valid()
      ensures this.store == store && inputText == "" && !isListening && alerts == []
      ensures Valid()
    {
      this.store := store;
      inputText := "";
      isListening := false;
      alerts := [];
    }

    /** Typing (or a recognition result) replaces the input. */
    method EditInput(value: string)
      modifies this
      ensures inputText == value && isListening == old(isListening) && alerts == old(alerts)
    {
      inputText := value;
    }

    /** `handleSend`: blank input sends nothing and is kept; other input is sent
        as typed (untrimmed) and then cleared. */
    method HandleSend(now: int)
      requires Valid()
      modifies this, store
      ensures Valid()
      ensures isListening == old(isListening) && alerts == old(alerts)
      ensures store.isOpen == old(store.isOpen)
      ensures !SendEnabled(old(inputText)) ==>
                && inputText == old(inputText)
                && store.messages == old(store.messages) && store.pending == old(store.pending)
      ensures SendEnabled(old(inputText)) ==>
                && inputText == ""
                && store.messages == old(store.messages) + [Message(now, old(inputText), User)]
                && store.pending == old(store.pending) + 1
    {
      if IsBlank(inputText) {
        return;
      }
      store.SendMessage(inputText, now);
      inputText := "";
    }

    /** A microphone click. Without speech recognition it only raises the alert;
        with it, the start or stop request is returned for the browser, whose
        callbacks later set `isListening`. */
    method HandleMicClick(supported: bool) returns (e: MicEffect)
      modifies this
      ensures e == MicClick(supported, old(isListening))
      ensures inputText == old(inputText) && isListening == old(isListening)
      ensures alerts == old(alerts) + (if supported then [] else [UnsupportedAlert])
    {
      e := MicClick(supported, isListening);
      if !supported {
        alerts := alerts + [UnsupportedAlert];
      }
    }
  }
}
