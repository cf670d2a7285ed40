/**
 * The assistant panel (components/Assistant.tsx): a transcript that only
 * grows at the end, an input line, a thinking flag and the open flag.
 * `handleSend` runs in two phases, begin (record the user's message) and
 * complete (record the reply); the clock is a parameter of each phase.
 */
module Assistant {
  import opened Types
  import opened Strings
  import GeminiService

  const WelcomeText := "Welcome to Underworlds. I can answer questions about Alejandro's photography, print details, freediving techniques, or help you find the perfect piece for your space. How may I assist you?"

  /** `!inputValue.trim()` */
  predicate IsBlank(s: string)
    ensures IsBlank(s) <==> AllWhitespace(s)
  {
    TrimEmptyIff(s);
    Trim(s) == ""
  }

  /** `messages.map(m => ({ role: m.role, text: m.text }))`: timestamps dropped. */
  function HistoryOf(messages: seq<ChatMessage>): (history: seq<GeminiService.HistoryEntry>)
    ensures |history| == |messages|
    ensures forall i :: 0 <= i < |messages| ==>
      history[i] == GeminiService.HistoryEntry(RoleName(messages[i].role), messages[i].text)
  {
    if messages == [] then []
    else [GeminiService.HistoryEntry(RoleName(messages[0].role), messages[0].text)] + HistoryOf(messages[1..])
  }

  /** What the SDK receives of a transcript: one content per message, in
      order, with the message's role and its text as the only part. */
  lemma SdkHistoryOfTranscript(messages: seq<ChatMessage>)
    ensures var contents := GeminiService.MapHistory(HistoryOf(messages));
      && |contents| == |messages|
      && forall i :: 0 <= i < |messages| ==>
           contents[i].role == RoleName(messages[i].role)
           && contents[i].parts == [GeminiService.Part(messages[i].text)]
  {
  }

  /** Timestamps never decrease along the transcript. */
  predicate TimeOrdered(messages: seq<ChatMessage>) {
    forall i, j :: 0 <= i < j < |messages| ==> messages[i].timestamp <= messages[j].timestamp
  }

  /** Appending a message stamped no earlier than the last keeps the order. */
  lemma AppendKeepsTimeOrdered(messages: seq<ChatMessage>, m: ChatMessage)
    requires TimeOrdered(messages)
    requires messages != [] ==> messages[|messages| - 1].timestamp <= m.timestamp
    ensures TimeOrdered(messages + [m])
  {
  }

  /** What `handleSend` passes to the service: the transcript as it was
      before the new message, and the new text. */
  datatype SendRequest = SendRequest(history: seq<GeminiService.HistoryEntry>, newMessage: string)

  /** How the awaited call settled. */
  datatype Settlement = Resolved(text: string) | Rejected

  class AssistantState {
    var isOpen: bool
    var messages: seq<ChatMessage>
    var inputValue: string
    var isThinking: bool
    /** The message the transcript was seeded with. */
    ghost const welcome: ChatMessage

    /** The welcome message stays the first entry of the transcript. */
    ghost predicate Valid()
      reads this
    {
      |messages| >= 1 && messages[0] == welcome
    }

    /** The panel starts closed, with the welcome message alone. */
    constructor (now: int)
      ensures Valid()
      ensures welcome == ChatMessage(Model, WelcomeText, now)
      ensures messages == [welcome]
      ensures inputValue == "" && !isThinking && !isOpen
    {
      welcome := ChatMessage(Model, WelcomeText, now);
      isOpen := false;
      messages := [ChatMessage(Model, WelcomeText, now)];
      inputValue := "";
      isThinking := false;
    }

    /** The floating button: `setIsOpen(!isOpen)`. */
    method TogglePanel()
      requires Valid()
      modifies this`isOpen
      ensures Valid()
      ensures isOpen == !old(isOpen)
      ensures messages == old(messages)
    {
      isOpen := !isOpen;
    }

    /** The header's close button. */
    method ClosePanel()
      requires Valid()
      modifies this`isOpen
      ensures Valid()
      ensures !isOpen
      ensures messages == old(messages)
    {
      isOpen := false;
    }

    /** The input's `onChange`. */
    method SetInput(value: string)
      requires Valid()
      modifies this`inputValue
      ensures Valid()
      ensures inputValue == value
    {
      inputValue := value;
    }

    /** The send button's `disabled`: the input is blank or a reply is awaited. */
    function SendDisabled(): (disabled: bool)
      reads this
      ensures disabled <==> AllWhitespace(inputValue) || isThinking
    {
      TrimEmptyIff(inputValue);
      IsBlank(inputValue) || isThinking
    }

    /** The synchronous part of `handleSend`. A blank input changes nothing.
        Otherwise the untrimmed text is appended as a user message, the input
        is cleared, thinking starts, and the request for the service is
        returned. `isThinking` is not consulted. */
    method BeginSend(now: int) returns (request: Option<SendRequest>)
      requires Valid()
      modifies this`messages, this`inputValue, this`isThinking
      ensures Valid()
      ensures AllWhitespace(old(inputValue)) ==>
        && request == None
        && messages == old(messages) && inputValue == old(inputValue) && isThinking == old(isThinking)
      ensures !AllWhitespace(old(inputValue)) ==>
        && request == Some(SendRequest(HistoryOf(old(messages)), old(inputValue)))
        && messages == old(messages) + [ChatMessage(User, old(inputValue), now)]
        && inputValue == ""
        && isThinking
      ensures TimeOrdered(old(messages)) && old(messages[|messages| - 1].timestamp) <= now ==>
        TimeOrdered(messages)
    {
      TrimEmptyIff(inputValue);
      if IsBlank(inputValue) {
        return None;
      }
      var userMsg := ChatMessage(User, inputValue, now);
      request := Some(SendRequest(HistoryOf(messages), inputValue));
      if TimeOrdered(messages) && messages[|messages| - 1].timestamp <= now {
        AppendKeepsTimeOrdered(messages, userMsg);
      }
      messages := messages + [userMsg];
      inputValue := "";
      isThinking := true;
    }

    /** The part of `handleSend` after the await: a resolved call appends
        one model message with the returned text, a rejected one appends
        nothing, and thinking ends either way. */
    method CompleteSend(settlement: Settlement, now: int)
      requires Valid()
      modifies this`messages, this`isThinking
      ensures Valid()
      ensures settlement.Resolved? ==> messages == old(messages) + [ChatMessage(Model, settlement.text, now)]
      ensures settlement.Rejected? ==> messages == old(messages)
      ensures !isThinking
      ensures TimeOrdered(old(messages)) && old(messages[|messages| - 1].timestamp) <= now ==>
        TimeOrdered(messages)
    {
      match settlement {
        case Resolved(text) =>
          var aiMsg := ChatMessage(Model, text, now);
          if TimeOrdered(messages) && messages[|messages| - 1].timestamp <= now {
            AppendKeepsTimeOrdered(messages, aiMsg);
          }
          messages := messages + [aiMsg];
        case Rejected =>
      }
      isThinking := false;
    }

    /** `handleSend` run to completion against the service, which never
        rejects: a non-blank send adds the user message and then exactly one
        model reply. */
    method HandleSend(
      env: GeminiService.EnvRead, catalog: seq<Product>,
      sdk: GeminiService.ChatRequest -> GeminiService.SdkOutcome,
      sentAt: int, repliedAt: int)
      requires Valid()
      modifies this`messages, this`inputValue, this`isThinking
      ensures Valid()
      ensures AllWhitespace(old(inputValue)) ==>
        messages == old(messages) && inputValue == old(inputValue) && isThinking == old(isThinking)
      ensures !AllWhitespace(old(inputValue)) ==>
        && messages == old(messages)
             + [ChatMessage(User, old(inputValue), sentAt),
                ChatMessage(Model,
                  GeminiService.ServiceReply(env, catalog, sdk, HistoryOf(old(messages)), old(inputValue)),
                  repliedAt)]
        && inputValue == ""
        && !isThinking
    {
      var request := BeginSend(sentAt);
      if request.Some? {
        var reply, _ := GeminiService.SendMessage(env, catalog, sdk, request.value.history, request.value.newMessage);
        CompleteSend(Resolved(reply), repliedAt);
      }
    }

    /** `handleKeyPress`: Enter without Shift starts a send, with no check
        of `isThinking`; any other key does nothing. */
    method HandleKeyPress(key: string, shiftKey: bool, now: int) returns (request: Option<SendRequest>)
      requires Valid()
      modifies this`messages, this`inputValue, this`isThinking
      ensures Valid()
      ensures !(key == "Enter" && !shiftKey) ==>
        request == None && messages == old(messages) && inputValue == old(inputValue) && isThinking == old(isThinking)
      ensures key == "Enter" && !shiftKey && AllWhitespace(old(inputValue)) ==>
        request == None && messages == old(messages) && inputValue == old(inputValue) && isThinking == old(isThinking)
      ensures key == "Enter" && !shiftKey && !AllWhitespace(old(inputValue)) ==>
        && request == Some(SendRequest(HistoryOf(old(messages)), old(inputValue)))
        && messages == old(messages) + [ChatMessage(User, old(inputValue), now)]
        && inputValue == ""
        && isThinking
    {
      request := None;
      if key == "Enter" && !shiftKey {
        request := BeginSend(now);
      }
    }
  }

  /** Sending "Hello" adds one message, the reply one more; a blank send
      does nothing and Enter while thinking still sends, as `handleSend` and
      `handleKeyPress` do. */
  method SendScenario(reply: string)
  {
    var a := new AssistantState(100);
    a.SetInput("Hello");
    assert !AllWhitespace(a.inputValue) by { assert !IsJsWhitespace(a.inputValue[0]); }
    var r := a.BeginSend(200);
    assert |a.messages| == 2 && a.isThinking && a.inputValue == "";
    assert r == Some(SendRequest(HistoryOf([a.welcome]), "Hello"));
    a.SetInput("again");
    assert !AllWhitespace(a.inputValue) by { assert !IsJsWhitespace(a.inputValue[0]); }
    var r2 := a.HandleKeyPress("Enter", false, 250);
    assert |a.messages| == 3;
    a.CompleteSend(Resolved(reply), 300);
    assert |a.messages| == 4 && a.messages[3] == ChatMessage(Model, reply, 300) && !a.isThinking;
    a.SetInput(" \t");
    assert AllWhitespace(a.inputValue);
    var r3 := a.BeginSend(400);
    assert r3 == None && |a.messages| == 4;
  }
}
