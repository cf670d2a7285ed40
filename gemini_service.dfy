/**
 * The reply service (services/geminiService.ts): the system instruction
 * built from the catalogue, the mapping of the chat history to the SDK's
 * content format, and `sendMessageToGemini`, which turns every outcome
 * into a reply string. The SDK round trip is an oracle parameter.
 */
module GeminiService {
  import opened Types
  import opened Strings

  // ---------------------------------------------------------------------
  // System instruction

  /** A product line; the text between `${...}` holes is fixed. */
  function ProductLine(p: Product): (line: string)
    ensures ("- \"" + p.name + "\" ($") <= line
    ensures line[|line| - 1] == '.'
  {
    "- \"" + p.name + "\" ($" + IntToString(p.price) + ", " + CategoryName(p.category) + "): "
    + p.description + ". Print details: " + Join(p.features, ", ") + "."
  }

  /** `PRODUCTS.map(p => ...)`: one line per product, in catalogue order. */
  function ProductLines(catalog: seq<Product>): (lines: seq<string>)
    ensures |lines| == |catalog|
    ensures forall i :: 0 <= i < |catalog| ==> lines[i] == ProductLine(catalog[i])
  {
    if catalog == [] then [] else [ProductLine(catalog[0])] + ProductLines(catalog[1..])
  }

  /** `productContext`: the product lines joined by newlines. */
  function ProductContext(catalog: seq<Product>): string {
    Join(ProductLines(catalog), "\n")
  }

  const InstructionHead: string :=
    "You are the AI Photography Assistant for \"Underworlds\", Alejandro Gutierrez's underwater photography portfolio and fine art print shop.\n"
    + "\n"
    + "TONE & PERSONALITY:\n"
    + "- Passionate and knowledgeable about underwater photography and freediving\n"
    + "- Calm, contemplative, and respectful of the ocean\n"
    + "- Sophisticated but accessible - not pretentious\n"
    + "- Use evocative language about water, light, depth, and marine life\n"
    + "- Speak as if you're deeply familiar with Alejandro's work and philosophy\n"
    + "\n"
    + "ABOUT THE PHOTOGRAPHER:\n"
    + "Alejandro Gutierrez is an underwater photographer and certified freediver based between Mexico and the Mediterranean. He shoots exclusively on freediving (breath-hold diving), using only natural light to capture authentic underwater moments. His work explores the intersection of human presence and marine environments, creating images of stillness, wonder, and connection with the deep.\n"
    + "\n"
    + "AVAILABLE FINE ART PRINTS:\n"

  const InstructionTail: string :=
    "\n"
    + "\n"
    + "YOUR ROLE:\n"
    + "- Help visitors find prints that resonate with them\n"
    + "- Explain the story behind each photograph (location, depth, conditions, meaning)\n"
    + "- Discuss freediving and underwater photography techniques\n"
    + "- Provide print specifications and purchasing guidance\n"
    + "- Share insights about marine conservation and ocean respect\n"
    + "- Answer questions about print quality, sizing, framing, and shipping\n"
    + "\n"
    + "RESPONSE STYLE:\n"
    + "- Keep answers conversational and engaging (2-4 sentences typically)\n"
    + "- Share relevant details about specific photographs when asked\n"
    + "- If someone asks about a print, mention its story (depth, location, technique)\n"
    + "- If uncertain about something, acknowledge it gracefully\n"
    + "- Gently guide product questions to the available prints\n"
    + "\n"
    + "Remember: Every photograph was taken on a single breath, using only natural light. This authenticity is central to Alejandro's philosophy."

  /** `getSystemInstruction()` for the given catalogue. */
  function SystemInstruction(catalog: seq<Product>): string {
    InstructionHead + ProductContext(catalog) + InstructionTail
  }

  /** The instruction is the fixed head, then the product context, then the
      fixed tail. */
  lemma SystemInstructionEmbedsContext(catalog: seq<Product>)
    ensures var instruction := SystemInstruction(catalog);
      var context := ProductContext(catalog);
      && InstructionHead <= instruction
      && instruction[|InstructionHead|..|InstructionHead| + |context|] == context
      && instruction[|InstructionHead| + |context|..] == InstructionTail
  {
  }

  /** The fields a product line is built from contain no line break. */
  predicate SingleLineFields(p: Product) {
    && '\n' !in p.name
    && '\n' !in p.description
    && forall j :: 0 <= j < |p.features| ==> '\n' !in p.features[j]
  }

  lemma {:induction false} JoinWithout(parts: seq<string>, sep: string, c: char)
    requires c !in sep
    requires forall j :: 0 <= j < |parts| ==> c !in parts[j]
    ensures c !in Join(parts, sep)
  {
    if |parts| > 1 {
      JoinWithout(parts[1..], sep, c);
    }
  }

  lemma NatToStringSingleLine(n: nat)
    ensures '\n' !in NatToString(n)
  {
  }

  lemma ProductLineSingleLine(p: Product)
    requires SingleLineFields(p)
    ensures '\n' !in ProductLine(p)
  {
    JoinWithout(p.features, ", ", '\n');
    NatToStringSingleLine(if p.price < 0 then -p.price else p.price);
    var category := CategoryName(p.category);
    assert '\n' !in category by {
      match p.category
      case LimitedEdition =>
      case FineArt =>
      case Wildlife =>
      case Landscapes =>
    }
    var price := IntToString(p.price);
    assert '\n' !in price;
  }

  /** The context has exactly one line per product, in catalogue order:
      splitting it at line breaks gives the product lines back. */
  lemma ProductContextLines(catalog: seq<Product>)
    requires |catalog| > 0
    requires forall i :: 0 <= i < |catalog| ==> SingleLineFields(catalog[i])
    ensures Split(ProductContext(catalog), '\n') == ProductLines(catalog)
  {
    var lines := ProductLines(catalog);
    forall i | 0 <= i < |lines| ensures '\n' !in lines[i] {
      ProductLineSingleLine(catalog[i]);
    }
    SplitJoin(lines, '\n');
  }

  // ---------------------------------------------------------------------
  // History mapping

  /** `{role, text}`: a transcript entry as the assistant passes it. */
  datatype HistoryEntry = HistoryEntry(role: string, text: string)

  datatype Part = Part(text: string)

  /** `{role, parts}`: the SDK's history format. */
  datatype Content = Content(role: string, parts: seq<Part>)

  /** `history.map(h => ({ role: h.role, parts: [{ text: h.text }] }))` */
  function MapHistory(history: seq<HistoryEntry>): (contents: seq<Content>)
    ensures |contents| == |history|
    ensures forall i :: 0 <= i < |history| ==>
      contents[i].role == history[i].role && contents[i].parts == [Part(history[i].text)]
  {
    if history == [] then []
    else [Content(history[0].role, [Part(history[0].text)])] + MapHistory(history[1..])
  }

  /** Reads a history back from contents of one part each. */
  function UnmapHistory(contents: seq<Content>): (history: seq<HistoryEntry>)
    requires forall i :: 0 <= i < |contents| ==> |contents[i].parts| == 1
    ensures |history| == |contents|
  {
    if contents == [] then []
    else [HistoryEntry(contents[0].role, contents[0].parts[0].text)] + UnmapHistory(contents[1..])
  }

  /** The mapping loses nothing: the history is recovered from it. */
  lemma {:induction false} MapHistoryRoundTrip(history: seq<HistoryEntry>)
    ensures UnmapHistory(MapHistory(history)) == history
  {
    if history != [] {
      MapHistoryRoundTrip(history[1..]);
      assert MapHistory(history)[1..] == MapHistory(history[1..]);
    }
  }

  // ---------------------------------------------------------------------
  // sendMessageToGemini

  const ModelName := "gemini-2.5-flash"
  const MissingKeyReply := "I'm sorry, I cannot connect to the server right now. (Missing API Key)"
  const ArchivesFallbackReply := "I apologize, but I seem to be having trouble reaching our archives at the moment."

  /** Reading `process.env.API_KEY`: it throws when `process` is undefined. */
  datatype EnvRead = EnvThrows | EnvValue(apiKey: Option<string>)

  /** The chat the SDK is asked to create and the message sent to it. */
  datatype ChatRequest = ChatRequest(
    model: string,
    systemInstruction: string,
    history: seq<Content>,
    message: string)

  /** What the SDK does with a request: a reply text, or a throw anywhere in
      client creation, chat creation or `sendMessage`. */
  datatype SdkOutcome = Replied(text: string) | Threw

  /** The key as the function sees it after the inner try/catch. */
  function ApiKeyOf(env: EnvRead): (key: Option<string>)
    ensures env.EnvThrows? ==> key == None
  {
    match env
    case EnvThrows => None
    case EnvValue(k) => k
  }

  /** `!apiKey` is false: the key is defined and not empty. */
  predicate HasApiKey(env: EnvRead)
    ensures HasApiKey(env) <==> env.EnvValue? && env.apiKey.Some? && env.apiKey.value != ""
  {
    ApiKeyOf(env).Some? && ApiKeyOf(env).value != ""
  }

  /** The chat `sendMessageToGemini` creates and the message it sends. */
  function RequestFor(catalog: seq<Product>, history: seq<HistoryEntry>, newMessage: string): (request: ChatRequest)
    ensures request.model == ModelName && request.message == newMessage
    ensures request.history == MapHistory(history) && |request.history| == |history|
  {
    ChatRequest(ModelName, SystemInstruction(catalog), MapHistory(history), newMessage)
  }

  /** The reply `sendMessageToGemini` resolves to. It is always one of
      the SDK's text and the two fixed apologies: no error text escapes. */
  function ServiceReply(
    env: EnvRead, catalog: seq<Product>, sdk: ChatRequest -> SdkOutcome,
    history: seq<HistoryEntry>, newMessage: string): (reply: string)
    ensures !HasApiKey(env) ==> reply == MissingKeyReply
    ensures HasApiKey(env) && sdk(RequestFor(catalog, history, newMessage)).Threw? ==> reply == ArchivesFallbackReply
    ensures HasApiKey(env) && sdk(RequestFor(catalog, history, newMessage)).Replied? ==>
      reply == sdk(RequestFor(catalog, history, newMessage)).text
  {
    if !HasApiKey(env) then MissingKeyReply
    else match sdk(RequestFor(catalog, history, newMessage))
      case Replied(text) => text
      case Threw => ArchivesFallbackReply
  }

  /** `sendMessageToGemini(history, newMessage)`. It never rejects: it
      returns the reply, and the request handed to the SDK, if any. */
  method SendMessage(
    env: EnvRead, catalog: seq<Product>, sdk: ChatRequest -> SdkOutcome,
    history: seq<HistoryEntry>, newMessage: string)
    returns (reply: string, sent: Option<ChatRequest>)
    ensures reply == ServiceReply(env, catalog, sdk, history, newMessage)
    ensures sent == if HasApiKey(env) then Some(RequestFor(catalog, history, newMessage)) else None
    ensures sent.Some? ==> sent.value.history == MapHistory(history) && sent.value.message == newMessage
  {
    var apiKey: Option<string> := None;
    match env {
      case EnvThrows =>
      case EnvValue(k) => apiKey := k;
    }
    if apiKey.None? || apiKey.value == "" {
      return MissingKeyReply, None;
    }
    var request := ChatRequest(ModelName, SystemInstruction(catalog), MapHistory(history), newMessage);
    sent := Some(request);
    var outcome := sdk(request);
    match outcome {
      case Replied(text) => reply := text;
      case Threw => reply := ArchivesFallbackReply;
    }
  }
}
