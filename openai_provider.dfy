/**
 * The OpenAI-backed language provider: prompt preparation (truncation and stripping), the
 * guards and fallbacks around chat completion and embedding, and speech synthesis whose
 * failures become "no stream". The remote service is a value of oracle functions.
 */
module OpenAIProvider {

  import opened Wrappers
  import opened Text
  import opened FileSystem

  /** The role name of a user message. `LLMEnums` is not part of this model; its `USER`
      value is taken to be the chat API's "user". */
  const UserRole: string := "user"

  datatype Message = Message(role: string, content: string)

  /** One choice of a chat completion: its message, which may be missing, and the message's
      content, which may be null. */
  datatype Choice = Choice(message: Option<Option<string>>)

  /** One item of an embedding response: its vector. */
  datatype Datum = Datum(embedding: seq<real>)

  /** A call's outcome: the value it returns, or the message of the exception it raises. */
  datatype Outcome<T> = Returned(value: T) | Raised(message: string)

  /** What the remote service answers: a chat completion for a model, messages and a token
      limit; an embedding for a model and a text; speech for a text. A missing response is
      `None`, an exception `Err`. */
  datatype Endpoints = Endpoints(
    chat: (string, seq<Message>, int) -> Result<Option<seq<Choice>>, string>,
    embed: (string, string) -> Result<Option<seq<Datum>>, string>,
    speech: string -> Result<Bytes, string>)

  datatype Client = Client(apiKey: string, baseUrl: Option<string>, endpoints: Endpoints)

  /** The base URL handed to the client: the configured one unless it is missing or empty. */
  function ClientBaseUrl(apiUrl: Option<string>): (r: Option<string>)
    ensures r.Some? <==> apiUrl.Some? && apiUrl.value != []
    ensures r.Some? ==> r == apiUrl
  {
    if apiUrl.Some? && |apiUrl.value| > 0 then apiUrl else None
  }

  /** `text[:maxChars].strip()`: a stripped piece of the input, at most `maxChars` long for a
      non-negative bound, and the whole stripped input when it fits. */
  function ProcessText(text: string, maxChars: int): (r: string)
    ensures |r| <= |text|
    ensures maxChars >= 0 ==> |r| <= maxChars
    ensures Trimmed(r)
    ensures |text| <= maxChars ==> r == Strip(text)
  {
    var p := Prefix(text, maxChars);
    StripProperties(p);
    assert |p| <= |text|;
    if |text| <= maxChars then
      assert p == text;
      Strip(p)
    else Strip(p)
  }

  /** Preparing prepared text again changes nothing, for a non-negative bound. */
  lemma ProcessTextIdempotent(text: string, maxChars: int)
    requires maxChars >= 0
    ensures ProcessText(ProcessText(text, maxChars), maxChars) == ProcessText(text, maxChars)
  {
    var r := ProcessText(text, maxChars);
    assert Prefix(r, maxChars) == r;
    StripProperties(Prefix(text, maxChars));
  }

  /** A negative bound counts from the end, so preparing twice can shorten the text again. */
  lemma ProcessTextNegativeBound()
    ensures ProcessText("ab", -1) == "a"
    ensures ProcessText(ProcessText("ab", -1), -1) == ""
  {
    assert Prefix("ab", -1) == "a";
    assert !IsSpace('a');
    assert RStrip("a") == "a";
    assert LStrip("a") == "a";
    assert Prefix("a", -1) == "";
  }

  /** The token limit of a completion: the given one unless it is missing or 0. */
  function OutputTokens(maxOutputTokens: Option<int>, default: int): (r: int)
    ensures maxOutputTokens.Some? && maxOutputTokens.value != 0 ==> r == maxOutputTokens.value
    ensures maxOutputTokens.None? || maxOutputTokens.value == 0 ==> r == default
  {
    if maxOutputTokens.Some? && maxOutputTokens.value != 0 then maxOutputTokens.value else default
  }

  /** The text `generate_text` returns for a completion response: the first choice's
      content, or nothing when the response, its choices or the first message is missing. */
  function ReplyText(response: Option<seq<Choice>>): (r: Option<string>)
    ensures r.Some? ==> response.Some? && |response.value| > 0 && response.value[0].message == Some(r)
    ensures response.Some? && |response.value| > 0 && response.value[0].message.Some? ==>
      r == response.value[0].message.value
  {
    if response.None? || |response.value| == 0 || response.value[0].message.None? then None
    else response.value[0].message.value
  }

  /** The vector `embed_text` returns: the first item's, or nothing when the response, its
      items or that vector is missing or empty. */
  function EmbeddingOf(response: Option<seq<Datum>>): (r: Option<seq<real>>)
    ensures r.Some? <==> response.Some? && |response.value| > 0 && response.value[0].embedding != []
    ensures r.Some? ==> r.value == response.value[0].embedding
  {
    if response.None? || |response.value| == 0 || response.value[0].embedding == [] then None
    else Some(response.value[0].embedding)
  }

  /** A chat history list, shared and appended to in place. */
  class ChatHistory {
    var messages: seq<Message>

    constructor (messages: seq<Message>)
      ensures this.messages == messages
    {
      this.messages := messages;
    }
  }

  class Provider {

    const client: Option<Client>
    const defaultInputMaxCharacters: int
    const defaultGenerationMaxOutputTokens: int

    /** The list `generate_text` uses when the caller passes no history: Python evaluates the
        default `[]` once, so every such call shares it. */
    const defaultHistory: ChatHistory

    var generationModelId: Option<string>
    var embeddingModelId: Option<string>
    var embeddingSize: Option<int>

    /** The client gets the base URL only when a non-empty one is configured; no model is set. */
    constructor (apiKey: string, apiUrl: Option<string>, endpoints: Endpoints, defaultHistory: ChatHistory,
                 defaultInputMaxCharacters: int := 1000, defaultGenerationMaxOutputTokens: int := 1000)
      ensures client == Some(Client(apiKey, ClientBaseUrl(apiUrl), endpoints))
      ensures this.defaultInputMaxCharacters == defaultInputMaxCharacters
      ensures this.defaultGenerationMaxOutputTokens == defaultGenerationMaxOutputTokens
      ensures this.defaultHistory == defaultHistory
      ensures generationModelId.None? && embeddingModelId.None? && embeddingSize.None?
    {
      client := Some(Client(apiKey, ClientBaseUrl(apiUrl), endpoints));
      this.defaultInputMaxCharacters := defaultInputMaxCharacters;
      this.defaultGenerationMaxOutputTokens := defaultGenerationMaxOutputTokens;
      this.defaultHistory := defaultHistory;
      generationModelId := None;
      embeddingModelId := None;
      embeddingSize := None;
    }

    method SetGenerationModel(modelId: string)
      modifies this
      ensures generationModelId == Some(modelId)
      ensures embeddingModelId == old(embeddingModelId) && embeddingSize == old(embeddingSize)
    {
      generationModelId := Some(modelId);
    }

    method SetEmbeddingModel(modelId: string, embeddingSize: int)
      modifies this
      ensures embeddingModelId == Some(modelId) && this.embeddingSize == Some(embeddingSize)
      ensures generationModelId == old(generationModelId)
    {
      embeddingModelId := Some(modelId);
      this.embeddingSize := Some(embeddingSize);
    }

    /** `process_text` with this provider's input bound. */
    function Prepare(text: string): string {
      ProcessText(text, defaultInputMaxCharacters)
    }

    /** `construct_prompt`: the role as given, the prepared prompt as content. */
    function ConstructPrompt(prompt: string, role: string): (m: Message)
      ensures m.role == role && m.content == ProcessText(prompt, defaultInputMaxCharacters)
    {
      Message(role, Prepare(prompt))
    }

    /** The list a `generate_text` call appends to. */
    function HistoryOf(history: Option<ChatHistory>): ChatHistory {
      if history.Some? then history.value else defaultHistory
    }

    /** A model id that is set and not empty. */
    predicate Configured(modelId: Option<string>) {
      modelId.Some? && modelId.value != []
    }

    /** `generate_text`: nothing, and no history change, without a client or a generation
        model; otherwise one user message is appended to the history in place (the shared
        default one when `history` is missing) and the completion's first content is returned.
        An exception from the service propagates. */
    method GenerateText(prompt: string, history: Option<ChatHistory>, maxOutputTokens: Option<int>)
      returns (outcome: Outcome<Option<string>>)
      modifies HistoryOf(history)
      ensures client.None? || !Configured(generationModelId) ==>
        outcome == Returned(None) && HistoryOf(history).messages == old(HistoryOf(history).messages)
      ensures client.Some? && Configured(generationModelId) ==>
        HistoryOf(history).messages == old(HistoryOf(history).messages) + [Message(UserRole, ProcessText(prompt, defaultInputMaxCharacters))]
      ensures client.Some? && Configured(generationModelId) ==>
        var reply := client.value.endpoints.chat(generationModelId.value, HistoryOf(history).messages,
                       OutputTokens(maxOutputTokens, defaultGenerationMaxOutputTokens));
        outcome == if reply.Err? then Raised(reply.error) else Returned(ReplyText(reply.value))
    {
      if client.None? {
        return Returned(None);
      }
      if !Configured(generationModelId) {
        return Returned(None);
      }
      var tokens := OutputTokens(maxOutputTokens, defaultGenerationMaxOutputTokens);
      var h := HistoryOf(history);
      h.messages := h.messages + [ConstructPrompt(prompt, UserRole)];
      var reply := client.value.endpoints.chat(generationModelId.value, h.messages, tokens);
      if reply.Err? {
        return Raised(reply.error);
      }
      outcome := Returned(ReplyText(reply.value));
    }

    /** `embed_text`: nothing without a client or an embedding model; otherwise the first
        vector of the service's answer. An exception from the service propagates. */
    function EmbedText(text: string): (outcome: Outcome<Option<seq<real>>>)
      reads this
      ensures client.None? || !Configured(embeddingModelId) ==> outcome == Returned(None)
      ensures client.Some? && Configured(embeddingModelId) ==>
        var answer := client.value.endpoints.embed(embeddingModelId.value, text);
        outcome == if answer.Err? then Raised(answer.error) else Returned(EmbeddingOf(answer.value))
    {
      if client.None? || !Configured(embeddingModelId) then Returned(None)
      else
        match client.value.endpoints.embed(embeddingModelId.value, text)
        case Err(e) => Raised(e)
        case Ok(answer) => Returned(EmbeddingOf(answer))
    }

    /** `text_to_speech`: the synthesized stream, or nothing when the service raises. */
    function TextToSpeech(text: string): (r: Option<Bytes>)
      ensures client.None? ==> r.None?
      ensures client.Some? ==> (r.Some? <==> client.value.endpoints.speech(text).Ok?)
      ensures r.Some? ==> r.value == client.value.endpoints.speech(text).value
    {
      if client.None? then None
      else
        match client.value.endpoints.speech(text)
        case Ok(stream) => Some(stream)
        case Err(_) => None
    }
  }

  /** Two calls without a history share the default list: it grows by one user message per
      call once the provider is configured. */
  method GenerateTwice(p: Provider, first: string, second: string) returns (a: Outcome<Option<string>>, b: Outcome<Option<string>>)
    requires p.client.Some? && p.Configured(p.generationModelId)
    modifies p.defaultHistory
    ensures p.defaultHistory.messages == old(p.defaultHistory.messages)
      + [Message(UserRole, ProcessText(first, p.defaultInputMaxCharacters))]
      + [Message(UserRole, ProcessText(second, p.defaultInputMaxCharacters))]
  {
    a := p.GenerateText(first, None, None);
    b := p.GenerateText(second, None, None);
  }
}
