/** The provider-neutral chat and model records the Qwen client translates
    to and from. Only the fields the core reads or writes are kept. */
module ChatContracts {
  import opened Wrappers

  datatype ChatMessage = ChatMessage(
    role: string,
    content: string,
    name: Option<string>,
    toolCallId: Option<string>)

  /** The completion options; the temperature and top-p (floating point) are
      not part of this model. */
  datatype ChatCompletionOptions = ChatCompletionOptions(
    maxTokens: Option<int>,
    stream: bool,
    stop: Option<seq<string>>)

  /** A response id: the provider's request id, or a Guid the client draws
      when the provider sent none. */
  datatype ResponseId = RequestId(id: string) | GeneratedId

  datatype UsageInfo = UsageInfo(promptTokens: int, completionTokens: int, totalTokens: int)

  datatype ChatChoice = ChatChoice(index: int, message: ChatMessage, finishReason: Option<string>)

  datatype ChatCompletionResponse = ChatCompletionResponse(
    id: ResponseId,
    model: string,
    choices: seq<ChatChoice>,
    usage: Option<UsageInfo>)

  datatype ChatMessageDelta = ChatMessageDelta(role: Option<string>, content: Option<string>)

  datatype ChatStreamChoice = ChatStreamChoice(
    index: int,
    delta: Option<ChatMessageDelta>,
    finishReason: Option<string>)

  datatype ChatCompletionStreamResponse = ChatCompletionStreamResponse(
    id: ResponseId,
    model: string,
    choices: seq<ChatStreamChoice>)

  datatype ModelCapabilities = ModelCapabilities(
    supportsToolCalling: bool,
    supportsStreaming: bool,
    supportsSystemMessage: bool,
    supportsMultimodal: bool,
    supportsJsonMode: bool,
    supportedLanguages: seq<string>)

  /** Token and message limits; the request timeout is not part of this model. */
  datatype ModelLimits = ModelLimits(
    maxTokens: int,
    maxInputTokens: int,
    maxOutputTokens: int,
    maxMessages: int)

  /** A model descriptor. Of the metadata only the string entries are kept
      (the endpoint); the pricing entries are floating point. */
  datatype ModelInfo = ModelInfo(
    name: string,
    displayName: Option<string>,
    description: Option<string>,
    capabilities: ModelCapabilities,
    limits: ModelLimits,
    metadata: map<string, string>)

  datatype ModelConfiguration = ModelConfiguration(apiKey: Option<string>, baseUrl: Option<string>)
}
