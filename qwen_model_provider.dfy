/** The Qwen model provider: a fixed registry of four models, filled when the
    provider is constructed, with name validation and lookup on top. */
module QwenModelProvider {
  import opened Wrappers
  import opened Strings
  import opened ChatContracts
  import opened QwenChatCompletion

  const ProviderName := "Qwen"

  /** An argument error: an `ArgumentException` with the message given to
      its constructor, or an `ArgumentNullException`; both name the parameter. */
  datatype ArgumentException =
    | ArgumentException(message: string, paramName: string)
    | ArgumentNullException(paramName: string)
  {
    /** The `Message` .NET reports: the parameter name is appended. */
    function Message(): string {
      match this
      case ArgumentException(message, paramName) => message + " (Parameter '" + paramName + "')"
      case ArgumentNullException(paramName) => "Value cannot be null. (Parameter '" + paramName + "')"
    }
  }

  /** A registry entry: every Qwen model supports tool calls, streaming,
      system messages and JSON mode, not multimodal input, speaks Chinese
      and English, and is served at the DashScope endpoint. */
  function QwenModel(name: string, displayName: string, description: string,
                     maxTokens: int, maxInputTokens: int, maxOutputTokens: int): ModelInfo
  {
    ModelInfo(name, Some(displayName), Some(description),
              ModelCapabilities(true, true, true, false, true, ["zh", "en"]),
              ModelLimits(maxTokens, maxInputTokens, maxOutputTokens, 100),
              map["endpoint" := DefaultEndpoint])
  }

  /** The models `InitializeSupportedModels` adds, in order. */
  function SupportedModelList(): (models: seq<ModelInfo>)
    ensures |models| == 4
    ensures models[0].name == "qwen-turbo" && models[1].name == "qwen-plus"
    ensures models[2].name == "qwen-max" && models[3].name == "qwen-max-longcontext"
    ensures forall i, j :: 0 <= i < j < |models| ==> models[i].name != models[j].name
    ensures forall i :: 0 <= i < |models| ==>
      models[i].limits.maxInputTokens + models[i].limits.maxOutputTokens == models[i].limits.maxTokens
    ensures forall i :: 0 <= i < |models| ==> EndpointFor(models[i]) == DefaultEndpoint
  {
    [ QwenModel("qwen-turbo", "通义千问-Turbo",
                "通义千问超大规模语言模型，适用于各种自然语言理解和生成任务", 8192, 6144, 2048),
      QwenModel("qwen-plus", "通义千问-Plus",
                "通义千问增强版，具有更强的理解和生成能力", 32768, 30720, 2048),
      QwenModel("qwen-max", "通义千问-Max",
                "通义千问最强版本，具有最佳的理解和生成能力", 32768, 30720, 2048),
      QwenModel("qwen-max-longcontext", "通义千问-Max长文本",
                "支持超长文本的通义千问模型，适合处理长文档", 1000000, 998000, 2000) ]
  }

  /** `FirstOrDefault(m => m.Name == modelName)`; a null name matches no model. */
  function FindModel(models: seq<ModelInfo>, modelName: Option<string>): (r: Option<ModelInfo>)
    ensures r.Some? ==> modelName == Some(r.value.name)
                        && exists k :: 0 <= k < |models| && models[k] == r.value
    ensures r.None? <==> forall k :: 0 <= k < |models| ==> Some(models[k].name) != modelName
  {
    if |models| == 0 then None
    else if Some(models[0].name) == modelName then Some(models[0])
    else FindModel(models[1..], modelName)
  }

  class QwenModelProvider {
    var supportedModels: seq<ModelInfo>

    constructor ()
      ensures supportedModels == SupportedModelList()
    {
      supportedModels := [];
      new;
      InitializeSupportedModels();
    }

    /** `InitializeSupportedModels`: appends the four models to the list. */
    method InitializeSupportedModels()
      modifies this
      ensures supportedModels == old(supportedModels) + SupportedModelList()
    {
      supportedModels := supportedModels + SupportedModelList();
    }

    /** `CreateChatClient`: a blank name and an unknown name are both
        rejected; otherwise the client constructor rejects a null
        configuration, and else builds a client for the registered model. */
    function CreateChatClient(modelName: Option<string>, configuration: Option<ModelConfiguration>)
      : (r: Result<QwenChatCompletionClient, ArgumentException>)
      reads this
      ensures IsNullOrWhiteSpace(modelName) ==>
        r == Err(ArgumentException("Model name cannot be null or empty", "modelName"))
      ensures !IsNullOrWhiteSpace(modelName) && FindModel(supportedModels, modelName).None? ==>
        r == Err(ArgumentException("Model '" + modelName.value + "' is not supported by " + ProviderName, "modelName"))
      ensures !IsNullOrWhiteSpace(modelName) && FindModel(supportedModels, modelName).Some? && configuration.None? ==>
        r == Err(ArgumentNullException("configuration"))
      ensures r.Ok? ==> Some(r.value.ModelName()) == modelName && configuration == Some(r.value.configuration)
                        && r.value.modelInfo in supportedModels
                        && r.value.endpoint == EndpointFor(r.value.modelInfo)
    {
      if IsNullOrWhiteSpace(modelName) then
        Err(ArgumentException("Model name cannot be null or empty", "modelName"))
      else match FindModel(supportedModels, modelName)
        case None => Err(ArgumentException("Model '" + modelName.value + "' is not supported by " + ProviderName, "modelName"))
        case Some(modelInfo) =>
          if configuration.None? then Err(ArgumentNullException("configuration"))
          else Ok(NewClient(modelInfo, configuration.value))
    }

    /** `IsModelAvailableAsync`: whether some registered model has that name. */
    function IsModelAvailable(modelName: Option<string>): (available: bool)
      reads this
      ensures available <==> exists k :: 0 <= k < |supportedModels| && Some(supportedModels[k].name) == modelName
    {
      FindModel(supportedModels, modelName).Some?
    }
  }

  /** The `Message` .NET reports for a blank model name. */
  lemma BlankNameMessage(provider: QwenModelProvider, modelName: Option<string>,
                         configuration: Option<ModelConfiguration>)
    requires IsNullOrWhiteSpace(modelName)
    ensures provider.CreateChatClient(modelName, configuration).error.Message()
            == "Model name cannot be null or empty (Parameter 'modelName')"
  {
  }

  /** The `Message` .NET reports for a model name not in the registry. */
  lemma UnsupportedNameMessage(provider: QwenModelProvider, modelName: Option<string>,
                               configuration: Option<ModelConfiguration>)
    requires !IsNullOrWhiteSpace(modelName) && FindModel(provider.supportedModels, modelName).None?
    ensures provider.CreateChatClient(modelName, configuration).error.Message()
            == "Model '" + modelName.value + "' is not supported by Qwen (Parameter 'modelName')"
  {
  }

  /** The `Message` .NET reports for a null configuration. */
  lemma NullConfigurationMessage(provider: QwenModelProvider, modelName: Option<string>,
                                 configuration: Option<ModelConfiguration>)
    requires !IsNullOrWhiteSpace(modelName) && FindModel(provider.supportedModels, modelName).Some?
    requires configuration.None?
    ensures provider.CreateChatClient(modelName, configuration).error.Message()
            == "Value cannot be null. (Parameter 'configuration')"
  {
  }

  /** No registered name is blank, because each starts with a letter. */
  lemma RegisteredNamesNotBlank(name: string)
    requires exists k :: 0 <= k < |SupportedModelList()| && SupportedModelList()[k].name == name
    ensures !IsNullOrWhiteSpace(Some(name))
  {
    var k :| 0 <= k < |SupportedModelList()| && SupportedModelList()[k].name == name;
    assert name[0] == 'q';
  }

  /** On the registry the constructor builds, a client is created exactly
      when the name is available and the configuration is not null, and that
      client serves the requested model; an available name with a null
      configuration fails in the client constructor. */
  lemma AvailableIffClientCreated(provider: QwenModelProvider, modelName: Option<string>,
                                  configuration: Option<ModelConfiguration>)
    requires provider.supportedModels == SupportedModelList()
    ensures provider.IsModelAvailable(modelName) && configuration.Some?
            <==> provider.CreateChatClient(modelName, configuration).Ok?
    ensures provider.IsModelAvailable(modelName) && configuration.Some? ==>
      Some(provider.CreateChatClient(modelName, configuration).value.ModelName()) == modelName
    ensures provider.IsModelAvailable(modelName) && configuration.None? ==>
      provider.CreateChatClient(modelName, configuration) == Err(ArgumentNullException("configuration"))
  {
    if provider.IsModelAvailable(modelName) {
      RegisteredNamesNotBlank(modelName.value);
    }
  }
}
