# Tender pipeline core, modelled in Dafny

This project models the core of the Enterprise Agent Platform's tender (bid) pipeline:

- the in-memory project table (`TenderProjectService`);
- the workflow stage transitions that run against it (`TenderWorkflowService`);
- the outline generation agent's result;
- the agent factory's tag dispatch;
- the Qwen model registry and the Qwen chat client's request and response translation;
- the decisions the tender HTTP controller takes.

The project table is a class whose `projects` sequence is appended to and updated in place. The workflow service is a class that holds the table and a text extraction function. Its three operations are methods, each proved equal to a fixed sequence of stage writes. The rest is pure: functions over datatypes, plus lemmas relating them.

The TODO comments at TenderWorkflowService.cs:31, 47 and 55 plan to keep the extracted text, store the feedback and mark the outline confirmed. The code does none of this. It only writes stage strings, never branches on the extracted text and ignores the store's answer. The model follows the code.

The streaming loop of `QwenChatCompletionClient.cs` has a stray character after the `try` block (line 107), so that file does not compile as written. The model takes the evident intent: a `try`/`catch` around the deserialization that skips a chunk that does not parse.

Modules, one per source file or component:

| file | module | source |
|---|---|---|
| wrappers.dfy | `Wrappers` | nullable references (`Option`), thrown exceptions (`Result`) |
| strings.dfy | `Strings` | `string.IsNullOrEmpty`, `IsNullOrWhiteSpace`, ordinal `StartsWith` |
| project_store.dfy | `ProjectStore` | TenderProjectService.cs, TenderProject.cs |
| workflow.dfy | `Workflow` | TenderWorkflowService.cs |
| outline_generation.dfy | `OutlineGeneration` | OutlineGenerationAgent.cs, TenderOutline.cs |
| agent_factory.dfy | `AgentFactory` | AgentFactory.cs |
| chat_contracts.dfy | `ChatContracts` | ChatTypes.cs, IModelProvider.cs (records only) |
| qwen_chat_client.dfy | `QwenChatCompletion` | QwenChatCompletionClient.cs |
| qwen_model_provider.dfy | `QwenModelProvider` | QwenModelProvider.cs |
| tender_controller.dfy | `TenderApi` | TenderController.cs |

## Model

| member | source | states |
|---|---|---|
| ProjectStore.FirstIndex | src/Enterprise.Agent.Services/TenderProjectService.cs:30 | `FirstOrDefault` by id: the index found holds the id and no earlier record does; None exactly when no record has the id |
| ProjectStore.Lookup | src/Enterprise.Agent.Services/TenderProjectService.cs:28-32 | the project returned is the first record with that id; null exactly when no record has it |
| ProjectStore.WithStage | src/Enterprise.Agent.Services/TenderProjectService.cs:39-48 | the table after a status update: same length; each record either is unchanged or is the first record with the id, with only its stage replaced by the new one (and then it has the new stage); with no record of that id the table is unchanged |
| ProjectStore.FirstIndexOnIds | src/Enterprise.Agent.Services/TenderProjectService.cs:30 | the lookup depends only on the sequence of ids |
| ProjectStore.WithStageKeepsIds | src/Enterprise.Agent.Services/TenderProjectService.cs:39-48 | a stage update keeps the table's length and every record's id |
| ProjectStore.WithStageChangesOnlyTarget | src/Enterprise.Agent.Services/TenderProjectService.cs:41-45 | only the first record with the id changes, and in it only `CurrentStage`; every other field and every other record is unchanged |
| ProjectStore.WithStageMissing | src/Enterprise.Agent.Services/TenderProjectService.cs:47 | updating an id no record has leaves the table unchanged |
| ProjectStore.LookupAfterWithStage | src/Enterprise.Agent.Services/TenderProjectService.cs:39-48 | after a successful update, `GetProject(id)` is the old record with only the stage replaced by the new one |
| ProjectStore.LookupOtherAfterWithStage | src/Enterprise.Agent.Services/TenderProjectService.cs:39-48 | updating one id does not change what the lookup of any other id returns |
| ProjectStore.LastWriteWins | src/Enterprise.Agent.Services/TenderProjectService.cs:44 | two updates of one id equal the second update alone |
| ProjectStore.WithStageIdempotent | src/Enterprise.Agent.Services/TenderProjectService.cs:44 | applying the same status update twice gives the table applying it once gives |
| ProjectStore.TenderProjectService.constructor | src/Enterprise.Agent.Services/TenderProjectService.cs:11 | the table starts empty |
| ProjectStore.TenderProjectService.CreateProject | src/Enterprise.Agent.Services/TenderProjectService.cs:13-26 | the new record has the given id, name, creator and time, stage "Initial", an empty requirement document and null optional fields; it is appended, so `GetAllProjects` lists records in insertion order and earlier records are unchanged |
| ProjectStore.TenderProjectService.GetProject | src/Enterprise.Agent.Services/TenderProjectService.cs:28-32 | null exactly when no record in the table has the id; otherwise a record of the table with that id, with no earlier record having it (the first match) |
| ProjectStore.TenderProjectService.GetAllProjects | src/Enterprise.Agent.Services/TenderProjectService.cs:34-37 | the whole table as it stands, in insertion order (CreateProject appends to the end of it) |
| ProjectStore.TenderProjectService.UpdateProjectStatus | src/Enterprise.Agent.Services/TenderProjectService.cs:39-48 | returns true iff some record has the id; the new table is the stage update of the old; on false the table is unchanged; on true `GetProject(id)` shows the new stage; one stage write is recorded |
| Workflow.Started | src/Enterprise.Agent.Services/TenderWorkflowService.cs:24-43 | the table after start is the single "OutlineGenerationPending" update: ids and length kept; an unknown project leaves it unchanged; an existing project is the old record with only the stage changed |
| Workflow.FeedbackProcessed | src/Enterprise.Agent.Services/TenderWorkflowService.cs:45-51 | ids and length kept; an unknown project leaves the table unchanged; an existing project is the old record at "OutlineRegenerationPending" |
| Workflow.Confirmed | src/Enterprise.Agent.Services/TenderWorkflowService.cs:53-59 | ids and length kept; an unknown project leaves the table unchanged; an existing project is the old record at "ContentStructurePending" |
| Workflow.TenderWorkflowService.constructor | src/Enterprise.Agent.Services/TenderWorkflowService.cs:14-22 | the service holds the given store and text extractor |
| Workflow.TenderWorkflowService.StartProjectWorkflow | src/Enterprise.Agent.Services/TenderWorkflowService.cs:24-43 | writes exactly "DocumentProcessing" then "OutlineGenerationPending" for the project; the final table is the single "OutlineGenerationPending" update, whatever the extracted text is |
| Workflow.TenderWorkflowService.ProcessOutlineFeedback | src/Enterprise.Agent.Services/TenderWorkflowService.cs:45-51 | writes exactly "OutlineRegenerationPending"; the outline id and feedback text are stored nowhere |
| Workflow.TenderWorkflowService.ConfirmOutline | src/Enterprise.Agent.Services/TenderWorkflowService.cs:53-59 | writes exactly "ContentStructurePending" |
| Workflow.StartEndsOutlinePending | src/Enterprise.Agent.Services/TenderWorkflowService.cs:27-40 | the intermediate "DocumentProcessing" is overwritten: an existing project ends at "OutlineGenerationPending" with every other field kept |
| Workflow.UnknownProjectUnchanged | src/Enterprise.Agent.Services/TenderWorkflowService.cs:24-59 | for an unknown project id, start, feedback and confirm all leave the table unchanged |
| Workflow.FeedbackAndConfirmStages | src/Enterprise.Agent.Services/TenderWorkflowService.cs:45-59 | feedback sets "OutlineRegenerationPending" and confirm sets "ContentStructurePending" on the target project only; every other project looks the same |
| Workflow.ConfirmTwiceIsConfirmOnce | src/Enterprise.Agent.Services/TenderWorkflowService.cs:53-59 | confirming twice gives the same table as confirming once |
| Workflow.LastOperationWins | src/Enterprise.Agent.Services/TenderWorkflowService.cs:40-56 | with no guard on the current stage, the last operation decides it: feedback then confirm equals confirm; confirm then feedback equals feedback; confirm then start ends at "OutlineGenerationPending" |
| OutlineGeneration.Echo | src/Enterprise.Agent.Agents/OutlineGenerationAgent.cs:36 | the echoed text is a prefix of the requirement of length min(length, 75): all of it when it has at most 75 characters, otherwise exactly 75 |
| OutlineGeneration.GenerateOutline | src/Enterprise.Agent.Agents/OutlineGenerationAgent.cs:16-53 | status "Error" iff the requirement text is null or empty, with the fixed error content; otherwise "Draft"; in both cases version 1, empty feedback, the given project id and outline id |
| OutlineGeneration.DraftContentRoundTrip | src/Enterprise.Agent.Agents/OutlineGenerationAgent.cs:36-40 | a draft's content is the fixed lead, the echoed requirement prefix and the four fixed headings, and the echo can be read back out of it; the error content does not have this shape |
| AgentFactory.CreateAgent | src/Enterprise.Agent.Agents/AgentFactory.cs:16-37 | a created agent carries exactly the given id and name, and the tag is exactly its kind's tag; every other tag, null included, fails with "Unknown agent type: " followed by the tag |
| AgentFactory.CreateFromTag | src/Enterprise.Agent.Agents/AgentFactory.cs:20-32 | each of the six tags creates its own kind |
| AgentFactory.AcceptedIffRegistered | src/Enterprise.Agent.Agents/AgentFactory.cs:18-35 | a tag is accepted iff it is one of the six registered tags |
| AgentFactory.LowerCaseTagRejected | src/Enterprise.Agent.Agents/AgentFactory.cs:18 | matching is case-sensitive: "chatagent" is rejected |
| QwenChatCompletion.EndpointFor | src/Enterprise.Agent.Models.Domestic/Qwen/QwenChatCompletionClient.cs:31-32 | the model's "endpoint" metadata entry when there is one, otherwise the DashScope default URL |
| QwenChatCompletion.ConvertToQwenMessage | src/Enterprise.Agent.Models.Domestic/Qwen/QwenChatCompletionClient.cs:175-182 | the Qwen message keeps the role and the content; the name and tool call id are dropped |
| QwenChatCompletion.LineOutput | src/Enterprise.Agent.Models.Domestic/Qwen/QwenChatCompletionClient.cs:97-114 | a line delivers a parsed chunk iff it starts with "data: " and its payload parses to a non-null chunk whose output has non-null text; that chunk is the parse result |
| QwenChatCompletion.NewClient | src/Enterprise.Agent.Models.Domestic/Qwen/QwenChatCompletionClient.cs:20-42 | the endpoint is the model's "endpoint" metadata entry when present, otherwise the DashScope default; the configuration plays no part in it |
| QwenChatCompletion.QwenChatCompletionClient.CreateQwenRequest | src/Enterprise.Agent.Models.Domestic/Qwen/QwenChatCompletionClient.cs:139-182 | messages map one to one and in order, with role and content copied; incremental output equals the stream flag; max tokens is copied when options are given; stop words are copied only when the list is present and non-empty |
| QwenChatCompletion.QwenChatCompletionClient.ConvertToStandardResponse | src/Enterprise.Agent.Models.Domestic/Qwen/QwenChatCompletionClient.cs:184-213 | exactly one choice, index 0, role "assistant"; content is the output text or ""; finish reason defaults to "stop"; each token count defaults to 0; the id is the request id or a fresh one |
| QwenChatCompletion.QwenChatCompletionClient.CompletionFromBody | src/Enterprise.Agent.Models.Domestic/Qwen/QwenChatCompletionClient.cs:61-70 | a body that fails to parse, or parses to null, makes the call throw; otherwise the result is the converted response |
| QwenChatCompletion.QwenChatCompletionClient.StreamChunk | src/Enterprise.Agent.Models.Domestic/Qwen/QwenChatCompletionClient.cs:116-133 | a chunk carries the request id (or a fresh one) and the client's model name; it has one choice at index 0 whose delta is role "assistant" with the output text, and whose finish reason is the output's, not defaulted |
| QwenChatCompletion.QwenChatCompletionClient.LineChunk | src/Enterprise.Agent.Models.Domestic/Qwen/QwenChatCompletionClient.cs:97-134 | a line yields a chunk iff it carries text; the chunk is for the client's model and has a single assistant delta with exactly that text |
| QwenChatCompletion.QwenChatCompletionClient.StreamOf | src/Enterprise.Agent.Models.Domestic/Qwen/QwenChatCompletionClient.cs:92-136 | the chunks the response lines yield: at most one per line, each for the client's model with one choice at index 0 |
| QwenChatCompletion.StreamStep | src/Enterprise.Agent.Models.Domestic/Qwen/QwenChatCompletionClient.cs:97-134 | one step of reading: a "[DONE]" line ends the stream; any other line puts its chunk, if it has one, before the chunks of the remaining lines |
| QwenChatCompletion.QwenChatCompletionClient.CreateChatCompletionStream | src/Enterprise.Agent.Models.Domestic/Qwen/QwenChatCompletionClient.cs:73-137 | posts a request with incremental output; the loop yields exactly the chunks the line-by-line reading defines |
| QwenChatCompletion.NonDataLineIgnored | src/Enterprise.Agent.Models.Domestic/Qwen/QwenChatCompletionClient.cs:97 | a line without the "data: " prefix yields nothing and does not end the stream |
| QwenChatCompletion.MalformedLineSkipped | src/Enterprise.Agent.Models.Domestic/Qwen/QwenChatCompletionClient.cs:103-112 | a payload that fails to parse is skipped and reading continues |
| QwenChatCompletion.StreamAppend | src/Enterprise.Agent.Models.Domestic/Qwen/QwenChatCompletionClient.cs:92-136 | chunks come out in line order: before any end marker, the chunks of two stretches of lines are the first stretch's chunks followed by the second's |
| QwenChatCompletion.DoneEndsStream | src/Enterprise.Agent.Models.Domestic/Qwen/QwenChatCompletionClient.cs:99-101 | no line after a "[DONE]" payload yields a chunk |
| QwenChatCompletion.StreamChunkShape | src/Enterprise.Agent.Models.Domestic/Qwen/QwenChatCompletionClient.cs:114-131 | every chunk has one choice at index 0 with role "assistant" for the client's model, and its content is the non-null output text of a line read before any end marker |
| QwenChatCompletion.CompletionAndStreamAgree | src/Enterprise.Agent.Models.Domestic/Qwen/QwenChatCompletionClient.cs:114-196 | for one output, the streaming chunk and the full response carry the same request id when the provider sent one; otherwise each draws its own fresh id; they carry the same model, role and text; only the full response defaults a missing finish reason to "stop" |
| QwenModelProvider.SupportedModelList | src/Enterprise.Agent.Models.Domestic/Qwen/QwenModelProvider.cs:63-181 | four models in the order qwen-turbo, qwen-plus, qwen-max, qwen-max-longcontext, with distinct names; for each, max input plus max output tokens equals max tokens; each is served at the default endpoint |
| QwenModelProvider.FindModel | src/Enterprise.Agent.Models.Domestic/Qwen/QwenModelProvider.cs:32 | the model found is registered and has the requested name; none is found iff no registered name equals the request (null never matches) |
| QwenModelProvider.QwenModelProvider.constructor | src/Enterprise.Agent.Models.Domestic/Qwen/QwenModelProvider.cs:15-21 | after construction the registry is exactly the four models |
| QwenModelProvider.QwenModelProvider.InitializeSupportedModels | src/Enterprise.Agent.Models.Domestic/Qwen/QwenModelProvider.cs:61-185 | appends the four models to the registry |
| QwenModelProvider.QwenModelProvider.CreateChatClient | src/Enterprise.Agent.Models.Domestic/Qwen/QwenModelProvider.cs:27-39 | a null, empty or white-space name fails with its message; an unregistered name fails with the "not supported by Qwen" message; both errors name the parameter "modelName"; for a registered name, a null configuration fails with the client constructor's `ArgumentNullException` for "configuration"; a client created serves a registered model whose name is the requested one, with the given configuration |
| QwenModelProvider.QwenModelProvider.IsModelAvailable | src/Enterprise.Agent.Models.Domestic/Qwen/QwenModelProvider.cs:41-59 | true iff some registered model has that name |
| QwenModelProvider.RegisteredNamesNotBlank | src/Enterprise.Agent.Models.Domestic/Qwen/QwenModelProvider.cs:67-154 | no registered model name is null, empty or white space |
| QwenModelProvider.AvailableIffClientCreated | src/Enterprise.Agent.Models.Domestic/Qwen/QwenModelProvider.cs:27-47 | on the constructed registry a client is created iff the name is available and the configuration is not null, and its model name is the requested one; an available name with a null configuration fails with the `ArgumentNullException` for "configuration" |
| QwenModelProvider.BlankNameMessage | src/Enterprise.Agent.Models.Domestic/Qwen/QwenModelProvider.cs:29-30 | the `Message` reported for a blank name is "Model name cannot be null or empty (Parameter 'modelName')" |
| QwenModelProvider.UnsupportedNameMessage | src/Enterprise.Agent.Models.Domestic/Qwen/QwenModelProvider.cs:33-36 | the `Message` reported for an unregistered name is "Model '<name>' is not supported by Qwen (Parameter 'modelName')" |
| QwenModelProvider.NullConfigurationMessage | src/Enterprise.Agent.Models.Domestic/Qwen/QwenChatCompletionClient.cs:28 | for a registered name and a null configuration, the `Message` reported is "Value cannot be null. (Parameter 'configuration')" |
| TenderApi.OutlineStatusLabel | src/Enterprise.Agent.Api/Controllers/TenderController.cs:101 | "PendingUserReview" for "OutlineGenerationPending" and "OutlineRegenerationPending"; every other stage as it is |
| TenderApi.PendingReviewLabel | src/Enterprise.Agent.Api/Controllers/TenderController.cs:101 | the label is "PendingUserReview" iff the stage is one of the two outline-pending stages or is itself "PendingUserReview" |
| TenderApi.CreateTenderProject | src/Enterprise.Agent.Api/Controllers/TenderController.cs:37-50 | 400 with no service call for a null request or a null or white-space name or creator; otherwise the project is created with those values, and the answer is 200 with the returned project, or 400 if the service returned null |
| TenderApi.UploadRequirementDocument | src/Enterprise.Agent.Api/Controllers/TenderController.cs:54-84 | 400 for a null or empty file before any lookup; then 404 for a missing project; the workflow is started with the file's bytes only after both checks pass; a thrown exception gives 500 |
| TenderApi.GetProjectOutline | src/Enterprise.Agent.Api/Controllers/TenderController.cs:88-105 | 404 for a missing project; otherwise the simulated outline with version 1, whatever the stage, and the stage's status label |
| TenderApi.UpdateProjectOutline | src/Enterprise.Agent.Api/Controllers/TenderController.cs:109-132 | 400 when the request, its outline id or its feedback is null or white space; then 404; the feedback call is made only after both checks pass; a thrown exception gives 500 |
| TenderApi.ConfirmProjectOutline | src/Enterprise.Agent.Api/Controllers/TenderController.cs:136-159 | 400 when the request or its outline id is null or white space; then 404; the confirm call is made only after both checks pass; a thrown exception gives 500 |
| TenderApi.ValidationBeforeLookup | src/Enterprise.Agent.Api/Controllers/TenderController.cs:56-147 | an invalid request or empty file gets the same response whatever the lookup and workflow results are |
| TenderApi.LabelAfterWorkflow | src/Enterprise.Agent.Api/Controllers/TenderController.cs:101 | after start or feedback on an existing project the outline endpoint reports "PendingUserReview"; after confirm it reports "ContentStructurePending" |
| TenderApi.FeedbackAcceptedThenPendingReview | src/Enterprise.Agent.Api/Controllers/TenderController.cs:109-132 | when the feedback endpoint answers 200, the outline afterwards is reported as awaiting review, at version 1 |

## Left out

- Guid generation and `DateTime.UtcNow`: the new project id, the clock reading and the outline id are parameters. A response id the client would draw is the marker `GeneratedId`. Guid uniqueness is not assumed; the lookup takes the first match anyway.
- PDF text extraction (`DocumentProcessingService`, PdfPig): a function from bytes to text handed to the workflow service. It catches every error and returns "", so it never throws. The console line that prints its first 100 characters is output only.
- `Task.Delay`, async scheduling and concurrency: each operation is treated as atomic. The store's unsynchronised list is not modelled under concurrent use.
- Aliasing: `GetProjectAsync` returns a reference to the stored record, so a caller could mutate it. The model returns a copy. `GetAllProjectsAsync` returns a live view; the model returns the current sequence.
- Null arguments to the store and workflow (`projectId`, `projectName`, `newStatus`): ids, names and stages are non-null strings. Null is modelled where the code tests for it and a caller can pass it: controller requests, the outline input, the model name, the agent tag, and the configuration handed to `CreateChatClient`.
- The constructor null guards of the workflow service (TenderWorkflowService.cs:19-21) are not modelled: the store and the extractor are Dafny references and functions, which cannot be null, and the agent management service is not part of this model.
- QwenChatCompletion.NewClient: takes a non-null configuration. The client constructor's guard for a null configuration (QwenChatCompletionClient.cs:28) is modelled where the provider reaches it, in `CreateChatClient`. Its guard for a null model is not modelled, since the model always comes from the registry. Its guards for a null HTTP client or logger are not modelled either, because neither is part of this model.
- HTTP: posting, status checks, the bearer header set on the shared `HttpClient`, and reading the response stream. The stream is given as its sequence of lines.
- QwenChatCompletion.QwenChatCompletionClient.CreateChatCompletionStream: the per-line cancellation check is not modelled.
- Temperature and top-p (double to float casts), the pricing metadata entries, `RequestTimeout` and the `Object`/`Created` fields of responses: floating point, durations and clock values.
- Text operations use Dafny characters (Unicode scalar values). `Substring` in .NET counts UTF-16 code units and can split a surrogate pair; the model does not. `StartsWith("data: ")` is culture-sensitive in .NET; the model compares ordinally.
- Logging in every component, and the provider's `ArgumentNullException` guards for a null logger or HTTP client.
- The controller's section and generation endpoints and the memory-stream copy of the uploaded file: constant data and I/O. The uploaded bytes are the file's content.
- AgentFactory.CreateAgent: builds the agent's kind, id and name only. The agent classes themselves are empty shells or prompt setup, and their constructors are not modelled.
- Program startup, the chat and agents controllers, the user interaction service and the other agent shells: configuration, transport or stubs with no logic of their own.
- Outline versioning, feedback storage, requirement persistence and failure stages are not modelled: the code has none of them.
