/** Choosing the provider adapter for an AI task. */
module AiRouter {
  import opened AiResults
  import Claude
  import OpenAi

  datatype AiTask = ChatTask | DocumentTask | SlidesTask | SummaryTask | ProblemsTask | ImageTask | TranscribeTask

  /** The task's name as the adapters receive it. */
  function TaskName(t: AiTask): string {
    match t
    case ChatTask => "chat"
    case DocumentTask => "document"
    case SlidesTask => "slides"
    case SummaryTask => "summary"
    case ProblemsTask => "problems"
    case ImageTask => "image"
    case TranscribeTask => "transcribe"
  }

  /** The rule for every task without a rule of its own: OpenAI when a key is stored, Claude otherwise. */
  function DefaultRoute(task: AiTask, input: string, hasKey: bool): AiResult {
    if hasKey then OpenAi.RequestOpenAi(TaskName(task), input) else Claude.RequestClaude(TaskName(task), input)
  }

  /**
   * `runAiTask`, with the stored-key lookup as `hasKey`: images always go to
   * OpenAI, and every other task to OpenAI exactly when a key is stored. The
   * chosen adapter's answer is returned unchanged.
   */
  function RunAiTask(task: AiTask, input: string, hasKey: bool): (r: AiResult)
    ensures r.task == TaskName(task)
    ensures r.provider == OpenAi.Provider <==> task == ImageTask || hasKey
    ensures r.provider == Claude.Provider <==> task != ImageTask && !hasKey
    ensures r == if task == ImageTask || hasKey then OpenAi.RequestOpenAi(TaskName(task), input)
      else Claude.RequestClaude(TaskName(task), input)
  {
    if task == ImageTask then OpenAi.RequestOpenAi(TaskName(task), input)
    else if task == TranscribeTask then
      if hasKey then OpenAi.RequestOpenAi(TaskName(task), input) else Claude.RequestClaude(TaskName(task), input)
    else if hasKey then OpenAi.RequestOpenAi(TaskName(task), input)
    else Claude.RequestClaude(TaskName(task), input)
  }

  /** Different tasks have different names, so the adapters can tell them apart. */
  lemma TaskNameInjective(a: AiTask, b: AiTask)
    requires TaskName(a) == TaskName(b)
    ensures a == b
  {
  }

  /** Images go to OpenAI whether or not a key is stored. */
  lemma ImageIgnoresKey(input: string)
    ensures RunAiTask(ImageTask, input, false) == RunAiTask(ImageTask, input, true)
    ensures RunAiTask(ImageTask, input, false).provider == OpenAi.Provider
  {
  }

  /** Transcription has a branch of its own, but it decides exactly as the default rule does. */
  lemma TranscribeIsDefault(input: string, hasKey: bool)
    ensures RunAiTask(TranscribeTask, input, hasKey) == DefaultRoute(TranscribeTask, input, hasKey)
  {
  }

  /** Every task but images follows the default rule. */
  lemma NonImageIsDefault(task: AiTask, input: string, hasKey: bool)
    requires task != ImageTask
    ensures RunAiTask(task, input, hasKey) == DefaultRoute(task, input, hasKey)
  {
  }
}
