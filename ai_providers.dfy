/** What a provider adapter answers: which provider answered, for which task, and the text it produced. */
module AiResults {
  datatype AiResult = AiResult(provider: string, task: string, output: string)

  /** The output was produced from exactly this input, after a fixed prefix. */
  predicate EchoesInput(r: AiResult, prefix: string, input: string) {
    |prefix| <= |r.output| && r.output[..|prefix|] == prefix && r.output[|prefix|..] == input
  }
}

/** The Claude adapter, a deterministic mock. */
module Claude {
  import opened AiResults

  const Provider: string := "claude"
  const OutputPrefix: string := "Claude mock response for: "

  /** `requestClaude`: never fails; answers for the given task with the input echoed after a fixed prefix. */
  function RequestClaude(task: string, input: string): (r: AiResult)
    ensures r.provider == Provider && r.task == task
    ensures EchoesInput(r, OutputPrefix, input)
  {
    AiResult(Provider, task, OutputPrefix + input)
  }

  /** Different inputs give different answers: the input is recovered by dropping the prefix. */
  lemma RequestClaudeInjective(task: string, a: string, b: string)
    requires RequestClaude(task, a).output == RequestClaude(task, b).output
    ensures a == b
  {
    assert a == RequestClaude(task, a).output[|OutputPrefix|..];
  }
}

/** The OpenAI adapter, a deterministic mock. */
module OpenAi {
  import opened AiResults

  const Provider: string := "openai"
  const OutputPrefix: string := "OpenAI mock response for: "

  /** `requestOpenAI`: never fails; answers for the given task with the input echoed after a fixed prefix. */
  function RequestOpenAi(task: string, input: string): (r: AiResult)
    ensures r.provider == Provider && r.task == task
    ensures EchoesInput(r, OutputPrefix, input)
  {
    AiResult(Provider, task, OutputPrefix + input)
  }

  /** Different inputs give different answers: the input is recovered by dropping the prefix. */
  lemma RequestOpenAiInjective(task: string, a: string, b: string)
    requires RequestOpenAi(task, a).output == RequestOpenAi(task, b).output
    ensures a == b
  {
    assert a == RequestOpenAi(task, a).output[|OutputPrefix|..];
  }
}
