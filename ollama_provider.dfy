/** The Ollama-backed provider: it wraps the input in a fixed instruction,
    invokes the model under a 10-second budget, and trims the reply. */
module OllamaProvider {
  import opened PyText
  import opened LlmBase

  /** The fixed instruction placed before every input. */
  const Instruction: string :=
    "Write a short overall assessment of the contestant based on the following judge evaluations. " +
    "Limit it to at most three sentences and do not add introductions or explanations."

  /** The instruction and the blank line that separates it from the input. */
  const PromptPrefix: string := Instruction + "\n\n"

  /** Seconds `wait_for` allows the model call. */
  const TimeoutSeconds: nat := 10

  /** The prompt: the fixed prefix, then the input, unmodified, as the suffix. */
  function BuildPrompt(text: string): (p: string)
    ensures |p| == |PromptPrefix| + |text|
    ensures p[..|PromptPrefix|] == PromptPrefix
    ensures p[|PromptPrefix|..] == text
  {
    PromptPrefix + text
  }

  /** Different inputs give different prompts: the input can be read back. */
  lemma BuildPromptInjective(a: string, b: string)
    requires BuildPrompt(a) == BuildPrompt(b)
    ensures a == b
  {
    assert a == BuildPrompt(a)[|PromptPrefix|..];
  }

  /** What the model call did: how long it ran, and how it ended. */
  datatype InvokeResult =
    | Replied(content: string)
    | RaisedTimeout
    | Raised(message: string)

  datatype Invocation = Invocation(elapsed: nat, result: InvokeResult)

  /** `summarize(text)` given the model's behaviour on each prompt: a call that
      runs past the budget, or itself raises a timeout, is a timeout; any other
      exception is a failure with its text; a reply is returned stripped. */
  function Summarize(invoke: string -> Invocation, text: string): (r: SummarizeOutcome)
    ensures r.Summarized? ==> IsStripped(r.text)
    ensures r.Summarized? <==>
      invoke(BuildPrompt(text)).elapsed <= TimeoutSeconds && invoke(BuildPrompt(text)).result.Replied?
    ensures r.Summarized? ==>
      exists pre, post :: AllSpace(pre) && AllSpace(post) &&
        invoke(BuildPrompt(text)).result.content == pre + r.text + post
    ensures r.TimedOut? <==>
      invoke(BuildPrompt(text)).elapsed > TimeoutSeconds || invoke(BuildPrompt(text)).result.RaisedTimeout?
  {
    var call := invoke(BuildPrompt(text));
    if call.elapsed > TimeoutSeconds then TimedOut
    else match call.result
      case Replied(content) => Summarized(Strip(content))
      case RaisedTimeout => TimedOut
      case Raised(message) => Failed(message)
  }

  /** The provider value the service is handed. */
  function AsProvider(invoke: string -> Invocation): (p: Provider)
    ensures forall text :: p(text).Summarized? ==> IsStripped(p(text).text)
    ensures forall text :: p(text).TimedOut? <==>
      invoke(BuildPrompt(text)).elapsed > TimeoutSeconds || invoke(BuildPrompt(text)).result.RaisedTimeout?
  {
    text => Summarize(invoke, text)
  }

  /** Trimming the summary again changes nothing. */
  lemma SummaryTrimIdempotent(invoke: string -> Invocation, text: string)
    requires Summarize(invoke, text).Summarized?
    ensures Strip(Summarize(invoke, text).text) == Summarize(invoke, text).text
  {
    var content := invoke(BuildPrompt(text)).result.content;
    StripIdempotent(content);
  }
}
