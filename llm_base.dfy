/** The summarisation capability every provider offers: a call on a text that
    either returns a summary, runs out of time, or fails in some other way. */
module LlmBase {

  /** What one `summarize` call comes to: its returned text, a `TimeoutError`,
      or any other exception (with its text). */
  datatype SummarizeOutcome =
    | Summarized(text: string)
    | TimedOut
    | Failed(message: string)

  /** A provider, as the service sees it: the outcome of summarising each text. */
  type Provider = string -> SummarizeOutcome
}
