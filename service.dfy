/** The evaluation service: pass-through operations that turn an absent store
    result into a not-found error, and the per-contestant aggregation that
    renders the evaluations as a prompt, sums the scores and folds the
    summariser's outcome into the response. */
module Service {
  import opened Wrappers
  import opened PyText
  import opened Models
  import opened Schemas
  import opened Errors
  import opened Handlers
  import opened Repository
  import opened LlmBase
  import OllamaProvider

  // ---------------------------------------------------------------------
  // validate_and_return_data
  // ---------------------------------------------------------------------

  /** A value a store call hands back, as far as Python's truth test sees it:
      `None`, a boolean, or a record (always truthy). */
  datatype StoreValue<T> = NoneValue | BoolValue(b: bool) | ObjectValue(obj: T) {
    predicate Falsy() {
      NoneValue? || (BoolValue? && !b)
    }
  }

  function FromOption<T>(o: Option<T>): StoreValue<T> {
    match o
    case None => NoneValue
    case Some(v) => ObjectValue(v)
  }

  /** The not-found message; the uuid's text is abstracted as the decimal text of the id. */
  function NotFoundMessage(id: Id): string {
    "Evaluation " + NatText(id) + " not found"
  }

  /** A falsy store result (`None` or `False`) becomes a NotFoundError naming
      the id; anything else comes back unchanged. */
  function ValidateAndReturnData<T>(id: Id, res: StoreValue<T>): (r: Result<StoreValue<T>, CustomException>)
    ensures r.Failure? <==> res.Falsy()
    ensures r.Success? ==> r.value == res
    ensures r.Failure? ==>
      r.error.cls == NotFoundErrorClass && r.error.statusCode == HTTP_404_NOT_FOUND &&
      r.error.message == NotFoundMessage(id)
  {
    if res.Falsy() then Failure(NewNotFoundError(NotFoundMessage(id))) else Success(res)
  }

  /** Through the custom exception handler, a not-found result is a 404
      response whose detail is "Evaluation {id} not found". */
  lemma NotFoundIs404<T>(id: Id, res: StoreValue<T>)
    requires res.Falsy()
    ensures var r := ValidateAndReturnData(id, res);
            r.Failure? && Handle(Custom(r.error)) == JsonResponse(404, map["detail" := NotFoundMessage(id)])
  {
  }

  // ---------------------------------------------------------------------
  // get_evaluations_for_contestant: its specification
  // ---------------------------------------------------------------------

  const TimeoutMessage: string := "LLM generation timed out"
  const FailureMessage: string := "LLM generation failed"

  /** One line of the prompt: `Judge {judge_id} (Score: {score}): {notes}`. */
  function RenderLine(e: Evaluation): (r: string)
    ensures EndsWith(r, e.notes)
  {
    var head := "Judge " + e.judgeId + " (Score: " + IntText(e.score) + "): ";
    assert (head + e.notes)[|head|..] == e.notes;
    head + e.notes
  }

  /** `[f(x) for x in xs]`, built front to back. */
  function MapSeq<A, B>(f: A -> B, xs: seq<A>): (ys: seq<B>)
    ensures |ys| == |xs|
    ensures forall i :: 0 <= i < |xs| ==> ys[i] == f(xs[i])
    decreases |xs|
  {
    if xs == [] then [] else MapSeq(f, xs[..|xs| - 1]) + [f(xs[|xs| - 1])]
  }

  /** The rendered lines, one per record and in the same order. */
  function RenderedLines(evs: seq<Evaluation>): (lines: seq<string>)
    ensures |lines| == |evs|
    ensures forall i :: 0 <= i < |evs| ==> lines[i] == RenderLine(evs[i])
  {
    MapSeq(RenderLine, evs)
  }

  /** The text handed to the provider: the rendered lines joined by newlines. */
  function Prompt(evs: seq<Evaluation>): string {
    Join("\n", RenderedLines(evs))
  }

  /** The sum of the scores, accumulated front to back. */
  function SumScores(evs: seq<Evaluation>): int
    decreases |evs|
  {
    if evs == [] then 0 else SumScores(evs[..|evs| - 1]) + evs[|evs| - 1].score
  }

  /** The response for the records the store returned. No records: nothing is
      summarised and all three optional fields are unset. Otherwise exactly one
      of summary and summary_error is set, an error is one of two fixed texts,
      and the score tally is present. The records are always returned as given. */
  function Aggregate(evs: seq<Evaluation>, provider: Provider): (r: EvaluationSummary)
    ensures r.evaluations == evs
    ensures evs == [] ==> r.summary.None? && r.summaryError.None? && r.overallScore.None?
    ensures evs != [] ==> (r.summary.Some? <==> r.summaryError.None?)
    ensures r.summaryError.Some? ==> r.summaryError.value in {TimeoutMessage, FailureMessage}
    ensures r.overallScore.Some? <==> evs != []
    ensures evs != [] ==> r.overallScore == Some(ScoreTally(SumScores(evs), |evs|))
  {
    if evs == [] then EvaluationSummary(evs, None, None, None)
    else
      var tally := Some(ScoreTally(SumScores(evs), |evs|));
      match provider(Prompt(evs))
      case Summarized(s) => EvaluationSummary(evs, Some(s), None, tally)
      case TimedOut => EvaluationSummary(evs, None, Some(TimeoutMessage), tally)
      case Failed(_) => EvaluationSummary(evs, None, Some(FailureMessage), tally)
  }

  /** How each provider outcome is folded in: a summary is passed through
      untouched, a timeout and any other failure are reported by fixed texts. */
  lemma OutcomeFolding(evs: seq<Evaluation>, provider: Provider)
    requires evs != []
    ensures var r := Aggregate(evs, provider);
            match provider(Prompt(evs))
            case Summarized(s) => r.summary == Some(s) && r.summaryError == None
            case TimedOut => r.summary == None && r.summaryError == Some("LLM generation timed out")
            case Failed(_) => r.summary == None && r.summaryError == Some("LLM generation failed")
  {
  }

  /** The provider is consulted on the prompt and on nothing else; with no
      records it is not consulted at all. */
  lemma ProviderSeesOnlyPrompt(evs: seq<Evaluation>, p1: Provider, p2: Provider)
    requires evs == [] || p1(Prompt(evs)) == p2(Prompt(evs))
    ensures Aggregate(evs, p1) == Aggregate(evs, p2)
  {
  }

  /** The failure's own text never reaches the response. */
  lemma FailureTextHidden(evs: seq<Evaluation>, p1: Provider, p2: Provider)
    requires evs != [] && p1(Prompt(evs)).Failed? && p2(Prompt(evs)).Failed?
    ensures Aggregate(evs, p1) == Aggregate(evs, p2)
  {
  }

  lemma RenderLineHasNoNewline(e: Evaluation)
    requires '\n' !in e.judgeId && '\n' !in e.notes
    ensures '\n' !in RenderLine(e)
  {
    var t := IntText(e.score);
    assert '\n' !in t by {
      if e.score < 0 {
        assert t == [t[0]] + t[1..];
      }
    }
  }

  /** When no judge id or note contains a newline, the prompt is exactly one
      line per record, in the order the store returned them. */
  lemma PromptLines(evs: seq<Evaluation>)
    requires evs != []
    requires forall i :: 0 <= i < |evs| ==> '\n' !in evs[i].judgeId && '\n' !in evs[i].notes
    ensures SplitOn(Prompt(evs), '\n') == RenderedLines(evs)
  {
    var lines := RenderedLines(evs);
    forall i | 0 <= i < |lines|
      ensures '\n' !in lines[i]
    {
      RenderLineHasNoNewline(evs[i]);
    }
    SplitJoin(lines, '\n');
  }

  /** The prompt ends with the last record's notes: no newline trails it. */
  lemma PromptEndsWithLastNotes(evs: seq<Evaluation>)
    requires evs != []
    ensures EndsWith(Prompt(evs), evs[|evs| - 1].notes)
  {
    var e := evs[|evs| - 1];
    var lines := RenderedLines(evs);
    assert lines[|lines| - 1] == RenderLine(e);
    JoinEndsWithLast("\n", lines);
    EndsWithTransitive(Join("\n", lines), lines[|lines| - 1], e.notes);
  }

  /** For records that meet the schema, the total lies between 0 and 100 per record. */
  lemma {:induction false} ScoreTotalBounds(evs: seq<Evaluation>)
    requires forall i :: 0 <= i < |evs| ==> MinScore <= evs[i].score <= MaxScore
    ensures 0 <= SumScores(evs) <= MaxScore * |evs|
    decreases |evs|
  {
    if evs != [] {
      ScoreTotalBounds(evs[..|evs| - 1]);
    }
  }

  /** `overall_score` as written: the float `sum / count` goes into a field
      declared `int | None`, and schema validation rejects a float with a
      fractional part, so the response cannot be built and the read fails. */
  function OverallScoreAsWritten(evs: seq<Evaluation>): (r: Result<Option<int>, Raised>)
    ensures evs == [] ==> r == Success(None)
    ensures evs != [] ==> (r.Success? <==> SumScores(evs) % |evs| == 0)
    ensures r.Success? && evs != [] ==> r.value == Some(SumScores(evs) / |evs|)
  {
    if evs == [] then Success(None)
    else if SumScores(evs) % |evs| == 0 then Success(Some(SumScores(evs) / |evs|))
    else Failure(OtherError("overall_score: Input should be a valid integer, got a number with a fractional part"))
  }

  /** Two valid scores 80 and 91 average 85.5: as written, the whole read
      answers 500 instead of returning the evaluations, while the tally the
      model reports is present. */
  lemma FractionalAverageFailsRead(e1: Evaluation, e2: Evaluation, provider: Provider)
    requires e1.score == 80 && e2.score == 91
    ensures OverallScoreAsWritten([e1, e2]).Failure?
    ensures Handle(OverallScoreAsWritten([e1, e2]).error).statusCode == 500
    ensures Aggregate([e1, e2], provider).overallScore == Some(ScoreTally(171, 2))
  {
    assert [e1, e2][..1] == [e1];
    assert [e1][..0] == [];
    assert SumScores([e1]) == 80;
    assert SumScores([e1, e2]) == 171;
  }

  /** With the Ollama provider, a summary never starts or ends with whitespace. */
  lemma OllamaSummaryStripped(evs: seq<Evaluation>, invoke: string -> OllamaProvider.Invocation)
    ensures var r := Aggregate(evs, OllamaProvider.AsProvider(invoke));
            r.summary.Some? ==> IsStripped(r.summary.value)
  {
    if evs != [] {
      OutcomeFolding(evs, OllamaProvider.AsProvider(invoke));
    }
  }

  /** The store read comes first: when it raises, the exception propagates
      unchanged and the provider is never consulted. */
  function GetEvaluationsOrRaise(read: Result<seq<Evaluation>, Raised>, provider: Provider): (r: Result<EvaluationSummary, Raised>)
    ensures read.Failure? ==> r == Failure(read.error)
    ensures read.Success? ==> r.Success? && r.value.evaluations == read.value
  {
    match read
    case Failure(e) => Failure(e)
    case Success(evs) => Success(Aggregate(evs, provider))
  }

  /** A database failure during the read answers 500 "Internal Database
      Error", whatever the provider would have done. */
  lemma StoreFailureWins(text: string, provider: Provider)
    ensures var r := GetEvaluationsOrRaise(Failure(DatabaseError(text)), provider);
            r.Failure? && Handle(r.error) == JsonResponse(500, map["detail" := "Internal Database Error"])
  {
  }

  /** Two records for one contestant and a provider that answers "Mock
      Summary": both records come back with that summary. */
  lemma MockSummaryScenario(e1: Evaluation, e2: Evaluation)
    ensures var r := Aggregate([e1, e2], _ => Summarized("Mock Summary"));
            |r.evaluations| == 2 && r.summary == Some("Mock Summary") && r.summaryError == None
  {
  }

  /** One record and a provider that raises: the record comes back, the
      summary is unset and the error is the fixed generic text. */
  lemma FailingProviderScenario(e: Evaluation)
    ensures var r := Aggregate([e], _ => Failed("LLM Service Unavailable"));
            |r.evaluations| == 1 && r.summary == None && r.summaryError == Some("LLM generation failed")
  {
  }

  /** Extending the processed prefix by one record adds its line and its score. */
  lemma PrefixStep(evs: seq<Evaluation>, i: nat)
    requires i < |evs|
    ensures RenderedLines(evs[..i + 1]) == RenderedLines(evs[..i]) + [RenderLine(evs[i])]
    ensures SumScores(evs[..i + 1]) == SumScores(evs[..i]) + evs[i].score
  {
    var p := evs[..i + 1];
    assert p[..i] == evs[..i];
    assert p[i] == evs[i];
  }

  /** The loop of `get_evaluations_for_contestant`: one rendered line per
      record, in order, and the running score total. */
  method RenderAll(evs: seq<Evaluation>) returns (lines: seq<string>, total: int)
    ensures lines == RenderedLines(evs)
    ensures total == SumScores(evs)
  {
    lines, total := [], 0;
    for i := 0 to |evs|
      invariant lines == RenderedLines(evs[..i])
      invariant total == SumScores(evs[..i])
    {
      PrefixStep(evs, i);
      lines := lines + [RenderLine(evs[i])];
      total := total + evs[i].score;
    }
    assert evs[..|evs|] == evs;
  }

  // ---------------------------------------------------------------------
  // The service object
  // ---------------------------------------------------------------------

  class EvaluationService {
    const repo: EvaluationRepository

    constructor (repo: EvaluationRepository)
      ensures this.repo == repo
    {
      this.repo := repo;
    }

    /** `create_evaluation`: forwarded to the store. */
    method CreateEvaluation(data: EvaluationCreate) returns (e: Evaluation)
      requires repo.Valid() && Schemas.Valid(data)
      modifies repo
      ensures repo.Valid()
      ensures e.id !in old(repo.rows) && repo.rows == old(repo.rows)[e.id := e] && Carries(e, data)
    {
      e := repo.Create(data);
    }

    /** `get_evaluation`: the stored record, or NotFound for an absent id. */
    method GetEvaluation(id: Id) returns (r: Result<StoreValue<Evaluation>, CustomException>)
      requires repo.Valid()
      ensures id in repo.rows ==> r == Success(ObjectValue(repo.rows[id]))
      ensures id !in repo.rows ==> r == Failure(NewNotFoundError(NotFoundMessage(id)))
    {
      var res := repo.Get(id);
      r := ValidateAndReturnData(id, FromOption(res));
    }

    /** `get_evaluations_for_contestant`: read the contestant's records, build
        the prompt lines and the score total in one pass, call the provider once
        (or not at all for no records) and fold its outcome into the response.
        `prompts` records the texts the provider was called on. */
    method GetEvaluationsForContestant(contestantId: string, provider: Provider)
      returns (r: EvaluationSummary, ghost prompts: seq<string>)
      requires repo.Valid()
      ensures ListsContestant(r.evaluations, repo.rows, contestantId)
      ensures r == Aggregate(r.evaluations, provider)
      ensures prompts == if r.evaluations == [] then [] else [Prompt(r.evaluations)]
    {
      var evaluations := repo.GetByContestant(contestantId);
      var summary: Option<string> := None;
      var summaryError: Option<string> := None;
      var overallScore := 0;
      var totalEvaluations := |evaluations|;
      prompts := [];
      if evaluations != [] {
        var textLines;
        textLines, overallScore := RenderAll(evaluations);
        var fullText := Join("\n", textLines);
        prompts := [fullText];
        match provider(fullText) {
          case Summarized(s) => summary := Some(s);
          case TimedOut => summaryError := Some(TimeoutMessage);
          case Failed(_) => summaryError := Some(FailureMessage);
        }
      }
      r := EvaluationSummary(evaluations, summary, summaryError,
        if totalEvaluations > 0 then Some(ScoreTally(overallScore, totalEvaluations)) else None);
    }

    /** `update_evaluation`: forwarded to the store; NotFound for an absent id. */
    method UpdateEvaluation(id: Id, data: EvaluationPut) returns (r: Result<StoreValue<Evaluation>, CustomException>)
      requires repo.Valid() && Schemas.Valid(data)
      modifies repo
      ensures repo.Valid()
      ensures id !in old(repo.rows) ==>
        r == Failure(NewNotFoundError(NotFoundMessage(id))) && repo.rows == old(repo.rows)
      ensures id in old(repo.rows) ==>
        && r.Success? && r.value.ObjectValue?
        && repo.rows == old(repo.rows)[id := r.value.obj]
        && Carries(r.value.obj, data) && r.value.obj.id == id
        && r.value.obj.createdAt == old(repo.rows)[id].createdAt
        && r.value.obj.updatedAt > old(repo.rows)[id].updatedAt
    {
      var res := repo.Update(id, data);
      if id in old(repo.rows) {
        ApplyPut(old(repo.rows)[id], data);
      }
      r := ValidateAndReturnData(id, FromOption(res));
    }

    /** `delete_evaluation`: `True` for a present id, which is then gone;
        NotFound and no change for an absent one. */
    method DeleteEvaluation(id: Id) returns (r: Result<StoreValue<Evaluation>, CustomException>)
      requires repo.Valid()
      modifies repo
      ensures repo.Valid()
      ensures repo.rows == old(repo.rows) - {id}
      ensures id in old(repo.rows) ==> r == Success(BoolValue(true))
      ensures id !in old(repo.rows) ==> r == Failure(NewNotFoundError(NotFoundMessage(id)))
    {
      var deleted := repo.Delete(id);
      r := ValidateAndReturnData(id, BoolValue(deleted));
    }
  }

  /** Deleting a record and then putting to its id: the delete succeeds and
      the put answers 404. */
  method DeleteThenUpdate(service: EvaluationService, id: Id, data: EvaluationPut)
    returns (deleted: Result<StoreValue<Evaluation>, CustomException>, updated: Result<StoreValue<Evaluation>, CustomException>)
    requires service.repo.Valid() && Schemas.Valid(data) && id in service.repo.rows
    modifies service.repo
    ensures deleted == Success(BoolValue(true))
    ensures updated.Failure? && Handle(Custom(updated.error)).statusCode == 404
  {
    deleted := service.DeleteEvaluation(id);
    updated := service.UpdateEvaluation(id, data);
  }
}
