/** The request and response shapes: the four validated input fields, the
    field-by-field dump used for updates, and the per-contestant summary. */
module Schemas {
  import opened Wrappers
  import Models

  /** `EvaluationBase`; `EvaluationCreate` and `EvaluationPut` add nothing to it. */
  datatype EvaluationBase = EvaluationBase(contestantId: string, judgeId: string, score: int, notes: string)

  type EvaluationCreate = EvaluationBase
  type EvaluationPut = EvaluationBase

  const MinScore: int := 0
  const MaxScore: int := 100

  datatype FieldName = ContestantId | JudgeId | Score | Notes

  /** The constraint declared on each field: `min_length=1` on the three
      strings, `ge=0, le=100` on the score. */
  predicate FieldValid(b: EvaluationBase, f: FieldName) {
    match f
    case ContestantId => |b.contestantId| >= 1
    case JudgeId => |b.judgeId| >= 1
    case Score => MinScore <= b.score <= MaxScore
    case Notes => |b.notes| >= 1
  }

  predicate Valid(b: EvaluationBase) {
    FieldValid(b, ContestantId) && FieldValid(b, JudgeId) && FieldValid(b, Score) && FieldValid(b, Notes)
  }

  /** Schema validation: the input is accepted unchanged when every field meets
      its constraint; otherwise every offending field is reported, once each. */
  function Validate(b: EvaluationBase): (r: Result<EvaluationBase, seq<FieldName>>)
    ensures r.Success? <==> Valid(b)
    ensures r.Success? ==> r.value == b
    ensures r.Failure? ==> r.error != [] && forall f :: f in r.error <==> !FieldValid(b, f)
    ensures r.Failure? ==> forall i, j :: 0 <= i < j < |r.error| ==> r.error[i] != r.error[j]
  {
    var errors :=
      (if FieldValid(b, ContestantId) then [] else [ContestantId]) +
      (if FieldValid(b, JudgeId) then [] else [JudgeId]) +
      (if FieldValid(b, Score) then [] else [Score]) +
      (if FieldValid(b, Notes) then [] else [Notes]);
    if errors == [] then Success(b) else Failure(errors)
  }

  /** One entry of `model_dump()`: a field name with its value. */
  datatype FieldValue =
    | SetContestantId(s: string)
    | SetJudgeId(s: string)
    | SetScore(n: int)
    | SetNotes(s: string)

  function FieldOf(v: FieldValue): FieldName {
    match v
    case SetContestantId(_) => ContestantId
    case SetJudgeId(_) => JudgeId
    case SetScore(_) => Score
    case SetNotes(_) => Notes
  }

  /** Some entry of the dump sets field f. */
  predicate Mentions(d: seq<FieldValue>, f: FieldName) {
    exists i :: 0 <= i < |d| && FieldOf(d[i]) == f
  }

  /** `model_dump(exclude_unset=True)` of an `EvaluationPut`. Every field is
      required, so every field is set and all four appear, in declaration order. */
  function ModelDump(p: EvaluationPut): (d: seq<FieldValue>)
    ensures |d| == 4
    ensures forall f :: Mentions(d, f)
  {
    var d := [SetContestantId(p.contestantId), SetJudgeId(p.judgeId), SetScore(p.score), SetNotes(p.notes)];
    assert FieldOf(d[0]) == ContestantId && FieldOf(d[1]) == JudgeId;
    assert FieldOf(d[2]) == Score && FieldOf(d[3]) == Notes;
    d
  }

  /** What `overall_score` is computed from: the sum of the scores and the
      number of evaluations (the float division itself is not modelled). */
  datatype ScoreTally = ScoreTally(total: int, count: nat)

  /** `EvaluationSummary`; `EvaluationResponse` has every column of the record,
      so the record datatype stands for it. */
  datatype EvaluationSummary = EvaluationSummary(
    evaluations: seq<Models.Evaluation>,
    summary: Option<string>,
    summaryError: Option<string>,
    overallScore: Option<ScoreTally>)
}
