/** The persisted evaluation record (the `evaluations` table). */
module Models {

  /** Record identities. The database uses random uuid4 values; the model only
      needs them to be distinct, so they are natural numbers handed out fresh. */
  type Id = nat

  /** Readings of the abstract wall clock that stands in for `datetime.utcnow`. */
  type Timestamp = nat

  /** One row. Every column is non-null, which the datatype gives for free:
      each field always holds a value. */
  datatype Evaluation = Evaluation(
    id: Id,
    contestantId: string,
    judgeId: string,
    score: int,
    notes: string,
    createdAt: Timestamp,
    updatedAt: Timestamp)
}
