/** The evaluation store: a table of records keyed by id, with the five
    operations the service uses. Absence is reported as `None` or `false`,
    never as an error. */
module Repository {
  import opened Wrappers
  import opened Models
  import opened Schemas

  /** The record holds the four input fields of b. */
  predicate Carries(e: Evaluation, b: EvaluationBase) {
    e.contestantId == b.contestantId && e.judgeId == b.judgeId &&
    e.score == b.score && e.notes == b.notes
  }

  function BaseOf(e: Evaluation): EvaluationBase {
    EvaluationBase(e.contestantId, e.judgeId, e.score, e.notes)
  }

  /** A stored row: its fields meet the schema, and it was not updated before it was created. */
  predicate RowValid(e: Evaluation) {
    Schemas.Valid(BaseOf(e)) && e.createdAt <= e.updatedAt
  }

  // ---------------------------------------------------------------------
  // setattr(db_obj, key, value), one dumped field at a time
  // ---------------------------------------------------------------------

  function SetField(e: Evaluation, v: FieldValue): Evaluation {
    match v
    case SetContestantId(s) => e.(contestantId := s)
    case SetJudgeId(s) => e.(judgeId := s)
    case SetScore(n) => e.(score := n)
    case SetNotes(s) => e.(notes := s)
  }

  /** The setattr loop over a dump, applied in order. */
  function ApplyFields(e: Evaluation, vs: seq<FieldValue>): Evaluation
    decreases |vs|
  {
    if vs == [] then e else SetField(ApplyFields(e, vs[..|vs| - 1]), vs[|vs| - 1])
  }

  /** The value a record holds in field f. */
  function ValueOf(e: Evaluation, f: FieldName): FieldValue {
    match f
    case ContestantId => SetContestantId(e.contestantId)
    case JudgeId => SetJudgeId(e.judgeId)
    case Score => SetScore(e.score)
    case Notes => SetNotes(e.notes)
  }

  /** No later entry of the dump sets the field that entry i sets. */
  predicate LastWrite(vs: seq<FieldValue>, i: int)
    requires 0 <= i < |vs|
  {
    forall j :: i < j < |vs| ==> FieldOf(vs[j]) != FieldOf(vs[i])
  }

  /** Applying a dump changes only the fields the dump mentions: the id, the
      timestamps and every unmentioned field keep their values, and a
      mentioned field holds the last value given for it. */
  lemma {:induction false} ApplyFieldsFrame(e: Evaluation, vs: seq<FieldValue>)
    ensures var r := ApplyFields(e, vs);
            r.id == e.id && r.createdAt == e.createdAt && r.updatedAt == e.updatedAt
    ensures forall f :: !Mentions(vs, f) ==> ValueOf(ApplyFields(e, vs), f) == ValueOf(e, f)
    ensures vs != [] ==> ValueOf(ApplyFields(e, vs), FieldOf(vs[|vs| - 1])) == vs[|vs| - 1]
    ensures forall i :: 0 <= i < |vs| && LastWrite(vs, i) ==> ValueOf(ApplyFields(e, vs), FieldOf(vs[i])) == vs[i]
    decreases |vs|
  {
    if vs != [] {
      var init := vs[..|vs| - 1];
      ApplyFieldsFrame(e, init);
      forall f | !Mentions(vs, f)
        ensures ValueOf(ApplyFields(e, vs), f) == ValueOf(e, f)
      {
        assert FieldOf(vs[|vs| - 1]) != f;
      }
    }
    LastWriteWins(e, vs);
  }

  /** Each field the dump sets ends up holding the value of the dump's last
      entry for that field: a later write overrides an earlier one, and no
      write is lost. */
  lemma {:induction false} LastWriteWins(e: Evaluation, vs: seq<FieldValue>)
    ensures forall i :: 0 <= i < |vs| && LastWrite(vs, i) ==> ValueOf(ApplyFields(e, vs), FieldOf(vs[i])) == vs[i]
    decreases |vs|
  {
    if vs != [] {
      var init := vs[..|vs| - 1];
      var last := vs[|vs| - 1];
      LastWriteWins(e, init);
      forall i | 0 <= i < |vs| && LastWrite(vs, i)
        ensures ValueOf(ApplyFields(e, vs), FieldOf(vs[i])) == vs[i]
      {
        if i == |vs| - 1 {
          SetFieldSets(ApplyFields(e, init), last);
        } else {
          assert init[i] == vs[i];
          assert LastWrite(init, i) by {
            forall j | i < j < |init|
              ensures FieldOf(init[j]) != FieldOf(init[i])
            {
              assert init[j] == vs[j];
            }
          }
          SetFieldKeeps(ApplyFields(e, init), last, FieldOf(vs[i]));
        }
      }
    }
  }

  lemma SetFieldSets(x: Evaluation, v: FieldValue)
    ensures ValueOf(SetField(x, v), FieldOf(v)) == v
  {
  }

  lemma SetFieldKeeps(x: Evaluation, v: FieldValue, f: FieldName)
    requires FieldOf(v) != f
    ensures ValueOf(SetField(x, v), f) == ValueOf(x, f)
  {
  }

  /** Applying the dump of a Put overwrites all four fields with the Put's values. */
  lemma ApplyPut(e: Evaluation, p: EvaluationPut)
    ensures var r := ApplyFields(e, ModelDump(p));
            Carries(r, p) && r.id == e.id && r.createdAt == e.createdAt && r.updatedAt == e.updatedAt
  {
    var d := ModelDump(p);
    ApplyFieldsFrame(e, d);
    assert d[..1][..0] == [] && d[..2][..1] == d[..1] && d[..3][..2] == d[..2] && d[..4] == d;
    assert ApplyFields(e, d[..1]) == e.(contestantId := p.contestantId);
    assert ApplyFields(e, d[..2]) == e.(contestantId := p.contestantId, judgeId := p.judgeId);
    assert ApplyFields(e, d[..3]) == e.(contestantId := p.contestantId, judgeId := p.judgeId, score := p.score);
  }

  // ---------------------------------------------------------------------
  // Listings of one contestant's records
  // ---------------------------------------------------------------------

  /** r lists exactly the stored records of contestant c, each once, in some order. */
  predicate ListsContestant(r: seq<Evaluation>, rows: map<Id, Evaluation>, c: string) {
    && (forall i :: 0 <= i < |r| ==> r[i].id in rows && rows[r[i].id] == r[i] && r[i].contestantId == c)
    && (forall id :: id in rows && rows[id].contestantId == c ==> rows[id] in r)
    && (forall i, j :: 0 <= i < j < |r| ==> r[i].id != r[j].id)
  }

  lemma {:induction false} DistinctIdsOccurOnce(r: seq<Evaluation>, x: Evaluation)
    requires forall i, j :: 0 <= i < j < |r| ==> r[i].id != r[j].id
    ensures multiset(r)[x] == if x in r then 1 else 0
    decreases |r|
  {
    if r != [] {
      var init := r[..|r| - 1];
      assert r == init + [r[|r| - 1]];
      DistinctIdsOccurOnce(init, x);
      if r[|r| - 1] == x {
        assert x !in init;
      }
    }
  }

  /** No order is promised, but any two listings of the same contestant hold
      the same records: one is a permutation of the other. */
  lemma ListingsArePermutations(a: seq<Evaluation>, b: seq<Evaluation>, rows: map<Id, Evaluation>, c: string)
    requires ListsContestant(a, rows, c) && ListsContestant(b, rows, c)
    ensures multiset(a) == multiset(b)
  {
    forall x
      ensures multiset(a)[x] == multiset(b)[x]
    {
      DistinctIdsOccurOnce(a, x);
      DistinctIdsOccurOnce(b, x);
      if x in a {
        var i :| 0 <= i < |a| && a[i] == x;
        assert rows[x.id] == x;
      }
      if x in b {
        var i :| 0 <= i < |b| && b[i] == x;
        assert rows[x.id] == x;
      }
    }
  }

  // ---------------------------------------------------------------------
  // The store
  // ---------------------------------------------------------------------

  class EvaluationRepository {
    /** The table: each record under its own id. */
    var rows: map<Id, Evaluation>
    /** The id the next insert receives; above every id in use, so fresh. */
    var nextId: Id
    /** The current reading of the clock behind `utcnow`. */
    var clock: Timestamp

    ghost predicate Valid()
      reads this
    {
      forall id :: id in rows ==>
        rows[id].id == id && id < nextId && RowValid(rows[id]) && rows[id].updatedAt <= clock
    }

    constructor ()
      ensures Valid() && rows == map[]
    {
      rows := map[];
      nextId := 0;
      clock := 0;
    }

    /** `create`: one new row with the input's four fields, a fresh id, and
        both timestamps set to the insertion time; nothing else changes. */
    method Create(input: EvaluationCreate) returns (e: Evaluation)
      requires Valid() && Schemas.Valid(input)
      modifies this
      ensures Valid()
      ensures e.id !in old(rows) && rows == old(rows)[e.id := e]
      ensures Carries(e, input)
      ensures e.createdAt == e.updatedAt == clock && clock > old(clock)
    {
      clock := clock + 1;
      e := Evaluation(nextId, input.contestantId, input.judgeId, input.score, input.notes, clock, clock);
      rows := rows[nextId := e];
      nextId := nextId + 1;
    }

    /** `get_by_contestant`: every record of the contestant, each once, in an
        order the store chooses. */
    method GetByContestant(c: string) returns (r: seq<Evaluation>)
      requires Valid()
      ensures ListsContestant(r, rows, c)
    {
      r := [];
      var pending := rows.Keys;
      while pending != {}
        invariant pending <= rows.Keys
        invariant forall i :: 0 <= i < |r| ==>
          r[i].id in rows && rows[r[i].id] == r[i] && r[i].contestantId == c && r[i].id !in pending
        invariant forall id :: id in rows && id !in pending && rows[id].contestantId == c ==> rows[id] in r
        invariant forall i, j :: 0 <= i < j < |r| ==> r[i].id != r[j].id
        decreases pending
      {
        var id :| id in pending;
        if rows[id].contestantId == c {
          r := r + [rows[id]];
        }
        pending := pending - {id};
      }
    }

    /** `get`: the record under id, or `None`. */
    method Get(id: Id) returns (r: Option<Evaluation>)
      ensures r.Some? <==> id in rows
      ensures r.Some? ==> r.value == rows[id]
    {
      r := if id in rows then Some(rows[id]) else None;
    }

    /** `update`: `None` and no change for an absent id; otherwise the dumped
        fields are written one by one into the stored record, the update time
        is refreshed, the creation time and the id are kept, and no other
        record changes. */
    method Update(id: Id, data: EvaluationPut) returns (r: Option<Evaluation>)
      requires Valid() && Schemas.Valid(data)
      modifies this
      ensures Valid()
      ensures id !in old(rows) ==> r == None && rows == old(rows)
      ensures id in old(rows) ==>
        && r.Some? && rows == old(rows)[id := r.value]
        && r.value == ApplyFields(old(rows)[id], ModelDump(data)).(updatedAt := clock)
        && Carries(r.value, data) && r.value.id == id
        && r.value.createdAt == old(rows)[id].createdAt
        && r.value.updatedAt > old(rows)[id].updatedAt
    {
      var found := Get(id);
      if found.None? {
        return None;
      }
      var obj := found.value;
      var dataDict := ModelDump(data);
      var i := 0;
      while i < |dataDict|
        invariant 0 <= i <= |dataDict|
        invariant obj == ApplyFields(found.value, dataDict[..i])
      {
        assert dataDict[..i + 1][..i] == dataDict[..i];
        obj := SetField(obj, dataDict[i]);
        i := i + 1;
      }
      assert dataDict[..i] == dataDict;
      ApplyPut(found.value, data);
      clock := clock + 1;
      obj := obj.(updatedAt := clock);
      rows := rows[id := obj];
      r := Some(obj);
    }

    /** `delete`: `false` and no change for an absent id; otherwise the record
        is removed, `true` is returned and no other record changes. */
    method Delete(id: Id) returns (deleted: bool)
      requires Valid()
      modifies this
      ensures Valid()
      ensures deleted <==> id in old(rows)
      ensures rows == old(rows) - {id}
    {
      var found := Get(id);
      if found.None? {
        return false;
      }
      rows := rows - {id};
      deleted := true;
    }
  }

  /** Create followed by get on the returned id yields the input's fields. */
  method CreateThenGet(repo: EvaluationRepository, input: EvaluationCreate) returns (got: Option<Evaluation>)
    requires repo.Valid() && Schemas.Valid(input)
    modifies repo
    ensures got.Some? && Carries(got.value, input) && got.value.createdAt == got.value.updatedAt
  {
    var created := repo.Create(input);
    got := repo.Get(created.id);
  }
}
