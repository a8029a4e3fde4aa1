/** The database the two POST handlers work on, with each handler as a
    method: `SaveAnswers` for `/simpan-jawaban-user/:id_tryout` and
    `ProcessTryout` for `/process-tryout/:idTryout`. */
module Store {
  import opened Sql
  import opened Seqs
  import opened Schema
  import opened Ingestion
  import opened Scoring
  import opened Ranking

  /** The contents of every table the handlers touch. */
  datatype Tables = Tables(
    batches: seq<BatchRow>,           // jawaban_user_tryout_v2
    answers: seq<AnswerRow>,          // jawaban_user_tryout
    questions: seq<Question>,         // soal_tryout
    users: seq<User>,                 // users
    profiles: seq<Profile>,           // userdata
    ranks: seq<RankRow>,              // rank_tryout_2025
    reviewAnswers: seq<AnswerRow>,    // jawaban_user_tryout_pembahasan
    reviewBatches: seq<BatchRow>)     // jawaban_user_tryout_pembahasan_v2

  /* ---------- the ingestion handler ---------- */

  /** The response of `/simpan-jawaban-user`. */
  datatype SaveResponse =
    | Saved(inserted: nat)   // 200 {success: true, inserted}
    | NotFound               // 404 "Data tidak ditemukan"
    | InvalidData            // 400 "Tidak ada jawaban valid"
    | ServerError            // 500 {success: false, error}

  /** Which of the handler's two statements, if any, the store rejects (a
      lost connection, a constraint the schema imposes). */
  datatype SaveFault = NoSaveFault | SelectFails | InsertFails

  /** The response for a plan: a rejected SELECT ends the request with 500
      before the plan is made; a rejected INSERT does so after it. */
  function SaveOutcome(plan: Plan, fault: SaveFault): SaveResponse
  {
    if fault == SelectFails then ServerError
    else match plan
      case NoBatches => NotFound
      case NoEntries => InvalidData
      case BuildFailed => ServerError
      case InsertRows(rows) => if fault == InsertFails then ServerError else Saved(|rows|)
  }

  /** The tables after a successful bulk insert of `rows`. */
  function Ingested(t: Tables, rows: seq<AnswerRow>): Tables
  {
    t.(answers := t.answers + rows)
  }

  /** The reported `inserted` is the number of entries collected from the
      tryout's decodable rows, and is never 0; once the SELECT succeeds, the
      two early exits are told apart by whether the tryout has stored rows
      at all; a rejected statement always gives 500. */
  lemma SaveOutcomeCounts(batches: seq<BatchRow>, id: Value, fault: SaveFault)
    ensures var r := SaveOutcome(PlanIngest(batches, id), fault);
      && (r.NotFound? <==> fault != SelectFails && BatchesOf(batches, id) == [])
      && (r.InvalidData? <==> fault != SelectFails && BatchesOf(batches, id) != [] && Flatten(BatchesOf(batches, id)) == [])
      && (r.Saved? ==> r.inserted == |Flatten(BatchesOf(batches, id))| > 0)
      && (r.Saved? <==> fault == NoSaveFault && PlanIngest(batches, id).InsertRows?)
      && (fault != NoSaveFault ==> !r.Saved?)
  {
    if PlanIngest(batches, id).InsertRows? {
      PlanInsertsOnePerEntry(batches, id);
    }
  }

  /* ---------- the score-and-rank transaction ---------- */

  /** The statements of the transaction, in order. */
  datatype Step = Begin | DeleteRanks | InsertRanks | CopyAnswers | CopyBatches | Commit

  /** Which statement, if any, the store rejects during one run. */
  datatype Fault = NoFault | FailAt(step: Step)

  /** The response of `/process-tryout`. */
  datatype ProcessResponse =
    | Done      // 200 "Ranking & pembahasan berhasil diproses untuk tryout ..."
    | Failed    // 500 {success: false, error}

  /** The tables after a committed run for tryout `id`: its rank rows
      replaced by freshly computed ones, and its answers and answer batches
      appended to the two review tables. */
  function Processed(t: Tables, id: Value): Tables
  {
    t.(ranks := RanksNotOf(t.ranks, id) + RankTryout(t.answers, t.questions, t.users, t.profiles, id),
       reviewAnswers := t.reviewAnswers + AnswersOf(t.answers, id),
       reviewBatches := t.reviewBatches + BatchesOf(t.batches, id))
  }

  /** After a committed run, the rank rows of tryout `id` are exactly the
      freshly computed rows. */
  lemma ProcessedReplacesRanks(t: Tables, id: Value)
    requires id != Null
    ensures RanksOf(Processed(t, id).ranks, id) == RankTryout(t.answers, t.questions, t.users, t.profiles, id)
  {
    var kept := RanksNotOf(t.ranks, id);
    var computed := RankTryout(t.answers, t.questions, t.users, t.profiles, id);
    RankTryoutTagged(t.answers, t.questions, t.users, t.profiles, id);
    FilterAppend(kept, computed, (x: RankRow) => SqlEq(x.idTryout, id));
    FilterKeepsNone(kept, (x: RankRow) => SqlEq(x.idTryout, id));
    FilterKeepsAll(computed, (x: RankRow) => SqlEq(x.idTryout, id));
  }

  /** A committed run leaves the rank rows of every other tryout as they were,
      in their order. */
  lemma ProcessedKeepsOtherRanks(t: Tables, id: Value)
    requires id != Null
    ensures RanksNotOf(Processed(t, id).ranks, id) == RanksNotOf(t.ranks, id)
  {
    var kept := RanksNotOf(t.ranks, id);
    var computed := RankTryout(t.answers, t.questions, t.users, t.profiles, id);
    RankTryoutTagged(t.answers, t.questions, t.users, t.profiles, id);
    FilterAppend(kept, computed, (x: RankRow) => !SqlEq(x.idTryout, id));
    FilterKeepsAll(kept, (x: RankRow) => !SqlEq(x.idTryout, id));
    FilterKeepsNone(computed, (x: RankRow) => !SqlEq(x.idTryout, id));
  }

  /** A second committed run with unchanged answers gives the same rank table;
      the review tables, which are never cleared, receive the same rows again. */
  lemma ProcessedTwice(t: Tables, id: Value)
    requires id != Null
    ensures Processed(Processed(t, id), id).ranks == Processed(t, id).ranks
    ensures Processed(Processed(t, id), id).reviewAnswers
         == t.reviewAnswers + AnswersOf(t.answers, id) + AnswersOf(t.answers, id)
    ensures Processed(Processed(t, id), id).reviewBatches
         == t.reviewBatches + BatchesOf(t.batches, id) + BatchesOf(t.batches, id)
  {
    ProcessedKeepsOtherRanks(t, id);
  }

  /** What a rerun keeps whatever order the engine gives rows with equal
      totals: both runs number the same score rows and join the same
      `userdata`, so the numbering of the second run has the same rows, the
      same ranks and the same total at every rank as that of the first. */
  lemma RerunNumberingsAgree(t: Tables, id: Value, first: seq<Ranked>, second: seq<Ranked>)
    requires IsRowNumbering(ScoreTryout(t.answers, t.questions, t.users, id), first)
    requires IsRowNumbering(ScoreTryout(Processed(t, id).answers, Processed(t, id).questions, Processed(t, id).users, id), second)
    ensures Processed(t, id).profiles == t.profiles
    ensures |first| == |second| && multiset(RowsOf(first)) == multiset(RowsOf(second))
    ensures forall i :: 0 <= i < |first| ==> first[i].rank == second[i].rank && first[i].row.total == second[i].row.total
  {
    RowNumberingsAgree(ScoreTryout(t.answers, t.questions, t.users, id), first, second);
  }

  /* ---------- the database ---------- */

  class Database {
    var batches: seq<BatchRow>
    var answers: seq<AnswerRow>
    var questions: seq<Question>
    var users: seq<User>
    var profiles: seq<Profile>
    var ranks: seq<RankRow>
    var reviewAnswers: seq<AnswerRow>
    var reviewBatches: seq<BatchRow>

    /** The contents of all tables. */
    function Contents(): Tables
      reads this
    {
      Tables(batches, answers, questions, users, profiles, ranks, reviewAnswers, reviewBatches)
    }

    constructor (t: Tables)
      ensures Contents() == t
    {
      batches, answers, questions, users := t.batches, t.answers, t.questions, t.users;
      profiles, ranks, reviewAnswers, reviewBatches := t.profiles, t.ranks, t.reviewAnswers, t.reviewBatches;
    }

    /** `POST /simpan-jawaban-user/:id_tryout`. The stored rows of the tryout
        are read, decoded and flattened; with a rejected read, no rows, no
        entries, or an entry that cannot be built, nothing is written;
        otherwise one row per entry is inserted in one statement, unless the
        store rejects it. */
    method SaveAnswers(id: Value, fault: SaveFault) returns (resp: SaveResponse)
      modifies this
      ensures resp == SaveOutcome(PlanIngest(old(batches), id), fault)
      ensures Contents() == if resp.Saved? then Ingested(old(Contents()), PlanIngest(old(batches), id).rows)
                            else old(Contents())
    {
      ghost var plan := PlanIngest(batches, id);
      if fault == SelectFails {
        return ServerError;
      }
      var rows := BatchesOf(batches, id);
      if |rows| == 0 {
        assert plan == NoBatches;
        return NotFound;
      }
      var all := CollectAnswers(rows);
      if |all| == 0 {
        assert plan == NoEntries;
        return InvalidData;
      }
      var values := BuildRows(all);
      if values.Thrown? {
        assert plan == BuildFailed;
        return ServerError;
      }
      assert plan == InsertRows(values.value);
      if fault == InsertFails {
        return ServerError;
      }
      answers := answers + values.value;
      resp := Saved(|values.value|);
    }

    /** `POST /process-tryout/:idTryout`: delete the tryout's rank rows,
        insert the freshly computed ones, append its answers and answer
        batches to the review tables and commit; when any statement fails,
        roll back to the tables as they were before the call. */
    method ProcessTryout(id: Value, fault: Fault) returns (resp: ProcessResponse)
      modifies this
      ensures resp == if fault == NoFault then Done else Failed
      ensures Contents() == if fault == NoFault then Processed(old(Contents()), id) else old(Contents())
    {
      var before := Contents();
      if fault == FailAt(Begin) || fault == FailAt(DeleteRanks) {
        Rollback(before);
        return Failed;
      }
      ranks := RanksNotOf(ranks, id);
      if fault == FailAt(InsertRanks) {
        Rollback(before);
        return Failed;
      }
      ranks := ranks + RankTryout(answers, questions, users, profiles, id);
      if fault == FailAt(CopyAnswers) {
        Rollback(before);
        return Failed;
      }
      reviewAnswers := reviewAnswers + AnswersOf(answers, id);
      if fault == FailAt(CopyBatches) {
        Rollback(before);
        return Failed;
      }
      reviewBatches := reviewBatches + BatchesOf(batches, id);
      if fault.FailAt? {
        // the only fault left is a rejected COMMIT
        Rollback(before);
        return Failed;
      }
      resp := Done;
    }

    /** Undo every write of the transaction: the three written tables return
        to their contents at its start. */
    method Rollback(saved: Tables)
      requires saved.batches == batches && saved.answers == answers && saved.questions == questions
      requires saved.users == users && saved.profiles == profiles
      modifies this
      ensures Contents() == saved
    {
      ranks, reviewAnswers, reviewBatches := saved.ranks, saved.reviewAnswers, saved.reviewBatches;
    }
  }
}
