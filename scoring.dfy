/** The inner SELECT of `POST /process-tryout/:idTryout`: the answers of one
    tryout joined with `soal_tryout` and `users`, grouped by
    (`id_user`, `username`, `peminatan`) and summed as
    `SUM(CASE WHEN status = 'benar' THEN point * 100 ELSE 0 END) / 7`. */
module Scoring {
  import opened Sql
  import opened Seqs
  import opened Schema

  /* ---------- the join ---------- */

  /** One row of `jawaban_user_tryout JOIN soal_tryout JOIN users`, reduced to
      the columns the grouping and the sum use. */
  datatype Joined = Joined(idUser: Value, username: Value, peminatan: Value, status: Value, point: int)

  /** `st.no_soal = jut.no_soal AND st.id_mapel = jut.id_mapel AND st.id_tryout = jut.id_tryout` */
  predicate QuestionMatches(q: Question, a: AnswerRow)
  {
    SqlEq(q.noSoal, a.noSoal) && SqlEq(q.idMapel, a.idMapel) && SqlEq(q.idTryout, a.idTryout)
  }

  /** `u.id = jut.id_user` */
  predicate UserMatches(u: User, a: AnswerRow)
  {
    SqlEq(u.id, a.idUser)
  }

  function MakeJoined(a: AnswerRow, q: Question, u: User): Joined
  {
    Joined(a.idUser, u.username, a.peminatan, a.status, q.point)
  }

  /** The join of answer `a` and question `q` with every matching user. */
  function WithUsers(a: AnswerRow, q: Question, us: seq<User>): seq<Joined>
  {
    if us == [] then []
    else (if UserMatches(us[0], a) then [MakeJoined(a, q, us[0])] else []) + WithUsers(a, q, us[1..])
  }

  /** The join of answer `a` with every matching question and user. */
  function WithQuestions(a: AnswerRow, qs: seq<Question>, us: seq<User>): seq<Joined>
  {
    if qs == [] then []
    else (if QuestionMatches(qs[0], a) then WithUsers(a, qs[0], us) else []) + WithQuestions(a, qs[1..], us)
  }

  /** What one answer row yields: nothing unless it belongs to tryout `id`. */
  function JoinAnswer(a: AnswerRow, qs: seq<Question>, us: seq<User>, id: Value): seq<Joined>
  {
    if SqlEq(a.idTryout, id) then WithQuestions(a, qs, us) else []
  }

  /** `FROM jawaban_user_tryout jut JOIN soal_tryout st ON ... JOIN users u ON ... WHERE jut.id_tryout = ?` */
  function Join(answers: seq<AnswerRow>, qs: seq<Question>, us: seq<User>, id: Value): seq<Joined>
  {
    if answers == [] then [] else JoinAnswer(answers[0], qs, us, id) + Join(answers[1..], qs, us, id)
  }

  /** A joined triple of the inner join. */
  predicate Joins(a: AnswerRow, q: Question, u: User, id: Value)
  {
    SqlEq(a.idTryout, id) && QuestionMatches(q, a) && UserMatches(u, a)
  }

  lemma {:induction false} WithUsersMembers(a: AnswerRow, q: Question, us: seq<User>, j: Joined)
    ensures j in WithUsers(a, q, us) <==> exists u :: u in us && UserMatches(u, a) && j == MakeJoined(a, q, u)
  {
    if us != [] {
      WithUsersMembers(a, q, us[1..], j);
    }
  }

  lemma {:induction false} WithQuestionsMembers(a: AnswerRow, qs: seq<Question>, us: seq<User>, j: Joined)
    ensures j in WithQuestions(a, qs, us) <==>
      exists q, u :: q in qs && u in us && QuestionMatches(q, a) && UserMatches(u, a) && j == MakeJoined(a, q, u)
  {
    if qs != [] {
      WithQuestionsMembers(a, qs[1..], us, j);
      WithUsersMembers(a, qs[0], us, j);
    }
  }

  /** The inner join holds exactly the rows built from an answer of tryout `id`,
      a question it matches and a user it matches. */
  lemma {:induction false} JoinMembers(answers: seq<AnswerRow>, qs: seq<Question>, us: seq<User>, id: Value, j: Joined)
    ensures j in Join(answers, qs, us, id) <==>
      exists a, q, u :: a in answers && q in qs && u in us && Joins(a, q, u, id) && j == MakeJoined(a, q, u)
  {
    if answers != [] {
      JoinMembers(answers[1..], qs, us, id, j);
      WithQuestionsMembers(answers[0], qs, us, j);
    }
  }

  /* ---------- GROUP BY jut.id_user, u.username, jut.peminatan ---------- */

  datatype GroupKey = GroupKey(idUser: Value, username: Value, peminatan: Value)

  function KeyOf(j: Joined): GroupKey
  {
    GroupKey(j.idUser, j.username, j.peminatan)
  }

  /** Some joined row falls into group `k`. */
  predicate HasKey(js: seq<Joined>, k: GroupKey)
  {
    exists i :: 0 <= i < |js| && KeyOf(js[i]) == k
  }

  /** The groups of `js` not yet in `seen`, each once, in order of first appearance. */
  function KeysFrom(js: seq<Joined>, seen: set<GroupKey>): (r: seq<GroupKey>)
    ensures Distinct(r)
    ensures forall k :: k in r <==> k !in seen && HasKey(js, k)
  {
    if js == [] then []
    else
      var k := KeyOf(js[0]);
      var rest := if k in seen then KeysFrom(js[1..], seen) else KeysFrom(js[1..], seen + {k});
      assert forall k' :: HasKey(js[1..], k') ==> HasKey(js, k') by {
        forall k' | HasKey(js[1..], k') ensures HasKey(js, k') {
          var i :| 0 <= i < |js[1..]| && KeyOf(js[1..][i]) == k';
          assert KeyOf(js[i + 1]) == k';
        }
      }
      assert forall k' :: HasKey(js, k') && k' != k ==> HasKey(js[1..], k') by {
        forall k' | HasKey(js, k') && k' != k ensures HasKey(js[1..], k') {
          var i :| 0 <= i < |js| && KeyOf(js[i]) == k';
          assert i > 0 && KeyOf(js[1..][i - 1]) == k';
        }
      }
      if k in seen then rest else [k] + rest
  }

  /** The groups of the join: one per distinct (`id_user`, `username`, `peminatan`). */
  function Keys(js: seq<Joined>): seq<GroupKey>
  {
    KeysFrom(js, {})
  }

  /** `CASE WHEN jut.status = 'benar' THEN st.point * 100 ELSE 0 END` */
  function Points(j: Joined): int
  {
    if j.status == Str("benar") then j.point * 100 else 0
  }

  /** The `SUM` of group `k`. */
  function GroupSum(js: seq<Joined>, k: GroupKey): int
  {
    if js == [] then 0 else (if KeyOf(js[0]) == k then Points(js[0]) else 0) + GroupSum(js[1..], k)
  }

  lemma {:induction false} GroupSumAppend(a: seq<Joined>, b: seq<Joined>, k: GroupKey)
    ensures GroupSum(a + b, k) == GroupSum(a, k) + GroupSum(b, k)
  {
    if a == [] {
      assert a + b == b;
    } else {
      assert (a + b)[1..] == a[1..] + b;
      GroupSumAppend(a[1..], b, k);
    }
  }

  /** `SUM(...) / 7`, kept exact. */
  function Total(sum: int): real
  {
    sum as real / 7.0
  }

  /** A row of the derived table `n`. */
  datatype ScoreRow = ScoreRow(key: GroupKey, total: real)

  /** The groups of some score rows. */
  function ScoreKeys(r: seq<ScoreRow>): set<GroupKey>
  {
    set x | x in r :: x.key
  }

  /** The derived table `n`: exactly one row per group of `js`, carrying the
      sum of that group over 7. */
  function Scores(js: seq<Joined>): (r: seq<ScoreRow>)
    ensures forall i, j :: 0 <= i < |r| && 0 <= j < |r| && i != j ==> r[i].key != r[j].key
    ensures forall k :: k in ScoreKeys(r) <==> HasKey(js, k)
    ensures forall x :: x in r ==> x.total == Total(GroupSum(js, x.key))
  {
    var ks := Keys(js);
    var r := seq(|ks|, i requires 0 <= i < |ks| => ScoreRow(ks[i], Total(GroupSum(js, ks[i]))));
    assert forall k :: k in ScoreKeys(r) <==> k in ks by {
      forall k | k in ks ensures k in ScoreKeys(r) {
        var i :| 0 <= i < |ks| && ks[i] == k;
        assert r[i] in r;
      }
    }
    r
  }

  /** The rows of `n` for the answers of tryout `id`. */
  function ScoreTryout(answers: seq<AnswerRow>, qs: seq<Question>, us: seq<User>, id: Value): seq<ScoreRow>
  {
    Scores(Join(answers, qs, us, id))
  }

  /** The groups of the answers of tryout `id`: the (`id_user`, `username`,
      `peminatan`) of every answer that matches a question and a user. */
  ghost function JoinedGroups(answers: seq<AnswerRow>, qs: seq<Question>, us: seq<User>, id: Value): set<GroupKey>
  {
    set a, q, u | a in answers && q in qs && u in us && Joins(a, q, u, id) :: GroupKey(a.idUser, u.username, a.peminatan)
  }

  /** There is one score row per group, and the groups are exactly the joined ones. */
  lemma ScoreRowsAreGroups(answers: seq<AnswerRow>, qs: seq<Question>, us: seq<User>, id: Value)
    ensures var r := ScoreTryout(answers, qs, us, id);
      && (forall i, j :: 0 <= i < |r| && 0 <= j < |r| && i != j ==> r[i].key != r[j].key)
      && ScoreKeys(r) == JoinedGroups(answers, qs, us, id)
  {
    GroupsHaveRows(answers, qs, us, id);
    RowsHaveGroups(answers, qs, us, id);
  }

  /** Every joined group has a score row. */
  lemma GroupsHaveRows(answers: seq<AnswerRow>, qs: seq<Question>, us: seq<User>, id: Value)
    ensures JoinedGroups(answers, qs, us, id) <= ScoreKeys(ScoreTryout(answers, qs, us, id))
  {
    var js := Join(answers, qs, us, id);
    forall k | k in JoinedGroups(answers, qs, us, id) ensures HasKey(js, k) {
      var a, q, u :| a in answers && q in qs && u in us && Joins(a, q, u, id) && k == GroupKey(a.idUser, u.username, a.peminatan);
      JoinMembers(answers, qs, us, id, MakeJoined(a, q, u));
      var n :| 0 <= n < |js| && js[n] == MakeJoined(a, q, u);
      assert KeyOf(js[n]) == k;
    }
  }

  /** Every score row is a joined group. */
  lemma RowsHaveGroups(answers: seq<AnswerRow>, qs: seq<Question>, us: seq<User>, id: Value)
    ensures ScoreKeys(ScoreTryout(answers, qs, us, id)) <= JoinedGroups(answers, qs, us, id)
  {
    var js := Join(answers, qs, us, id);
    forall k | k in ScoreKeys(Scores(js)) ensures k in JoinedGroups(answers, qs, us, id) {
      var n :| 0 <= n < |js| && KeyOf(js[n]) == k;
      assert js[n] in js;
      JoinMembers(answers, qs, us, id, js[n]);
      var a, q, u :| a in answers && q in qs && u in us && Joins(a, q, u, id) && js[n] == MakeJoined(a, q, u);
    }
  }


  /* ---------- the sum, stated without the join ---------- */

  /** `(no_soal, id_mapel, id_tryout)` is a key of `soal_tryout` (rows with a
      NULL in the key match nothing and are not constrained). */
  predicate UniqueQuestions(qs: seq<Question>)
  {
    forall i, j :: 0 <= i < |qs| && 0 <= j < |qs| && i != j ==>
      !(SqlEq(qs[i].noSoal, qs[j].noSoal) && SqlEq(qs[i].idMapel, qs[j].idMapel) && SqlEq(qs[i].idTryout, qs[j].idTryout))
  }

  /** `id` is a key of `users`. */
  predicate UniqueUsers(us: seq<User>)
  {
    forall i, j :: 0 <= i < |us| && 0 <= j < |us| && i != j ==> !SqlEq(us[i].id, us[j].id)
  }

  /** An answer row takes part in the score: it belongs to tryout `id`, its
      question exists and its user exists. */
  ghost predicate Counted(a: AnswerRow, qs: seq<Question>, us: seq<User>, id: Value)
  {
    SqlEq(a.idTryout, id) && (exists q :: q in qs && QuestionMatches(q, a)) && (exists u :: u in us && UserMatches(u, a))
  }

  /** What answer row `a` adds to group `k`: 100 times its question's point
      when it is counted, falls into `k` and has status 'benar'; else 0. */
  ghost function Contribution(a: AnswerRow, qs: seq<Question>, us: seq<User>, id: Value, k: GroupKey): int
  {
    if Counted(a, qs, us, id) then
      var q :| q in qs && QuestionMatches(q, a);
      var u :| u in us && UserMatches(u, a);
      if GroupKey(a.idUser, u.username, a.peminatan) == k && a.status == Str("benar") then 100 * q.point else 0
    else 0
  }

  /** The sum of group `k` as a plain fold over the answer rows. */
  ghost function ReferenceSum(answers: seq<AnswerRow>, qs: seq<Question>, us: seq<User>, id: Value, k: GroupKey): int
  {
    if answers == [] then 0 else Contribution(answers[0], qs, us, id, k) + ReferenceSum(answers[1..], qs, us, id, k)
  }

  lemma {:induction false} NoUserMatches(a: AnswerRow, q: Question, us: seq<User>)
    requires forall u :: u in us ==> !UserMatches(u, a)
    ensures WithUsers(a, q, us) == []
  {
    if us != [] {
      NoUserMatches(a, q, us[1..]);
    }
  }

  lemma UniqueUsersTail(us: seq<User>)
    requires us != [] && UniqueUsers(us)
    ensures UniqueUsers(us[1..])
  {
    forall i, j | 0 <= i < |us[1..]| && 0 <= j < |us[1..]| && i != j
      ensures !SqlEq(us[1..][i].id, us[1..][j].id)
    {
      assert us[1..][i] == us[i + 1] && us[1..][j] == us[j + 1];
    }
  }

  /** With `users.id` a key, an answer joins with its one user once. */
  lemma {:induction false} WithUsersSingle(a: AnswerRow, q: Question, us: seq<User>, u: User)
    requires UniqueUsers(us) && u in us && UserMatches(u, a)
    ensures WithUsers(a, q, us) == [MakeJoined(a, q, u)]
  {
    var i :| 0 <= i < |us| && us[i] == u;
    if UserMatches(us[0], a) {
      assert i == 0;
      forall v | v in us[1..] ensures !UserMatches(v, a) {
        var j :| 0 <= j < |us[1..]| && us[1..][j] == v;
        assert us[j + 1] == v;
      }
      NoUserMatches(a, q, us[1..]);
    } else {
      assert i != 0 && us[1..][i - 1] == u;
      UniqueUsersTail(us);
      WithUsersSingle(a, q, us[1..], u);
    }
  }

  lemma {:induction false} NoQuestionMatches(a: AnswerRow, qs: seq<Question>, us: seq<User>)
    requires (forall q :: q in qs ==> !QuestionMatches(q, a)) || (forall u :: u in us ==> !UserMatches(u, a))
    ensures WithQuestions(a, qs, us) == []
  {
    if qs != [] {
      if QuestionMatches(qs[0], a) {
        NoUserMatches(a, qs[0], us);
      }
      NoQuestionMatches(a, qs[1..], us);
    }
  }

  lemma UniqueQuestionsTail(qs: seq<Question>)
    requires qs != [] && UniqueQuestions(qs)
    ensures UniqueQuestions(qs[1..])
  {
    forall i, j | 0 <= i < |qs[1..]| && 0 <= j < |qs[1..]| && i != j
      ensures !(SqlEq(qs[1..][i].noSoal, qs[1..][j].noSoal) && SqlEq(qs[1..][i].idMapel, qs[1..][j].idMapel)
                && SqlEq(qs[1..][i].idTryout, qs[1..][j].idTryout))
    {
      assert qs[1..][i] == qs[i + 1] && qs[1..][j] == qs[j + 1];
    }
  }

  /** With both keys in place, an answer that has a question and a user
      yields exactly one joined row. */
  lemma {:induction false} WithQuestionsSingle(a: AnswerRow, qs: seq<Question>, us: seq<User>, q: Question, u: User)
    requires UniqueQuestions(qs) && UniqueUsers(us)
    requires q in qs && QuestionMatches(q, a) && u in us && UserMatches(u, a)
    ensures WithQuestions(a, qs, us) == [MakeJoined(a, q, u)]
  {
    var i :| 0 <= i < |qs| && qs[i] == q;
    if QuestionMatches(qs[0], a) {
      assert i == 0;
      WithUsersSingle(a, q, us, u);
      forall p | p in qs[1..] ensures !QuestionMatches(p, a) {
        var j :| 0 <= j < |qs[1..]| && qs[1..][j] == p;
        assert qs[j + 1] == p;
      }
      NoQuestionMatches(a, qs[1..], us);
    } else {
      assert i != 0 && qs[1..][i - 1] == q;
      UniqueQuestionsTail(qs);
      WithQuestionsSingle(a, qs[1..], us, q, u);
    }
  }

  /** One answer row adds to a group's sum exactly its contribution. */
  lemma JoinAnswerSum(a: AnswerRow, qs: seq<Question>, us: seq<User>, id: Value, k: GroupKey)
    requires UniqueQuestions(qs) && UniqueUsers(us)
    ensures GroupSum(JoinAnswer(a, qs, us, id), k) == Contribution(a, qs, us, id, k)
  {
    if Counted(a, qs, us, id) {
      var q :| q in qs && QuestionMatches(q, a);
      var u :| u in us && UserMatches(u, a);
      WithQuestionsSingle(a, qs, us, q, u);
      assert [MakeJoined(a, q, u)][1..] == [];
    } else if SqlEq(a.idTryout, id) {
      NoQuestionMatches(a, qs, us);
    }
  }

  /** With (`no_soal`, `id_mapel`, `id_tryout`) a key of `soal_tryout` and
      `id` a key of `users`, a group's sum is the sum of 100 times the point
      of every counted 'benar' answer in the group: answers with another
      status add 0, and answers without a question or a user add nothing. */
  lemma {:induction false} SumMatchesReference(answers: seq<AnswerRow>, qs: seq<Question>, us: seq<User>, id: Value, k: GroupKey)
    requires UniqueQuestions(qs) && UniqueUsers(us)
    ensures GroupSum(Join(answers, qs, us, id), k) == ReferenceSum(answers, qs, us, id, k)
  {
    if answers != [] {
      GroupSumAppend(JoinAnswer(answers[0], qs, us, id), Join(answers[1..], qs, us, id), k);
      JoinAnswerSum(answers[0], qs, us, id, k);
      SumMatchesReference(answers[1..], qs, us, id, k);
    }
  }

  /** Every score row's total is 100 times its reference sum, divided by 7. */
  lemma ScoreRowTotals(answers: seq<AnswerRow>, qs: seq<Question>, us: seq<User>, id: Value)
    requires UniqueQuestions(qs) && UniqueUsers(us)
    ensures var r := ScoreTryout(answers, qs, us, id);
      forall i :: 0 <= i < |r| ==> r[i].total == ReferenceSum(answers, qs, us, id, r[i].key) as real / 7.0
  {
    var r := ScoreTryout(answers, qs, us, id);
    forall i | 0 <= i < |r| ensures r[i].total == ReferenceSum(answers, qs, us, id, r[i].key) as real / 7.0 {
      assert r[i] in r;
      SumMatchesReference(answers, qs, us, id, r[i].key);
    }
  }
}
