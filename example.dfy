/** A worked instance of the score-and-rank pipeline. */
module Example {
  import opened Sql
  import opened Schema
  import opened Scoring
  import opened Ranking

  const A := Num(1)
  const B := Num(2)
  const Tryout := Num(5)
  const U1 := Num(11)
  const U2 := Num(12)
  const Benar := Str("benar")
  const Salah := Str("salah")
  const Saintek := Str("saintek")

  function ExampleAnswers(): seq<AnswerRow>
  {
    [ AnswerRow(U1, Tryout, A, Num(1), Benar, Str("a"), Saintek),
      AnswerRow(U1, Tryout, B, Num(1), Benar, Str("c"), Saintek),
      AnswerRow(U2, Tryout, A, Num(1), Benar, Str("a"), Saintek),
      AnswerRow(U2, Tryout, B, Num(1), Salah, Str("d"), Saintek) ]
  }

  function ExampleQuestions(): seq<Question>
  {
    [ Question(Num(1), A, Tryout, 10), Question(Num(1), B, Tryout, 10) ]
  }

  function ExampleUsers(): seq<User>
  {
    [ User(U1, Str("ani")), User(U2, Str("budi")) ]
  }

  function ExampleProfiles(): seq<Profile>
  {
    [ Profile(U1, Str("SMA 1"), Num(31)) ]
  }

  function J1(): Joined { Joined(U1, Str("ani"), Saintek, Benar, 10) }
  function J2(): Joined { Joined(U2, Str("budi"), Saintek, Benar, 10) }
  function J3(): Joined { Joined(U2, Str("budi"), Saintek, Salah, 10) }

  lemma ExampleJoin()
    ensures Join(ExampleAnswers(), ExampleQuestions(), ExampleUsers(), Tryout) == [J1(), J1(), J2(), J3()]
  {
    var qs, us := ExampleQuestions(), ExampleUsers();
    var ans := ExampleAnswers();
    assert qs[1..][1..] == [] && us[1..][1..] == [];
    assert WithQuestions(ans[0], qs, us) == [J1()];
    assert WithQuestions(ans[1], qs, us) == [J1()];
    assert WithQuestions(ans[2], qs, us) == [J2()];
    assert WithQuestions(ans[3], qs, us) == [J3()];
    assert ans[1..][1..][1..][1..] == [];
    assert Join(ans[3..], qs, us, Tryout) == [J3()];
    assert Join(ans[2..], qs, us, Tryout) == [J2(), J3()] by { assert ans[2..][1..] == ans[3..]; }
    assert Join(ans[1..], qs, us, Tryout) == [J1(), J2(), J3()] by { assert ans[1..][1..] == ans[2..]; }
  }

  lemma ExampleKeys()
    ensures Keys([J1(), J1(), J2(), J3()]) == [KeyOf(J1()), KeyOf(J2())]
  {
    var js := [J1(), J1(), J2(), J3()];
    var k1, k2 := KeyOf(J1()), KeyOf(J2());
    assert KeyOf(J3()) == k2 && k1 != k2;
    assert js[1..] == [J1(), J2(), J3()] && js[1..][1..] == [J2(), J3()];
    assert KeysFrom([J3()], {k1, k2}) == [] by { assert [J3()][1..] == []; }
    assert KeysFrom([J2(), J3()], {k1}) == [k2] by {
      assert [J2(), J3()][1..] == [J3()] && {k1} + {k2} == {k1, k2};
    }
    assert KeysFrom(js[1..], {k1}) == [k2];
    assert {} + {k1} == {k1};
  }

  lemma ExampleSums()
    ensures GroupSum([J1(), J1(), J2(), J3()], KeyOf(J1())) == 2000
    ensures GroupSum([J1(), J1(), J2(), J3()], KeyOf(J2())) == 1000
  {
    var js := [J1(), J1(), J2(), J3()];
    var k1, k2 := KeyOf(J1()), KeyOf(J2());
    assert KeyOf(J3()) == k2 && k1 != k2;
    assert js[1..] == [J1(), J2(), J3()] && js[1..][1..] == [J2(), J3()] && js[1..][1..][1..] == [J3()];
    assert GroupSum([J3()], k1) == 0 && GroupSum([J3()], k2) == 0 by { assert [J3()][1..] == []; }
  }

  lemma ExampleScores()
    ensures ScoreTryout(ExampleAnswers(), ExampleQuestions(), ExampleUsers(), Tryout)
         == [ScoreRow(KeyOf(J1()), 2000.0 / 7.0), ScoreRow(KeyOf(J2()), 1000.0 / 7.0)]
  {
    ExampleJoin();
    ExampleKeys();
    ExampleSums();
  }

  lemma ExampleNumbering(r1: ScoreRow, r2: ScoreRow)
    requires r1.total >= r2.total
    ensures RankScores([r1, r2]) == [Ranked(r1, 1), Ranked(r2, 2)]
  {
    assert [r1, r2][1..] == [r2];
    assert SortDesc([r2]) == [r2] by { assert [r2][1..] == []; }
    assert SortDesc([r1, r2]) == [r1, r2];
    var ranked := RowNumber([r1, r2]);
    assert ranked[0] == Ranked(r1, 1) && ranked[1] == Ranked(r2, 2);
  }

  lemma ExampleLeftJoin(r1: ScoreRow, r2: ScoreRow)
    requires r1.key.idUser == U1 && r2.key.idUser == U2
    ensures LeftJoin([Ranked(r1, 1), Ranked(r2, 2)], ExampleProfiles(), Tryout)
         == [ MakeRank(Ranked(r1, 1), Str("SMA 1"), Num(31), Tryout),
              MakeRank(Ranked(r2, 2), Null, Null, Tryout) ]
  {
    var ps := ExampleProfiles();
    assert ProfilesOf(ps, U1) == ps by { assert ps[1..] == []; }
    assert ProfilesOf(ps, U2) == [] by { assert ps[1..] == []; }
    assert LeftJoin([Ranked(r2, 2)], ps, Tryout) == [MakeRank(Ranked(r2, 2), Null, Null, Tryout)] by {
      assert [Ranked(r2, 2)][1..] == [];
    }
    assert [Ranked(r1, 1), Ranked(r2, 2)][1..] == [Ranked(r2, 2)];
  }

  /** The user with two correct answers ranks first with 2000/7; the user with
      one correct and one wrong answer ranks second with 1000/7, and keeps a
      row with NULL origin although it has no `userdata` row. */
  lemma ExampleRanking()
    ensures RankTryout(ExampleAnswers(), ExampleQuestions(), ExampleUsers(), ExampleProfiles(), Tryout)
         == [ RankRow(U1, Str("ani"), Saintek, 2000.0 / 7.0, Str("SMA 1"), Num(31), 1, Tryout, 2026),
              RankRow(U2, Str("budi"), Saintek, 1000.0 / 7.0, Null, Null, 2, Tryout, 2026) ]
  {
    ExampleScores();
    var r1, r2 := ScoreRow(KeyOf(J1()), 2000.0 / 7.0), ScoreRow(KeyOf(J2()), 1000.0 / 7.0);
    ExampleNumbering(r1, r2);
    ExampleLeftJoin(r1, r2);
  }
}
