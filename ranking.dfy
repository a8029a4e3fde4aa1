/** The outer SELECTs of `POST /process-tryout/:idTryout`:
    `ROW_NUMBER() OVER (ORDER BY n.total DESC)` over the score rows, then
    `LEFT JOIN userdata` and the tryout and year tags of the inserted rows. */
module Ranking {
  import opened Sql
  import opened Seqs
  import opened Schema
  import opened Scoring

  /* ---------- ORDER BY total DESC ---------- */

  predicate SortedDesc(s: seq<ScoreRow>)
  {
    forall i, j :: 0 <= i < j < |s| ==> s[i].total >= s[j].total
  }

  /** `x` placed before the first row whose total is not larger than its own,
      so that `x` goes ahead of the rows it ties with. */
  function InsertDesc(x: ScoreRow, s: seq<ScoreRow>): (r: seq<ScoreRow>)
    requires SortedDesc(s)
    ensures |r| == |s| + 1 && (r[0] == x || (s != [] && r[0] == s[0]))
    ensures SortedDesc(r)
    ensures multiset(r) == multiset(s) + multiset{x}
  {
    if s == [] || x.total >= s[0].total then
      assert forall j :: 0 < j < |s| ==> s[0].total >= s[j].total;
      [x] + s
    else
      var rest := InsertDesc(x, s[1..]);
      assert s == [s[0]] + s[1..];
      assert s[0].total >= rest[0].total;
      [s[0]] + rest
  }

  /** The score rows by total, highest first. Rows with equal totals keep
      their order (the order in which their groups first appear). */
  function SortDesc(s: seq<ScoreRow>): (r: seq<ScoreRow>)
    ensures SortedDesc(r)
    ensures multiset(r) == multiset(s)
  {
    if s == [] then []
    else
      assert s == [s[0]] + s[1..];
      InsertDesc(s[0], SortDesc(s[1..]))
  }

  /* ---------- ROW_NUMBER() ---------- */

  /** A score row with its `rnk`. */
  datatype Ranked = Ranked(row: ScoreRow, rank: nat)

  /** Position `i` is numbered `i + 1`. */
  function RowNumber(s: seq<ScoreRow>): (r: seq<Ranked>)
    ensures |r| == |s|
    ensures forall i :: 0 <= i < |s| ==> r[i] == Ranked(s[i], i + 1)
  {
    seq(|s|, i requires 0 <= i < |s| => Ranked(s[i], i + 1))
  }

  function RowsOf(r: seq<Ranked>): seq<ScoreRow>
  {
    seq(|r|, i requires 0 <= i < |r| => r[i].row)
  }

  /** The derived table `r`. */
  function RankScores(scores: seq<ScoreRow>): seq<Ranked>
  {
    RowNumber(SortDesc(scores))
  }

  /** What `ROW_NUMBER() OVER (ORDER BY total DESC)` may return for `scores`:
      the same rows in an order of non-increasing total, numbered 1, 2, ...
      The query leaves the order among equal totals to the engine, so this
      predicate admits every such order. */
  ghost predicate IsRowNumbering(scores: seq<ScoreRow>, ranked: seq<Ranked>)
  {
    && multiset(RowsOf(ranked)) == multiset(scores)
    && (forall i :: 0 <= i < |ranked| ==> ranked[i].rank == i + 1)
    && (forall i, j :: 0 <= i < j < |ranked| ==> ranked[i].row.total >= ranked[j].row.total)
  }

  /** The model's numbering is one the query may return. */
  lemma RankScoresIsRowNumbering(scores: seq<ScoreRow>)
    ensures IsRowNumbering(scores, RankScores(scores))
  {
    var sorted := SortDesc(scores);
    assert RowsOf(RowNumber(sorted)) == sorted;
  }

  /** The rank numbers in use. */
  function Ranks(ranked: seq<Ranked>): set<nat>
  {
    set x | x in ranked :: x.rank
  }

  /** Every row numbering uses the ranks 1..N, each once. */
  lemma RowNumberingDense(scores: seq<ScoreRow>, ranked: seq<Ranked>)
    requires IsRowNumbering(scores, ranked)
    ensures |ranked| == |scores|
    ensures forall k :: k in Ranks(ranked) <==> 1 <= k <= |scores|
    ensures forall i, j :: 0 <= i < |ranked| && 0 <= j < |ranked| && i != j ==> ranked[i].rank != ranked[j].rank
  {
    assert |RowsOf(ranked)| == |ranked|;
    assert |multiset(RowsOf(ranked))| == |multiset(scores)|;
    forall k | 1 <= k <= |scores| ensures k in Ranks(ranked) {
      assert ranked[k - 1] in ranked;
    }
  }

  /** In every row numbering a strictly higher total never has a larger rank. */
  lemma RowNumberingOrdered(scores: seq<ScoreRow>, ranked: seq<Ranked>)
    requires IsRowNumbering(scores, ranked)
    ensures forall x, y :: x in ranked && y in ranked && x.row.total > y.row.total ==> x.rank < y.rank
  {
    forall x, y | x in ranked && y in ranked && x.row.total > y.row.total ensures x.rank < y.rank {
      var i :| 0 <= i < |ranked| && ranked[i] == x;
      var j :| 0 <= j < |ranked| && ranked[j] == y;
      assert i < j;
    }
  }

  /** Removing one row from a sorted sequence keeps it sorted. */
  lemma SortedRemove(b: seq<ScoreRow>, j: nat)
    requires SortedDesc(b) && j < |b|
    ensures SortedDesc(b[..j] + b[j + 1..])
    ensures multiset(b[..j] + b[j + 1..]) == multiset(b) - multiset{b[j]}
  {
    var b' := b[..j] + b[j + 1..];
    assert b == b[..j] + [b[j]] + b[j + 1..];
    forall p, q | 0 <= p < q < |b'| ensures b'[p].total >= b'[q].total {
      var p' := if p < j then p else p + 1;
      var q' := if q < j then q else q + 1;
      assert b'[p] == b[p'] && b'[q] == b[q'];
    }
  }

  /** Two orderings by non-increasing total of the same rows agree on the
      total at every position: only rows with equal totals can trade places. */
  lemma {:induction false} SortedSameTotals(a: seq<ScoreRow>, b: seq<ScoreRow>)
    requires SortedDesc(a) && SortedDesc(b) && multiset(a) == multiset(b)
    ensures |a| == |b|
    ensures forall i :: 0 <= i < |a| ==> a[i].total == b[i].total
    decreases |a|
  {
    assert |a| == |multiset(a)| == |multiset(b)| == |b|;
    if a != [] {
      var j := HeadIn(a, b);
      var b' := b[..j] + b[j + 1..];
      SortedRemove(b, j);
      assert a == [a[0]] + a[1..];
      assert multiset(a[1..]) == multiset(a) - multiset{a[0]};
      SortedSameTotals(a[1..], b');
      ShiftedTotals(a, b, j);
    }
  }

  /** The head of one of two sorted orderings of the same rows sits at some
      position `j` of the other, and both heads carry the highest total. */
  lemma HeadIn(a: seq<ScoreRow>, b: seq<ScoreRow>) returns (j: nat)
    requires SortedDesc(a) && SortedDesc(b) && multiset(a) == multiset(b) && a != []
    ensures j < |b| && b[j] == a[0] && a[0].total == b[0].total
  {
    assert a[0] in multiset(b) && b[0] in multiset(a);
    j :| 0 <= j < |b| && b[j] == a[0];
    var k :| 0 <= k < |a| && a[k] == b[0];
  }

  /** The inductive step of `SortedSameTotals`: `a` without its head agrees
      with `b` without the copy `b[j]` of that head, and that head's total is
      `b`'s highest, so `a` agrees with `b`. */
  lemma ShiftedTotals(a: seq<ScoreRow>, b: seq<ScoreRow>, j: nat)
    requires SortedDesc(b) && |a| == |b| && j < |b|
    requires a[0].total == b[0].total == b[j].total
    requires forall i :: 0 <= i < |a| - 1 ==> a[1..][i].total == (b[..j] + b[j + 1..])[i].total
    ensures forall i :: 0 <= i < |a| ==> a[i].total == b[i].total
  {
    var b' := b[..j] + b[j + 1..];
    forall i | 1 <= i < |a| ensures a[i].total == b[i].total {
      assert a[i] == a[1..][i - 1];
      if i <= j {
        assert b'[i - 1] == b[i - 1];
        assert b[0].total >= b[i - 1].total >= b[i].total >= b[j].total;
      } else {
        assert b'[i - 1] == b[i];
      }
    }
  }

  /** Any two row numberings of the same score rows use the same rows and the
      same ranks, and give every rank the same total; they differ at most in
      which of several rows with equal totals gets which of their ranks. */
  lemma RowNumberingsAgree(scores: seq<ScoreRow>, first: seq<Ranked>, second: seq<Ranked>)
    requires IsRowNumbering(scores, first) && IsRowNumbering(scores, second)
    ensures |first| == |second|
    ensures multiset(RowsOf(first)) == multiset(RowsOf(second))
    ensures forall i :: 0 <= i < |first| ==> first[i].rank == second[i].rank && first[i].row.total == second[i].row.total
  {
    var a, b := RowsOf(first), RowsOf(second);
    assert SortedDesc(a) by {
      forall i, j | 0 <= i < j < |a| ensures a[i].total >= a[j].total {
        assert a[i] == first[i].row && a[j] == first[j].row;
      }
    }
    assert SortedDesc(b) by {
      forall i, j | 0 <= i < j < |b| ensures b[i].total >= b[j].total {
        assert b[i] == second[i].row && b[j] == second[j].row;
      }
    }
    SortedSameTotals(a, b);
    forall i | 0 <= i < |first| ensures first[i].row.total == second[i].row.total {
      assert a[i] == first[i].row && b[i] == second[i].row;
    }
  }

  /* ---------- LEFT JOIN userdata u ON u.id_user = r.id_user ---------- */

  /** The `userdata` rows of a user. */
  function ProfilesOf(ps: seq<Profile>, idUser: Value): (r: seq<Profile>)
    ensures forall p :: p in r <==> p in ps && SqlEq(p.idUser, idUser)
  {
    Filter(ps, (p: Profile) => SqlEq(p.idUser, idUser))
  }

  /** A rank table row for ranked row `r` with the given origin, tagged with
      the tryout and the year. */
  function MakeRank(r: Ranked, instansi: Value, provinsi: Value, id: Value): RankRow
  {
    RankRow(r.row.key.idUser, r.row.key.username, r.row.key.peminatan, r.row.total,
            instansi, provinsi, r.rank, id, RankYear)
  }

  /** The left join of one ranked row: one row per matching profile, or one
      row with NULL origin when there is none. */
  function Enrich(r: Ranked, ps: seq<Profile>, id: Value): seq<RankRow>
  {
    var ms := ProfilesOf(ps, r.row.key.idUser);
    if ms == [] then [MakeRank(r, Null, Null, id)]
    else seq(|ms|, i requires 0 <= i < |ms| => MakeRank(r, ms[i].instansi, ms[i].provinsi, id))
  }

  function LeftJoin(rs: seq<Ranked>, ps: seq<Profile>, id: Value): seq<RankRow>
  {
    if rs == [] then [] else Enrich(rs[0], ps, id) + LeftJoin(rs[1..], ps, id)
  }

  /** A rank table row carries the group, total and rank of ranked row `r`. */
  predicate Carries(x: RankRow, r: Ranked, id: Value)
  {
    && x.idUser == r.row.key.idUser && x.username == r.row.key.username
    && x.peminatan == r.row.key.peminatan && x.total == r.row.total
    && x.rank == r.rank && x.idTryout == id && x.year == RankYear
  }

  lemma EnrichCarries(r: Ranked, ps: seq<Profile>, id: Value)
    ensures forall x :: x in Enrich(r, ps, id) ==> Carries(x, r, id)
  {
    var ms := ProfilesOf(ps, r.row.key.idUser);
    if ms != [] {
      forall x | x in Enrich(r, ps, id) ensures Carries(x, r, id) {
        var i :| 0 <= i < |ms| && Enrich(r, ps, id)[i] == x;
      }
    }
  }

  lemma {:induction false} LeftJoinRowsFrom(rs: seq<Ranked>, ps: seq<Profile>, id: Value)
    ensures forall x :: x in LeftJoin(rs, ps, id) ==> exists i :: 0 <= i < |rs| && Carries(x, rs[i], id)
  {
    if rs != [] {
      var head := Enrich(rs[0], ps, id);
      var tail := LeftJoin(rs[1..], ps, id);
      EnrichCarries(rs[0], ps, id);
      LeftJoinRowsFrom(rs[1..], ps, id);
      assert LeftJoin(rs, ps, id) == head + tail;
      forall x | x in LeftJoin(rs, ps, id) ensures exists i :: 0 <= i < |rs| && Carries(x, rs[i], id) {
        if x in head {
          assert Carries(x, rs[0], id);
        } else {
          assert x in tail;
          var i :| 0 <= i < |rs[1..]| && Carries(x, rs[1..][i], id);
          assert rs[1..][i] == rs[i + 1];
        }
      }
    }
  }
  /** The left join drops no ranked row: ranked row `rs[i]`, with or without
      a profile, leaves a joined row `x` that carries it. */
  lemma {:induction false} RowOfRanked(rs: seq<Ranked>, ps: seq<Profile>, id: Value, i: nat) returns (x: RankRow)
    requires i < |rs|
    ensures x in LeftJoin(rs, ps, id) && Carries(x, rs[i], id)
    decreases i
  {
    var head := Enrich(rs[0], ps, id);
    assert LeftJoin(rs, ps, id) == head + LeftJoin(rs[1..], ps, id);
    if i == 0 {
      EnrichCarries(rs[0], ps, id);
      x := head[0];
      assert x in head;
    } else {
      x := RowOfRanked(rs[1..], ps, id, i - 1);
      assert rs[1..][i - 1] == rs[i];
    }
  }



  /** `id_user` is a key of `userdata`. */
  predicate UniqueProfiles(ps: seq<Profile>)
  {
    forall i, j :: 0 <= i < |ps| && 0 <= j < |ps| && i != j ==> !SqlEq(ps[i].idUser, ps[j].idUser)
  }

  /** With `id_user` a key, no row after a user's first profile matches it. */
  lemma NoLaterProfile(ps: seq<Profile>, idUser: Value)
    requires UniqueProfiles(ps) && ps != [] && SqlEq(ps[0].idUser, idUser)
    ensures ProfilesOf(ps[1..], idUser) == []
  {
    forall p | p in ps[1..] ensures !SqlEq(p.idUser, idUser) {
      var k :| 0 <= k < |ps[1..]| && ps[1..][k] == p;
      assert ps[k + 1] == p;
    }
    FilterKeepsNone(ps[1..], (p: Profile) => SqlEq(p.idUser, idUser));
  }

  lemma {:induction false} ProfilesOfUnique(ps: seq<Profile>, idUser: Value)
    requires UniqueProfiles(ps)
    ensures |ProfilesOf(ps, idUser)| <= 1
  {
    if ps != [] {
      var rest := ProfilesOf(ps[1..], idUser);
      assert ProfilesOf(ps, idUser) == (if SqlEq(ps[0].idUser, idUser) then [ps[0]] else []) + rest;
      if SqlEq(ps[0].idUser, idUser) {
        NoLaterProfile(ps, idUser);
      } else {
        assert UniqueProfiles(ps[1..]) by {
          forall i, j | 0 <= i < |ps[1..]| && 0 <= j < |ps[1..]| && i != j
            ensures !SqlEq(ps[1..][i].idUser, ps[1..][j].idUser)
          {
            assert ps[1..][i] == ps[i + 1] && ps[1..][j] == ps[j + 1];
          }
        }
        ProfilesOfUnique(ps[1..], idUser);
      }
    }
  }

  /** Rank table row `x` is ranked row `r` with the origin of its one
      profile, or with NULL origin when it has none. */
  predicate EnrichedFrom(x: RankRow, r: Ranked, ps: seq<Profile>, id: Value)
  {
    var ms := ProfilesOf(ps, r.row.key.idUser);
    && Carries(x, r, id)
    && (ms == [] ==> x.instansi == Null && x.provinsi == Null)
    && (ms != [] ==> x.instansi == ms[0].instansi && x.provinsi == ms[0].provinsi)
  }

  /** With `id_user` a key of `userdata`, the left join keeps every ranked
      row exactly once, in place: with its profile's origin when it has one
      and with NULL origin when it has none. */
  lemma {:induction false} LeftJoinOnePerRow(rs: seq<Ranked>, ps: seq<Profile>, id: Value)
    requires UniqueProfiles(ps)
    ensures |LeftJoin(rs, ps, id)| == |rs|
    ensures forall i :: 0 <= i < |rs| ==> EnrichedFrom(LeftJoin(rs, ps, id)[i], rs[i], ps, id)
  {
    if rs != [] {
      var head := Enrich(rs[0], ps, id);
      var tail := LeftJoin(rs[1..], ps, id);
      ProfilesOfUnique(ps, rs[0].row.key.idUser);
      assert |head| == 1 && EnrichedFrom(head[0], rs[0], ps, id);
      LeftJoinOnePerRow(rs[1..], ps, id);
      var all := LeftJoin(rs, ps, id);
      assert all == head + tail;
      forall i | 0 <= i < |rs| ensures EnrichedFrom(all[i], rs[i], ps, id) {
        if i > 0 {
          assert all[i] == tail[i - 1] && rs[i] == rs[1..][i - 1];
        }
      }
    }
  }

  /* ---------- the rows inserted into rank_tryout_2025 ---------- */

  /** The `INSERT INTO rank_tryout_2025 ... SELECT` rows for tryout `id`. */
  function RankTryout(answers: seq<AnswerRow>, qs: seq<Question>, us: seq<User>, ps: seq<Profile>, id: Value): seq<RankRow>
  {
    LeftJoin(RankScores(ScoreTryout(answers, qs, us, id)), ps, id)
  }

  function GroupOf(x: RankRow): GroupKey
  {
    GroupKey(x.idUser, x.username, x.peminatan)
  }

  /** Every inserted row is tagged with the tryout and the year 2026, and a
      row whose user has no `userdata` row has NULL `instansi` and `provinsi`. */
  lemma RankTryoutTagged(answers: seq<AnswerRow>, qs: seq<Question>, us: seq<User>, ps: seq<Profile>, id: Value)
    ensures forall x :: x in RankTryout(answers, qs, us, ps, id) ==>
      && x.idTryout == id && x.year == 2026
      && (ProfilesOf(ps, x.idUser) == [] ==> x.instansi == Null && x.provinsi == Null)
  {
    var ranked := RankScores(ScoreTryout(answers, qs, us, id));
    LeftJoinRowsFrom(ranked, ps, id);
    forall x | x in LeftJoin(ranked, ps, id) && ProfilesOf(ps, x.idUser) == []
      ensures x.instansi == Null && x.provinsi == Null
    {
      LeftJoinNullOrigin(ranked, ps, id, x);
    }
  }

  lemma {:induction false} LeftJoinNullOrigin(rs: seq<Ranked>, ps: seq<Profile>, id: Value, x: RankRow)
    requires x in LeftJoin(rs, ps, id) && ProfilesOf(ps, x.idUser) == []
    ensures x.instansi == Null && x.provinsi == Null
  {
    var head := Enrich(rs[0], ps, id);
    assert LeftJoin(rs, ps, id) == head + LeftJoin(rs[1..], ps, id);
    if x in head {
      EnrichCarries(rs[0], ps, id);
    } else {
      LeftJoinNullOrigin(rs[1..], ps, id, x);
    }
  }

  /** Among the inserted rows a strictly higher total never has a larger
      rank, whatever `userdata` holds (for any tie order, `LeftJoinOrdered`). */
  lemma RankTryoutOrdered(answers: seq<AnswerRow>, qs: seq<Question>, us: seq<User>, ps: seq<Profile>, id: Value)
    ensures var rows := RankTryout(answers, qs, us, ps, id);
      forall x, y :: x in rows && y in rows && x.total > y.total ==> x.rank < y.rank
  {
    var scores := ScoreTryout(answers, qs, us, id);
    RankScoresIsRowNumbering(scores);
    LeftJoinOrdered(scores, RankScores(scores), ps, id);
  }

  /** For every numbering the query may return, a strictly higher total
      never has a larger rank among the joined rows. */
  lemma LeftJoinOrdered(scores: seq<ScoreRow>, ranked: seq<Ranked>, ps: seq<Profile>, id: Value)
    requires IsRowNumbering(scores, ranked)
    ensures var rows := LeftJoin(ranked, ps, id);
      forall x, y :: x in rows && y in rows && x.total > y.total ==> x.rank < y.rank
  {
    RowNumberingOrdered(scores, ranked);
    LeftJoinRowsFrom(ranked, ps, id);
    forall x, y | x in LeftJoin(ranked, ps, id) && y in LeftJoin(ranked, ps, id) && x.total > y.total
      ensures x.rank < y.rank
    {
      var i :| 0 <= i < |ranked| && Carries(x, ranked[i], id);
      var j :| 0 <= j < |ranked| && Carries(y, ranked[j], id);
      assert ranked[i] in ranked && ranked[j] in ranked;
    }
  }


  /** The rank numbers of a set of rank table rows. */
  function RankNumbers(rows: seq<RankRow>): set<nat>
  {
    set x | x in rows :: x.rank
  }

  /** The left join of a row numbering, with `id_user` a key of `userdata`,
      has one row per score row and uses each rank 1..N once. */
  lemma LeftJoinDense(scores: seq<ScoreRow>, ranked: seq<Ranked>, ps: seq<Profile>, id: Value)
    requires IsRowNumbering(scores, ranked) && UniqueProfiles(ps)
    ensures var rows := LeftJoin(ranked, ps, id);
      && |rows| == |scores|
      && (forall k :: k in RankNumbers(rows) <==> 1 <= k <= |rows|)
      && (forall i, j :: 0 <= i < |rows| && 0 <= j < |rows| && i != j ==> rows[i].rank != rows[j].rank)
  {
    RowNumberingDense(scores, ranked);
    LeftJoinOnePerRow(ranked, ps, id);
    var rows := LeftJoin(ranked, ps, id);
    assert forall i :: 0 <= i < |rows| ==> rows[i].rank == i + 1 by {
      forall i | 0 <= i < |rows| ensures rows[i].rank == i + 1 {
        assert EnrichedFrom(rows[i], ranked[i], ps, id);
      }
    }
    forall k | 1 <= k <= |rows| ensures k in RankNumbers(rows) {
      assert rows[k - 1] in rows;
    }
  }

  /** With `id_user` a key of `userdata`, the ranks of the inserted rows are
      exactly 1..N, each used once, N being the number of score rows. */
  lemma RankTryoutDense(answers: seq<AnswerRow>, qs: seq<Question>, us: seq<User>, ps: seq<Profile>, id: Value)
    requires UniqueProfiles(ps)
    ensures var rows := RankTryout(answers, qs, us, ps, id);
      && |rows| == |ScoreTryout(answers, qs, us, id)|
      && (forall k :: k in RankNumbers(rows) <==> 1 <= k <= |rows|)
      && (forall i, j :: 0 <= i < |rows| && 0 <= j < |rows| && i != j ==> rows[i].rank != rows[j].rank)
  {
    var scores := ScoreTryout(answers, qs, us, id);
    RankScoresIsRowNumbering(scores);
    LeftJoinDense(scores, RankScores(scores), ps, id);
  }

  /** The left join of any row numbering has exactly the groups of the score
      rows, whatever `userdata` holds. */
  lemma LeftJoinGroups(scores: seq<ScoreRow>, ranked: seq<Ranked>, ps: seq<Profile>, id: Value)
    requires IsRowNumbering(scores, ranked)
    ensures (set x | x in LeftJoin(ranked, ps, id) :: GroupOf(x)) == ScoreKeys(scores)
  {
    JoinedRowsScored(scores, ranked, ps, id);
    ScoredRowsJoined(scores, ranked, ps, id);
  }

  /** Every joined row has the group of some score row. */
  lemma JoinedRowsScored(scores: seq<ScoreRow>, ranked: seq<Ranked>, ps: seq<Profile>, id: Value)
    requires IsRowNumbering(scores, ranked)
    ensures forall x :: x in LeftJoin(ranked, ps, id) ==> GroupOf(x) in ScoreKeys(scores)
  {
    LeftJoinRowsFrom(ranked, ps, id);
    forall x | x in LeftJoin(ranked, ps, id) ensures GroupOf(x) in ScoreKeys(scores) {
      var i :| 0 <= i < |ranked| && Carries(x, ranked[i], id);
      assert ranked[i].row == RowsOf(ranked)[i];
      assert ranked[i].row in multiset(scores);
    }
  }

  /** Every score row's group has a joined row. */
  lemma ScoredRowsJoined(scores: seq<ScoreRow>, ranked: seq<Ranked>, ps: seq<Profile>, id: Value)
    requires IsRowNumbering(scores, ranked)
    ensures ScoreKeys(scores) <= (set x | x in LeftJoin(ranked, ps, id) :: GroupOf(x))
  {
    forall sc | sc in scores ensures sc.key in (set x | x in LeftJoin(ranked, ps, id) :: GroupOf(x)) {
      assert sc in multiset(RowsOf(ranked));
      var i :| 0 <= i < |RowsOf(ranked)| && RowsOf(ranked)[i] == sc;
      var x := RowOfRanked(ranked, ps, id, i);
      assert GroupOf(x) == sc.key;
    }
  }



  /** The inserted rows have exactly the joined groups, whatever `userdata`
      holds: a group whose user has no profile keeps its row. */
  lemma RankTryoutGroups(answers: seq<AnswerRow>, qs: seq<Question>, us: seq<User>, ps: seq<Profile>, id: Value)
    ensures (set x | x in RankTryout(answers, qs, us, ps, id) :: GroupOf(x)) == JoinedGroups(answers, qs, us, id)
  {
    var scores := ScoreTryout(answers, qs, us, id);
    ScoreRowsAreGroups(answers, qs, us, id);
    RankScoresIsRowNumbering(scores);
    LeftJoinGroups(scores, RankScores(scores), ps, id);
  }

  /** With `id_user` a key of `userdata`, there is exactly one inserted row
      per joined group. */
  lemma RankTryoutOneRowPerGroup(answers: seq<AnswerRow>, qs: seq<Question>, us: seq<User>, ps: seq<Profile>, id: Value)
    requires UniqueProfiles(ps)
    ensures |RankTryout(answers, qs, us, ps, id)| == |JoinedGroups(answers, qs, us, id)|
  {
    var scores := ScoreTryout(answers, qs, us, id);
    ScoreRowsAreGroups(answers, qs, us, id);
    RankScoresIsRowNumbering(scores);
    LeftJoinDense(scores, RankScores(scores), ps, id);
    ScoreKeysCount(scores);
  }


  /** Score rows with pairwise different groups have as many groups as rows. */
  lemma ScoreKeysCount(scores: seq<ScoreRow>)
    requires forall i, j :: 0 <= i < |scores| && 0 <= j < |scores| && i != j ==> scores[i].key != scores[j].key
    ensures |ScoreKeys(scores)| == |scores|
  {
    var ks := seq(|scores|, i requires 0 <= i < |scores| => scores[i].key);
    assert Distinct(ks);
    DistinctCard(ks);
    assert (set k | k in ks) == ScoreKeys(scores) by {
      forall k | k in ks ensures k in ScoreKeys(scores) {
        var i :| 0 <= i < |ks| && ks[i] == k;
        assert scores[i] in scores;
      }
      forall sc | sc in scores ensures sc.key in ks {
        var i :| 0 <= i < |scores| && scores[i] == sc;
        assert ks[i] == sc.key;
      }
    }
  }

  /** With the keys of `soal_tryout` and `users` in place, every inserted
      row's total is 100 times the points of its group's counted 'benar'
      answers, divided by 7. */
  lemma RankTryoutTotals(answers: seq<AnswerRow>, qs: seq<Question>, us: seq<User>, ps: seq<Profile>, id: Value)
    requires UniqueQuestions(qs) && UniqueUsers(us)
    ensures forall x :: x in RankTryout(answers, qs, us, ps, id) ==>
      x.total == ReferenceSum(answers, qs, us, id, GroupOf(x)) as real / 7.0
  {
    var scores := ScoreTryout(answers, qs, us, id);
    RankScoresIsRowNumbering(scores);
    LeftJoinTotals(answers, qs, us, ps, id, RankScores(scores));
  }

  /** For every numbering the query may return, each joined row's total is
      100 times its group's counted 'benar' points over 7. */
  lemma LeftJoinTotals(answers: seq<AnswerRow>, qs: seq<Question>, us: seq<User>, ps: seq<Profile>, id: Value,
                       ranked: seq<Ranked>)
    requires UniqueQuestions(qs) && UniqueUsers(us)
    requires IsRowNumbering(ScoreTryout(answers, qs, us, id), ranked)
    ensures forall x :: x in LeftJoin(ranked, ps, id) ==>
      x.total == ReferenceSum(answers, qs, us, id, GroupOf(x)) as real / 7.0
  {
    var scores := ScoreTryout(answers, qs, us, id);
    ScoreRowTotals(answers, qs, us, id);
    LeftJoinRowsFrom(ranked, ps, id);
    forall x | x in LeftJoin(ranked, ps, id)
      ensures x.total == ReferenceSum(answers, qs, us, id, GroupOf(x)) as real / 7.0
    {
      var i :| 0 <= i < |ranked| && Carries(x, ranked[i], id);
      assert ranked[i].row == RowsOf(ranked)[i];
      assert ranked[i].row in multiset(scores);
      var n :| 0 <= n < |scores| && scores[n] == ranked[i].row;
    }
  }

}
