/** The rows of the tables the two handlers read and write, and the
    `WHERE id_tryout = ?` selections over them. Column names follow the
    store's own. */
module Schema {
  import opened Sql
  import opened Seqs

  /** One element of a decoded `jawaban_user_permapel` array. `NullItem` is a
      JSON `null` element, on which every property access throws; any other
      element reads as an `Entry` (a string or number element reads as an
      entry whose every field is `Null`). */
  datatype Item = Record(fields: Entry) | NullItem

  /** The properties of one answer object as the client wrote it. */
  datatype Entry = Entry(idUser: Value, idTryout: Value, idMapel: Value, noSoal: Value,
                         status: Value, jawaban: Value, peminatan: Value)

  /** What `JSON.parse` makes of a stored blob: it throws, or it yields a
      value that is not an array, or it yields an array. */
  datatype Blob = Unparsable | NotAnArray | Elements(items: seq<Item>)

  /** A row of `jawaban_user_tryout_v2` (and of its review copy
      `jawaban_user_tryout_pembahasan_v2`): one subject's answers of one user. */
  datatype BatchRow = BatchRow(id: Value, idUser: Value, idTryout: Value, idMapel: Value,
                               answers: Blob, peminatan: Value,
                               kosong: Value, salah: Value, benar: Value)

  /** A row of `jawaban_user_tryout` (and of its review copy
      `jawaban_user_tryout_pembahasan`): one answered question. */
  datatype AnswerRow = AnswerRow(idUser: Value, idTryout: Value, idMapel: Value, noSoal: Value,
                                 status: Value, jawaban: Value, peminatan: Value)

  /** A row of `soal_tryout`: the point value of one question. */
  datatype Question = Question(noSoal: Value, idMapel: Value, idTryout: Value, point: int)

  /** A row of `users`. */
  datatype User = User(id: Value, username: Value)

  /** A row of `userdata`: where a user comes from. */
  datatype Profile = Profile(idUser: Value, instansi: Value, provinsi: Value)

  /** A row of `rank_tryout_2025`. */
  datatype RankRow = RankRow(idUser: Value, username: Value, peminatan: Value, total: real,
                             instansi: Value, provinsi: Value, rank: nat,
                             idTryout: Value, year: int)

  /** The year tag every freshly computed rank row carries. */
  const RankYear := 2026

  /** `SELECT ... FROM jawaban_user_tryout_v2 WHERE id_tryout = ?` */
  function BatchesOf(rows: seq<BatchRow>, id: Value): (r: seq<BatchRow>)
    ensures forall b :: b in r <==> b in rows && SqlEq(b.idTryout, id)
    ensures forall b :: b in r ==> multiset(r)[b] == multiset(rows)[b]
  {
    FilterCounts(rows, (b: BatchRow) => SqlEq(b.idTryout, id));
    Filter(rows, (b: BatchRow) => SqlEq(b.idTryout, id))
  }

  /** `SELECT ... FROM jawaban_user_tryout WHERE id_tryout = ?` */
  function AnswersOf(rows: seq<AnswerRow>, id: Value): (r: seq<AnswerRow>)
    ensures forall a :: a in r <==> a in rows && SqlEq(a.idTryout, id)
    ensures forall a :: a in r ==> multiset(r)[a] == multiset(rows)[a]
  {
    FilterCounts(rows, (a: AnswerRow) => SqlEq(a.idTryout, id));
    Filter(rows, (a: AnswerRow) => SqlEq(a.idTryout, id))
  }

  /** The rank rows a `DELETE FROM rank_tryout_2025 WHERE id_tryout = ?` removes. */
  function RanksOf(rows: seq<RankRow>, id: Value): (r: seq<RankRow>)
    ensures forall x :: x in r <==> x in rows && SqlEq(x.idTryout, id)
  {
    Filter(rows, (x: RankRow) => SqlEq(x.idTryout, id))
  }

  /** The rank rows that DELETE keeps, in their order. */
  function RanksNotOf(rows: seq<RankRow>, id: Value): (r: seq<RankRow>)
    ensures forall x :: x in r <==> x in rows && !SqlEq(x.idTryout, id)
    ensures forall x :: x in r ==> multiset(r)[x] == multiset(rows)[x]
  {
    FilterCounts(rows, (x: RankRow) => !SqlEq(x.idTryout, id));
    Filter(rows, (x: RankRow) => !SqlEq(x.idTryout, id))
  }
}
