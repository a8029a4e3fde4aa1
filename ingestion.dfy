/** The answer ingestion of `POST /simpan-jawaban-user/:id_tryout`: decode
    every stored per-subject blob of a tryout, flatten the arrays into one
    list, strip quote characters from three text fields and turn each entry
    into one `jawaban_user_tryout` row. */
module Ingestion {
  import opened Sql
  import opened Seqs
  import opened Schema

  /* ---------- quote stripping: `s.replace(/"/g, "")` ---------- */

  predicate NotQuote(c: char)
  {
    c != '"'
  }

  /** Every `"` removed; every other character kept, as often as it occurs. */
  function StripQuotes(s: string): (r: string)
    ensures '"' !in r
    ensures |r| <= |s|
    ensures forall c :: c != '"' ==> multiset(r)[c] == multiset(s)[c]
  {
    FilterCounts(s, NotQuote);
    Filter(s, NotQuote)
  }

  /** Stripping works piecewise, so the kept characters stay in their order. */
  lemma StripQuotesAppend(a: string, b: string)
    ensures StripQuotes(a + b) == StripQuotes(a) + StripQuotes(b)
  {
    FilterAppend(a, b, NotQuote);
  }

  /** A string without quotes is left as it is, and only such a string. */
  lemma StripQuotesFixed(s: string)
    ensures StripQuotes(s) == s <==> '"' !in s
  {
    if '"' !in s {
      FilterKeepsAll(s, NotQuote);
    }
  }

  /** Stripping twice is stripping once. */
  lemma StripQuotesIdempotent(s: string)
    ensures StripQuotes(StripQuotes(s)) == StripQuotes(s)
  {
    FilterIdempotent(s, NotQuote);
  }

  /** `v?.replace(/"/g, "")`: a missing value stays missing, a string loses
      its quotes, and any other value has no `replace` method, so the call
      throws. */
  function Sanitize(v: Value): (r: Result<Value>)
    ensures r.Ok? <==> !v.Num?
    ensures v == Null ==> r == Ok(Null)
    ensures v.Str? ==> r.Ok? && r.value.Str? && '"' !in r.value.s
  {
    match v
    case Null => Ok(Null)
    case Str(s) => Ok(Str(StripQuotes(s)))
    case Num(_) => Thrown
  }

  /** Sanitizing a sanitized value changes nothing. */
  lemma SanitizeIdempotent(v: Value)
    requires Sanitize(v).Ok?
    ensures Sanitize(Sanitize(v).value) == Sanitize(v)
  {
    if v.Str? {
      StripQuotesIdempotent(v.s);
    }
  }

  /* ---------- one insert row per entry: `allJawaban.map(j => [...])` ---------- */

  /** Whether building the row of `item` succeeds: the element is not `null`
      and none of its three text fields is a non-string. */
  predicate Buildable(item: Item)
  {
    && item.Record?
    && !item.fields.status.Num?
    && !item.fields.jawaban.Num?
    && !item.fields.peminatan.Num?
  }

  /** `row` is the insert row of entry `item`: the four identifiers copied,
      the three text fields sanitized. */
  predicate BuiltFrom(item: Item, row: AnswerRow)
  {
    && item.Record?
    && row.idUser == item.fields.idUser && row.idTryout == item.fields.idTryout
    && row.idMapel == item.fields.idMapel && row.noSoal == item.fields.noSoal
    && Sanitize(item.fields.status) == Ok(row.status)
    && Sanitize(item.fields.jawaban) == Ok(row.jawaban)
    && Sanitize(item.fields.peminatan) == Ok(row.peminatan)
  }

  /** The insert row of one entry. Reading a property of a `null` element
      throws, and so does `replace` on a non-string. */
  function BuildRow(item: Item): (r: Result<AnswerRow>)
    ensures r.Ok? <==> Buildable(item)
    ensures r.Ok? ==> BuiltFrom(item, r.value)
  {
    match item
    case NullItem => Thrown
    case Record(e) =>
      var status := Sanitize(e.status);
      var jawaban := Sanitize(e.jawaban);
      var peminatan := Sanitize(e.peminatan);
      if status.Thrown? || jawaban.Thrown? || peminatan.Thrown? then Thrown
      else Ok(AnswerRow(e.idUser, e.idTryout, e.idMapel, e.noSoal,
                        status.value, jawaban.value, peminatan.value))
  }

  /** The insert rows of all entries: one per entry, in the same order, or a
      throw when any entry cannot be built. */
  function BuildRows(items: seq<Item>): (r: Result<seq<AnswerRow>>)
    ensures r.Ok? <==> forall i :: 0 <= i < |items| ==> Buildable(items[i])
    ensures r.Ok? ==> |r.value| == |items|
    ensures r.Ok? ==> forall i :: 0 <= i < |items| ==> BuiltFrom(items[i], r.value[i])
  {
    if items == [] then Ok([])
    else
      var head := BuildRow(items[0]);
      var tail := BuildRows(items[1..]);
      if head.Thrown? || tail.Thrown? then
        assert !Buildable(items[0]) || exists i :: 1 <= i < |items| && !Buildable(items[i])
          by { if tail.Thrown? { var k :| 0 <= k < |items[1..]| && !Buildable(items[1..][k]); assert !Buildable(items[k + 1]); } }
        Thrown
      else
        var rows := [head.value] + tail.value;
        assert forall i :: 1 <= i < |items| ==> items[i] == items[1..][i - 1] && rows[i] == tail.value[i - 1];
        Ok(rows)
  }

  /* ---------- decode, skip and flatten: the `rows.forEach` loop ---------- */

  /** What one stored row adds to `allJawaban`: its array, or nothing when the
      blob does not parse or is not an array. */
  function Contributed(row: BatchRow): seq<Item>
  {
    if row.answers.Elements? then row.answers.items else []
  }

  /** The concatenation, in row order, of the arrays of all rows. */
  function Flatten(rows: seq<BatchRow>): seq<Item>
  {
    if rows == [] then [] else Contributed(rows[0]) + Flatten(rows[1..])
  }

  lemma {:induction false} FlattenAppend(a: seq<BatchRow>, b: seq<BatchRow>)
    ensures Flatten(a + b) == Flatten(a) + Flatten(b)
  {
    if a == [] {
      assert a + b == b;
    } else {
      assert (a + b)[1..] == a[1..] + b;
      FlattenAppend(a[1..], b);
    }
  }

  /** A row that does not decode to an array contributes nothing and does not
      stop the rows after it from contributing theirs. */
  lemma SkipsUndecodable(before: seq<BatchRow>, bad: BatchRow, after: seq<BatchRow>)
    requires !bad.answers.Elements?
    ensures Flatten(before + [bad] + after) == Flatten(before) + Flatten(after)
  {
    assert Flatten([bad]) == [] by {
      assert [bad][1..] == [];
      assert Contributed(bad) == [];
    }
    FlattenAppend(before, [bad]);
    assert Flatten(before + [bad]) == Flatten(before);
    FlattenAppend(before + [bad], after);
  }

  /** Flattening only looks at the rows that decode to arrays. */
  lemma {:induction false} FlattenArraysOnly(rows: seq<BatchRow>)
    ensures Flatten(rows) == Flatten(Filter(rows, (b: BatchRow) => b.answers.Elements?))
  {
    var p := (b: BatchRow) => b.answers.Elements?;
    if rows != [] {
      FlattenArraysOnly(rows[1..]);
      var head := if p(rows[0]) then [rows[0]] else [];
      assert Filter(rows, p) == head + Filter(rows[1..], p);
      FlattenAppend(head, Filter(rows[1..], p));
      if p(rows[0]) { assert [rows[0]][1..] == []; }
    }
  }

  /** An item is collected exactly when it belongs to the array of some row. */
  lemma {:induction false} FlattenMembers(rows: seq<BatchRow>, x: Item)
    ensures x in Flatten(rows) <==> exists i :: 0 <= i < |rows| && x in Contributed(rows[i])
  {
    if rows != [] {
      FlattenMembers(rows[1..], x);
      if x in Flatten(rows[1..]) {
        var i :| 0 <= i < |rows[1..]| && x in Contributed(rows[1..][i]);
        assert x in Contributed(rows[i + 1]);
      }
      if exists i :: 0 <= i < |rows| && x in Contributed(rows[i]) {
        var i :| 0 <= i < |rows| && x in Contributed(rows[i]);
        if i > 0 { assert x in Contributed(rows[1..][i - 1]); }
      }
    }
  }

  /** One more row adds what that row contributes. */
  lemma FlattenStep(rows: seq<BatchRow>, i: nat)
    requires i < |rows|
    ensures Flatten(rows[..i + 1]) == Flatten(rows[..i]) + Contributed(rows[i])
  {
    FlattenAppend(rows[..i], [rows[i]]);
    assert rows[..i + 1] == rows[..i] + [rows[i]];
    assert Flatten([rows[i]]) == Contributed(rows[i]) by { assert [rows[i]][1..] == []; }
  }

  /** The `forEach` loop: push the elements of every row that decodes to an
      array onto `all`, skipping the others. */
  method CollectAnswers(rows: seq<BatchRow>) returns (all: seq<Item>)
    ensures all == Flatten(rows)
  {
    all := [];
    var i := 0;
    while i < |rows|
      invariant 0 <= i <= |rows|
      invariant all == Flatten(rows[..i])
    {
      FlattenStep(rows, i);
      match rows[i].answers {
        case Elements(items) =>
          all := all + items;
        case Unparsable =>
        case NotAnArray =>
      }
      i := i + 1;
    }
    assert rows[..|rows|] == rows;
  }

  /* ---------- the whole handler, as a plan of what it writes ---------- */

  /** What the ingestion handler decides: insert these rows, or stop. */
  datatype Plan =
    | InsertRows(rows: seq<AnswerRow>)
    | NoBatches      // 404 "Data tidak ditemukan"
    | NoEntries      // 400 "Tidak ada jawaban valid"
    | BuildFailed    // 500: building a row threw

  /** The handler's decision for tryout `id` over `jawaban_user_tryout_v2`. */
  function PlanIngest(batches: seq<BatchRow>, id: Value): (r: Plan)
    ensures r.NoBatches? <==> BatchesOf(batches, id) == []
    ensures r.NoEntries? <==> BatchesOf(batches, id) != [] && Flatten(BatchesOf(batches, id)) == []
    ensures r.InsertRows? ==> BuildRows(Flatten(BatchesOf(batches, id))) == Ok(r.rows)
  {
    var rows := BatchesOf(batches, id);
    if |rows| == 0 then NoBatches
    else
      var all := Flatten(rows);
      if |all| == 0 then NoEntries
      else
        match BuildRows(all)
        case Thrown => BuildFailed
        case Ok(values) => InsertRows(values)
  }

  /** When rows are inserted there is one per collected entry, at least one,
      with the identifiers copied and the text fields free of quotes. */
  lemma PlanInsertsOnePerEntry(batches: seq<BatchRow>, id: Value)
    requires PlanIngest(batches, id).InsertRows?
    ensures var all, rows := Flatten(BatchesOf(batches, id)), PlanIngest(batches, id).rows;
      && 0 < |rows| == |all|
      && forall i :: 0 <= i < |rows| ==>
           && rows[i].idUser == all[i].fields.idUser
           && rows[i].idTryout == all[i].fields.idTryout
           && rows[i].idMapel == all[i].fields.idMapel
           && rows[i].noSoal == all[i].fields.noSoal
           && !(rows[i].status.Str? && '"' in rows[i].status.s)
           && !(rows[i].jawaban.Str? && '"' in rows[i].jawaban.s)
           && !(rows[i].peminatan.Str? && '"' in rows[i].peminatan.s)
  {
  }

  /** Rows are inserted exactly when the tryout has stored rows whose arrays
      hold at least one entry and every entry can be built. */
  lemma PlanInsertsIff(batches: seq<BatchRow>, id: Value)
    ensures PlanIngest(batches, id).InsertRows? <==>
      var all := Flatten(BatchesOf(batches, id));
      |all| > 0 && forall i :: 0 <= i < |all| ==> Buildable(all[i])
  {
  }
}
