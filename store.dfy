/**
 * The `process_data` table and the three statements the processor runs on
 * it: the batch `INSERT` of `insertMultiple`, the detail `SELECT ... WHERE
 * process_id = ... ORDER BY id ASC` and the aggregate `SELECT ... SUM(...)
 * ... GROUP BY suppgstin, suppname` of `processAndWriteOP`.
 */
module Store {
  import opened Wrappers
  import opened Spreadsheet
  import opened Records

  /** A stored row: its `id INTEGER PRIMARY KEY` and its columns. */
  datatype StoredRow = StoredRow(id: int, rec: Record)

  /** The table in rowid order, the order SQLite keeps it in. */
  type Table = seq<StoredRow>

  predicate ValidTable(t: Table)
  {
    && (forall i :: 0 <= i < |t| ==> t[i].id >= 1)
    && (forall i, j :: 0 <= i < j < |t| ==> t[i].id < t[j].id)
  }

  /** The rowid SQLite gives a row inserted with a `NULL` id: one more than the largest, 1 at first. */
  function NextId(t: Table): (id: int)
    ensures ValidTable(t) ==> id >= 1 && forall r <- t :: r.id < id
  {
    if t == [] then 1 else t[|t| - 1].id + 1
  }

  /** One `stmt.run(null, ...)`. */
  function Insert(t: Table, rec: Record): (r: Table)
    ensures |r| == |t| + 1 && r[..|t|] == t && r[|t|].rec == rec
    ensures ValidTable(t) ==> ValidTable(r)
  {
    t + [StoredRow(NextId(t), rec)]
  }

  /** Rows for `recs` with consecutive ids from `first`. */
  function Stamp(first: int, recs: seq<Record>): (rows: seq<StoredRow>)
    ensures |rows| == |recs|
    ensures forall k {:trigger rows[k]} :: 0 <= k < |recs| ==> rows[k] == StoredRow(first + k, recs[k])
  {
    seq(|recs|, k requires 0 <= k < |recs| => StoredRow(first + k, recs[k]))
  }

  /** Every record inserted in turn: they get consecutive ids after the old ones. */
  function Append(t: Table, recs: seq<Record>): (r: Table)
    ensures ValidTable(t) ==> ValidTable(r)
    ensures |r| == |t| + |recs| && r[..|t|] == t
  {
    var r := t + Stamp(NextId(t), recs);
    assert ValidTable(t) ==> forall i, j :: 0 <= i < j < |r| ==> r[i].id < r[j].id by {
      if ValidTable(t) {
        forall i, j | 0 <= i < j < |r| ensures r[i].id < r[j].id {
          if j < |t| {
          } else if i < |t| {
            assert t[i] in t;
          }
        }
      }
    }
    r
  }

  /** Inserting one more record extends the batch. */
  lemma AppendSnoc(t: Table, recs: seq<Record>, rec: Record)
    ensures Append(t, recs + [rec]) == Insert(Append(t, recs), rec)
  {
    var before := Append(t, recs);
    AppendAppend(t, recs, [rec]);
    AppendOfStamps(before, [rec], NextId(before));
    assert Stamp(NextId(before), [rec])[0] == StoredRow(NextId(before), rec);
  }


  /** `'${this.processingId}'`: a `null` id is spelled `null` in the query. */
  function QueryKey(processId: Option<string>): string
  {
    match processId
    case Some(id) => id
    case None => "null"
  }

  predicate InRun(row: StoredRow, key: string)
  {
    row.rec.processId == Some(key)
  }


  /** `SELECT * from process_data WHERE process_id = key ORDER BY id ASC`. */
  function DetailQuery(t: Table, key: string): seq<StoredRow>
  {
    if t == [] then []
    else (if InRun(t[0], key) then [t[0]] else []) + DetailQuery(t[1..], key)
  }

  /** The run's rows and no others. */
  lemma {:induction false} DetailQueryMembership(t: Table, key: string, row: StoredRow)
    ensures row in DetailQuery(t, key) <==> row in t && InRun(row, key)
  {
    if t != [] {
      DetailQueryMembership(t[1..], key, row);
      assert row in t <==> row == t[0] || row in t[1..] by {
        assert t == [t[0]] + t[1..];
      }
    }
  }

  lemma ValidTail(t: Table)
    requires ValidTable(t) && t != []
    ensures ValidTable(t[1..])
  {
    var tail := t[1..];
    forall i, j | 0 <= i < j < |tail| ensures tail[i].id < tail[j].id {
      assert tail[i] == t[1 + i] && tail[j] == t[1 + j];
    }
  }

  lemma ValidCons(row: StoredRow, rest: Table)
    requires ValidTable(rest) && row.id >= 1
    requires forall r <- rest :: row.id < r.id
    ensures ValidTable([row] + rest)
  {
    var res := [row] + rest;
    forall i, j | 0 <= i < j < |res| ensures res[i].id < res[j].id {
      if i == 0 { assert res[j] == rest[j - 1] && rest[j - 1] in rest; }
      else { assert res[i] == rest[i - 1] && res[j] == rest[j - 1]; }
    }
  }

  /** In ascending id order, as `ORDER BY id ASC` asks. */
  lemma {:induction false} DetailQueryOrdered(t: Table, key: string)
    requires ValidTable(t)
    ensures ValidTable(DetailQuery(t, key))
  {
    if t != [] {
      var tail := t[1..];
      ValidTail(t);
      DetailQueryOrdered(tail, key);
      var rest := DetailQuery(tail, key);
      forall row <- rest ensures t[0].id < row.id {
        DetailQueryMembership(tail, key, row);
        var j :| 0 <= j < |tail| && tail[j] == row;
        assert t[1 + j] == row;
      }
      if InRun(t[0], key) {
        ValidCons(t[0], rest);
      }
    }
  }

  lemma {:induction false} DetailQueryConcat(a: Table, b: Table, key: string)
    ensures DetailQuery(a + b, key) == DetailQuery(a, key) + DetailQuery(b, key)
  {
    if a != [] {
      var head := if InRun(a[0], key) then [a[0]] else [];
      assert (a + b)[0] == a[0];
      assert (a + b)[1..] == a[1..] + b;
      DetailQueryConcat(a[1..], b, key);
      calc {
        DetailQuery(a + b, key);
        head + DetailQuery(a[1..] + b, key);
        head + (DetailQuery(a[1..], key) + DetailQuery(b, key));
        (head + DetailQuery(a[1..], key)) + DetailQuery(b, key);
        DetailQuery(a, key) + DetailQuery(b, key);
      }
    } else {
      assert a + b == b;
    }
  }

  lemma {:induction false} DetailQueryOfOtherRuns(t: Table, key: string)
    requires forall row <- t :: !InRun(row, key)
    ensures DetailQuery(t, key) == []
  {
    if t != [] {
      assert t[0] in t;
      DetailQueryOfOtherRuns(t[1..], key);
    }
  }

  /** The appended records get consecutive ids after the old ones, in batch order. */
  lemma AppendRows(t: Table, recs: seq<Record>)
    ensures forall k :: 0 <= k < |recs| ==> Append(t, recs)[|t| + k] == StoredRow(NextId(t) + k, recs[k])
  {
    var r := Append(t, recs);
    forall k | 0 <= k < |recs| ensures r[|t| + k] == StoredRow(NextId(t) + k, recs[k]) {
      assert r[|t| + k] == Stamp(NextId(t), recs)[k];
    }
  }

  /** The id counter after an append has advanced by the number of records. */
  lemma AppendNextId(t: Table, recs: seq<Record>)
    ensures NextId(Append(t, recs)) == NextId(t) + |recs|
  {
    var r := Append(t, recs);
    if recs != [] {
      assert r[|r| - 1] == Stamp(NextId(t), recs)[|recs| - 1];
    }
  }

  lemma StampConcat(first: int, a: seq<Record>, b: seq<Record>)
    ensures Stamp(first, a + b) == Stamp(first, a) + Stamp(first + |a|, b)
  {
    var l := Stamp(first, a + b);
    var r := Stamp(first, a) + Stamp(first + |a|, b);
    forall k | 0 <= k < |l| ensures l[k] == r[k] {
      if k >= |a| {
        assert r[k] == Stamp(first + |a|, b)[k - |a|];
      }
    }
  }

  /** Two appends in a row are one append of both batches, in order. */
  lemma AppendAppend(t: Table, a: seq<Record>, b: seq<Record>)
    ensures Append(Append(t, a), b) == Append(t, a + b)
  {
    var n := NextId(t);
    var mid := Append(t, a);
    AppendNextId(t, a);
    calc {
      Append(mid, b);
      == { AppendOfStamps(mid, b, n + |a|); }
      mid + Stamp(n + |a|, b);
      == { AppendOfStamps(t, a, n); }
      (t + Stamp(n, a)) + Stamp(n + |a|, b);
      == { ConcatAssoc(t, Stamp(n, a), Stamp(n + |a|, b)); }
      t + (Stamp(n, a) + Stamp(n + |a|, b));
      == { StampConcat(n, a, b); }
      t + Stamp(n, a + b);
      == { AppendOfStamps(t, a + b, n); }
      Append(t, a + b);
    }
  }

  lemma AppendOfStamps(t: Table, recs: seq<Record>, first: int)
    requires NextId(t) == first
    ensures Append(t, recs) == t + Stamp(first, recs)
  {
  }

  lemma ConcatAssoc(a: Table, b: Table, c: Table)
    ensures (a + b) + c == a + (b + c)
  {
  }

  /** Appending no records changes nothing. */
  lemma AppendNothing(t: Table)
    ensures Append(t, []) == t
  {
    assert Append(t, [])[..|t|] == t;
  }

  lemma AppendThenDetailQuery(t: Table, recs: seq<Record>, key: string)
    ensures DetailQuery(Append(t, recs), key) == DetailQuery(t, key) + DetailQuery(Stamp(NextId(t), recs), key)
  {
    var r := Append(t, recs);
    assert r == t + Stamp(NextId(t), recs);
    DetailQueryConcat(t, Stamp(NextId(t), recs), key);
  }

  /** Records of other runs are invisible: inserting them does not change what a run reads. */
  lemma OtherRunInsertInvisible(t: Table, recs: seq<Record>, key: string)
    requires forall rec <- recs :: rec.processId != Some(key)
    ensures DetailQuery(Append(t, recs), key) == DetailQuery(t, key)
  {
    AppendThenDetailQuery(t, recs, key);
    var added := Stamp(NextId(t), recs);
    forall row | row in added ensures !InRun(row, key) {
      var k :| 0 <= k < |added| && added[k] == row;
      assert recs[k] in recs;
    }
    DetailQueryOfOtherRuns(added, key);
  }

  lemma {:induction false} DetailQueryOfOwnRun(t: Table, key: string)
    requires forall row <- t :: InRun(row, key)
    ensures DetailQuery(t, key) == t
  {
    if t != [] {
      assert t[0] in t;
      forall row <- t[1..] ensures InRun(row, key) {
        assert row in t;
      }
      DetailQueryOfOwnRun(t[1..], key);
      assert [t[0]] + t[1..] == t;
    }
  }

  /**
   * A run whose key no stored row has yet reads back exactly the records it
   * appended, in the order it appended them.
   */
  lemma FreshRunDetail(t: Table, recs: seq<Record>, key: string)
    requires forall row <- t :: !InRun(row, key)
    requires forall rec <- recs :: rec.processId == Some(key)
    ensures DetailQuery(Append(t, recs), key) == Stamp(NextId(t), recs)
    ensures Recs(DetailQuery(Append(t, recs), key)) == recs
  {
    AppendThenDetailQuery(t, recs, key);
    DetailQueryOfOtherRuns(t, key);
    var added := Stamp(NextId(t), recs);
    forall row | row in added ensures InRun(row, key) {
      var k :| 0 <= k < |added| && added[k] == row;
      assert recs[k] in recs;
    }
    DetailQueryOfOwnRun(added, key);
    assert [] + added == added;
  }

  // ---------------------------------------------------------------------
  // The aggregate query.

  datatype GroupKey = GroupKey(gstin: Option<CellValue>, name: Option<CellValue>)

  /** One result row: `suppgstin, suppname, SUM(igst), SUM(cgst), SUM(sgst), SUM(cess)`. */
  datatype Group = Group(key: GroupKey, igst: Option<real>, cgst: Option<real>, sgst: Option<real>, cess: Option<real>)

  /** The summed columns; `taxable` is not among them. */
  datatype Amount = Igst | Cgst | Sgst | Cess

  function KeyOf(rec: Record): GroupKey
  {
    GroupKey(rec.suppgstin, rec.suppname)
  }

  function AmountOf(rec: Record, a: Amount): Option<real>
  {
    match a
    case Igst => rec.igst
    case Cgst => rec.cgst
    case Sgst => rec.sgst
    case Cess => rec.cess
  }

  function GroupAmount(g: Group, a: Amount): Option<real>
  {
    match a
    case Igst => g.igst
    case Cgst => g.cgst
    case Sgst => g.sgst
    case Cess => g.cess
  }

  /** One step of SQL `SUM`: a `NULL` is skipped, and the sum starts as `NULL`. */
  function SumStep(acc: Option<real>, x: Option<real>): Option<real>
  {
    match (acc, x)
    case (_, None) => acc
    case (None, Some(v)) => Some(v)
    case (Some(s), Some(v)) => Some(s + v)
  }

  /** A group's first row. */
  function NewGroup(rec: Record): Group
  {
    Group(KeyOf(rec), SumStep(None, rec.igst), SumStep(None, rec.cgst), SumStep(None, rec.sgst), SumStep(None, rec.cess))
  }

  /** One more row in a group. */
  function Accumulate(g: Group, rec: Record): Group
  {
    Group(g.key, SumStep(g.igst, rec.igst), SumStep(g.cgst, rec.cgst), SumStep(g.sgst, rec.sgst), SumStep(g.cess, rec.cess))
  }

  /** Adds a row to the group of its key, or opens a new group at the end. */
  function AddRow(gs: seq<Group>, rec: Record): seq<Group>
  {
    if KeyOf(rec) in Keys(gs) then
      seq(|gs|, i requires 0 <= i < |gs| => if gs[i].key == KeyOf(rec) then Accumulate(gs[i], rec) else gs[i])
    else gs + [NewGroup(rec)]
  }

  /** `GROUP BY suppgstin, suppname` in one pass over the rows; groups in order of first appearance. */
  function GroupBy(recs: seq<Record>): seq<Group>
  {
    if recs == [] then []
    else AddRow(GroupBy(recs[..|recs| - 1]), recs[|recs| - 1])
  }

  function Recs(rows: seq<StoredRow>): (rs: seq<Record>)
    ensures |rs| == |rows| && forall i :: 0 <= i < |rows| ==> rs[i] == rows[i].rec
  {
    seq(|rows|, i requires 0 <= i < |rows| => rows[i].rec)
  }

  /** The aggregate query of one run. */
  function AggregateQuery(t: Table, key: string): seq<Group>
  {
    GroupBy(Recs(DetailQuery(t, key)))
  }

  // ---- The meaning of a group, stated without the one-pass fold.

  function Keys(gs: seq<Group>): (ks: seq<GroupKey>)
    ensures |ks| == |gs| && forall i :: 0 <= i < |gs| ==> ks[i] == gs[i].key
  {
    seq(|gs|, i requires 0 <= i < |gs| => gs[i].key)
  }

  function KeySet(recs: seq<Record>): set<GroupKey>
  {
    set rec <- recs :: KeyOf(rec)
  }

  predicate Distinct(ks: seq<GroupKey>)
  {
    forall i, j :: 0 <= i < j < |ks| ==> ks[i] != ks[j]
  }

  /** The rows of one supplier, in order. */
  function Matching(recs: seq<Record>, k: GroupKey): seq<Record>
  {
    if recs == [] then []
    else Matching(recs[..|recs| - 1], k) + (if KeyOf(recs[|recs| - 1]) == k then [recs[|recs| - 1]] else [])
  }

  function Column(recs: seq<Record>, a: Amount): seq<Option<real>>
  {
    if recs == [] then [] else Column(recs[..|recs| - 1], a) + [AmountOf(recs[|recs| - 1], a)]
  }

  /** The sum of the non-`NULL` values. */
  function Total(xs: seq<Option<real>>): real
  {
    if xs == [] then 0.0 else Total(xs[..|xs| - 1]) + xs[|xs| - 1].GetOr(0.0)
  }

  predicate AllNull(xs: seq<Option<real>>)
  {
    forall x <- xs :: x.None?
  }

  /** SQL `SUM` of a column: `NULL` when every value is `NULL`, else the sum of the others. */
  function SqlSum(xs: seq<Option<real>>): Option<real>
  {
    if AllNull(xs) then None else Some(Total(xs))
  }

  lemma {:induction false} TotalOfNulls(xs: seq<Option<real>>)
    requires AllNull(xs)
    ensures Total(xs) == 0.0
  {
    if xs != [] {
      assert xs[|xs| - 1] in xs;
      TotalOfNulls(xs[..|xs| - 1]);
    }
  }

  lemma SqlSumSnoc(xs: seq<Option<real>>, x: Option<real>)
    ensures SqlSum(xs + [x]) == SumStep(SqlSum(xs), x)
  {
    var ys := xs + [x];
    assert ys[..|ys| - 1] == xs;
    assert AllNull(ys) <==> AllNull(xs) && x.None? by {
      assert x in ys;
      assert forall y <- xs :: y in ys;
    }
    if AllNull(xs) {
      TotalOfNulls(xs);
    }
  }

  lemma ColumnSnoc(recs: seq<Record>, rec: Record, a: Amount)
    ensures Column(recs + [rec], a) == Column(recs, a) + [AmountOf(rec, a)]
  {
    assert (recs + [rec])[..|recs|] == recs;
  }

  lemma MatchingSnoc(recs: seq<Record>, rec: Record, k: GroupKey)
    ensures Matching(recs + [rec], k) == Matching(recs, k) + (if KeyOf(rec) == k then [rec] else [])
  {
    assert (recs + [rec])[..|recs|] == recs;
  }

  lemma {:induction false} MatchingOfAbsentKey(recs: seq<Record>, k: GroupKey)
    requires k !in KeySet(recs)
    ensures Matching(recs, k) == []
  {
    if recs != [] {
      var init := recs[..|recs| - 1];
      assert KeySet(init) <= KeySet(recs) by {
        forall rec <- init ensures rec in recs { }
      }
      assert recs[|recs| - 1] in recs;
      MatchingOfAbsentKey(init, k);
    }
  }

  /** What `AddRow` does, index by index. */
  lemma AddRowShape(gs: seq<Group>, rec: Record)
    ensures var res := AddRow(gs, rec);
      && |res| == (if KeyOf(rec) in Keys(gs) then |gs| else |gs| + 1)
      && (forall i :: 0 <= i < |gs| ==> res[i] == if gs[i].key == KeyOf(rec) then Accumulate(gs[i], rec) else gs[i])
      && (KeyOf(rec) !in Keys(gs) ==> res[|gs|] == NewGroup(rec))
      && Keys(res) == if KeyOf(rec) in Keys(gs) then Keys(gs) else Keys(gs) + [KeyOf(rec)]
  {
    var res := AddRow(gs, rec);
    if KeyOf(rec) in Keys(gs) {
      forall i | 0 <= i < |gs| ensures Keys(res)[i] == Keys(gs)[i] {
        assert res[i].key == gs[i].key;
      }
    } else {
      forall i | 0 <= i < |gs| ensures res[i] == gs[i] { }
      assert Keys(res) == Keys(gs) + [KeyOf(rec)];
    }
  }

  ghost predicate GroupedBy(gs: seq<Group>, recs: seq<Record>)
  {
    && Distinct(Keys(gs))
    && (forall k :: k in Keys(gs) <==> k in KeySet(recs))
    && (forall g, a :: g in gs ==> GroupAmount(g, a) == SqlSum(Column(Matching(recs, g.key), a)))
  }

  lemma KeySetSnoc(recs: seq<Record>, rec: Record)
    ensures KeySet(recs + [rec]) == KeySet(recs) + {KeyOf(rec)}
  {
    var all := recs + [rec];
    forall r <- all ensures r in recs || r == rec {
      var i :| 0 <= i < |all| && all[i] == r;
      if i < |recs| { assert recs[i] == r; }
    }
    forall r <- recs ensures r in all { }
  }

  lemma AccumulateAmount(g: Group, rec: Record, a: Amount)
    ensures GroupAmount(Accumulate(g, rec), a) == SumStep(GroupAmount(g, a), AmountOf(rec, a))
    ensures GroupAmount(NewGroup(rec), a) == SumStep(None, AmountOf(rec, a))
    ensures Accumulate(g, rec).key == g.key && NewGroup(rec).key == KeyOf(rec)
  {
  }

  /** A group whose supplier the new row has takes the row into its sums. */
  lemma AmountOfAccumulated(g: Group, recs: seq<Record>, rec: Record, a: Amount)
    requires g.key == KeyOf(rec)
    requires GroupAmount(g, a) == SqlSum(Column(Matching(recs, g.key), a))
    ensures GroupAmount(Accumulate(g, rec), a) == SqlSum(Column(Matching(recs + [rec], g.key), a))
  {
    AccumulateAmount(g, rec, a);
    MatchingSnoc(recs, rec, g.key);
    ColumnSnoc(Matching(recs, g.key), rec, a);
    SqlSumSnoc(Column(Matching(recs, g.key), a), AmountOf(rec, a));
  }

  /** A supplier seen for the first time opens a group holding that row alone. */
  lemma AmountOfNew(recs: seq<Record>, rec: Record, a: Amount)
    requires KeyOf(rec) !in KeySet(recs)
    ensures GroupAmount(NewGroup(rec), a) == SqlSum(Column(Matching(recs + [rec], KeyOf(rec)), a))
  {
    AccumulateAmount(NewGroup(rec), rec, a);
    MatchingSnoc(recs, rec, KeyOf(rec));
    MatchingOfAbsentKey(recs, KeyOf(rec));
    assert Matching(recs + [rec], KeyOf(rec)) == [rec];
    ColumnSnoc([], rec, a);
    assert Column([], a) == [];
    SqlSumSnoc([], AmountOf(rec, a));
  }

  /** Other groups keep their sums. */
  lemma AmountUntouched(g: Group, recs: seq<Record>, rec: Record, a: Amount)
    requires g.key != KeyOf(rec)
    requires GroupAmount(g, a) == SqlSum(Column(Matching(recs, g.key), a))
    ensures GroupAmount(g, a) == SqlSum(Column(Matching(recs + [rec], g.key), a))
  {
    MatchingSnoc(recs, rec, g.key);
    assert Matching(recs, g.key) + [] == Matching(recs, g.key);
  }

  /** The sums of every group after a new row. */
  lemma AmountAfterAddRow(gs: seq<Group>, recs: seq<Record>, rec: Record, g: Group, a: Amount)
    requires GroupedBy(gs, recs)
    requires g in AddRow(gs, rec)
    ensures GroupAmount(g, a) == SqlSum(Column(Matching(recs + [rec], g.key), a))
  {
    var res := AddRow(gs, rec);
    AddRowShape(gs, rec);
    var i :| 0 <= i < |res| && res[i] == g;
    if i < |gs| {
      var old_g := gs[i];
      assert old_g in gs;
      assert GroupAmount(old_g, a) == SqlSum(Column(Matching(recs, old_g.key), a));
      if old_g.key == KeyOf(rec) {
        assert g == Accumulate(old_g, rec);
        AmountOfAccumulated(old_g, recs, rec, a);
        assert g.key == old_g.key;
        assert GroupAmount(g, a) == SqlSum(Column(Matching(recs + [rec], g.key), a));
      } else {
        assert g == old_g;
        AmountUntouched(old_g, recs, rec, a);
        assert GroupAmount(g, a) == SqlSum(Column(Matching(recs + [rec], g.key), a));
      }
    } else {
      assert KeyOf(rec) !in Keys(gs) && i == |gs|;
      assert g == NewGroup(rec) && g.key == KeyOf(rec);
      assert KeyOf(rec) !in KeySet(recs);
      AmountOfNew(recs, rec, a);
      assert GroupAmount(g, a) == SqlSum(Column(Matching(recs + [rec], g.key), a));
    }
  }

  lemma KeysAfterAddRow(gs: seq<Group>, recs: seq<Record>, rec: Record)
    requires Distinct(Keys(gs)) && forall k :: k in Keys(gs) <==> k in KeySet(recs)
    ensures Distinct(Keys(AddRow(gs, rec)))
    ensures forall k :: k in Keys(AddRow(gs, rec)) <==> k in KeySet(recs + [rec])
  {
    var res := AddRow(gs, rec);
    AddRowShape(gs, rec);
    KeySetSnoc(recs, rec);
    if KeyOf(rec) !in Keys(gs) {
      forall i, j | 0 <= i < j < |res| ensures Keys(res)[i] != Keys(res)[j] {
        if j == |gs| { assert Keys(gs)[i] in Keys(gs); }
      }
    }
  }

  /**
   * The one-pass grouping is the `GROUP BY`: one group per distinct
   * (GSTIN, name) pair of the rows, each summing the igst, cgst, sgst and
   * cess of exactly the rows with that pair.
   */
  lemma {:induction false} GroupByMeaning(recs: seq<Record>)
    ensures GroupedBy(GroupBy(recs), recs)
  {
    if recs != [] {
      var init := recs[..|recs| - 1];
      var rec := recs[|recs| - 1];
      assert recs == init + [rec];
      GroupByMeaning(init);
      var gs := GroupBy(init);
      KeysAfterAddRow(gs, init, rec);
      forall g, a | g in AddRow(gs, rec) ensures GroupAmount(g, a) == SqlSum(Column(Matching(recs, g.key), a)) {
        AmountAfterAddRow(gs, init, rec, g, a);
      }
    }
  }

  /**
   * The aggregate query of a run: one group per distinct supplier among the
   * run's rows, with the SQL sums of exactly those rows; no other run's
   * row takes part.
   */
  lemma AggregateQueryMeaning(t: Table, key: string)
    ensures GroupedBy(AggregateQuery(t, key), Recs(DetailQuery(t, key)))
  {
    GroupByMeaning(Recs(DetailQuery(t, key)));
  }

  /** Records of other runs do not change a run's aggregate. */
  lemma OtherRunInsertKeepsAggregate(t: Table, recs: seq<Record>, key: string)
    requires forall rec <- recs :: rec.processId != Some(key)
    ensures AggregateQuery(Append(t, recs), key) == AggregateQuery(t, key)
  {
    OtherRunInsertInvisible(t, recs, key);
  }
}
