/**
 * The S3 Batch Operations report summary: find the newest CSV report under
 * a prefix, then count its rows by result and by error code, keep a few
 * sample rows, and list the counts largest first.
 *
 * A report row is taken as already read by `csv.DictReader`: the header
 * names in order and the cells the row fills. The tallies are Python dicts,
 * which keep their keys in first-insertion order, so they are modelled as
 * sequences of (name, count) pairs in that order.
 */
module ReportSummary {
  import opened Base
  import opened Strings
  import opened Listings

  /** One data row: the header names in order, and the cells present in this row. */
  datatype Row = Row(fields: seq<string>, cells: map<string, string>)

  /** A sample: the first six columns of a row with their cells (`None` for a short row). */
  type Sample = seq<(string, Option<string>)>

  /** Counts by name, in the order the names first appeared. */
  type Tally = seq<(string, nat)>

  datatype Summary = Summary(total: nat, byResult: Tally, byError: Tally, samples: seq<Sample>)

  // ---------------------------------------------------------------------
  // find_latest_csv

  /** A key that ends in ".csv", ignoring case. */
  predicate IsCsv(key: string)
  {
    EndsWith(Lower(key), ".csv")
  }

  /** `find_latest_csv`: the key of the newest CSV object, the first of equally new ones; `None` when there is none. */
  method FindLatestCsv(objs: seq<ListedObject>) returns (r: Option<string>)
    ensures r.None? <==> forall j :: 0 <= j < |objs| ==> !IsCsv(objs[j].key)
    ensures r.Some? ==> exists i :: NewestAt(objs, IsCsv, i) && objs[i].key == r.value
  {
    var best := Newest(objs, IsCsv);
    if best.None? {
      return None;
    }
    r := Some(objs[best.value].key);
  }

  // ---------------------------------------------------------------------
  // reading one row

  /** `row.get(name)`. */
  function Cell(row: Row, name: string): (r: Option<string>)
    ensures r.Some? <==> name in row.cells
  {
    if name in row.cells then Some(row.cells[name]) else None
  }

  /** `a or b or ... or ""`: the first non-empty value, else "". */
  function FirstTruthy(values: seq<Option<string>>): string
  {
    if values == [] then ""
    else if Truthy(values[0]) then values[0].value
    else FirstTruthy(values[1..])
  }

  /** The chain of `or`s picks the first non-empty value, and gives "" only when every value is missing or empty. */
  lemma {:induction false} FirstTruthyPicks(values: seq<Option<string>>)
    ensures FirstTruthy(values) == "" <==> forall i :: 0 <= i < |values| ==> !Truthy(values[i])
    ensures FirstTruthy(values) != "" ==>
              exists i :: 0 <= i < |values| && values[i] == Some(FirstTruthy(values))
                          && forall j :: 0 <= j < i ==> !Truthy(values[j])
  {
    if values != [] && !Truthy(values[0]) {
      FirstTruthyPicks(values[1..]);
      if FirstTruthy(values) != "" {
        var i :| 0 <= i < |values[1..]| && values[1..][i] == Some(FirstTruthy(values))
                 && forall j :: 0 <= j < i ==> !Truthy(values[1..][j]);
        assert values[i + 1] == Some(FirstTruthy(values));
        forall j | 0 <= j < i + 1 ensures !Truthy(values[j]) {
          if j > 0 { assert values[j] == values[1..][j - 1]; }
        }
      }
      forall i | 0 <= i < |values[1..]| ensures values[1..][i] == values[i + 1] {}
    }
  }

  /** A row's result: the first non-empty of Result, Status, OperationStatus, TaskStatus. */
  function ResultOf(row: Row): string
  {
    FirstTruthy([Cell(row, "Result"), Cell(row, "Status"), Cell(row, "OperationStatus"), Cell(row, "TaskStatus")])
  }

  /** A row's error code: the first non-empty of ErrorCode, FailureCode, Error. */
  function ErrorOf(row: Row): string
  {
    FirstTruthy([Cell(row, "ErrorCode"), Cell(row, "FailureCode"), Cell(row, "Error")])
  }

  /** `{k: row.get(k, "") for k in list(row.keys())[:6]}`. */
  function SampleOf(row: Row): (r: Sample)
    ensures |r| <= 6 && |r| <= |row.fields|
    ensures forall i :: 0 <= i < |r| ==> r[i] == (row.fields[i], Cell(row, row.fields[i]))
  {
    var n := if |row.fields| < 6 then |row.fields| else 6;
    seq(n, i requires 0 <= i < n => (row.fields[i], Cell(row, row.fields[i])))
  }

  // ---------------------------------------------------------------------
  // the tallies

  /** `tally[name] = tally.get(name, 0) + 1`. */
  function Bump(t: Tally, name: string): (r: Tally)
  {
    if t == [] then [(name, 1)]
    else if t[0].0 == name then [(name, t[0].1 + 1)] + t[1..]
    else [t[0]] + Bump(t[1..], name)
  }

  /** The tally of a sequence of names, counted one after the other. */
  function TallyOf(names: seq<string>): Tally
  {
    if names == [] then [] else Bump(TallyOf(names[..|names| - 1]), names[|names| - 1])
  }

  /** How many times `name` occurs. */
  function Count(names: seq<string>, name: string): nat
  {
    if names == [] then 0
    else Count(names[..|names| - 1], name) + (if names[|names| - 1] == name then 1 else 0)
  }

  /** The count a tally holds for `name`, 0 when absent. */
  function CountIn(t: Tally, name: string): nat
  {
    if t == [] then 0 else (if t[0].0 == name then t[0].1 else 0) + CountIn(t[1..], name)
  }

  /** The sum of all counts. */
  function Sum(t: Tally): nat
  {
    if t == [] then 0 else t[0].1 + Sum(t[1..])
  }

  /** The names a tally holds. */
  function NamesOf(t: Tally): set<string>
  {
    if t == [] then {} else {t[0].0} + NamesOf(t[1..])
  }

  /** Each name appears in one entry only, as in a dict. */
  predicate DistinctNames(t: Tally)
  {
    t == [] || (t[0].0 !in NamesOf(t[1..]) && DistinctNames(t[1..]))
  }

  /** Bumping adds the name, keeps the names distinct, adds one to the named count and one to the sum. */
  lemma {:induction false} BumpCounts(t: Tally, name: string)
    requires DistinctNames(t)
    ensures NamesOf(Bump(t, name)) == NamesOf(t) + {name}
    ensures DistinctNames(Bump(t, name))
    ensures Sum(Bump(t, name)) == Sum(t) + 1
    ensures forall x :: CountIn(Bump(t, name), x) == CountIn(t, x) + (if x == name then 1 else 0)
  {
    if t != [] && t[0].0 != name {
      BumpCounts(t[1..], name);
      assert Bump(t, name)[1..] == Bump(t[1..], name);
    } else if t != [] {
      assert Bump(t, name)[1..] == t[1..];
    }
  }

  /**
   * A tally lists each name once, holds for every name the number of times
   * it occurs, and its counts add up to the number of names counted.
   */
  lemma {:induction false} TallyCounts(names: seq<string>)
    ensures DistinctNames(TallyOf(names))
    ensures NamesOf(TallyOf(names)) == set i | 0 <= i < |names| :: names[i]
    ensures Sum(TallyOf(names)) == |names|
    ensures forall x :: CountIn(TallyOf(names), x) == Count(names, x)
  {
    if names != [] {
      var init := names[..|names| - 1];
      TallyCounts(init);
      BumpCounts(TallyOf(init), names[|names| - 1]);
      assert forall i :: 0 <= i < |init| ==> init[i] == names[i];
      assert (set i | 0 <= i < |names| :: names[i]) == (set i | 0 <= i < |init| :: init[i]) + {names[|names| - 1]};
    }
  }

  /** The results of the rows, one per row. */
  function Results(rows: seq<Row>): (r: seq<string>)
    ensures |r| == |rows| && forall i :: 0 <= i < |rows| ==> r[i] == ResultOf(rows[i])
  {
    seq(|rows|, i requires 0 <= i < |rows| => ResultOf(rows[i]))
  }

  /** The non-empty error codes of the rows, in row order. */
  function Errors(rows: seq<Row>): (r: seq<string>)
    ensures |r| <= |rows|
    ensures forall i :: 0 <= i < |r| ==> r[i] != ""
  {
    if rows == [] then []
    else
      var e := ErrorOf(rows[|rows| - 1]);
      if e != "" then Errors(rows[..|rows| - 1]) + [e] else Errors(rows[..|rows| - 1])
  }

  /** `if len(samples) < 5: samples.append(...)` over the rows. */
  function Samples(rows: seq<Row>): (r: seq<Sample>)
    ensures |r| <= 5 && |r| <= |rows|
  {
    if rows == [] then []
    else
      var kept := Samples(rows[..|rows| - 1]);
      if |kept| < 5 then kept + [SampleOf(rows[|rows| - 1])] else kept
  }

  /** The samples are those of the first rows, five at most. */
  lemma {:induction false} SamplesFirst(rows: seq<Row>)
    ensures |Samples(rows)| == if |rows| < 5 then |rows| else 5
    ensures forall i :: 0 <= i < |Samples(rows)| ==> Samples(rows)[i] == SampleOf(rows[i])
  {
    if rows != [] {
      var init := rows[..|rows| - 1];
      SamplesFirst(init);
      assert forall i :: 0 <= i < |init| ==> init[i] == rows[i];
    }
  }

  /** The summary of the rows, as `summarize_csv` builds it. */
  function SummaryOf(rows: seq<Row>): Summary
  {
    Summary(|rows|, TallyOf(Results(rows)), TallyOf(Errors(rows)), Samples(rows))
  }

  /**
   * The result counts add up to the number of rows; the error counts add up
   * to the number of rows with an error code, so to at most that many; at
   * most five samples are kept, the first rows, each with at most six columns.
   */
  lemma SummaryBounds(rows: seq<Row>)
    ensures Sum(SummaryOf(rows).byResult) == SummaryOf(rows).total == |rows|
    ensures Sum(SummaryOf(rows).byError) == |Errors(rows)| <= |rows|
    ensures |SummaryOf(rows).samples| <= 5
    ensures forall i :: 0 <= i < |SummaryOf(rows).samples| ==>
              |SummaryOf(rows).samples[i]| <= 6 && SummaryOf(rows).samples[i] == SampleOf(rows[i])
  {
    TallyCounts(Results(rows));
    TallyCounts(Errors(rows));
    SamplesFirst(rows);
  }

  /** A row counts under its result, and under its error code exactly when it has one. */
  lemma SummaryCounts(rows: seq<Row>, name: string)
    ensures CountIn(SummaryOf(rows).byResult, name) == Count(Results(rows), name)
    ensures CountIn(SummaryOf(rows).byError, "") == 0
  {
    TallyCounts(Results(rows));
    TallyCounts(Errors(rows));
    NoEmptyError(Errors(rows));
  }

  lemma {:induction false} NoEmptyError(names: seq<string>)
    requires forall i :: 0 <= i < |names| ==> names[i] != ""
    ensures Count(names, "") == 0
  {
    if names != [] {
      NoEmptyError(names[..|names| - 1]);
    }
  }

  lemma ErrorsStep(rows: seq<Row>, i: nat)
    requires i < |rows|
    ensures Errors(rows[..i + 1]) == if ErrorOf(rows[i]) != "" then Errors(rows[..i]) + [ErrorOf(rows[i])] else Errors(rows[..i])
  {
    assert rows[..i + 1][..i] == rows[..i];
  }

  lemma SamplesStep(rows: seq<Row>, i: nat)
    requires i < |rows|
    ensures Samples(rows[..i + 1]) == if |Samples(rows[..i])| < 5 then Samples(rows[..i]) + [SampleOf(rows[i])]
                                      else Samples(rows[..i])
  {
    assert rows[..i + 1][..i] == rows[..i];
  }

  lemma TallyStep(names: seq<string>, name: string)
    ensures TallyOf(names + [name]) == Bump(TallyOf(names), name)
  {
    assert (names + [name])[..|names|] == names;
  }

  /** One row more: each part of the summary of the rows so far, updated as the loop body updates it. */
  lemma SummaryStep(rows: seq<Row>, i: nat)
    requires i < |rows|
    ensures TallyOf(Results(rows[..i + 1])) == Bump(TallyOf(Results(rows[..i])), ResultOf(rows[i]))
    ensures ErrorOf(rows[i]) != "" ==>
              TallyOf(Errors(rows[..i + 1])) == Bump(TallyOf(Errors(rows[..i])), ErrorOf(rows[i]))
    ensures ErrorOf(rows[i]) == "" ==> TallyOf(Errors(rows[..i + 1])) == TallyOf(Errors(rows[..i]))
    ensures |Samples(rows[..i])| < 5 ==> Samples(rows[..i + 1]) == Samples(rows[..i]) + [SampleOf(rows[i])]
    ensures |Samples(rows[..i])| >= 5 ==> Samples(rows[..i + 1]) == Samples(rows[..i])
  {
    assert Results(rows[..i + 1]) == Results(rows[..i]) + [ResultOf(rows[i])];
    TallyStep(Results(rows[..i]), ResultOf(rows[i]));
    ErrorsStep(rows, i);
    if ErrorOf(rows[i]) != "" {
      TallyStep(Errors(rows[..i]), ErrorOf(rows[i]));
    }
    SamplesStep(rows, i);
  }

  /** `summarize_csv`'s loop over the rows. */
  method Summarize(rows: seq<Row>) returns (s: Summary)
    ensures s == SummaryOf(rows)
  {
    var total := 0;
    var byResult: Tally := [];
    var byError: Tally := [];
    var samples: seq<Sample> := [];
    var i := 0;
    while i < |rows|
      invariant 0 <= i <= |rows| && total == i
      invariant byResult == TallyOf(Results(rows[..i]))
      invariant byError == TallyOf(Errors(rows[..i]))
      invariant samples == Samples(rows[..i])
    {
      total, byResult, byError, samples := CountRow(rows, i, total, byResult, byError, samples);
      i := i + 1;
    }
    assert rows[..i] == rows;
    s := Summary(total, byResult, byError, samples);
  }

  /** The body of `summarize_csv`'s loop: the counters after one more row. */
  method CountRow(rows: seq<Row>, i: nat, total: nat, byResult: Tally, byError: Tally, samples: seq<Sample>)
    returns (total': nat, byResult': Tally, byError': Tally, samples': seq<Sample>)
    requires i < |rows| && total == i
    requires byResult == TallyOf(Results(rows[..i]))
    requires byError == TallyOf(Errors(rows[..i]))
    requires samples == Samples(rows[..i])
    ensures total' == i + 1
    ensures byResult' == TallyOf(Results(rows[..i + 1]))
    ensures byError' == TallyOf(Errors(rows[..i + 1]))
    ensures samples' == Samples(rows[..i + 1])
  {
    SummaryStep(rows, i);
    var row := rows[i];
    total' := total + 1;
    var result := ResultOf(row);
    var errCode := ErrorOf(row);
    byResult' := Bump(byResult, result);
    byError' := byError;
    if errCode != "" {
      byError' := Bump(byError, errCode);
    }
    samples' := samples;
    if |samples| < 5 {
      samples' := samples + [SampleOf(row)];
    }
  }

  // ---------------------------------------------------------------------
  // the printed order

  /** `(-count, name)` order: a larger count first, equal counts by name. */
  predicate RanksBefore(a: (string, nat), b: (string, nat))
  {
    a.1 > b.1 || (a.1 == b.1 && !Less(b.0, a.0))
  }

  lemma RanksTotal(a: (string, nat), b: (string, nat))
    ensures RanksBefore(a, b) || RanksBefore(b, a)
  {
    LessAsymmetric(a.0, b.0);
  }

  lemma RanksTransitive(a: (string, nat), b: (string, nat), c: (string, nat))
    requires RanksBefore(a, b) && RanksBefore(b, c)
    ensures RanksBefore(a, c)
  {
    if a.1 == b.1 == c.1 {
      LessTotal(a.0, b.0);
      LessTotal(b.0, c.0);
      if Less(a.0, b.0) && Less(b.0, c.0) {
        LessTransitive(a.0, b.0, c.0);
      }
      if Less(a.0, c.0) {
        LessAsymmetric(a.0, c.0);
      } else if a.0 == c.0 {
        LessIrreflexive(a.0);
      }
    }
  }

  predicate Ranked(t: Tally)
  {
    forall i, j :: 0 <= i < j < |t| ==> RanksBefore(t[i], t[j])
  }

  lemma RankedCons(y: (string, nat), rest: Tally)
    requires Ranked(rest)
    requires forall j :: 0 <= j < |rest| ==> RanksBefore(y, rest[j])
    ensures Ranked([y] + rest)
  {
    forall i, j | 0 <= i < j < |[y] + rest| ensures RanksBefore(([y] + rest)[i], ([y] + rest)[j]) {
      if i > 0 {
        assert ([y] + rest)[i] == rest[i - 1];
      }
      assert ([y] + rest)[j] == rest[j - 1];
    }
  }

  lemma InsertedAfter(x: (string, nat), t: Tally, rest: Tally)
    requires t != [] && Ranked(t) && RanksBefore(t[0], x)
    requires multiset(rest) == multiset(t[1..]) + multiset{x}
    ensures forall j :: 0 <= j < |rest| ==> RanksBefore(t[0], rest[j])
  {
    forall j | 0 <= j < |rest| ensures RanksBefore(t[0], rest[j]) {
      assert rest[j] in multiset(rest);
      if rest[j] != x {
        assert rest[j] in multiset(t[1..]);
        var k :| 0 <= k < |t[1..]| && t[1..][k] == rest[j];
        assert t[k + 1] == rest[j];
      }
    }
  }

  /** Place one entry into a ranked tally. */
  function Insert(x: (string, nat), t: Tally): (r: Tally)
    requires Ranked(t)
    ensures multiset(r) == multiset(t) + multiset{x}
    ensures Ranked(r)
  {
    if t == [] then [x]
    else if RanksBefore(x, t[0]) then
      forall j | 0 <= j < |t| ensures RanksBefore(x, t[j]) {
        if j > 0 { RanksTransitive(x, t[0], t[j]); }
      }
      RankedCons(x, t);
      [x] + t
    else
      RanksTotal(x, t[0]);
      assert t == [t[0]] + t[1..];
      var rest := Insert(x, t[1..]);
      InsertedAfter(x, t, rest);
      RankedCons(t[0], rest);
      [t[0]] + rest
  }

  /** `sorted(tally.items(), key=lambda x: (-x[1], x[0]))`: the same entries, largest count first. */
  function Rank(t: Tally): (r: Tally)
    ensures multiset(r) == multiset(t)
    ensures Ranked(r)
  {
    if t == [] then []
    else
      assert t == [t[0]] + t[1..];
      Insert(t[0], Rank(t[1..]))
  }

  // ---------------------------------------------------------------------
  // main

  /** `main`: 1 when no CSV report is under the prefix; otherwise 0 and the newest report's summary. */
  method Run(objs: seq<ListedObject>, read: string -> seq<Row>) returns (code: int, summary: Option<Summary>)
    ensures code == 1 <==> forall j :: 0 <= j < |objs| ==> !IsCsv(objs[j].key)
    ensures code == 1 ==> summary == None
    ensures code != 1 ==> code == 0 && summary.Some?
                          && exists i :: NewestAt(objs, IsCsv, i) && summary.value == SummaryOf(read(objs[i].key))
  {
    var key := FindLatestCsv(objs);
    if key.None? {
      return 1, None;
    }
    var s := Summarize(read(key.value));
    return 0, Some(s);
  }
}
