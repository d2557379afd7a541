/**
 * The aggregation inside the `get_trackings_summary` tool: one pass over the
 * tracking entries that accumulates the grand total, the per-day totals, the
 * distinct work-order ids and the per-day work-order strings.
 *
 * Timestamps are integer milliseconds since the epoch (UTC); the day key of an
 * entry is the number of the UTC calendar day its start instant falls in.
 */
module Tracking {
  import opened JsValues
  import opened Lists
  import Clock

  const MillisPerDay := 86400000

  /** One tracking record as returned by the trackings endpoint. */
  datatype Entry = Entry(start: int, end: int, workOrderId: Scalar, workOrderCode: Scalar)

  /** `end - start`; a record that ends before it starts gives a negative duration. */
  function Duration(e: Entry): int {
    e.end - e.start
  }

  /** The UTC calendar day of the start instant (floor division, also before 1970). */
  function DayOf(e: Entry): int {
    e.start / MillisPerDay
  }

  /** `if (entry.work_order_code)`. */
  predicate Coded(e: Entry) {
    Truthy(e.workOrderCode)
  }

  /** `code|HH:MM:SS|id`, the clock being the entry's own duration. */
  function WorkOrderString(e: Entry): string {
    Pipes(Render(e.workOrderCode), Clock.Format(Duration(e)), Render(e.workOrderId))
  }

  function Pipes(a: string, b: string, c: string): string {
    a + "|" + b + "|" + c
  }

  /**
   * The accumulator of the scan. `dates` lists the keys of `timesByDate` in
   * insertion order, the order in which a JavaScript object enumerates them.
   */
  datatype Tally = Tally(
    total: int,
    workOrderIds: set<Scalar>,
    dates: seq<int>,
    timesByDate: map<int, int>,
    workOrdersByDate: map<int, seq<string>>)

  const Empty := Tally(0, {}, [], map[], map[])

  /** `if (!m[d]) m[d] = 0; m[d] += dur`. */
  function AddTime(m: map<int, int>, d: int, dur: int): map<int, int> {
    m[d := (if d in m then m[d] else 0) + dur]
  }

  /** The body of the `forEach` callback. */
  function Step(acc: Tally, e: Entry): Tally {
    var d := DayOf(e);
    var dur := Duration(e);
    var list := if d in acc.workOrdersByDate then acc.workOrdersByDate[d] else [];
    Tally(
      acc.total + dur,
      if Coded(e) then acc.workOrderIds + {e.workOrderId} else acc.workOrderIds,
      if d in acc.timesByDate then acc.dates else acc.dates + [d],
      AddTime(acc.timesByDate, d, dur),
      acc.workOrdersByDate[d := if Coded(e) then AppendNew(list, WorkOrderString(e)) else list])
  }

  /** The whole `forEach`, entries visited in order; the grand total is the sum of all durations. */
  function Scan(es: seq<Entry>): (r: Tally)
    ensures r.total == TotalDuration(es)
  {
    if |es| == 0 then Empty else Step(Scan(es[..|es| - 1]), es[|es| - 1])
  }

  // ---------------------------------------------------------------------------
  // Reference definitions: what each part of the tally should be, entry by entry.
  // ---------------------------------------------------------------------------

  function TotalDuration(es: seq<Entry>): int {
    if |es| == 0 then 0 else TotalDuration(es[..|es| - 1]) + Duration(es[|es| - 1])
  }

  /** The sum of the durations of the entries that start on day `d`. */
  function DayTotal(es: seq<Entry>, d: int): int {
    if |es| == 0 then 0
    else
      var e := es[|es| - 1];
      DayTotal(es[..|es| - 1], d) + (if DayOf(e) == d then Duration(e) else 0)
  }

  /** The day of every entry, in entry order. */
  function DaySeq(es: seq<Entry>): (r: seq<int>)
    ensures |r| == |es|
    ensures forall i :: 0 <= i < |es| ==> r[i] == DayOf(es[i])
  {
    if |es| == 0 then [] else DaySeq(es[..|es| - 1]) + [DayOf(es[|es| - 1])]
  }

  /** The days on which some entry starts. */
  function Days(es: seq<Entry>): set<int> {
    set i | 0 <= i < |es| :: DayOf(es[i])
  }

  /** The ids of the entries that carry a truthy work-order code. */
  function CodedIds(es: seq<Entry>): set<Scalar> {
    set i | 0 <= i < |es| && Coded(es[i]) :: es[i].workOrderId
  }

  /** The work-order strings of the coded entries starting on day `d`, in entry order, repeats kept. */
  function DayStrings(es: seq<Entry>, d: int): seq<string> {
    if |es| == 0 then []
    else
      var e := es[|es| - 1];
      DayStrings(es[..|es| - 1], d) + (if DayOf(e) == d && Coded(e) then [WorkOrderString(e)] else [])
  }

  /** `timesByDate[d]` summed over its keys in enumeration order. */
  function SumOver(ks: seq<int>, m: map<int, int>): int
    requires forall i :: 0 <= i < |ks| ==> ks[i] in m
  {
    if |ks| == 0 then 0 else SumOver(ks[..|ks| - 1], m) + m[ks[|ks| - 1]]
  }

  // ---------------------------------------------------------------------------
  // Properties of one step.
  // ---------------------------------------------------------------------------

  /**
   * An entry without a truthy work-order code still adds its duration to the
   * grand total and to its day, and gives that day a (possibly empty) list,
   * but adds no id and no string.
   */
  lemma StepUncoded(acc: Tally, e: Entry)
    requires !Coded(e)
    ensures var r := Step(acc, e); var d := DayOf(e);
      && r.total == acc.total + Duration(e)
      && r.workOrderIds == acc.workOrderIds
      && d in r.timesByDate
      && r.timesByDate[d] == (if d in acc.timesByDate then acc.timesByDate[d] else 0) + Duration(e)
      && d in r.workOrdersByDate
      && r.workOrdersByDate[d] == (if d in acc.workOrdersByDate then acc.workOrdersByDate[d] else [])
  {
  }

  /** Only the entry's own day changes; every other day keeps its total and its list. */
  lemma StepFramesOtherDays(acc: Tally, e: Entry, d: int)
    requires d != DayOf(e)
    ensures var r := Step(acc, e);
      && (d in r.timesByDate <==> d in acc.timesByDate)
      && (d in acc.timesByDate ==> r.timesByDate[d] == acc.timesByDate[d])
      && (d in r.workOrdersByDate <==> d in acc.workOrdersByDate)
      && (d in acc.workOrdersByDate ==> r.workOrdersByDate[d] == acc.workOrdersByDate[d])
  {
  }

  // ---------------------------------------------------------------------------
  // Properties of the whole scan.
  // ---------------------------------------------------------------------------

  /** The key bookkeeping the scan maintains. */
  ghost predicate WellFormed(t: Tally) {
    && NoDuplicates(t.dates)
    && (forall i :: 0 <= i < |t.dates| ==> t.dates[i] in t.timesByDate)
    && (forall d :: d in t.timesByDate ==> d in t.dates)
    && t.workOrdersByDate.Keys == t.timesByDate.Keys
  }

  lemma {:induction false} ScanWellFormed(es: seq<Entry>)
    ensures WellFormed(Scan(es))
  {
    if |es| > 0 {
      ScanWellFormed(es[..|es| - 1]);
    }
  }

  /** Days visited so far are exactly the keys, and each holds the sum of that day's durations. */
  lemma {:induction false} ScanBuckets(es: seq<Entry>)
    ensures Scan(es).timesByDate.Keys == Days(es)
    ensures forall d :: d in Scan(es).timesByDate ==> Scan(es).timesByDate[d] == DayTotal(es, d)
  {
    if |es| > 0 {
      var p := es[..|es| - 1];
      var e := es[|es| - 1];
      ScanBuckets(p);
      DaysSnoc(p, e);
      assert es == p + [e];
      if DayOf(e) !in Days(p) {
        DayTotalAbsent(p, DayOf(e));
      }
    }
  }

  lemma DaysSnoc(p: seq<Entry>, e: Entry)
    ensures Days(p + [e]) == Days(p) + {DayOf(e)}
  {
    var es := p + [e];
    forall d | d in Days(es) ensures d in Days(p) + {DayOf(e)} {
      var i :| 0 <= i < |es| && DayOf(es[i]) == d;
      if i < |p| { assert es[i] == p[i]; }
    }
    forall d | d in Days(p) ensures d in Days(es) {
      var i :| 0 <= i < |p| && DayOf(p[i]) == d;
      assert es[i] == p[i];
    }
    assert DayOf(es[|p|]) == DayOf(e);
  }

  /** A day on which no entry starts has a zero total. */
  lemma {:induction false} DayTotalAbsent(es: seq<Entry>, d: int)
    requires d !in Days(es)
    ensures DayTotal(es, d) == 0
  {
    if |es| > 0 {
      var p := es[..|es| - 1];
      assert Days(p) <= Days(es) by {
        forall x | x in Days(p) ensures x in Days(es) {
          var i :| 0 <= i < |p| && DayOf(p[i]) == x;
          assert es[i] == p[i];
        }
      }
      assert DayOf(es[|es| - 1]) in Days(es);
      DayTotalAbsent(p, d);
    }
  }

  /** The keys are enumerated in the order their days were first met. */
  lemma {:induction false} ScanDates(es: seq<Entry>)
    ensures Scan(es).dates == Dedup(DaySeq(es))
  {
    if |es| > 0 {
      var p := es[..|es| - 1];
      var e := es[|es| - 1];
      ScanDates(p);
      ScanWellFormed(p);
      assert DaySeq(es)[..|es| - 1] == DaySeq(p);
      var t := Scan(p);
      if DayOf(e) in t.timesByDate {
        assert DayOf(e) in t.dates;
      } else {
        assert DayOf(e) !in t.dates;
      }
    }
  }

  /** `total_work_orders`: the ids of the coded entries, each counted once however often it recurs. */
  lemma {:induction false} ScanIds(es: seq<Entry>)
    ensures Scan(es).workOrderIds == CodedIds(es)
  {
    if |es| > 0 {
      var p := es[..|es| - 1];
      var e := es[|es| - 1];
      ScanIds(p);
      assert es == p + [e];
      forall x | x in CodedIds(es) ensures x in Scan(es).workOrderIds {
        var i :| 0 <= i < |es| && Coded(es[i]) && es[i].workOrderId == x;
        if i < |p| { assert p[i] == es[i]; assert x in CodedIds(p); }
      }
      forall x | x in CodedIds(p) ensures x in CodedIds(es) {
        var i :| 0 <= i < |p| && Coded(p[i]) && p[i].workOrderId == x;
        assert es[i] == p[i];
      }
      if Coded(e) {
        assert es[|p|] == e;
      }
    }
  }

  /** Each day's list is the first-seen deduplication of that day's coded work-order strings. */
  lemma {:induction false} ScanWorkOrders(es: seq<Entry>)
    ensures forall d :: d in Scan(es).workOrdersByDate ==> Scan(es).workOrdersByDate[d] == Dedup(DayStrings(es, d))
  {
    if |es| > 0 {
      var p := es[..|es| - 1];
      ScanWorkOrders(p);
      ScanWellFormed(p);
      ScanBuckets(p);
      StepWorkOrders(Scan(p), p, es[|es| - 1]);
      assert es == p + [es[|es| - 1]];
    }
  }

  /** One step extends each day's list exactly as deduplication extends that day's strings. */
  lemma StepWorkOrders(t: Tally, p: seq<Entry>, e: Entry)
    requires t.workOrdersByDate.Keys == Days(p)
    requires forall d :: d in t.workOrdersByDate ==> t.workOrdersByDate[d] == Dedup(DayStrings(p, d))
    ensures forall d :: d in Step(t, e).workOrdersByDate ==> Step(t, e).workOrdersByDate[d] == Dedup(DayStrings(p + [e], d))
  {
    var r := Step(t, e);
    var es := p + [e];
    assert es[..|es| - 1] == p && es[|es| - 1] == e;
    var d := DayOf(e);
    var list := if d in t.workOrdersByDate then t.workOrdersByDate[d] else [];
    if d !in t.workOrdersByDate {
      DayStringsAbsent(p, d);
      assert list == Dedup(DayStrings(p, d));
    }
    forall k | k in r.workOrdersByDate
      ensures r.workOrdersByDate[k] == Dedup(DayStrings(es, k))
    {
      var ds := DayStrings(es, k);
      if k == d && Coded(e) {
        assert ds == DayStrings(p, k) + [WorkOrderString(e)];
        assert ds[..|ds| - 1] == DayStrings(p, k);
        assert r.workOrdersByDate[k] == AppendNew(list, WorkOrderString(e));
      } else if k == d {
        assert ds == DayStrings(p, k);
        assert r.workOrdersByDate[k] == list;
      } else {
        assert ds == DayStrings(p, k);
        assert r.workOrdersByDate[k] == t.workOrdersByDate[k];
      }
    }
  }

  /** A day on which no entry starts has no work-order strings. */
  lemma {:induction false} DayStringsAbsent(es: seq<Entry>, d: int)
    requires d !in Days(es)
    ensures DayStrings(es, d) == []
  {
    if |es| > 0 {
      var p := es[..|es| - 1];
      assert Days(p) <= Days(es) by {
        forall x | x in Days(p) ensures x in Days(es) {
          var i :| 0 <= i < |p| && DayOf(p[i]) == x;
          assert es[i] == p[i];
        }
      }
      assert DayOf(es[|es| - 1]) in Days(es);
      DayStringsAbsent(p, d);
    }
  }

  // ---------------------------------------------------------------------------
  // Sum decomposition.
  // ---------------------------------------------------------------------------

  lemma {:induction false} SumOverOtherKey(ks: seq<int>, m: map<int, int>, d: int, v: int)
    requires forall i :: 0 <= i < |ks| ==> ks[i] in m
    requires d !in ks
    ensures SumOver(ks, m[d := v]) == SumOver(ks, m)
  {
    if |ks| > 0 {
      SumOverOtherKey(ks[..|ks| - 1], m, d, v);
    }
  }

  lemma {:induction false} SumOverBump(ks: seq<int>, m: map<int, int>, d: int, v: int)
    requires forall i :: 0 <= i < |ks| ==> ks[i] in m
    requires NoDuplicates(ks) && d in ks
    ensures SumOver(ks, m[d := m[d] + v]) == SumOver(ks, m) + v
  {
    var p := ks[..|ks| - 1];
    if ks[|ks| - 1] == d {
      assert d !in p;
      SumOverOtherKey(p, m, d, m[d] + v);
    } else {
      assert d in p;
      SumOverBump(p, m, d, v);
    }
  }

  /** The per-day totals add up to the grand total. */
  lemma {:induction false} BucketsSumToTotal(es: seq<Entry>)
    ensures WellFormed(Scan(es))
    ensures SumOver(Scan(es).dates, Scan(es).timesByDate) == Scan(es).total
  {
    ScanWellFormed(es);
    if |es| > 0 {
      var p := es[..|es| - 1];
      var e := es[|es| - 1];
      BucketsSumToTotal(p);
      StepSum(Scan(p), e);
    }
  }

  /** One step keeps the per-day totals summing to the grand total. */
  lemma StepSum(t: Tally, e: Entry)
    requires WellFormed(t)
    requires SumOver(t.dates, t.timesByDate) == t.total
    ensures forall i :: 0 <= i < |Step(t, e).dates| ==> Step(t, e).dates[i] in Step(t, e).timesByDate
    ensures SumOver(Step(t, e).dates, Step(t, e).timesByDate) == Step(t, e).total
  {
    var r := Step(t, e);
    var d, dur := DayOf(e), Duration(e);
    assert r.total == t.total + dur;
    if d in t.timesByDate {
      assert d in t.dates;
      assert r.dates == t.dates;
      assert r.timesByDate == t.timesByDate[d := t.timesByDate[d] + dur];
      SumOverBump(t.dates, t.timesByDate, d, dur);
    } else {
      assert d !in t.dates;
      assert r.dates == t.dates + [d];
      assert r.timesByDate == t.timesByDate[d := dur];
      assert r.dates[..|r.dates| - 1] == t.dates;
      SumOverOtherKey(t.dates, t.timesByDate, d, dur);
    }
  }

  // ---------------------------------------------------------------------------
  // Consequences for the per-day work-order lists and the id count.
  // ---------------------------------------------------------------------------

  /** The strings of a day are empty exactly when no coded entry starts that day. */
  lemma {:induction false} DayStringsEmpty(es: seq<Entry>, d: int)
    ensures DayStrings(es, d) == [] <==> forall i :: 0 <= i < |es| && DayOf(es[i]) == d ==> !Coded(es[i])
  {
    if |es| > 0 {
      var p := es[..|es| - 1];
      DayStringsEmpty(p, d);
      assert forall i :: 0 <= i < |p| ==> p[i] == es[i];
    }
  }

  /**
   * Every visited day has a list; the list has no repeated string, holds
   * exactly that day's coded work-order strings in first-seen order, and is
   * empty exactly when no coded entry starts that day.
   */
  lemma WorkOrderLists(es: seq<Entry>, d: int)
    ensures d in Scan(es).workOrdersByDate <==> d in Days(es)
    ensures d in Days(es) ==>
      var list := Scan(es).workOrdersByDate[d];
      && NoDuplicates(list)
      && (forall x :: x in list <==> x in DayStrings(es, d))
      && (forall i, j :: 0 <= i < j < |list| ==>
            FirstIndex(DayStrings(es, d), list[i]) < FirstIndex(DayStrings(es, d), list[j]))
      && (list == [] <==> forall i :: 0 <= i < |es| && DayOf(es[i]) == d ==> !Coded(es[i]))
  {
    ScanWellFormed(es);
    ScanBuckets(es);
    ScanWorkOrders(es);
    var ds := DayStrings(es, d);
    DedupMembers(ds);
    DedupDistinct(ds);
    DedupFirstSeen(ds);
    DayStringsEmpty(es, d);
  }

  /** An entry without a code, or with an id already counted, leaves `total_work_orders` unchanged. */
  lemma IdCountUnchanged(es: seq<Entry>, e: Entry)
    requires !Coded(e) || e.workOrderId in CodedIds(es)
    ensures CodedIds(es + [e]) == CodedIds(es)
  {
    var s := es + [e];
    forall x | x in CodedIds(s) ensures x in CodedIds(es) {
      var i :| 0 <= i < |s| && Coded(s[i]) && s[i].workOrderId == x;
      if i < |es| { assert s[i] == es[i]; }
    }
    forall x | x in CodedIds(es) ensures x in CodedIds(s) {
      var i :| 0 <= i < |es| && Coded(es[i]) && es[i].workOrderId == x;
      assert s[i] == es[i];
    }
  }

  // ---------------------------------------------------------------------------
  // The summary returned by the tool.
  // ---------------------------------------------------------------------------

  /** `{ total_time, total_notes, total_work_orders, detailed_by_date }`, dates as day numbers. */
  datatype Summary = Summary(
    totalTime: string,
    totalNotes: nat,
    totalWorkOrders: nat,
    detailedByDate: map<int, int>)

  /** The summary built after the scan; only `timesByDate` is reported per day. */
  function Summarize(es: seq<Entry>, noteCount: nat): (s: Summary)
    ensures s.totalTime == Clock.Format(TotalDuration(es))
    ensures s.totalNotes == noteCount
    ensures s.totalWorkOrders == |CodedIds(es)|
    ensures s.detailedByDate.Keys == Days(es)
    ensures forall d :: d in s.detailedByDate ==> s.detailedByDate[d] == DayTotal(es, d)
  {
    ScanIds(es);
    ScanBuckets(es);
    var t := Scan(es);
    Summary(Clock.Format(t.total), noteCount, |t.workOrderIds|, t.timesByDate)
  }

  /**
   * Two entries on 2024-01-01 (day 19723): 09:00-10:30 with code `WO1` and
   * 11:00-11:15 with a null code. The day holds 6300000 ms, the total prints
   * as `01:45:00`, and one work order is counted.
   */
  lemma OneDayExample()
    ensures var s := Summarize(ExampleDay(), 0);
      && s.totalTime == "01:45:00"
      && s.totalWorkOrders == 1
      && s.detailedByDate.Keys == {19723}
      && s.detailedByDate[19723] == 6300000
  {
    var s := Summarize(ExampleDay(), 0);
    ExampleDayTotals();
    ExampleDaySets();
    Clock.HourAndThreeQuarters();
  }

  function ExampleDay(): seq<Entry> {
    [Entry(1704099600000, 1704105000000, Str("1"), Str("WO1")),
     Entry(1704106800000, 1704107700000, Undefined, Null)]
  }

  /** The coded entry of the example, 90 minutes long, as its day's work-order string. */
  lemma ExampleWorkOrderString()
    ensures WorkOrderString(ExampleDay()[0]) == "WO1|01:30:00|1"
  {
    var e := ExampleDay()[0];
    assert Duration(e) == 5400000;
    NinetyMinuteString(e);
    ExamplePipes();
  }

  /** The string of a 90-minute entry coded `WO1` with id `1`, before the pieces are joined. */
  lemma NinetyMinuteString(e: Entry)
    requires Duration(e) == 5400000 && e.workOrderCode == Str("WO1") && e.workOrderId == Str("1")
    ensures WorkOrderString(e) == Pipes("WO1", "01:30:00", "1")
  {
    Clock.HourAndAHalf();
  }

  lemma ExamplePipes()
    ensures Pipes("WO1", "01:30:00", "1") == "WO1|01:30:00|1"
  {
  }

  lemma ExampleDayTotals()
    ensures TotalDuration(ExampleDay()) == 6300000
    ensures DayTotal(ExampleDay(), 19723) == 6300000
  {
    var es := ExampleDay();
    assert es[..1] == [es[0]];
    assert [es[0]][..0] == [];
    assert TotalDuration([es[0]]) == 5400000;
    assert DayTotal([es[0]], 19723) == 5400000;
  }

  lemma ExampleDaySets()
    ensures CodedIds(ExampleDay()) == {Str("1")}
    ensures Days(ExampleDay()) == {19723}
  {
    var es := ExampleDay();
    assert Coded(es[0]) && !Coded(es[1]);
    assert DayOf(es[0]) == 19723 && DayOf(es[1]) == 19723;
  }

  // ---------------------------------------------------------------------------
  // The variant without work-order strings (the multi-session server and the
  // reporting script).
  // ---------------------------------------------------------------------------

  datatype BasicTally = BasicTally(total: int, workOrderIds: set<Scalar>, dates: seq<int>, timesByDate: map<int, int>)

  function BasicStep(acc: BasicTally, e: Entry): BasicTally {
    var d := DayOf(e);
    BasicTally(
      acc.total + Duration(e),
      if Coded(e) then acc.workOrderIds + {e.workOrderId} else acc.workOrderIds,
      if d in acc.timesByDate then acc.dates else acc.dates + [d],
      AddTime(acc.timesByDate, d, Duration(e)))
  }

  /** Dropping the work-order strings changes nothing else: the variants agree field by field. */
  function BasicScan(es: seq<Entry>): (r: BasicTally)
    ensures r == Forget(Scan(es))
  {
    if |es| == 0 then BasicTally(0, {}, [], map[]) else BasicStep(BasicScan(es[..|es| - 1]), es[|es| - 1])
  }

  function Forget(t: Tally): BasicTally {
    BasicTally(t.total, t.workOrderIds, t.dates, t.timesByDate)
  }

  /** The summary of the multi-session server: the same report as the single-client server's. */
  function SummarizeBasic(es: seq<Entry>, noteCount: nat): (s: Summary)
    ensures s == Summarize(es, noteCount)
  {
    var t := BasicScan(es);
    Summary(Clock.Format(t.total), noteCount, |t.workOrderIds|, t.timesByDate)
  }

  /** The reporting script's output; hour values are exact, before `toFixed(2)` rounds them. */
  datatype Report = Report(
    totalTime: string,
    totalActiveHours: real,
    totalNotes: nat,
    totalWorkOrders: nat,
    hoursByDate: map<int, real>)

  const MillisPerHour: real := 3600000.0

  function Hours(ms: int): real {
    ms as real / MillisPerHour
  }

  function BuildReport(es: seq<Entry>, noteCount: nat): (r: Report)
    ensures r.hoursByDate.Keys == Days(es)
    ensures forall d :: d in r.hoursByDate ==> r.hoursByDate[d] * MillisPerHour == DayTotal(es, d) as real
    ensures r.totalActiveHours * MillisPerHour == TotalDuration(es) as real
    ensures r.totalWorkOrders == |CodedIds(es)|
    ensures r.totalNotes == noteCount
    ensures r.totalTime == Clock.Format(TotalDuration(es))
  {
    ScanIds(es);
    ScanBuckets(es);
    var t := BasicScan(es);
    Report(
      Clock.Format(t.total),
      Hours(t.total),
      noteCount,
      |t.workOrderIds|,
      map d | d in t.timesByDate :: Hours(t.timesByDate[d]))
  }
}
