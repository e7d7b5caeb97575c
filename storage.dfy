/**
 * The on-device log store of utils/storage.ts. All logs live as one JSON
 * array under a single storage key; saving is an upsert by id (the new log
 * goes first, older entries with its id are dropped), deleting filters by id.
 * `todayId` formats a calendar date as the id `YYYY-MM-DD`.
 */
module Storage {
  import opened Readiness

  /** `DailyLog`: `id` and `date` both hold the day as `YYYY-MM-DD`. */
  datatype DailyLog = DailyLog(id: string, date: string, metrics: Metrics)

  /** What the storage key holds: nothing, text that does not parse, or a parsed array. */
  datatype Stored = Missing | Unparsable | Parsed(logs: seq<DailyLog>)

  /** The list filter `logs.filter((l) => l.id !== id)`. */
  function WithoutId(logs: seq<DailyLog>, id: string): (kept: seq<DailyLog>)
    ensures forall i :: 0 <= i < |kept| ==> kept[i].id != id
    decreases |logs|
  {
    if logs == [] then []
    else (if logs[0].id == id then [] else [logs[0]]) + WithoutId(logs[1..], id)
  }

  /** The filter keeps every entry with another id as often as it occurred, and adds nothing. */
  lemma {:induction false} WithoutIdContents(logs: seq<DailyLog>, id: string)
    ensures forall l: DailyLog :: multiset(WithoutId(logs, id))[l] == if l.id == id then 0 else multiset(logs)[l]
    decreases |logs|
  {
    if logs != [] {
      assert logs == [logs[0]] + logs[1..];
      WithoutIdContents(logs[1..], id);
    }
  }

  /** Filtering a concatenation filters each part and keeps their order. */
  lemma {:induction false} WithoutIdAppend(a: seq<DailyLog>, b: seq<DailyLog>, id: string)
    ensures WithoutId(a + b, id) == WithoutId(a, id) + WithoutId(b, id)
    decreases |a|
  {
    if a == [] {
      assert a + b == b;
    } else {
      assert (a + b)[0] == a[0];
      assert (a + b)[1..] == a[1..] + b;
      WithoutIdAppend(a[1..], b, id);
    }
  }

  /** A list without the id is left exactly as it was. */
  lemma {:induction false} WithoutAbsentId(logs: seq<DailyLog>, id: string)
    requires forall i :: 0 <= i < |logs| ==> logs[i].id != id
    ensures WithoutId(logs, id) == logs
    decreases |logs|
  {
    if logs != [] {
      WithoutAbsentId(logs[1..], id);
    }
  }

  /** Filtering the same id twice is filtering it once. */
  lemma WithoutIdIdempotent(logs: seq<DailyLog>, id: string)
    ensures WithoutId(WithoutId(logs, id), id) == WithoutId(logs, id)
  {
    WithoutAbsentId(WithoutId(logs, id), id);
  }

  /** The list `saveLog` writes: `[log, ...logs.filter((l) => l.id !== log.id)]`. */
  function Upsert(logs: seq<DailyLog>, log: DailyLog): (next: seq<DailyLog>)
    ensures |next| > 0 && next[0] == log
    ensures forall i :: 0 < i < |next| ==> next[i].id != log.id
    ensures forall l: DailyLog :: l.id != log.id ==> multiset(next)[l] == multiset(logs)[l]
  {
    WithoutIdContents(logs, log.id);
    [log] + WithoutId(logs, log.id)
  }

  /** Every other entry stays, in its original order, behind the saved log. */
  lemma UpsertKeepsOthersInOrder(logs: seq<DailyLog>, log: DailyLog)
    ensures Upsert(logs, log)[1..] == WithoutId(logs, log.id)
  {
  }

  /** Saving the same log twice leaves what saving it once left. */
  lemma UpsertIdempotent(logs: seq<DailyLog>, log: DailyLog)
    ensures Upsert(Upsert(logs, log), log) == Upsert(logs, log)
  {
    var rest := WithoutId(logs, log.id);
    calc {
      Upsert(Upsert(logs, log), log);
      [log] + WithoutId([log] + rest, log.id);
      { WithoutIdAppend([log], rest, log.id); }
      [log] + (WithoutId([log], log.id) + WithoutId(rest, log.id));
      { assert WithoutId([log], log.id) == []; }
      [log] + WithoutId(rest, log.id);
      { WithoutIdIdempotent(logs, log.id); }
      [log] + rest;
    }
  }

  /** Deleting the id just saved removes exactly what the save added. */
  lemma DeleteUndoesUpsert(logs: seq<DailyLog>, log: DailyLog)
    ensures WithoutId(Upsert(logs, log), log.id) == WithoutId(logs, log.id)
  {
    UpsertIdempotent(logs, log);
    WithoutIdAppend([log], WithoutId(logs, log.id), log.id);
    assert WithoutId([log], log.id) == [];
    WithoutIdIdempotent(logs, log.id);
  }

  /** `getLogs`: an absent or unparsable value reads as the empty list. */
  function ReadLogs(v: Stored): (logs: seq<DailyLog>)
    ensures v.Parsed? ==> logs == v.logs
    ensures !v.Parsed? ==> logs == []
  {
    match v
    case Parsed(logs) => logs
    case _ => []
  }

  /** The device storage of utils/storage.ts: one value under the key `peakready.logs.v1`. */
  class LogStore {
    /** The value under the key. */
    var stored: Stored

    constructor (initial: Stored)
      ensures stored == initial
    {
      stored := initial;
    }

    /** `getLogs`. */
    method GetLogs() returns (logs: seq<DailyLog>)
      ensures stored.Parsed? ==> logs == stored.logs
      ensures stored.Missing? || stored.Unparsable? ==> logs == []
    {
      logs := ReadLogs(stored);
    }

    /** `saveLog`: read the list, upsert the log, write the list back. */
    method SaveLog(log: DailyLog)
      modifies this
      ensures stored == Parsed(Upsert(ReadLogs(old(stored)), log))
    {
      var logs := GetLogs();
      var next := Upsert(logs, log);
      stored := Parsed(next);
    }

    /** `deleteLog`: read the list, drop the id, write the list back. */
    method DeleteLog(id: string)
      modifies this
      ensures stored == Parsed(WithoutId(ReadLogs(old(stored)), id))
    {
      var logs := GetLogs();
      var next := WithoutId(logs, id);
      stored := Parsed(next);
    }
  }

  /** Save, then read back: the log is first and unique, followed by the other old entries. */
  method SaveThenRead(store: LogStore, log: DailyLog) returns (logs: seq<DailyLog>)
    modifies store
    ensures |logs| > 0 && logs[0] == log
    ensures forall i :: 0 < i < |logs| ==> logs[i].id != log.id
    ensures logs[1..] == WithoutId(ReadLogs(old(store.stored)), log.id)
  {
    store.SaveLog(log);
    logs := store.GetLogs();
  }

  // ---- todayId ----

  predicate IsDigit(c: char)
  {
    '0' <= c <= '9'
  }

  predicate AllDigits(s: string)
  {
    forall i :: 0 <= i < |s| ==> IsDigit(s[i])
  }

  function DigitChar(d: nat): (c: char)
    requires d < 10
    ensures IsDigit(c) && (c as int) - ('0' as int) == d
  {
    ('0' as int + d) as char
  }

  /** `String(n)` for a non-negative integer: its decimal digits, no leading zero. */
  function DecimalString(n: nat): (s: string)
    ensures 1 <= |s| && AllDigits(s)
    ensures |s| > 1 ==> s[0] != '0'
    decreases n
  {
    if n < 10 then [DigitChar(n)] else DecimalString(n / 10) + [DigitChar(n % 10)]
  }

  /** The number a string of decimal digits denotes (an independent reading of `DecimalString`). */
  function DecimalValue(s: string): nat
    requires AllDigits(s)
    decreases |s|
  {
    if s == [] then 0
    else DecimalValue(s[..|s| - 1]) * 10 + ((s[|s| - 1] as int) - ('0' as int))
  }

  /** Reading back a formatted number gives the number. */
  lemma {:induction false} DecimalRoundTrip(n: nat)
    ensures DecimalValue(DecimalString(n)) == n
    decreases n
  {
    if n >= 10 {
      var s := DecimalString(n);
      assert s[..|s| - 1] == DecimalString(n / 10);
      DecimalRoundTrip(n / 10);
    }
  }

  /** Leading zeros do not change the value of a digit string. */
  lemma {:induction false} LeadingZeroValue(s: string)
    requires AllDigits(s)
    ensures DecimalValue(['0'] + s) == DecimalValue(s)
    decreases |s|
  {
    if s != [] {
      var t := ['0'] + s;
      assert t[..|t| - 1] == ['0'] + s[..|s| - 1];
      LeadingZeroValue(s[..|s| - 1]);
    }
  }

  /** The number of decimal digits for the ranges a date needs. */
  lemma DecimalLength(n: nat)
    ensures n < 10 ==> |DecimalString(n)| == 1
    ensures 10 <= n < 100 ==> |DecimalString(n)| == 2
    ensures 1000 <= n < 10000 ==> |DecimalString(n)| == 4
  {
    if n >= 10 {
      DecimalLength(n / 10);
    }
  }

  /** `String(i)` for any integer: a minus sign before the digits of a negative number. */
  function IntString(i: int): (s: string)
    ensures i >= 0 ==> s == DecimalString(i)
    ensures i < 0 ==> s == ['-'] + DecimalString(-i)
  {
    if i < 0 then "-" + DecimalString(-i) else DecimalString(i)
  }

  /** `s.padStart(width, "0")`: zeros in front up to `width` characters; longer strings unchanged. */
  function PadStartZeros(s: string, width: nat): (r: string)
    ensures |r| == if |s| >= width then |s| else width
    ensures r[|r| - |s|..] == s
    ensures forall i :: 0 <= i < |r| - |s| ==> r[i] == '0'
  {
    if |s| >= width then s else seq(width - |s|, _ => '0') + s
  }

  /** A number below 100 formatted and padded to two digits, and its value. */
  lemma TwoDigits(n: nat)
    requires n < 100
    ensures var r := PadStartZeros(DecimalString(n), 2);
      |r| == 2 && AllDigits(r) && DecimalValue(r) == n
  {
    DecimalLength(n);
    DecimalRoundTrip(n);
    var s := DecimalString(n);
    if n < 10 {
      assert PadStartZeros(s, 2) == ['0'] + s;
      LeadingZeroValue(s);
    }
  }

  /** `String(n).padStart(2, "0")` for a month or day number: two digits reading back as `n`. */
  function TwoDigitField(n: nat): (r: string)
    requires n < 100
    ensures |r| == 2 && AllDigits(r) && DecimalValue(r) == n
  {
    TwoDigits(n);
    PadStartZeros(DecimalString(n), 2)
  }

  /** Where the three fields sit in `y-mm-dd` when `mm` and `dd` have two characters. */
  lemma DashedFields(y: string, mm: string, dd: string)
    requires |mm| == 2 && |dd| == 2
    ensures var id := y + "-" + mm + "-" + dd;
      && |id| == |y| + 6 && id[..|y|] == y && id[|y|] == '-' && id[|y| + 3] == '-'
      && id[|y| + 1..|y| + 3] == mm && id[|y| + 4..] == dd
  {
  }

  /**
   * `todayId` for the date whose `getFullYear()`, `getMonth()` (0 for January)
   * and `getDate()` are `year`, `monthIndex` and `day`: the unpadded year, a
   * dash, the two-digit month number, a dash, the two-digit day.
   */
  function TodayId(year: int, monthIndex: int, day: int): (id: string)
    requires 0 <= monthIndex < 12 && 1 <= day <= 31
    ensures var y := IntString(year);
      && |id| == |y| + 6
      && id[..|y|] == y && id[|y|] == '-' && id[|y| + 3] == '-'
      && id[|y| + 1..|y| + 3] == TwoDigitField(monthIndex + 1)
      && id[|y| + 4..] == TwoDigitField(day)
  {
    var y, mm, dd := IntString(year), TwoDigitField(monthIndex + 1), TwoDigitField(day);
    DashedFields(y, mm, dd);
    y + "-" + mm + "-" + dd
  }

  /** For a four-digit year the id is exactly `YYYY-MM-DD`, and the year reads back. */
  lemma TodayIdFourDigitYear(year: int, monthIndex: int, day: int)
    requires 1000 <= year <= 9999 && 0 <= monthIndex < 12 && 1 <= day <= 31
    ensures var id := TodayId(year, monthIndex, day);
      && |id| == 10 && id[4] == '-' && id[7] == '-'
      && AllDigits(id[..4]) && DecimalValue(id[..4]) == year
      && AllDigits(id[5..7]) && DecimalValue(id[5..7]) == monthIndex + 1
      && AllDigits(id[8..]) && DecimalValue(id[8..]) == day
  {
    DecimalLength(year);
    DecimalRoundTrip(year);
    var id := TodayId(year, monthIndex, day);
    assert id[..4] == DecimalString(year);
    assert id[5..7] == TwoDigitField(monthIndex + 1);
    assert id[8..] == TwoDigitField(day);
  }
}
