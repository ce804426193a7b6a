/** The automatic-posting scheduler: an `is_running` flag over an interval-job engine whose
    job store is keyed by job id, and the `%d.%m.%Y %H:%M:%S` rendering of fire times. */
module Scheduler {
  import opened PyText
  import Bot

  /** The calendar fields of a `datetime` that the timestamp shows. */
  datatype Stamp = Stamp(year: int, month: int, day: int, hour: int, minute: int, second: int)

  predicate IsLeap(y: int) {
    y % 4 == 0 && (y % 100 != 0 || y % 400 == 0)
  }

  function DaysInMonth(y: int, m: int): int
    requires 1 <= m <= 12
  {
    if m == 2 then (if IsLeap(y) then 29 else 28)
    else if m == 4 || m == 6 || m == 9 || m == 11 then 30
    else 31
  }

  /** The ranges `datetime` enforces on construction. */
  predicate ValidStamp(t: Stamp) {
    && 1 <= t.year <= 9999 && 1 <= t.month <= 12 && 1 <= t.day <= DaysInMonth(t.year, t.month)
    && 0 <= t.hour < 24 && 0 <= t.minute < 60 && 0 <= t.second < 60
  }

  type DateTime = t: Stamp | ValidStamp(t) witness Stamp(1, 1, 1, 0, 0, 0)

  function DigitChar(n: nat): (c: char)
    requires n < 10
    ensures IsDigit(c) && DigitValue(c) == n
  {
    ('0' as int + n) as char
  }

  /** A number below 100 as two zero-padded digits. */
  function Pad2(n: nat): (s: string)
    requires n < 100
    ensures |s| == 2 && IsDigit(s[0]) && IsDigit(s[1]) && DigitValue(s[0]) * 10 + DigitValue(s[1]) == n
  {
    [DigitChar(n / 10), DigitChar(n % 10)]
  }

  /** A number below 10000 as four zero-padded digits. */
  function Pad4(n: nat): (s: string)
    requires n < 10000
    ensures |s| == 4 && forall k :: 0 <= k < 4 ==> IsDigit(s[k])
  {
    Pad2(n / 100) + Pad2(n % 100)
  }

  /** `strftime('%d.%m.%Y %H:%M:%S')`. */
  function FormatTimestamp(t: DateTime): string {
    Pad2(t.day) + "." + Pad2(t.month) + "." + Pad4(t.year) + " "
      + Pad2(t.hour) + ":" + Pad2(t.minute) + ":" + Pad2(t.second)
  }

  predicate IsSeparatorPosition(k: int) {
    k == 2 || k == 5 || k == 10 || k == 13 || k == 16
  }

  /** `DD.MM.YYYY HH:MM:SS`: nineteen characters, digits everywhere but the five separators. */
  predicate TimestampShape(s: string) {
    && |s| == 19
    && s[2] == '.' && s[5] == '.' && s[10] == ' ' && s[13] == ':' && s[16] == ':'
    && forall k :: 0 <= k < 19 && !IsSeparatorPosition(k) ==> IsDigit(s[k])
  }

  /** The number written by the two digits at `i`. */
  function Read2(s: string, i: nat): nat
    requires i + 2 <= |s| && IsDigit(s[i]) && IsDigit(s[i + 1])
  {
    DigitValue(s[i]) * 10 + DigitValue(s[i + 1])
  }

  /** Reads a timestamp back; `None` for text of another shape or an impossible date. */
  function ParseTimestamp(s: string): Option<DateTime> {
    if !TimestampShape(s) then None
    else
      var t := Stamp(Read2(s, 6) * 100 + Read2(s, 8), Read2(s, 3), Read2(s, 0), Read2(s, 11), Read2(s, 14), Read2(s, 17));
      if ValidStamp(t) then Some(t) else None
  }

  lemma FormatShape(t: DateTime)
    ensures TimestampShape(FormatTimestamp(t))
  {
    var s := FormatTimestamp(t);
    var y := Pad4(t.year);
    assert s == Pad2(t.day) + "." + Pad2(t.month) + "." + y + " " + Pad2(t.hour) + ":" + Pad2(t.minute) + ":" + Pad2(t.second);
    assert s[6..10] == y;
  }

  /** Reading the digits of `Pad2(n)` gives `n`. */
  lemma Read2OfPad2(s: string, i: nat, n: nat)
    requires n < 100 && i + 2 <= |s| && s[i..i + 2] == Pad2(n)
    ensures IsDigit(s[i]) && IsDigit(s[i + 1]) && Read2(s, i) == n
  {
    assert s[i] == s[i..i + 2][0] && s[i + 1] == s[i..i + 2][1];
  }

  /** Every rendered fire time reads back as itself. */
  lemma ParseFormat(t: DateTime)
    ensures ParseTimestamp(FormatTimestamp(t)) == Some(t)
  {
    var s := FormatTimestamp(t);
    FormatShape(t);
    assert s[0..2] == Pad2(t.day);
    assert s[3..5] == Pad2(t.month);
    assert s[6..8] == Pad2(t.year / 100);
    assert s[8..10] == Pad2(t.year % 100);
    assert s[11..13] == Pad2(t.hour);
    assert s[14..16] == Pad2(t.minute);
    assert s[17..19] == Pad2(t.second);
    Read2OfPad2(s, 0, t.day);
    Read2OfPad2(s, 3, t.month);
    Read2OfPad2(s, 6, t.year / 100);
    Read2OfPad2(s, 8, t.year % 100);
    Read2OfPad2(s, 11, t.hour);
    Read2OfPad2(s, 14, t.minute);
    Read2OfPad2(s, 17, t.second);
  }

  /** Two digits are the zero-padded rendering of the number they write. */
  lemma Pad2OfRead2(s: string, i: nat)
    requires i + 2 <= |s| && IsDigit(s[i]) && IsDigit(s[i + 1])
    ensures Read2(s, i) < 100 && Pad2(Read2(s, i)) == s[i..i + 2]
  {
    var a, b := DigitValue(s[i]), DigitValue(s[i + 1]);
    assert (a * 10 + b) / 10 == a && (a * 10 + b) % 10 == b;
    assert DigitChar(a) == s[i] && DigitChar(b) == s[i + 1];
  }

  /** Text that reads as a fire time is exactly that time's rendering. */
  lemma FormatParse(s: string)
    requires ParseTimestamp(s).Some?
    ensures FormatTimestamp(ParseTimestamp(s).value) == s
  {
    var t := ParseTimestamp(s).value;
    Pad2OfRead2(s, 0);
    Pad2OfRead2(s, 3);
    Pad2OfRead2(s, 6);
    Pad2OfRead2(s, 8);
    Pad2OfRead2(s, 11);
    Pad2OfRead2(s, 14);
    Pad2OfRead2(s, 17);
    var hi, lo := Read2(s, 6), Read2(s, 8);
    assert t.year / 100 == hi && t.year % 100 == lo;
    assert Pad4(t.year) == s[6..8] + s[8..10];
    var f := FormatTimestamp(t);
    assert f == s[0..2] + [s[2]] + s[3..5] + [s[5]] + (s[6..8] + s[8..10]) + [s[10]]
                + s[11..13] + [s[13]] + s[14..16] + [s[16]] + s[17..19];
    assert f == s;
  }

  /** A registered interval job: id, display name, interval in hours and next fire time. */
  datatype Job = Job(id: string, name: string, intervalHours: int, nextRun: DateTime)

  const AutoPostId: string := "auto_post"
  const AutoPostName: string := "Автоматический постинг"
  const NotRunningText: string := "Планировщик не запущен"
  const UnknownText: string := "Неизвестно"

  predicate UniqueIds(jobs: seq<Job>) {
    forall i, j :: 0 <= i < j < |jobs| ==> jobs[i].id != jobs[j].id
  }

  /** Where the first job with `id` sits in the store, if any. */
  function FindIndex(jobs: seq<Job>, id: string): (r: Option<nat>)
    ensures r.Some? ==> r.value < |jobs| && jobs[r.value].id == id && forall k :: 0 <= k < r.value ==> jobs[k].id != id
    ensures r.None? ==> forall k :: 0 <= k < |jobs| ==> jobs[k].id != id
  {
    if jobs == [] then None
    else if jobs[0].id == id then Some(0)
    else match FindIndex(jobs[1..], id)
      case None => None
      case Some(i) => Some(i + 1)
  }

  /** `get_job(id)`. */
  function FindJob(jobs: seq<Job>, id: string): (r: Option<Job>)
    ensures r.Some? ==> r.value in jobs && r.value.id == id
    ensures r.None? <==> forall k :: 0 <= k < |jobs| ==> jobs[k].id != id
  {
    match FindIndex(jobs, id)
    case None => None
    case Some(i) => Some(jobs[i])
  }

  /** The first index with `id` is the only index the search can report. */
  lemma FindIndexIs(jobs: seq<Job>, id: string, i: nat)
    requires i < |jobs| && jobs[i].id == id && forall k :: 0 <= k < i ==> jobs[k].id != id
    ensures FindIndex(jobs, id) == Some(i)
  {
  }

  /** Two stores with the same ids position by position find an id at the same place. */
  lemma {:induction false} FindIndexOfSameIds(a: seq<Job>, b: seq<Job>, id: string)
    requires |a| <= |b| && forall k :: 0 <= k < |a| ==> a[k].id == b[k].id
    requires forall k :: |a| <= k < |b| ==> b[k].id != id
    ensures FindIndex(a, id) == FindIndex(b, id)
  {
    match FindIndex(a, id)
    case Some(i) => FindIndexIs(b, id, i);
    case None =>
  }

  /** How many registered jobs carry `id`. */
  function CountId(jobs: seq<Job>, id: string): nat {
    if jobs == [] then 0 else (if jobs[0].id == id then 1 else 0) + CountId(jobs[1..], id)
  }

  /** `add_job(job, replace_existing=True)`: the job with that id is replaced, or the job is added. */
  function AddJob(jobs: seq<Job>, job: Job): (r: seq<Job>)
    ensures FindJob(r, job.id) == Some(job)
    ensures forall id :: id != job.id ==> FindJob(r, id) == FindJob(jobs, id)
    ensures |r| == |jobs| + (if FindJob(jobs, job.id).None? then 1 else 0)
    ensures UniqueIds(jobs) ==> UniqueIds(r)
  {
    match FindIndex(jobs, job.id)
    case None =>
      var r := jobs + [job];
      FindIndexIs(r, job.id, |jobs|);
      assert forall id :: id != job.id ==> FindIndex(r, id) == FindIndex(jobs, id) by {
        forall id | id != job.id ensures FindIndex(r, id) == FindIndex(jobs, id) {
          FindIndexOfSameIds(jobs, r, id);
        }
      }
      r
    case Some(i) =>
      var r := jobs[i := job];
      FindIndexIs(r, job.id, i);
      assert forall id :: FindIndex(r, id) == FindIndex(jobs, id) by {
        forall id ensures FindIndex(r, id) == FindIndex(jobs, id) {
          FindIndexOfSameIds(jobs, r, id);
        }
      }
      r
  }

  /** With unique ids, an id that is registered is registered exactly once. */
  lemma {:induction false} CountOfUnique(jobs: seq<Job>, id: string)
    requires UniqueIds(jobs)
    ensures CountId(jobs, id) == if FindJob(jobs, id).Some? then 1 else 0
  {
    if jobs != [] {
      assert UniqueIds(jobs[1..]);
      CountOfUnique(jobs[1..], id);
      if jobs[0].id == id {
        assert forall k :: 0 <= k < |jobs[1..]| ==> jobs[1..][k].id != id by {
          forall k | 0 <= k < |jobs[1..]| ensures jobs[1..][k].id != id {
            assert jobs[1..][k] == jobs[k + 1];
          }
        }
      }
    }
  }

  /** `PostScheduler`: the bot it drives, the configured interval, its own running flag and
      the engine it wraps (started or not, and the engine's job store). */
  class PostScheduler {
    const bot: Bot.DreamOracleBot
    const intervalHours: int
    var isRunning: bool
    var engineRunning: bool
    var jobs: seq<Job>

    /** The flag mirrors the engine, ids are unique, and a running scheduler has its job. */
    ghost predicate Valid()
      reads this
    {
      && UniqueIds(jobs)
      && engineRunning == isRunning
      && (isRunning ==> FindJob(jobs, AutoPostId).Some?)
    }

    /** `PostScheduler()`: not running, an empty job store, the configured interval. */
    constructor(bot: Bot.DreamOracleBot)
      ensures Valid() && !isRunning && jobs == []
      ensures this.bot == bot && intervalHours == bot.settings.postIntervalHours
    {
      this.bot := bot;
      intervalHours := bot.settings.postIntervalHours;
      isRunning := false;
      engineRunning := false;
      jobs := [];
    }

    /** The job `start` registers, firing first at `nextRun`. */
    function AutoPostJob(nextRun: DateTime): (j: Job)
      reads this
      ensures j.id == AutoPostId && j.intervalHours == intervalHours && j.nextRun == nextRun
    {
      Job(AutoPostId, AutoPostName, intervalHours, nextRun)
    }

    /** `start()`. Running: nothing changes. Stopped: the `auto_post` job is registered (or
        replaces the one kept from an earlier run) with the engine's first fire time
        `nextRun`, and the engine starts. Either way exactly one `auto_post` job exists. */
    method Start(nextRun: DateTime)
      requires Valid()
      modifies this
      ensures Valid() && isRunning
      ensures old(isRunning) ==> jobs == old(jobs)
      ensures !old(isRunning) ==> jobs == AddJob(old(jobs), AutoPostJob(nextRun))
      ensures !old(isRunning) ==> FindJob(jobs, AutoPostId) == Some(AutoPostJob(nextRun))
      ensures CountId(jobs, AutoPostId) == 1
    {
      if isRunning {
        CountOfUnique(jobs, AutoPostId);
        return;
      }
      jobs := AddJob(jobs, AutoPostJob(nextRun));
      engineRunning := true;
      isRunning := true;
      CountOfUnique(jobs, AutoPostId);
    }

    /** `stop()`. Stopped: nothing changes. Running: the engine shuts down, keeping its jobs. */
    method Stop()
      requires Valid()
      modifies this
      ensures Valid() && !isRunning && !engineRunning && jobs == old(jobs)
    {
      if !isRunning {
        return;
      }
      engineRunning := false;
      isRunning := false;
    }

    /** `get_next_run_time()`. */
    function GetNextRunTime(): (s: string)
      reads this
      ensures !isRunning ==> s == NotRunningText
      ensures isRunning && FindJob(jobs, AutoPostId).None? ==> s == UnknownText
      ensures isRunning && FindJob(jobs, AutoPostId).Some? ==>
                ParseTimestamp(s) == Some(FindJob(jobs, AutoPostId).value.nextRun)
    {
      if !isRunning then NotRunningText
      else match FindJob(jobs, AutoPostId)
        case Some(job) => (ParseFormat(job.nextRun); FormatTimestamp(job.nextRun))
        case None => UnknownText
    }

    /** A running scheduler always reports a well-formed fire time, never `Неизвестно`. */
    lemma RunningReportsTime()
      requires Valid() && isRunning
      ensures TimestampShape(GetNextRunTime()) && GetNextRunTime() != UnknownText
    {
      FormatShape(FindJob(jobs, AutoPostId).value.nextRun);
    }

    /** `scheduled_post()`: exactly one run of the automatic-topic pipeline, whose outcome,
        failure included, is only logged; without a `modifies` clause it leaves the
        scheduler's state as it was. */
    method ScheduledPost(services: Bot.Services) returns (ok: bool, trace: seq<Bot.Stage>)
      ensures Bot.PipelineTrace(bot, services, None, trace)
      ensures Bot.SearchedAsFinder(bot, services, None, trace)
      ensures ok <==> Bot.Delivered(trace)
    {
      ok, trace := Bot.CreateAndPublishPost(bot, services, None);
    }
  }
}
