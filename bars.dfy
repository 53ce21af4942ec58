/** Bar-time construction and bar merging: the bar end times of a trading
    day, a cursor over them, and the folding of fine-grained samples into
    coarser bars. Models `TimeListBuilder`, `MergeData`, `merge_data` and the
    `merge_data_*` helpers of open_quant_app/xtquant/xtdata.py.

    Times are integer milliseconds. A session scope is the pair of HHMMSS
    numbers the configuration gives as strings (the string-to-int conversion
    is not part of this model). */
module Bars {
  import opened Common

  const DayMs: int := 86400000
  /** The eight-hour offset `locate` subtracts from the day start. */
  const DateOffset: int := 3600000 * 8

  // ---------------------------------------------------------------------
  // Integer facts

  /** A positive multiple of `p` is at least `p`, and subtracting `p` keeps
      the remainder. */
  lemma ModStep(a: int, p: int)
    requires p > 0
    ensures (a - p) % p == a % p
    ensures a > 0 && a % p == 0 ==> a >= p
  {
    var q := a / p;
    ModUnique(a - p, p, q - 1, a % p);
    if a > 0 && a % p == 0 {
      assert a == q * p;
      MulAtLeast(q, p);
    }
  }

  // ---------------------------------------------------------------------
  // parse_time

  /** `parse_time`: the hour, minute and second digits of an HHMMSS number. */
  function ParseTime(ft: int): (r: (int, int, int))
    ensures 0 <= r.0 < 100 && 0 <= r.1 < 100 && 0 <= r.2 < 100
    ensures 0 <= ft < 1000000 ==> r.0 * 10000 + r.1 * 100 + r.2 == ft
  {
    var second := ft % 100;
    var ft1 := (ft - second) / 100;
    var minute := ft1 % 100;
    var ft2 := (ft1 - minute) / 100;
    var hour := ft2 % 100;
    ModUnique(ft, 100, ft / 100, second);
    ModUnique(ft1, 100, ft1 / 100, minute);
    (hour, minute, second)
  }

  /** The clock time of an HHMMSS number as milliseconds since midnight. */
  function ClockMs(ft: int): int
  {
    var (hour, minute, second) := ParseTime(ft);
    (((hour * 60) + minute) * 60 + second) * 1000
  }

  // ---------------------------------------------------------------------
  // The bar times of a day

  datatype Scope = Scope(start: int, end: int)

  /** `t`, `t + period`, … while not beyond `end`. */
  function Ticks(t: int, end: int, period: int): seq<int>
    requires period > 0
    decreases if t > end then 0 else end - t + 1
  {
    if t > end then [] else [t] + Ticks(t + period, end, period)
  }

  /** The ticks are exactly the points from `t` to `end` a whole number of
      periods after `t`. */
  lemma {:induction false} TicksMembers(t: int, end: int, period: int, x: int)
    requires period > 0
    ensures x in Ticks(t, end, period) <==> t <= x <= end && (x - t) % period == 0
    decreases if t > end then 0 else end - t + 1
  {
    if t <= end {
      TicksMembers(t + period, end, period, x);
      ModStep(x - t, period);
    }
  }

  /** The ticks strictly increase. */
  lemma {:induction false} TicksIncreasing(t: int, end: int, period: int)
    requires period > 0
    ensures forall i, j :: 0 <= i < j < |Ticks(t, end, period)| ==> Ticks(t, end, period)[i] < Ticks(t, end, period)[j]
    decreases if t > end then 0 else end - t + 1
  {
    if t <= end {
      var rest := Ticks(t + period, end, period);
      TicksIncreasing(t + period, end, period);
      forall x | x in rest
        ensures t < x
      {
        TicksMembers(t + period, end, period, x);
      }
      var s := Ticks(t, end, period);
      forall i, j | 0 <= i < j < |s|
        ensures s[i] < s[j]
      {
        assert s[j] == rest[j - 1];
        if i > 0 {
          assert s[i] == rest[i - 1];
        } else {
          assert rest[j - 1] in rest;
        }
      }
    }
  }

  /** The bar end times of one session: each period after its start up to
      and including its end. */
  function ScopeTimes(scope: Scope, period: int): seq<int>
    requires period > 0
  {
    Ticks(ClockMs(scope.start) + period, ClockMs(scope.end), period)
  }

  /** The bar end times of all sessions, session by session. */
  function DayTimes(scopes: seq<Scope>, period: int): seq<int>
    requires period > 0
  {
    if |scopes| == 0 then []
    else DayTimes(scopes[..|scopes| - 1], period) + ScopeTimes(scopes[|scopes| - 1], period)
  }

  // ---------------------------------------------------------------------
  // The cursor over the bar times

  datatype TimerState = TimerState(curDate: int, curIndex: int, dayTimeList: seq<int>)

  /** The cursor points into the list, or at 0 when the list is empty. */
  predicate TimerValid(T: TimerState)
  {
    0 <= T.curIndex && (T.curIndex < |T.dayTimeList| || T.curIndex == 0)
  }

  /** `get`: the current bar time, or the bare date when there are no bar times. */
  function TimerGet(T: TimerState): int
    requires TimerValid(T)
  {
    if |T.dayTimeList| > 0 then T.curDate + T.dayTimeList[T.curIndex] else T.curDate
  }

  /** `next`: one bar on, wrapping to the first bar of the next day. */
  function TimerNext(T: TimerState): (r: TimerState)
    requires TimerValid(T)
    ensures TimerValid(r) && r.dayTimeList == T.dayTimeList
    ensures r.curDate == T.curDate || r.curDate == T.curDate + DayMs
    ensures r.curDate == T.curDate + DayMs <==> T.curIndex + 1 >= |T.dayTimeList|
  {
    var i := T.curIndex + 1;
    if i >= |T.dayTimeList| then T.(curDate := T.curDate + DayMs, curIndex := 0)
    else T.(curIndex := i)
  }

  /** The first index whose bar time exceeds `t`, searching from `i`; 0 when
      there is none. */
  function FirstAbove(list: seq<int>, t: int, i: nat): (r: nat)
    ensures r == 0 || r < |list|
    decreases |list| - i
  {
    if i >= |list| then 0
    else if t < list[i] then i
    else FirstAbove(list, t, i + 1)
  }

  /** The index `locate` picks is the first bar time above `t` when there is
      one, and 0 otherwise. */
  lemma {:induction false} FirstAboveIsFirst(list: seq<int>, t: int, i: nat)
    requires forall j :: 0 <= j < i && j < |list| ==> list[j] <= t
    ensures var r := FirstAbove(list, t, i);
      && ((exists j :: 0 <= j < |list| && t < list[j]) ==>
            r < |list| && t < list[r] && forall j :: 0 <= j < r ==> list[j] <= t)
      && ((forall j :: 0 <= j < |list| ==> list[j] <= t) ==> r == 0)
    decreases |list| - i
  {
    if i < |list| && !(t < list[i]) {
      FirstAboveIsFirst(list, t, i + 1);
    }
  }

  /** `locate`: the date of `t` less the offset, and the first bar after `t`.
      The bar times are compared with `t` itself, not with its time of day. */
  function TimerLocate(T: TimerState, t: int): (r: TimerState)
    ensures TimerValid(r) && r.dayTimeList == T.dayTimeList
  {
    T.(curDate := t - t % DayMs - DateOffset, curIndex := FirstAbove(T.dayTimeList, t, 0))
  }

  /** For bar times that increase and span less than a day, stepping the
      cursor always moves the current bar time forward. */
  lemma NextAdvances(T: TimerState)
    requires TimerValid(T) && |T.dayTimeList| > 0
    requires forall i, j :: 0 <= i < j < |T.dayTimeList| ==> T.dayTimeList[i] < T.dayTimeList[j]
    requires T.dayTimeList[|T.dayTimeList| - 1] - T.dayTimeList[0] < DayMs
    ensures TimerGet(TimerNext(T)) > TimerGet(T)
  {
    var n := |T.dayTimeList|;
    if T.curIndex + 1 < n {
    } else if T.curIndex > 0 {
      assert T.dayTimeList[0] < T.dayTimeList[T.curIndex];
    }
  }

  class TimeListBuilder {
    const period: int
    const openList: seq<Scope>
    var curDate: int
    var dayTimeList: seq<int>
    var curIndex: int

    ghost function State(): TimerState
      reads this
    {
      TimerState(curDate, curIndex, dayTimeList)
    }

    ghost predicate Valid()
      reads this
    {
      TimerValid(State())
    }

    constructor (period: int, openList: seq<Scope>)
      ensures Valid() && this.period == period && this.openList == openList
      ensures State() == TimerState(0, 0, [])
    {
      this.period := period;
      this.openList := openList;
      curDate := 0;
      dayTimeList := [];
      curIndex := 0;
    }

    /** Appends the bar times of every session; fails on an empty session
        list, a non-positive period, or when no bar time results. */
    method Init() returns (ok: bool)
      requires Valid()
      modifies this
      ensures Valid() && curDate == old(curDate)
      ensures openList == [] || period <= 0 ==> !ok && State() == old(State())
      ensures openList != [] && period > 0 ==>
        && dayTimeList == old(dayTimeList) + DayTimes(openList, period)
        && curIndex == 0
        && (ok <==> dayTimeList != [])
    {
      if openList == [] {
        return false;
      }
      if period <= 0 {
        return false;
      }
      var k := 0;
      while k < |openList|
        invariant 0 <= k <= |openList|
        invariant dayTimeList == old(dayTimeList) + DayTimes(openList[..k], period)
        invariant curDate == old(curDate)
      {
        assert openList[..k + 1][..k] == openList[..k];
        var scope := openList[k];
        AppendTicks(ClockMs(scope.start) + period, ClockMs(scope.end));
        k := k + 1;
      }
      assert openList[..k] == openList;
      curIndex := 0;
      ok := dayTimeList != [];
    }

    /** The inner loop of `init`: appends `t`, `t + period`, … up to `end`. */
    method AppendTicks(t0: int, end: int)
      requires period > 0
      modifies this
      ensures dayTimeList == old(dayTimeList) + Ticks(t0, end, period)
      ensures curDate == old(curDate) && curIndex == old(curIndex)
    {
      var t := t0;
      while t <= end
        invariant dayTimeList + Ticks(t, end, period) == old(dayTimeList) + Ticks(t0, end, period)
        invariant curDate == old(curDate) && curIndex == old(curIndex)
        decreases end - t
      {
        dayTimeList := dayTimeList + [t];
        t := t + period;
      }
    }

    method Get() returns (r: int)
      requires Valid()
      ensures r == TimerGet(State())
    {
      if dayTimeList != [] {
        r := curDate + dayTimeList[curIndex];
      } else {
        r := curDate;
      }
    }

    method Next()
      requires Valid()
      modifies this
      ensures Valid() && State() == TimerNext(old(State()))
    {
      curIndex := curIndex + 1;
      if curIndex >= |dayTimeList| {
        curDate := curDate + 86400000;
        curIndex := 0;
      }
    }

    method Locate(t: int)
      requires Valid()
      modifies this
      ensures Valid() && State() == TimerLocate(old(State()), t)
    {
      var dayTime := t % 86400000;
      curDate := t - dayTime - DateOffset;
      curIndex := 0;
      var i := 0;
      while i < |dayTimeList|
        invariant 0 <= i <= |dayTimeList|
        invariant FirstAbove(dayTimeList, t, i) == FirstAbove(dayTimeList, t, 0)
      {
        var te := dayTimeList[i];
        if t < te {
          curIndex := i;
          break;
        }
        i := i + 1;
      }
    }
  }

  // ---------------------------------------------------------------------
  // Merging samples into bars

  datatype MergeKind = First | Highest | Lowest | Last | Total

  /** The `merge_data_*` helpers: keep the first, the larger, the smaller,
      the last, or the sum. */
  function Merge(kind: MergeKind, a: real, b: real): (r: real)
    ensures kind == First ==> r == a
    ensures kind == Last ==> r == b
    ensures kind == Highest ==> r >= a && r >= b && (r == a || r == b)
    ensures kind == Lowest ==> r <= a && r <= b && (r == a || r == b)
    ensures kind == Total ==> r - a == b
  {
    match kind
    case First => a
    case Highest => if a >= b then a else b
    case Lowest => if a <= b then a else b
    case Last => b
    case Total => a + b
  }

  function LowerAscii(s: string): (r: string)
    ensures |r| == |s|
    ensures forall i :: 0 <= i < |s| ==> !('A' <= r[i] <= 'Z')
    ensures forall i :: 0 <= i < |s| && !('A' <= s[i] <= 'Z') ==> r[i] == s[i]
  {
    seq(|s|, i requires 0 <= i < |s| => if 'A' <= s[i] <= 'Z' then (s[i] - 'A' + 'a') as char else s[i])
  }

  /** The merge function `merge_data` picks for a field name, ignoring case;
      None for any other name (the source raises KeyError). */
  function FieldKind(field: string): (r: Option<MergeKind>)
    ensures r.Some? <==> LowerAscii(field) in {"open", "high", "low", "close", "volume", "amount"}
  {
    var f := LowerAscii(field);
    if f == "open" then Some(First)
    else if f == "high" then Some(Highest)
    else if f == "low" then Some(Lowest)
    else if f == "close" then Some(Last)
    else if f == "volume" || f == "amount" then Some(Total)
    else None
  }

  /** The field lookup does not depend on letter case. */
  lemma FieldKindIgnoresCase(field: string)
    ensures FieldKind(LowerAscii(field)) == FieldKind(field)
  {
    assert LowerAscii(LowerAscii(field)) == LowerAscii(field);
  }

  /** Upper-case names are accepted: "HIGH" merges by maximum. */
  lemma FieldKindExample()
    ensures FieldKind("HIGH") == Some(Highest)
    ensures FieldKind("Volume") == Some(Total)
    ensures FieldKind("vwap") == None
  {
    assert LowerAscii("HIGH") == "high";
    assert LowerAscii("Volume") == "volume";
    assert LowerAscii("vwap") == "vwap";
  }

  /** The abstract state of a `MergeData`: its cursor and the two result lists. */
  datatype MergeState = MergeState(timer: TimerState, timeList: seq<int>, dataList: seq<real>)

  predicate MergeValid(M: MergeState)
  {
    TimerValid(M.timer) && |M.timeList| == |M.dataList|
  }

  /** `push`: a sample no later than the last bar merges into it; any other
      sample opens the next bar (the first one after locating the cursor). */
  function PushSpec(M: MergeState, kind: MergeKind, t: int, data: real): (r: MergeState)
    requires MergeValid(M)
    ensures MergeValid(r)
    ensures |r.timeList| == |M.timeList| || |r.timeList| == |M.timeList| + 1
    ensures |r.dataList| > 0 && (kind == Last ==> r.dataList[|r.dataList| - 1] == data)
    ensures var n := |M.timeList|;
      n > 0 && t <= M.timeList[n - 1] ==>
        r.timeList == M.timeList && r.dataList == M.dataList[..n - 1] + [Merge(kind, M.dataList[n - 1], data)]
    ensures var n := |M.timeList|;
      !(n > 0 && t <= M.timeList[n - 1]) ==>
        |r.timeList| == n + 1 && r.timeList[..n] == M.timeList && r.dataList == M.dataList + [data]
  {
    var n := |M.timeList|;
    if n > 0 && t <= M.timeList[n - 1] then
      M.(dataList := M.dataList[..n - 1] + [Merge(kind, M.dataList[n - 1], data)])
    else if n > 0 then
      var T := TimerNext(M.timer);
      M.(timer := T, timeList := M.timeList + [TimerGet(T)], dataList := M.dataList + [data])
    else
      var T := TimerLocate(M.timer, t);
      M.(timer := T, timeList := [TimerGet(T)], dataList := [data])
  }

  /** Pushing the samples one after the other. */
  function PushAll(M: MergeState, kind: MergeKind, times: seq<int>, datas: seq<real>): (r: MergeState)
    requires MergeValid(M) && |times| <= |datas|
    ensures MergeValid(r)
  {
    if |times| == 0 then M
    else
      var n := |times|;
      PushSpec(PushAll(M, kind, times[..n - 1], datas), kind, times[n - 1], datas[n - 1])
  }

  /** Each push adds at most one bar, and the first push always adds one. */
  lemma {:induction false} PushAllLength(M: MergeState, kind: MergeKind, times: seq<int>, datas: seq<real>)
    requires MergeValid(M) && |times| <= |datas|
    ensures |PushAll(M, kind, times, datas).timeList| <= |M.timeList| + |times|
    ensures |times| > 0 ==> |PushAll(M, kind, times, datas).timeList| >= 1
  {
    if |times| > 0 {
      PushAllLength(M, kind, times[..|times| - 1], datas);
    }
  }

  function SumReals(s: seq<real>): real
  {
    if |s| == 0 then 0.0 else SumReals(s[..|s| - 1]) + s[|s| - 1]
  }

  /** One summing push adds its sample to the total of the bars. */
  lemma PushAddsToSum(M: MergeState, t: int, data: real)
    requires MergeValid(M)
    ensures SumReals(PushSpec(M, Total, t, data).dataList) == SumReals(M.dataList) + data
  {
    var d := M.dataList;
    var m := |d|;
    if m > 0 && t <= M.timeList[m - 1] {
      var e := d[..m - 1] + [d[m - 1] + data];
      assert e[..m - 1] == d[..m - 1];
      assert d[..m - 1] + [d[m - 1]] == d;
    } else if m > 0 {
      assert (d + [data])[..m] == d;
    }
  }

  /** Summing merges lose nothing: the bars add up to the samples. */
  lemma {:induction false} PushAllConservesSum(M: MergeState, times: seq<int>, datas: seq<real>)
    requires MergeValid(M) && |times| <= |datas|
    ensures SumReals(PushAll(M, Total, times, datas).dataList) == SumReals(M.dataList) + SumReals(datas[..|times|])
  {
    var n := |times|;
    if n > 0 {
      var prev := PushAll(M, Total, times[..n - 1], datas);
      PushAllConservesSum(M, times[..n - 1], datas);
      assert datas[..n][..n - 1] == datas[..n - 1];
      PushAddsToSum(prev, times[n - 1], datas[n - 1]);
    }
  }

  /** With "open" merging from no bars, the first bar holds the first sample. */
  lemma {:induction false} FirstBarHoldsFirstSample(M: MergeState, times: seq<int>, datas: seq<real>)
    requires MergeValid(M) && M.timeList == [] && 0 < |times| <= |datas|
    ensures var r := PushAll(M, First, times, datas);
      |r.dataList| > 0 && r.dataList[0] == datas[0]
  {
    var n := |times|;
    if n > 1 {
      FirstBarHoldsFirstSample(M, times[..n - 1], datas);
    }
  }

  /** The state `MergeData.init` leaves: a fresh cursor over the day's bar
      times (none when the cursor's initialisation fails early). */
  function InitialTimer(period: int, openList: seq<Scope>): TimerState
  {
    TimerState(0, 0, if openList == [] || period <= 0 then [] else DayTimes(openList, period))
  }

  class MergeData {
    const period: int
    const openList: seq<Scope>
    const mergeFunc: MergeKind
    var timer: TimeListBuilder?
    var timeList: seq<int>
    var dataList: seq<real>

    ghost function State(): MergeState
      requires timer != null
      reads this, timer
    {
      MergeState(timer.State(), timeList, dataList)
    }

    ghost predicate Valid()
      reads this, timer
    {
      timer != null && MergeValid(State())
    }

    constructor (period: int, openList: seq<Scope>, mergeFunc: MergeKind)
      ensures this.period == period && this.openList == openList && this.mergeFunc == mergeFunc
      ensures timer == null && timeList == [] && dataList == []
    {
      this.period := period;
      this.openList := openList;
      this.mergeFunc := mergeFunc;
      timer := null;
      timeList := [];
      dataList := [];
    }

    /** Builds the cursor over the bar times of the configured sessions. */
    method Init()
      requires timeList == [] && dataList == []
      modifies this
      ensures Valid() && fresh(timer)
      ensures State() == MergeState(InitialTimer(period, openList), [], [])
    {
      timer := new TimeListBuilder(period, openList);
      var _ := timer.Init();
    }

    method Push(t: int, data: real)
      requires Valid()
      modifies this, timer
      ensures Valid() && timer == old(timer)
      ensures State() == PushSpec(old(State()), mergeFunc, t, data)
    {
      if timeList != [] {
        var te := timeList[|timeList| - 1];
        if t <= te {
          dataList := dataList[..|dataList| - 1] + [Merge(mergeFunc, dataList[|dataList| - 1], data)];
        } else {
          timer.Next();
          te := timer.Get();
          timeList := timeList + [te];
          dataList := dataList + [data];
        }
      } else {
        timer.Locate(t);
        var te := timer.Get();
        timeList := timeList + [te];
        dataList := dataList + [data];
      }
    }
  }

  /** `merge_data`: KeyError for an unknown field name, IndexError when there
      are fewer samples than times, otherwise the bars of all samples. */
  function MergeDataSpec(times: seq<int>, datas: seq<real>, period: int, openList: seq<Scope>, field: string)
    : (r: Result<(seq<int>, seq<real>)>)
    ensures r == Err(KeyError) <==> FieldKind(field).None?
    ensures r == Err(IndexError) <==> FieldKind(field).Some? && |datas| < |times|
    ensures r.Err? ==> r.error == KeyError || r.error == IndexError
  {
    match FieldKind(field)
    case None => Err(KeyError)
    case Some(kind) =>
      if |datas| < |times| then Err(IndexError)
      else
        var r := PushAll(MergeState(InitialTimer(period, openList), [], []), kind, times, datas);
        Ok((r.timeList, r.dataList))
  }

  /** The bar lists have equal lengths and are never longer than the input. */
  lemma MergeDataShape(times: seq<int>, datas: seq<real>, period: int, openList: seq<Scope>, field: string)
    requires MergeDataSpec(times, datas, period, openList, field).Ok?
    ensures var (tl, dl) := MergeDataSpec(times, datas, period, openList, field).value;
      |tl| == |dl| <= |times| && (|times| > 0 ==> |tl| > 0)
  {
    var kind := FieldKind(field).value;
    PushAllLength(MergeState(InitialTimer(period, openList), [], []), kind, times, datas);
  }

  method MergeDataRun(times: seq<int>, datas: seq<real>, period: int, openList: seq<Scope>, field: string)
    returns (r: Result<(seq<int>, seq<real>)>)
    ensures r == MergeDataSpec(times, datas, period, openList, field)
  {
    var kind := FieldKind(field);
    if kind.None? {
      return Err(KeyError);
    }
    var md := new MergeData(period, openList, kind.value);
    md.Init();
    ghost var M0 := md.State();
    var i := 0;
    while i < |times|
      invariant 0 <= i <= |times|
      invariant md.Valid() && fresh(md) && fresh(md.timer)
      invariant md.mergeFunc == kind.value
      invariant i <= |datas| && md.State() == PushAll(M0, kind.value, times[..i], datas)
    {
      if i >= |datas| {
        return Err(IndexError);
      }
      assert times[..i + 1][..i] == times[..i];
      md.Push(times[i], datas[i]);
      i := i + 1;
    }
    assert times[..i] == times;
    if |datas| < |times| {
      return Err(IndexError);
    }
    return Ok((md.timeList, md.dataList));
  }
}
