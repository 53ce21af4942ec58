/** The trading-session clock: the four session boundaries of a day, whether
    a moment lies inside a session, and the next moment the backtest loop
    visits. Models open_quant_app/utils/TimeUtils.py.

    A moment is a whole number of seconds of naive local time; a day is
    86400 seconds, so the date of a moment is `DayStart` and its time of day
    `TimeOfDay`. */
module TradingClock {

  const Day: int := 86400

  /** 09:30:00, 11:30:00, 13:00:00 and 15:00:00 as seconds of the day. */
  const MorningOpen: int := 9 * 3600 + 30 * 60
  const MorningClose: int := 11 * 3600 + 30 * 60
  const AfternoonOpen: int := 13 * 3600
  const AfternoonClose: int := 15 * 3600

  function DayStart(t: int): int
  {
    t - t % Day
  }

  function TimeOfDay(t: int): int
  {
    t % Day
  }

  /** The start of a day is a whole number of days, so the time of day and
      the date of `DayStart(t) + x` are `x` and `DayStart(t)`. */
  lemma OnDay(t: int, x: int)
    requires 0 <= x < Day
    ensures TimeOfDay(DayStart(t) + x) == x
    ensures DayStart(DayStart(t) + x) == DayStart(t)
  {
    var q := t / Day;
    assert DayStart(t) == q * Day;
    assert (q * Day + x) / Day == q;
  }

  /** `datetime.replace(hour=h, minute=m, second=s)`: the same date at the
      given time of day. */
  function At(t: int, h: int, m: int, s: int): (r: int)
    requires 0 <= h < 24 && 0 <= m < 60 && 0 <= s < 60
    ensures DayStart(r) == DayStart(t)
    ensures TimeOfDay(r) == h * 3600 + m * 60 + s
  {
    OnDay(t, h * 3600 + m * 60 + s);
    DayStart(t) + h * 3600 + m * 60 + s
  }

  function MorningStart(t: int): (r: int)
    ensures DayStart(r) == DayStart(t) && TimeOfDay(r) == MorningOpen
  {
    At(t, 9, 30, 0)
  }

  function MorningEnd(t: int): (r: int)
    ensures DayStart(r) == DayStart(t) && TimeOfDay(r) == MorningClose
  {
    At(t, 11, 30, 0)
  }

  function AfternoonStart(t: int): (r: int)
    ensures DayStart(r) == DayStart(t) && TimeOfDay(r) == AfternoonOpen
  {
    At(t, 13, 0, 0)
  }

  function AfternoonEnd(t: int): (r: int)
    ensures DayStart(r) == DayStart(t) && TimeOfDay(r) == AfternoonClose
  {
    At(t, 15, 0, 0)
  }

  /** `get_trade_time_seg`: the two sessions of the day of `now`, each end
      computed as its start plus two hours. */
  function TradeTimeSeg(now: int): (r: seq<int>)
    ensures |r| == 4 && r[0] < r[1] < r[2] < r[3]
    ensures forall i :: 0 <= i < 4 ==> DayStart(r[i]) == DayStart(now)
  {
    var morningStart := At(now, 9, 30, 0);
    var afternoonStart := At(now, 13, 0, 0);
    [morningStart, morningStart + 2 * 3600, afternoonStart, afternoonStart + 2 * 3600]
  }

  /** The session list is the four boundary helpers' answers, in order. */
  lemma TradeTimeSegIsBoundaries(now: int)
    ensures TradeTimeSeg(now) == [MorningStart(now), MorningEnd(now), AfternoonStart(now), AfternoonEnd(now)]
  {
    OnDay(now, MorningClose);
    OnDay(now, AfternoonClose);
  }

  /** `judge_trade_time`: inside the morning or the afternoon session, both
      ends included. */
  predicate JudgeTradeTime(t: int)
  {
    (MorningStart(t) <= t <= MorningEnd(t)) || (AfternoonStart(t) <= t <= AfternoonEnd(t))
  }

  /** A moment is compared with the boundaries of its own day, so only its
      time of day matters. */
  lemma Compare(t: int, b: int)
    requires DayStart(b) == DayStart(t)
    ensures t <= b <==> TimeOfDay(t) <= TimeOfDay(b)
    ensures t < b <==> TimeOfDay(t) < TimeOfDay(b)
  {
  }

  /** Trading time is exactly 09:30:00–11:30:00 and 13:00:00–15:00:00 of any day. */
  lemma JudgeTradeTimeIff(t: int)
    ensures JudgeTradeTime(t) <==>
      (MorningOpen <= TimeOfDay(t) <= MorningClose) || (AfternoonOpen <= TimeOfDay(t) <= AfternoonClose)
  {
    Compare(t, MorningStart(t));
    Compare(t, MorningEnd(t));
    Compare(t, AfternoonStart(t));
    Compare(t, AfternoonEnd(t));
  }

  /** `next_trade_timestamp`: one period on inside a session; from the lunch
      break to 13:00 of the same day; after the close to 09:30 of the next
      day; before the open one period on. */
  function NextTradeTimestamp(t: int, period: int): int
  {
    if JudgeTradeTime(t) then t + period
    else if MorningEnd(t) < t < AfternoonEnd(t) then AfternoonStart(t)
    else if t > AfternoonEnd(t) then MorningStart(t) + Day
    else t + period
  }

  /** Inside either session the loop steps one period. */
  lemma NextInsideSession(t: int, period: int)
    requires (MorningOpen <= TimeOfDay(t) <= MorningClose) || (AfternoonOpen <= TimeOfDay(t) <= AfternoonClose)
    ensures NextTradeTimestamp(t, period) == t + period
  {
    JudgeTradeTimeIff(t);
  }

  /** Between 11:30 and 13:00 (both excluded) the next moment is 13:00:00 of
      the same day. */
  lemma NextInLunchBreak(t: int, period: int)
    requires MorningClose < TimeOfDay(t) < AfternoonOpen
    ensures var r := NextTradeTimestamp(t, period);
      DayStart(r) == DayStart(t) && TimeOfDay(r) == AfternoonOpen
  {
    JudgeTradeTimeIff(t);
    Compare(t, MorningEnd(t));
    Compare(t, AfternoonEnd(t));
  }

  /** After 15:00 the next moment is 09:30:00 of the following day. */
  lemma NextAfterClose(t: int, period: int)
    requires TimeOfDay(t) > AfternoonClose
    ensures var r := NextTradeTimestamp(t, period);
      DayStart(r) == DayStart(t) + Day && TimeOfDay(r) == MorningOpen
  {
    JudgeTradeTimeIff(t);
    Compare(t, MorningEnd(t));
    Compare(t, AfternoonEnd(t));
    OnDay(t + Day, MorningOpen);
    assert DayStart(t + Day) == DayStart(t) + Day;
  }

  /** Before 09:30 the loop only steps one period; it does not jump to the open. */
  lemma NextBeforeOpen(t: int, period: int)
    requires TimeOfDay(t) < MorningOpen
    ensures NextTradeTimestamp(t, period) == t + period
  {
    JudgeTradeTimeIff(t);
    Compare(t, MorningEnd(t));
  }

  /** With a positive period every step moves strictly forward, which is what
      makes the backtest loop progress. */
  lemma NextIsLater(t: int, period: int)
    requires period > 0
    ensures NextTradeTimestamp(t, period) > t
  {
    Compare(t, AfternoonStart(t));
  }
}
