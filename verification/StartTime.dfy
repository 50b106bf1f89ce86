/** `CalculateStartTime`: the next maintenance slot, by the UTC path and by the local-time path. */
module StartTime {
  import opened Wrappers
  import opened Calendar

  /** The three fields of the maintenance configuration, if the file could be read. */
  datatype Conf = Conf(startHr: int, startMin: int, tzMode: string)

  const DAY: int := 86400

  /** A C int holds the low 32 bits. */
  function ToInt32(n: int): int { (n + 0x8000_0000) % 0x1_0000_0000 - 0x8000_0000 }

  function SlotSecond(c: Conf): int { c.startHr * 3600 + c.startMin * 60 }

  // ---- What a slot is, without any calendar ----

  /** `t` is a moment at which a clock `offset` seconds ahead of UTC shows the second `s` of the day. */
  predicate IsSlot(t: int, s: int, offset: int) { (t + offset) % DAY == s }

  /** The first slot not before `from`. */
  function LeastSlot(from: int, s: int, offset: int): int {
    from + (s - from - offset) % DAY
  }

  /** It is one, it is not before `from`, and no slot lies between. */
  lemma LeastSlotIsLeast(from: int, s: int, offset: int, t: int)
    requires 0 <= s < DAY
    ensures IsSlot(LeastSlot(from, s, offset), s, offset) && from <= LeastSlot(from, s, offset) < from + DAY
    ensures t >= from && IsSlot(t, s, offset) ==> LeastSlot(from, s, offset) <= t
  {
    var r := LeastSlot(from, s, offset);
    var k := (s - from - offset) / DAY;
    assert r + offset == s - k * DAY;
    if t >= from && IsSlot(t, s, offset) {
      var j := (t + offset) / DAY;
      assert t + offset == j * DAY + s;
      assert t - r == (j + k) * DAY;
      assert t < r ==> r - t >= DAY;
    }
  }

  // ---- What the date commands answer, with the clock at `now` in a zone `offset` seconds ahead of UTC ----

  function LocalHhmm(now: int, offset: int): int {
    (now + offset) % DAY / 3600 * 100 + (now + offset) % 3600 / 60
  }

  function LocalDate(now: int, offset: int): (d: Date)
    requires now + offset >= 0
    ensures Valid(d) && DayNumber(d) == (now + offset) / DAY
  {
    DateOf((now + offset) / DAY)
  }

  function EpochOf(d: Date, hr: int, min: int, offset: int): int
    requires Valid(d)
  {
    SecondsSinceEpoch(d, hr, min, 0) - offset
  }

  lemma WholeHoursInADay(x: int)
    ensures x % DAY % 3600 == x % 3600
  {
    assert x == x / DAY * 24 * 3600 + x % DAY;
  }

  lemma DigitsCompareAsTimes(h: int, m: int, sec: int, hr: int, min: int)
    requires 0 <= m < 60 && 0 <= min < 60 && 0 <= sec < 60
    ensures hr * 100 + min > h * 100 + m <==> hr * 3600 + min * 60 > h * 3600 + m * 60 + sec
  {}

  /** The four-digit comparison decides whether today's slot is still to come. */
  lemma HhmmComparison(now: int, offset: int, hr: int, min: int)
    requires 0 <= hr <= 23 && 0 <= min <= 59
    ensures hr * 100 + min > LocalHhmm(now, offset) <==> hr * 3600 + min * 60 > (now + offset) % DAY
  {
    WholeHoursInADay(now + offset);
    var s := (now + offset) % DAY;
    DigitsCompareAsTimes(s / 3600, s % 3600 / 60, s % 60, hr, min);
    assert s % 3600 == s % 3600 / 60 * 60 + s % 60;
  }

  /** Slots are a day apart, so the first one after a moment is today's or tomorrow's. */
  lemma SlotOfDay(now: int, s: int, offset: int, day: int)
    requires 0 <= s < DAY
    ensures var t := day * DAY + s - offset;
      now <= t < now + DAY ==> t == LeastSlot(now, s, offset)
  {
    var t := day * DAY + s - offset;
    if now <= t < now + DAY {
      assert s - now - offset == (t - now) - day * DAY;
      assert (s - now - offset) % DAY == t - now;
    }
  }

  lemma EpochIs(d: Date, hr: int, min: int, offset: int)
    requires Valid(d)
    ensures EpochOf(d, hr, min, offset) == DayNumber(d) * DAY + (hr * 3600 + min * 60) - offset
  {}

  /** A date command that is run fails: the fourth is run only for a slot less than ten seconds ahead. */
  predicate CommandFails(now: int, s: int, offset: int, fails: nat -> bool) {
    fails(0) || fails(1) || fails(2) || (fails(3) && LeastSlot(now + 1, s, offset) < now + 10)
  }

  /** The local-time path: the four-digit comparison picks today or tomorrow, and a slot less than ten seconds ahead is
      put off by a day. `fails(k)` says whether the k-th date command fails. */
  method LocalPath(startHr: int, startMin: int, now: int, offset: int, fails: nat -> bool) returns (r: int)
    requires 0 <= startHr <= 23 && 0 <= startMin <= 59
    requires now >= 0 && now + offset >= 0
    ensures var s := startHr * 3600 + startMin * 60;
      r == if CommandFails(now, s, offset, fails) then -1 else ToInt32(LeastSlot(now + 10, s, offset))
  {
    hide LocalHhmm, LeastSlot, ToInt32, EpochOf, DayNumber, NextDay, Valid;
    ghost var s := startHr * 3600 + startMin * 60;
    if fails(0) {
      return -1;
    }
    var currentLocalHhmm := LocalHhmm(now, offset);
    var maintHhmm := startHr * 100 + startMin;
    var tomorrow := !(maintHhmm > currentLocalHhmm);
    HhmmComparison(now, offset, startHr, startMin);
    if fails(1) {
      return -1;
    }
    var date := LocalDate(now, offset);
    ghost var day := (now + offset) / DAY;
    if tomorrow {
      NextDayIsNextNumber(date);
      date := NextDay(date);
      day := day + 1;
    }
    if fails(2) {
      return -1;
    }
    EpochIs(date, startHr, startMin, offset);
    var startEpoch := EpochOf(date, startHr, startMin, offset);
    ThatDay(startEpoch, now, s, offset, day, tomorrow);
    SlotOfDay(now + 1, s, offset, day);
    if startEpoch <= 0 {
      return -1;
    }
    if startEpoch - now < 10 {
      NextDayIsNextNumber(date);
      date := NextDay(date);
      if fails(3) {
        return -1;
      }
      EpochIs(date, startHr, startMin, offset);
      startEpoch := EpochOf(date, startHr, startMin, offset);
      if startEpoch <= 0 {
        return -1;
      }
      SlotOfDay(now + 10, s, offset, day + 1);
    } else {
      SlotOfDay(now + 10, s, offset, day);
    }
    return ToInt32(startEpoch);
  }

  /** The slot the comparison picks lies ahead, and not more than a day. */
  lemma ThatDay(t: int, now: int, s: int, offset: int, day: int, tomorrow: bool)
    requires 0 <= s < DAY && t == day * DAY + s - offset
    requires tomorrow <==> s <= (now + offset) % DAY
    requires day == (now + offset) / DAY + if tomorrow then 1 else 0
    ensures now < t <= now + DAY
  {
    assert now + offset == (now + offset) / DAY * DAY + (now + offset) % DAY;
  }

  method UtcPath(startHr: int, startMin: int, now: int) returns (r: int)
    requires 0 <= startHr <= 23 && 0 <= startMin <= 59 && now >= 0
    ensures r == ToInt32(UtcSlot(now, startHr * 3600 + startMin * 60))
  {
    hide LeastSlot, ToInt32, DayNumber;
    ghost var s, day := startHr * 3600 + startMin * 60, now / DAY;
    var utc := DateOf(now / DAY);
    var startEpoch := SecondsSinceEpoch(utc, startHr, startMin, 0);
    if startEpoch - now < 10 {
      startEpoch := startEpoch + 86400;
      day := day + 1;
    }
    SlotOfDay(now + 10, s, 0, day);
    SlotOfDay(now + 1, s, 0, day);
    return ToInt32(startEpoch);
  }

  /** The start time, or -1. The local path gives exactly the first slot at least ten seconds ahead. The UTC path gives
      the same with offset zero, except that a midnight slot is taken even when it is less than ten seconds away. */
  method CalculateStartTime(conf: Option<Conf>, zoneOk: bool, now: int, offset: int, fails: nat -> bool)
    returns (r: int)
    requires now >= 0 && now + offset >= 0
    ensures conf.None? ==> r == -1
    ensures conf.Some? ==>
      var c, s := conf.value, SlotSecond(conf.value);
      var inRange := 0 <= c.startHr <= 23 && 0 <= c.startMin <= 59;
      r == if inRange && c.tzMode == "UTC" then ToInt32(UtcSlot(now, s))
           else if inRange && c.tzMode == "Local time" && zoneOk && !CommandFails(now, s, offset, fails)
           then ToInt32(LeastSlot(now + 10, s, offset))
           else -1
  {
    if conf.None? {
      return -1;
    }
    var startHr, startMin, tzMode := conf.value.startHr, conf.value.startMin, conf.value.tzMode;
    if startHr < 0 || startHr > 23 {
      return -1;
    }
    if startMin < 0 || startMin > 59 {
      return -1;
    }
    if tzMode != "Local time" && tzMode != "UTC" {
      return -1;
    }
    if tzMode == "Local time" {
      if !zoneOk {
        return -1;
      }
      r := LocalPath(startHr, startMin, now, offset, fails);
    } else {
      r := UtcPath(startHr, startMin, now);
    }
  }

  /** What the UTC path computes, in terms of slots. */
  function UtcSlot(now: int, s: int): int {
    if s == 0 && now % DAY > 86390 then LeastSlot(now + 1, s, 0) else LeastSlot(now + 10, s, 0)
  }

  /** The UTC path keeps the ten-second distance exactly when the slot is not midnight or the day has more than nine
      seconds left; it always lies ahead and within the next 86409 seconds. */
  lemma UtcSlotKeepsItsDistanceIff(now: int, s: int)
    requires 0 <= s < DAY && s % 60 == 0
    ensures UtcSlot(now, s) == LeastSlot(now + 10, s, 0) <==> !(s == 0 && now % DAY > 86390)
    ensures now < UtcSlot(now, s) <= now + 86409 && IsSlot(UtcSlot(now, s), s, 0)
  {
    LeastSlotIsLeast(now + 1, s, 0, now);
    LeastSlotIsLeast(now + 10, s, 0, now);
    var t := UtcSlot(now, s);
    if s == 0 && now % DAY > 86390 {
      SlotOfDay(now + 1, s, 0, now / DAY + 1);
      assert t == (now / DAY + 1) * DAY && t - now <= 9;
    }
  }

  /** Below 2^31 the conversion to int changes nothing, so both paths return the slot itself. */
  lemma NoTruncationBefore2038(t: int)
    ensures ToInt32(t) == t <==> -0x8000_0000 <= t < 0x8000_0000
  {}
}
