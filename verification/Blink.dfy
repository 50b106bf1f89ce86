/** The LED blink scheduler of `CFrontPanel`: a pattern shown step by step, once and then a number of times again. */
module Blink {
  import opened Wrappers

  datatype FrontPanelBlinkInfo = FrontPanelBlinkInfo(
    ledIndicator: string, brightness: int, durationInMs: int, colorMode: int, colorValue: int, colorName: string)

  type Pattern = seq<FrontPanelBlinkInfo>

  /**
    * The fields of the scheduler, the delay of the pending timer if there is one, every step shown on the LED
    * so far, and how many of them were shown before the current pattern was set.
    */
  datatype Panel = Panel(blinkList: Pattern, isBlinking: bool, numberOfBlinks: int, maxNumberOfBlinkRepeats: int,
                         index: int, pending: Option<int>, shown: Pattern, before: nat)

  datatype Event = SetBlink(pattern: Pattern, iterations: int) | StopBlinkTimer | TimerFires

  const INITIAL := Panel([], false, 0, 0, 0, None, [], 0)

  function Show(p: Panel): Panel
    requires 0 <= p.index < |p.blinkList|
  {
    var info := p.blinkList[p.index];
    p.(shown := p.shown + [info], pending := if p.isBlinking then Some(info.durationInMs) else p.pending)
  }

  function Stopped(p: Panel): Panel { p.(isBlinking := false, pending := None) }

  function Started(p: Panel, repeats: int): Panel {
    var q := p.(numberOfBlinks := 0, isBlinking := true, maxNumberOfBlinkRepeats := repeats, index := 0,
                pending := None);
    if |q.blinkList| > 0 then Show(q) else q
  }

  /** One timer tick; the list has a first element, or the access in the code would fail. */
  function Tick(p: Panel): Panel
    requires p.blinkList != [] && 0 <= p.index
  {
    if p.index + 1 < |p.blinkList| then Show(p.(index := p.index + 1))
    else
      var q := p.(index := 0, numberOfBlinks := p.numberOfBlinks + 1);
      if q.maxNumberOfBlinkRepeats < 0 || q.numberOfBlinks <= q.maxNumberOfBlinkRepeats then Show(q) else q
  }

  /** An event; the timer can only fire while it is pending. */
  function Next(p: Panel, e: Event): Panel
    requires Inv(p)
  {
    match e
    case SetBlink(pattern, iterations) =>
      Started(Stopped(p).(blinkList := pattern, before := |p.shown|), iterations)
    case StopBlinkTimer => Stopped(p)
    case TimerFires => if p.pending.None? then p else Tick(p.(pending := None))
  }

  // ---- Invariant ----

  /** How often the LED is set for a pattern of `n` steps that is shown once and repeated. */
  function Total(n: nat, repeats: int): (t: int)
    ensures repeats >= 0 ==> t >= n
  {
    Multiples(repeats + 1, n);
    n * (repeats + 1)
  }

  /** The first `m` steps of the pattern repeated without end. */
  function Repeated(pattern: Pattern, m: nat): (r: Pattern)
    requires m > 0 ==> pattern != []
    ensures |r| == m
  {
    seq(m, j requires 0 <= j < m => pattern[j % |pattern|])
  }

  /** How often the LED has been set in pass `count` when the step at `index` is shown. */
  function Position(count: int, n: nat, index: int): int { count * n + index + 1 }

  function ShownNow(p: Panel): Pattern
    requires p.before <= |p.shown|
  {
    p.shown[p.before..]
  }

  /** What has been shown since the pattern was set. */
  ghost predicate InPattern(p: Panel)
    requires p.before <= |p.shown|
  {
    var n, m := |p.blinkList|, |p.shown| - p.before;
    && (m > 0 <==> n > 0)
    && ShownNow(p) == Repeated(p.blinkList, m)
    && (p.maxNumberOfBlinkRepeats >= 0 ==> m <= Total(n, p.maxNumberOfBlinkRepeats))
  }

  /** Where the schedule stands: while a tick is pending, and after the last one. */
  predicate OnSchedule(p: Panel)
    requires p.before <= |p.shown|
  {
    var n, m := |p.blinkList|, |p.shown| - p.before;
    && (p.pending.Some? ==>
        && p.isBlinking && 0 <= p.index < n && p.numberOfBlinks >= 0
        && p.pending == Some(p.blinkList[p.index].durationInMs)
        && m == Position(p.numberOfBlinks, n, p.index)
        && (p.maxNumberOfBlinkRepeats >= 0 ==> p.numberOfBlinks <= p.maxNumberOfBlinkRepeats))
    && (p.pending.None? && p.isBlinking ==>
        n == 0 || (p.maxNumberOfBlinkRepeats >= 0 && m == Total(n, p.maxNumberOfBlinkRepeats)))
  }

  ghost predicate Inv(p: Panel) {
    p.before <= |p.shown| && InPattern(p) && OnSchedule(p)
  }

  lemma Multiples(d: int, n: nat)
    ensures d > 0 ==> d * n >= n
    ensures d < 0 ==> d * n <= 0 - n
  {}

  lemma Remainder(q: nat, n: nat, r: nat)
    requires r < n
    ensures (q * n + r) % n == r
  {
    var x := q * n + r;
    assert x == x / n * n + x % n;
    assert (x / n - q) * n == x / n * n - q * n;
    Multiples(x / n - q, n);
  }

  /** Showing the step the counters point at continues the pattern. */
  lemma ShowContinues(p: Panel)
    requires p.before <= |p.shown| && 0 <= p.index < |p.blinkList| && p.numberOfBlinks >= 0
    requires ShownNow(p) == Repeated(p.blinkList, |p.shown| - p.before)
    requires |p.shown| - p.before + 1 == Position(p.numberOfBlinks, |p.blinkList|, p.index)
    ensures ShownNow(Show(p)) == Repeated(p.blinkList, |p.shown| - p.before + 1)
  {
    var m := |p.shown| - p.before;
    Remainder(p.numberOfBlinks, |p.blinkList|, p.index);
    assert ShownNow(Show(p)) == ShownNow(p) + [p.blinkList[p.index]];
    assert Repeated(p.blinkList, m + 1) == Repeated(p.blinkList, m) + [p.blinkList[m % |p.blinkList|]];
  }

  lemma SetKeeps(p: Panel, pattern: Pattern, iterations: int)
    requires Inv(p)
    ensures Inv(Next(p, SetBlink(pattern, iterations)))
  {
    var q := Stopped(p).(blinkList := pattern, before := |p.shown|, numberOfBlinks := 0, isBlinking := true,
                         maxNumberOfBlinkRepeats := iterations, index := 0);
    if pattern != [] {
      ShowContinues(q);
    }
  }

  /** Passes done and steps of the current one never add up to more than all the passes. */
  lemma StepsFit(count: nat, n: nat, index: nat, repeats: nat)
    requires index < n && count <= repeats
    ensures Position(count, n, index) <= Total(n, repeats)
    ensures count == repeats && index + 1 == n ==> Position(count, n, index) == Total(n, repeats)
  {
    assert (repeats - count) * n >= 0;
    assert n * (repeats + 1) == count * n + (repeats - count) * n + n;
  }

  lemma NextPosition(count: int, n: nat, index: int)
    ensures Position(count, n, index + 1) == Position(count, n, index) + 1
    ensures index + 1 == n ==> Position(count + 1, n, 0) == Position(count, n, index) + 1
  {
    assert (count + 1) * n == count * n + n;
  }

  lemma StepKeeps(p: Panel)
    requires Inv(p) && p.pending.Some? && p.index + 1 < |p.blinkList|
    ensures Inv(Next(p, TimerFires))
  {
    hide Total;
    hide Position;
    hide Repeated;
    NextPosition(p.numberOfBlinks, |p.blinkList|, p.index);
    ShowContinues(p.(pending := None, index := p.index + 1));
    if p.maxNumberOfBlinkRepeats >= 0 {
      StepsFit(p.numberOfBlinks, |p.blinkList|, p.index + 1, p.maxNumberOfBlinkRepeats);
    }
  }

  lemma PassKeeps(p: Panel)
    requires Inv(p) && p.pending.Some? && p.index + 1 == |p.blinkList|
    ensures Inv(Next(p, TimerFires))
  {
    hide Total;
    hide Position;
    hide Repeated;
    var n, count, repeats := |p.blinkList|, p.numberOfBlinks, p.maxNumberOfBlinkRepeats;
    NextPosition(count, n, p.index);
    ShowContinues(p.(pending := None, index := 0, numberOfBlinks := count + 1));
    if repeats >= 0 {
      StepsFit(count, n, p.index, repeats);
      if count < repeats {
        StepsFit(count + 1, n, 0, repeats);
      }
    }
  }

  lemma TickKeeps(p: Panel)
    requires Inv(p)
    ensures Inv(Next(p, TimerFires))
  {
    if p.pending.Some? {
      if p.index + 1 < |p.blinkList| {
        StepKeeps(p);
      } else {
        PassKeeps(p);
      }
    }
  }

  lemma NextKeeps(p: Panel, e: Event)
    requires Inv(p)
    ensures Inv(Next(p, e))
  {
    match e
    case SetBlink(pattern, iterations) => SetKeeps(p, pattern, iterations);
    case StopBlinkTimer =>
    case TimerFires => TickKeeps(p);
  }

  // ---- Runs ----

  function Run(p: Panel, events: seq<Event>): (q: Panel)
    requires Inv(p)
    ensures Inv(q)
    decreases |events|
  {
    if events == [] then p
    else
      NextKeeps(p, events[0]);
      Run(Next(p, events[0]), events[1..])
  }

  /**
    * Whatever patterns are set, stopped or left to run, with any number of repeats, the list access of a tick
    * is in range, and the steps shown since the pattern was set are its beginning, repeated in order.
    */
  lemma TicksStayInRange(events: seq<Event>)
    ensures Inv(INITIAL)
    ensures var p := Run(INITIAL, events);
      && p.before <= |p.shown|
      && (p.pending.Some? ==> 0 <= p.index < |p.blinkList|)
      && forall j :: p.before <= j < |p.shown| ==>
        p.blinkList != [] && p.shown[j] == p.blinkList[(j - p.before) % |p.blinkList|]
  {
    assert Inv(INITIAL) by {
      assert ShownNow(INITIAL) == [];
    }
    var p := Run(INITIAL, events);
    forall j | p.before <= j < |p.shown|
      ensures p.blinkList != [] && p.shown[j] == p.blinkList[(j - p.before) % |p.blinkList|]
    {
      assert p.shown[j] == ShownNow(p)[j - p.before];
    }
  }

  /** The pending timer runs for as long as the step shown last asks for. */
  lemma StepLastsItsDuration(p: Panel)
    requires Inv(p) && p.pending.Some?
    ensures p.before < |p.shown| && p.pending == Some(p.shown[|p.shown| - 1].durationInMs)
  {
    hide Total;
    var n, m := |p.blinkList|, |p.shown| - p.before;
    var q: nat, r: nat := p.numberOfBlinks, p.index;
    Remainder(q, n, r);
    assert q * n >= 0;
    assert p.shown[|p.shown| - 1] == ShownNow(p)[m - 1];
    assert m - 1 == q * n + r;
  }

  /** `m` expiries of the timer in a row, with nothing else happening. */
  function Fires(p: Panel, m: nat): (q: Panel)
    requires Inv(p)
    ensures Inv(q)
  {
    if m == 0 then p
    else
      var before := Fires(p, m - 1);
      TickKeeps(before);
      Next(before, TimerFires)
  }

  /** One expiry shows one more step and waits again, or finds that all repeats have been shown. */
  lemma OneExpiry(p: Panel)
    requires Inv(p) && p.blinkList != [] && p.isBlinking
    ensures var q := Next(p, TimerFires);
      && q.blinkList == p.blinkList && q.isBlinking
      && q.maxNumberOfBlinkRepeats == p.maxNumberOfBlinkRepeats && q.before == p.before
      && |p.shown| <= |q.shown| && q.shown[..p.before] == p.shown[..p.before]
      && if p.pending.None? || (p.maxNumberOfBlinkRepeats >= 0 &&
              |p.shown| - p.before == Total(|p.blinkList|, p.maxNumberOfBlinkRepeats))
         then q.pending.None? && q.shown == p.shown
         else q.pending.Some? && |q.shown| == |p.shown| + 1
  {
    TickKeeps(p);
  }

  /** How many steps `m` expiries after the first step have shown. */
  function StepsShown(n: nat, iterations: int, m: nat): nat {
    if iterations >= 0 && m >= Total(n, iterations) then Total(n, iterations) else m + 1
  }

  /** What the first step leaves, and what every expiry keeps of it. */
  ghost predicate Playing(q: Panel, before: Pattern, pattern: Pattern, iterations: int) {
    && q.blinkList == pattern && q.isBlinking && q.maxNumberOfBlinkRepeats == iterations
    && q.before == |before| <= |q.shown| && q.shown[..q.before] == before
  }

  lemma FirstStep(p: Panel, pattern: Pattern, iterations: int)
    requires Inv(p) && pattern != []
    ensures Inv(Next(p, SetBlink(pattern, iterations)))
    ensures var q := Next(p, SetBlink(pattern, iterations));
      Playing(q, p.shown, pattern, iterations) && |q.shown| == |p.shown| + 1 && q.pending.Some?
  {
    SetKeeps(p, pattern, iterations);
  }

  lemma {:induction false} Counts(q: Panel, before: Pattern, pattern: Pattern, iterations: int, m: nat)
    requires Inv(q) && Playing(q, before, pattern, iterations) && pattern != []
    requires q.pending.Some? && |q.shown| == |before| + 1
    ensures var r := Fires(q, m);
      && Playing(r, before, pattern, iterations)
      && |r.shown| == |before| + StepsShown(|pattern|, iterations, m)
      && (r.pending.Some? <==> iterations < 0 || m < Total(|pattern|, iterations))
  {
    hide Total;
    if m > 0 {
      Counts(q, before, pattern, iterations, m - 1);
      hide Inv;
      hide Next;
      OneExpiry(Fires(q, m - 1));
    }
  }

  /**
    * A pattern of `n` steps left alone: the j-th step shown is `pattern[j % n]`; with `iterations >= 0` exactly
    * `n * (iterations + 1)` steps are shown, and then nothing is scheduled; otherwise it goes on for ever.
    */
  lemma Timeline(p: Panel, pattern: Pattern, iterations: int, m: nat)
    requires Inv(p) && pattern != []
    ensures Inv(Next(p, SetBlink(pattern, iterations)))
    ensures var q := Fires(Next(p, SetBlink(pattern, iterations)), m);
      && q.shown == p.shown + Repeated(pattern, StepsShown(|pattern|, iterations, m))
      && (q.pending.Some? <==> iterations < 0 || m < Total(|pattern|, iterations))
  {
    hide Next;
    FirstStep(p, pattern, iterations);
    var start := Next(p, SetBlink(pattern, iterations));
    Counts(start, p.shown, pattern, iterations, m);
    var q := Fires(start, m);
    assert q.shown == q.shown[..q.before] + ShownNow(q);
  }

  lemma TotalIs(n: nat, repeats: nat)
    ensures Total(n, repeats) == n * (repeats + 1)
  {}

  lemma LastOfAll(n: nat, repeats: nat)
    requires n > 0
    ensures (Total(n, repeats) - 1) % n == n - 1
  {
    Remainder(repeats, n, n - 1);
    assert Total(n, repeats) - 1 == repeats * n + (n - 1);
  }

  /** With no stop, the LED rests on the last step of the pattern, as the comment at the end of the handler says. */
  lemma RestsOnTheLastStep(p: Panel, pattern: Pattern, iterations: nat, m: nat)
    requires Inv(p) && pattern != [] && m >= |pattern| * (iterations + 1)
    ensures Inv(Next(p, SetBlink(pattern, iterations)))
    ensures var q := Fires(Next(p, SetBlink(pattern, iterations)), m);
      && q.pending.None? && |q.shown| == |p.shown| + |pattern| * (iterations + 1)
      && q.shown[|q.shown| - 1] == pattern[|pattern| - 1]
  {
    TotalIs(|pattern|, iterations);
    hide Total;
    hide Next;
    hide Inv;
    hide Fires;
    Timeline(p, pattern, iterations, m);
    LastOfAll(|pattern|, iterations);
  }

  /** After a stop nothing more is shown until a pattern is set. */
  lemma {:induction false} StopIsFinal(p: Panel, m: nat)
    requires Inv(p)
    ensures Inv(Stopped(p)) && Fires(Stopped(p), m) == Stopped(p)
  {
    if m > 0 {
      StopIsFinal(p, m - 1);
    }
  }

  // ---- The object ----

  class FrontPanel {
    var blinkList: Pattern
    var isBlinking: bool
    var numberOfBlinks: int
    var maxNumberOfBlinkRepeats: int
    var currentBlinkListIndex: int
    var timer: Option<int>
    var shown: Pattern
    ghost var before: nat

    ghost function View(): Panel
      reads this
    {
      Panel(blinkList, isBlinking, numberOfBlinks, maxNumberOfBlinkRepeats, currentBlinkListIndex, timer, shown, before)
    }

    constructor ()
      ensures View() == INITIAL
    {
      blinkList, isBlinking, numberOfBlinks, maxNumberOfBlinkRepeats, currentBlinkListIndex := [], false, 0, 0, 0;
      timer, shown, before := None, [], 0;
    }

    method SetBlinkLed(info: FrontPanelBlinkInfo)
      modifies `shown
      ensures shown == old(shown) + [info]
    {
      shown := shown + [info];
    }

    method StopBlinkTimer()
      modifies this
      ensures View() == Stopped(old(View()))
    {
      isBlinking := false;
      timer := None;
    }

    method StartBlinkTimer(numberOfBlinkRepeats: int)
      modifies this
      ensures View() == Started(old(View()), numberOfBlinkRepeats)
    {
      StopBlinkTimer();
      numberOfBlinks := 0;
      isBlinking := true;
      maxNumberOfBlinkRepeats := numberOfBlinkRepeats;
      currentBlinkListIndex := 0;
      if |blinkList| > 0 {
        var blinkInfo := blinkList[0];
        SetBlinkLed(blinkInfo);
        if isBlinking {
          timer := Some(blinkInfo.durationInMs);
        }
      }
    }

    /** The steps are appended one by one, as they are read from the request. */
    method SetBlink(patternList: array<FrontPanelBlinkInfo>, iterations: int)
      requires Inv(View())
      modifies this
      ensures View() == Next(old(View()), Event.SetBlink(patternList[..], iterations)) && Inv(View())
    {
      SetKeeps(View(), patternList[..], iterations);
      StopBlinkTimer();
      blinkList := [];
      for i := 0 to patternList.Length
        invariant View() == Stopped(old(View())).(blinkList := patternList[..i])
      {
        blinkList := blinkList + [patternList[i]];
        assert patternList[..i + 1] == patternList[..i] + [patternList[i]];
      }
      assert patternList[..patternList.Length] == patternList[..];
      before := |shown|;
      StartBlinkTimer(iterations);
    }

    /** An expiry: the timer forgets its entry and calls the handler. */
    method OnBlinkTimer()
      requires Inv(View()) && timer.Some?
      modifies this
      ensures View() == Next(old(View()), TimerFires) && Inv(View())
    {
      TickKeeps(View());
      timer := None;
      currentBlinkListIndex := currentBlinkListIndex + 1;
      var blinkAgain := true;
      if currentBlinkListIndex >= |blinkList| {
        blinkAgain := false;
        currentBlinkListIndex := 0;
        numberOfBlinks := numberOfBlinks + 1;
        if maxNumberOfBlinkRepeats < 0 || numberOfBlinks <= maxNumberOfBlinkRepeats {
          blinkAgain := true;
        }
      }
      if blinkAgain {
        var blinkInfo := blinkList[currentBlinkListIndex];
        SetBlinkLed(blinkInfo);
        if isBlinking {
          timer := Some(blinkInfo.durationInMs);
        }
      }
    }
  }
}
