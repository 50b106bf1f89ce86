/** The installation progress callback: which states it publishes, for any sequence of callbacks. */
module PackagerProgress {
  import opened Wrappers
  import opened PackagerProtocol
  import opened PackagerSafety

  datatype Action = DownloadAction | InstallAction | OtherAction

  datatype Callback = Callback(action: Action, percentage: nat)

  /** The states one callback sets and publishes, in order, when the stored state is `st`. */
  function Published(st: InstallState, c: Callback): seq<InstallState> {
    var arrived := if c.action == InstallAction && st == DOWNLOADING then [DOWNLOADED] else [];
    var phase :=
      match c.action
      case DownloadAction => if st != DOWNLOADING then [DOWNLOADING] else []
      case InstallAction => if st != INSTALLING then [INSTALLING] else []
      case OtherAction => [];
    var end := if c.percentage == 100 then [INSTALLED] else [];
    arrived + phase + end
  }

  function Last(st: InstallState, published: seq<InstallState>): InstallState {
    if published == [] then st else published[|published| - 1]
  }

  /** All the states published by the callbacks of one installation, which starts in IDLE. */
  function AllPublished(cs: seq<Callback>): seq<InstallState> {
    if cs == [] then []
    else
      var before := AllPublished(cs[..|cs| - 1]);
      before + Published(Last(IDLE, before), cs[|cs| - 1])
  }

  /** The state stored after the callbacks. */
  function Stored(cs: seq<Callback>): InstallState {
    if cs == [] then IDLE
    else
      var st := Stored(cs[..|cs| - 1]);
      Last(st, Published(st, cs[|cs| - 1]))
  }

  predicate OrderlyAt(p: seq<InstallState>, k: nat)
    requires k < |p|
  {
    && (p[k] == DOWNLOADED ==> 0 < k && p[k - 1] == DOWNLOADING && k + 1 < |p| && p[k + 1] == INSTALLING)
    && (p[k] == DOWNLOADING && k + 1 < |p| ==> p[k + 1] != INSTALLING)
  }

  /** DOWNLOADED stands between DOWNLOADING and INSTALLING, and DOWNLOADING is not followed by INSTALLING at once. */
  predicate Orderly(p: seq<InstallState>) {
    forall k :: 0 <= k < |p| ==> OrderlyAt(p, k)
  }

  lemma OrderlyStep(before: seq<InstallState>, c: Callback)
    requires Orderly(before)
    ensures Orderly(before + Published(Last(IDLE, before), c))
  {
    var r := Published(Last(IDLE, before), c);
    var p := before + r;
    forall k | 0 <= k < |p| ensures OrderlyAt(p, k) {
      if k < |before| {
        assert OrderlyAt(before, k);
      }
    }
  }

  /** For every sequence of callbacks: the published states are orderly, the last of them is the stored state, and a
      callback at 100 percent leaves INSTALLED. */
  lemma {:induction false} ProgressIsOrderly(cs: seq<Callback>)
    ensures Orderly(AllPublished(cs))
    ensures Last(IDLE, AllPublished(cs)) == Stored(cs)
    ensures |cs| > 0 && cs[|cs| - 1].percentage == 100 ==> Stored(cs) == INSTALLED
  {
    if cs != [] {
      var past := cs[..|cs| - 1];
      ProgressIsOrderly(past);
      OrderlyStep(AllPublished(past), cs[|cs| - 1]);
    }
  }

  /** The state a callback below 100 percent leaves stored: its own phase, if it has one. */
  predicate LeavesPhase(before: InstallState, action: Action, after: InstallState) {
    && (action == DownloadAction ==> after == DOWNLOADING)
    && (action == InstallAction ==> after == INSTALLING)
    && (action == OtherAction ==> after == before)
  }

  /** What the last of any sequence of callbacks does. Below 100 percent it leaves the phase it reports stored, and
      publishes nothing exactly if that was stored already; an install callback that finds DOWNLOADING publishes
      DOWNLOADED first, and no other callback publishes anything but its phase. At 100 percent it publishes what it
      would below, and INSTALLED after it. */
  lemma LastCallbackPublishes(cs: seq<Callback>)
    requires cs != []
    ensures var past, c, st := cs[..|cs| - 1], cs[|cs| - 1], Stored(cs[..|cs| - 1]);
      var before, all := AllPublished(past), AllPublished(cs);
      && before <= all
      && (c.percentage != 100 ==>
            && LeavesPhase(st, c.action, Stored(cs))
            && (all == before <==> Stored(cs) == st)
            && (c.action == InstallAction && st == DOWNLOADING ==> all == before + [DOWNLOADED, INSTALLING])
            && (c.action != InstallAction || st != DOWNLOADING ==> all == before || all == before + [Stored(cs)]))
      && (c.percentage == 100 ==>
            && Stored(cs) == INSTALLED
            && all == AllPublished(past + [c.(percentage := 0)]) + [INSTALLED])
  {
    var past, c := cs[..|cs| - 1], cs[|cs| - 1];
    OneMoreCallback(past, c);
    OneMoreCallback(past, c.(percentage := 0));
    assert cs == past + [c];
    BelowTheEnd(Stored(past), c.(percentage := 0));
    BelowTheEnd(Stored(past), c);
    hide AllPublished, Stored, Published;
  }

  lemma OneMoreCallback(past: seq<Callback>, c: Callback)
    ensures AllPublished(past + [c]) == AllPublished(past) + Published(Stored(past), c)
    ensures Stored(past + [c]) == Last(Stored(past), Published(Stored(past), c))
  {
    assert (past + [c])[..|past + [c]| - 1] == past;
    ProgressIsOrderly(past);
    hide Published;
  }

  lemma BelowTheEnd(st: InstallState, c: Callback)
    ensures c.percentage == 100 ==> Published(st, c) == Published(st, c.(percentage := 0)) + [INSTALLED]
    ensures c.percentage != 100 ==>
      var p := Published(st, c);
      && LeavesPhase(st, c.action, Last(st, p))
      && (p == [] <==> Last(st, p) == st)
      && (c.action == InstallAction && st == DOWNLOADING ==> p == [DOWNLOADED, INSTALLING])
      && (c.action != InstallAction || st != DOWNLOADING ==> p == [] || p == [Last(st, p)])
  {}

  /** Setting and publishing states one after the other, as steps of the protocol. */
  function Announce(s: State, states: seq<InstallState>): State {
    if states == [] then s
    else
      var s1 := Announce(s, states[..|states| - 1]);
      NotifyStep(ChangeStep(s1, SetState(states[|states| - 1])))
  }

  lemma NothingAnnounced(s: State)
    ensures Announce(s, []) == s
  {}

  lemma OneMoreAnnounced(s: State, states: seq<InstallState>, st: InstallState)
    ensures Announce(s, states + [st]) == NotifyStep(ChangeStep(Announce(s, states), SetState(st)))
  {
    hide NotifyStep, ChangeStep;
    assert (states + [st])[..|states + [st]| - 1] == states;
  }

  /** Announcing is an execution of enabled protocol steps, two for each state, and keeps the invariant. */
  lemma {:induction false} AnnounceIsExecution(s: State, announced: seq<InstallState>)
    returns (states: seq<State>, steps: seq<Step>)
    requires Inv(s) && s.pc == Installing && s.install.Some? && IDLE !in announced
    ensures IsExecution(states, steps) && states[0] == s && |steps| == 2 * |announced|
    ensures states[|steps|] == Announce(s, announced) && Inv(Announce(s, announced))
    ensures Announce(s, announced).pc == Installing && Announce(s, announced).install.Some?
  {
    hide Inv, Next, Enabled;
    if announced == [] {
      states, steps := [s], [];
    } else {
      var n := |announced| - 1;
      states, steps := AnnounceIsExecution(s, announced[..n]);
      var change := ChangeInfo(SetState(announced[n]));
      var s1 := Announce(s, announced[..n]);
      OneAnnouncement(s1, announced[n]);
      var s2 := Next(s1, change);
      states, steps := states + [s2, Next(s2, Notify)], steps + [change, Notify];
    }
  }

  lemma OneAnnouncement(s: State, st: InstallState)
    requires Inv(s) && s.pc == Installing && s.install.Some? && st != IDLE
    ensures Enabled(s, ChangeInfo(SetState(st))) && Enabled(Next(s, ChangeInfo(SetState(st))), Notify)
    ensures var r := Next(Next(s, ChangeInfo(SetState(st))), Notify);
      r == NotifyStep(ChangeStep(s, SetState(st))) && Inv(r) && r.pc == Installing && r.install.Some?
  {
    hide Inv, Deliver;
    StepKeeps(s, ChangeInfo(SetState(st)));
    StepKeeps(Next(s, ChangeInfo(SetState(st))), Notify);
  }

  /** The states as reports with the same error code. */
  function Reports(states: seq<InstallState>, error: nat): seq<Report> {
    seq(|states|, i requires 0 <= i < |states| => Report(states[i], error))
  }

  /** Announcing publishes exactly those states. */
  lemma {:induction false} AnnouncePublishes(s: State, states: seq<InstallState>)
    requires s.pc == Installing && s.install.Some? && IDLE !in states
    ensures var r := Announce(s, states);
      && r.pc == Installing && r.install.Some?
      && r.install.value == Report(Last(s.install.value.state, states), s.install.value.error)
      && r.published == s.published + Reports(states, s.install.value.error)
  {
    if states != [] {
      var n := |states| - 1;
      AnnouncePublishes(s, states[..n]);
      var s1 := Announce(s, states[..n]);
      assert states[n] != IDLE && Enabled(s1, ChangeInfo(SetState(states[n])));
      var error := s.install.value.error;
      assert Reports(states, error) == Reports(states[..n], error) + [Report(states[n], error)];
    }
  }
}
