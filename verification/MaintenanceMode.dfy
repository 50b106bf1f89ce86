/** The maintenance mode and the opt-out choice: `setMaintenanceMode`, `getMaintenanceMode` and bootup, over the
    settings file. File writes are taken to succeed. */
module MaintenanceMode {
  import opened Wrappers
  import opened SettingsFile
  import opened Settings

  const FOREGROUND_MODE := "FOREGROUND"
  const BACKGROUND_MODE := "BACKGROUND"
  const OPTOUT_KEY := "softwareoptout"
  const FLAG_KEY := "background_flag"
  const TIME_KEY := "LastSuccessfulCompletionTime"

  predicate ValidMode(m: string) { m == FOREGROUND_MODE || m == BACKGROUND_MODE }

  predicate ValidOptOut(o: string) {
    o == "ENFORCE_OPTOUT" || o == "BYPASS_OPTOUT" || o == "IGNORE_UPDATE" || o == "NONE"
  }

  predicate Plain(s: string) { EQ !in s && NEWLINE !in s }

  /** Text the file format carries faithfully. */
  ghost predicate PlainData(m: Data) { forall k :: k in m ==> Plain(k) && Plain(m[k]) }

  /** The parameters of setMaintenanceMode, with the status and the outcome of the event broadcast it meets. */
  datatype Request =
    | SetMode(mode: Option<string>, optOut: Option<string>, trigger: Option<string>, inProgress: bool, eventSent: bool)
    | CycleCompleted(time: string)

  datatype State = State(mode: string, trigger: string, data: Data, file: string)

  /** The file holds the settings, in some order. */
  ghost predicate Saved(data: Data, file: string) {
    exists order :: Enumerates(order, data) && file == Render(order, data)
  }

  function Flag(mode: string): string { if mode == BACKGROUND_MODE then "true" else "false" }

  /** A request whose labels are there and whose mode is one of the two. */
  predicate Heard(r: Request) { r.SetMode? && r.mode.Some? && r.optOut.Some? && ValidMode(r.mode.value) }

  predicate ChangesMode(r: Request) { Heard(r) && (!r.inProgress || r.eventSent) }

  predicate ChangesOptOut(r: Request) { Heard(r) && ValidOptOut(r.optOut.value) }

  function WithMode(d: Data, mode: string, changes: bool): Data {
    if changes then d[FLAG_KEY := Flag(mode)] else d
  }

  function DataAfter(d: Data, r: Request): Data {
    if r.CycleCompleted? then d[TIME_KEY := r.time]
    else
      var d1 := if Heard(r) then WithMode(d, r.mode.value, ChangesMode(r)) else d;
      if ChangesOptOut(r) then d1[OPTOUT_KEY := r.optOut.value] else d1
  }

  predicate Writes(r: Request) { r.CycleCompleted? || ChangesMode(r) || ChangesOptOut(r) }

  function TriggerOf(r: Request): string
    requires r.SetMode?
  {
    if r.trigger.Some? then r.trigger.value else ""
  }

  ghost predicate Next(s: State, r: Request, t: State) {
    && t.data == DataAfter(s.data, r)
    && (if Writes(r) then Saved(t.data, t.file) else t.file == s.file)
    && t.mode == (if ChangesMode(r) then r.mode.value else s.mode)
    && t.trigger == (if Heard(r) then TriggerOf(r) else s.trigger)
  }

  /** Completion times are written as decimal digits. */
  predicate RequestOk(r: Request) { r.CycleCompleted? ==> Plain(r.time) }

  function StoredOptOut(d: Data): string { if OPTOUT_KEY in d then d[OPTOUT_KEY] else "" }

  /** The opt-out choice after bootup. */
  function FirstOptOut(d: Data): string {
    if ValidOptOut(StoredOptOut(d)) then StoredOptOut(d) else "NONE"
  }

  /** The state bootup makes of a settings object `d` over a file that holds `text`. */
  ghost predicate BootedFrom(d: Data, text: string, s: State) {
    && s.mode == FOREGROUND_MODE && s.trigger == ""
    && if ValidOptOut(StoredOptOut(d)) then s.data == d && s.file == text
       else s.data == d[OPTOUT_KEY := "NONE"] && Saved(s.data, s.file)
  }

  /** Bootup after the file has been read. */
  ghost predicate Booted(text: string, s: State) {
    BootedFrom(ReadFile(text, map[]), text, s)
  }

  function GetMode(s: State): Option<(string, string, string)> {
    if !ValidMode(s.mode) then None
    else match ParseConfigFile(s.file, OPTOUT_KEY)
      case Some(o) => if ValidOptOut(o) then Some((s.mode, s.trigger, o)) else None
      case None => None
  }

  // ---- What was accepted last, read off the requests ----

  function LastMode(past: seq<Request>): string {
    if past == [] then FOREGROUND_MODE
    else
      var r := past[|past| - 1];
      if ChangesMode(r) then r.mode.value else LastMode(past[..|past| - 1])
  }

  function LastTrigger(past: seq<Request>): string {
    if past == [] then ""
    else
      var r := past[|past| - 1];
      if Heard(r) then TriggerOf(r) else LastTrigger(past[..|past| - 1])
  }

  /** `first` is the choice at bootup. */
  function LastOptOut(past: seq<Request>, first: string): string {
    if past == [] then first
    else
      var r := past[|past| - 1];
      if ChangesOptOut(r) then r.optOut.value else LastOptOut(past[..|past| - 1], first)
  }

  predicate ModeChanged(past: seq<Request>) {
    exists k :: 0 <= k < |past| && ChangesMode(past[k])
  }

  ghost predicate Inv(s: State, past: seq<Request>, first: string) {
    && ValidMode(s.mode) && s.mode == LastMode(past) && s.trigger == LastTrigger(past)
    && OPTOUT_KEY in s.data && s.data[OPTOUT_KEY] == LastOptOut(past, first) && ValidOptOut(LastOptOut(past, first))
    && PlainData(s.data) && Saved(s.data, s.file)
    && (ModeChanged(past) ==> FLAG_KEY in s.data && s.data[FLAG_KEY] == Flag(s.mode))
  }

  /** A file the settings object wrote is still a file it would write after reading it back. */
  lemma ReadBackIsSaved(m: Data, text: string)
    requires PlainData(m) && Saved(m, text)
    ensures Saved(ReadFile(text, map[]), text) && PlainData(ReadFile(text, map[]))
  {
    hide Plain;
    var order :| Enumerates(order, m) && text == Render(order, m);
    PlainMeans(m);
    RoundTripIff(order, m);
    var kept := RenderedByNonEmpty(order, m);
    assert ReadFile(text, map[]) == NonEmpty(m);
  }

  lemma PlainMeans(m: Data)
    requires PlainData(m)
    ensures OneLineText(m) && forall k :: k in m ==> EQ !in k && EQ !in m[k]
  {}

  lemma BootInv(m: Data, text: string, s: State)
    requires PlainData(m) && Saved(m, text) && Booted(text, s)
    ensures Inv(s, [], FirstOptOut(ReadFile(text, map[])))
  {
    hide Saved, Plain, ReadFile;
    ReadBackIsSaved(m, text);
    PlainOptOutKey();
    PlainOptOut("NONE");
  }

  lemma PlainOptOutKey()
    ensures Plain(OPTOUT_KEY)
  {}

  lemma PlainFlagKey()
    ensures Plain(FLAG_KEY)
  {}

  lemma PlainTimeKey()
    ensures Plain(TIME_KEY)
  {}

  lemma FlagIs(mode: string)
    ensures Flag(mode) == "true" <==> mode == BACKGROUND_MODE
    ensures Flag(mode) == "false" <==> mode != BACKGROUND_MODE
  {
    assert "true"[0] != "false"[0];
  }

  lemma PlainFlag(m: string)
    ensures Plain(Flag(m))
  {
    assert Plain("true") && Plain("false");
  }

  lemma PlainOptOut(o: string)
    requires ValidOptOut(o)
    ensures Plain(o)
  {}

  lemma PlainDataAfter(d: Data, r: Request)
    requires PlainData(d) && RequestOk(r)
    ensures PlainData(DataAfter(d, r))
  {
    PlainOptOutKey();
    PlainFlagKey();
    PlainTimeKey();
    if ChangesMode(r) { PlainFlag(r.mode.value); }
    if ChangesOptOut(r) { PlainOptOut(r.optOut.value); }
    hide Plain, Flag, ValidOptOut, ValidMode;
  }

  lemma DataAfterHolds(d: Data, r: Request)
    ensures var e := DataAfter(d, r);
      && (ChangesMode(r) ==> FLAG_KEY in e && e[FLAG_KEY] == Flag(r.mode.value))
      && (!ChangesMode(r) && FLAG_KEY in d ==> FLAG_KEY in e && e[FLAG_KEY] == d[FLAG_KEY])
      && (ChangesOptOut(r) ==> OPTOUT_KEY in e && e[OPTOUT_KEY] == r.optOut.value)
      && (!ChangesOptOut(r) && OPTOUT_KEY in d ==> OPTOUT_KEY in e && e[OPTOUT_KEY] == d[OPTOUT_KEY])
  {
    KeysDiffer();
    hide Flag, ValidOptOut, ValidMode;
  }

  lemma AcceptedIff(r: Request)
    requires r.SetMode?
    ensures ChangesOptOut(r) <==>
      && (r.mode == Some("FOREGROUND") || r.mode == Some("BACKGROUND"))
      && r.optOut in {Some("ENFORCE_OPTOUT"), Some("BYPASS_OPTOUT"), Some("IGNORE_UPDATE"), Some("NONE")}
  {}

  lemma DataAfterIs(d: Data, r: Request)
    requires r.SetMode?
    ensures !Heard(r) ==> DataAfter(d, r) == d
    ensures Heard(r) ==>
      var d1 := WithMode(d, r.mode.value, !r.inProgress || r.eventSent);
      DataAfter(d, r) == if ValidOptOut(r.optOut.value) then d1[OPTOUT_KEY := r.optOut.value] else d1
  {}

  lemma OneMoreRequest(past: seq<Request>, r: Request, first: string)
    ensures LastMode(past + [r]) == if ChangesMode(r) then r.mode.value else LastMode(past)
    ensures LastTrigger(past + [r]) == if Heard(r) then TriggerOf(r) else LastTrigger(past)
    ensures LastOptOut(past + [r], first) == if ChangesOptOut(r) then r.optOut.value else LastOptOut(past, first)
    ensures ModeChanged(past + [r]) <==> ModeChanged(past) || ChangesMode(r)
  {
    hide ChangesMode, ChangesOptOut, Heard;
    assert (past + [r])[..|past + [r]| - 1] == past;
    if ModeChanged(past) {
      var k :| 0 <= k < |past| && ChangesMode(past[k]);
      assert ChangesMode((past + [r])[k]);
    }
    if ChangesMode(r) {
      assert ChangesMode((past + [r])[|past|]);
    }
  }

  lemma NextKeeps(s: State, r: Request, t: State, past: seq<Request>, first: string)
    requires Inv(s, past, first) && RequestOk(r) && Next(s, r, t)
    ensures Inv(t, past + [r], first)
  {
    hide DataAfter, PlainData, Saved, Flag, LastMode, LastTrigger, LastOptOut, ModeChanged;
    PlainDataAfter(s.data, r);
    DataAfterHolds(s.data, r);
    OneMoreRequest(past, r, first);
    if !Writes(r) {
      NothingWritten(s.data, r);
    }
  }

  lemma NothingWritten(d: Data, r: Request)
    requires !Writes(r)
    ensures DataAfter(d, r) == d
  {}

  lemma KeysDiffer()
    ensures OPTOUT_KEY != FLAG_KEY && OPTOUT_KEY != TIME_KEY && FLAG_KEY != TIME_KEY
  {
    assert OPTOUT_KEY[0] != FLAG_KEY[0] && OPTOUT_KEY[0] != TIME_KEY[0] && FLAG_KEY[0] != TIME_KEY[0];
  }

  /** On a saved file of plain text, looking a key up in the file is looking it up in the settings. */
  lemma FileHoldsTheData(data: Data, file: string, key: string)
    requires PlainData(data) && Saved(data, file)
    ensures ParseConfigFile(file, key) == if Contains(data, key) then Some(data[key]) else None
  {
    var order :| Enumerates(order, data) && file == Render(order, data);
    LinesOfRender(order, data);
    FoundIsThere(order, data, key);
  }

  ghost predicate IsRun(text: string, states: seq<State>, requests: seq<Request>) {
    && |states| == |requests| + 1 && Booted(text, states[0])
    && forall k :: 0 <= k < |requests| ==> RequestOk(requests[k]) && Next(states[k], requests[k], states[k + 1])
  }

  lemma {:induction false} RunKeeps(m: Data, text: string, states: seq<State>, requests: seq<Request>, k: nat)
    requires PlainData(m) && Saved(m, text) && IsRun(text, states, requests) && k < |states|
    ensures Inv(states[k], requests[..k], FirstOptOut(ReadFile(text, map[])))
  {
    hide Inv, Next, Booted, PlainData, Saved, ReadFile, FirstOptOut;
    if k == 0 {
      BootInv(m, text, states[0]);
    } else {
      RunKeeps(m, text, states, requests, k - 1);
      NextKeeps(states[k - 1], requests[k - 1], states[k], requests[..k - 1], FirstOptOut(ReadFile(text, map[])));
      assert requests[..k] == requests[..k - 1] + [requests[k - 1]];
    }
  }

  /** After bootup from a file the settings object wrote, whatever requests follow: getMaintenanceMode succeeds and
      answers the values accepted last, and once the mode was changed the background flag on file agrees with it. */
  lemma GetModeAnswersWhatWasAccepted(m: Data, text: string, states: seq<State>, requests: seq<Request>, k: nat)
    requires PlainData(m) && Saved(m, text)
    requires IsRun(text, states, requests) && k < |states|
    ensures var past := requests[..k];
      && GetMode(states[k]) ==
           Some((LastMode(past), LastTrigger(past), LastOptOut(past, FirstOptOut(ReadFile(text, map[])))))
      && ParseConfigFile(states[k].file, "softwareoptout") ==
           Some(LastOptOut(past, FirstOptOut(ReadFile(text, map[]))))
      && (ModeChanged(past) ==> ParseConfigFile(states[k].file, FLAG_KEY) == Some(Flag(LastMode(past))))
  {
    hide Next, Booted, Saved, PlainData, ReadFile, ParseConfigFile;
    hide FirstOptOut, LastMode, LastTrigger, LastOptOut, ModeChanged;
    RunKeeps(m, text, states, requests, k);
    FileHoldsTheData(states[k].data, states[k].file, OPTOUT_KEY);
    FileHoldsTheData(states[k].data, states[k].file, FLAG_KEY);
  }

  /** Once the mode was changed, the entry `background_flag` of the file reads `true` exactly if the mode accepted last
      is BACKGROUND, and `false` exactly if it is FOREGROUND, which is also the mode in force. */
  lemma FlagOnFileTellsTheMode(m: Data, text: string, states: seq<State>, requests: seq<Request>, k: nat)
    requires PlainData(m) && Saved(m, text)
    requires IsRun(text, states, requests) && k < |states| && ModeChanged(requests[..k])
    ensures var mode, flag := LastMode(requests[..k]), ParseConfigFile(states[k].file, "background_flag");
      && states[k].mode == mode
      && (flag == Some("true") <==> mode == "BACKGROUND")
      && (flag == Some("false") <==> mode == "FOREGROUND")
      && (flag == Some("true") || flag == Some("false"))
  {
    hide Next, Booted, Saved, PlainData, ReadFile, ParseConfigFile, FirstOptOut, LastMode, ModeChanged;
    GetModeAnswersWhatWasAccepted(m, text, states, requests, k);
    RunKeeps(m, text, states, requests, k);
    assert "true"[0] != "false"[0] && "FOREGROUND"[0] != "BACKGROUND"[0];
  }

  /** After bootup and before any request the mode is FOREGROUND without a trigger, and the opt-out choice is the one on
      file, or NONE if that is none of the four. */
  lemma AnswerAfterBootup(m: Data, text: string, states: seq<State>, requests: seq<Request>)
    requires PlainData(m) && Saved(m, text) && IsRun(text, states, requests)
    ensures var stored := StoredOptOut(ReadFile(text, map[]));
      var valid := stored in {"ENFORCE_OPTOUT", "BYPASS_OPTOUT", "IGNORE_UPDATE", "NONE"};
      GetMode(states[0]) == Some(("FOREGROUND", "", if valid then stored else "NONE"))
  {
    hide Next, Booted, Saved, PlainData, ReadFile, ParseConfigFile, StoredOptOut;
    GetModeAnswersWhatWasAccepted(m, text, states, requests, 0);
  }

  /** A request with one of the two modes and an opt-out choice is answered by getMaintenanceMode right after it: its
      trigger always, its mode unless a maintenance is running and the event could not be sent, its opt-out choice if it
      is one of the four. */
  lemma LastRequestIsAnswered(m: Data, text: string, states: seq<State>, requests: seq<Request>, k: nat)
    requires PlainData(m) && Saved(m, text) && IsRun(text, states, requests) && k < |requests|
    requires requests[k].SetMode? && requests[k].optOut.Some?
    requires requests[k].mode == Some("FOREGROUND") || requests[k].mode == Some("BACKGROUND")
    ensures GetMode(states[k]).Some? && GetMode(states[k + 1]).Some?
    ensures var r, before, now := requests[k], GetMode(states[k]).value, GetMode(states[k + 1]).value;
      && now.0 == (if r.inProgress && !r.eventSent then before.0 else r.mode.value)
      && now.1 == (match r.trigger case Some(t) => t case None => "")
      && now.2 == if r.optOut.value in {"ENFORCE_OPTOUT", "BYPASS_OPTOUT", "IGNORE_UPDATE", "NONE"}
                  then r.optOut.value else before.2
  {
    hide Next, Booted, Saved, PlainData, ReadFile, ParseConfigFile, GetMode, FirstOptOut, LastMode, LastTrigger;
    hide LastOptOut, ModeChanged;
    GetModeAnswersWhatWasAccepted(m, text, states, requests, k);
    GetModeAnswersWhatWasAccepted(m, text, states, requests, k + 1);
    OneMoreRequest(requests[..k], requests[k], FirstOptOut(ReadFile(text, map[])));
    assert requests[..k + 1] == requests[..k] + [requests[k]];
  }

  /** The time of the completed cycle recorded last is the one on file, whatever modes are set after it. */
  lemma {:induction false} CompletionTimeStays(states: seq<State>, requests: seq<Request>, text: string, j: nat, k: nat)
    requires IsRun(text, states, requests) && j < k < |states| && requests[j].CycleCompleted?
    requires forall i :: j < i < k ==> !requests[i].CycleCompleted?
    ensures TIME_KEY in states[k].data && states[k].data[TIME_KEY] == requests[j].time
  {
    KeysDiffer();
    hide Booted, Saved, ValidOptOut, Flag, ValidMode;
    assert Next(states[k - 1], requests[k - 1], states[k]);
    if k > j + 1 {
      CompletionTimeStays(states, requests, text, j, k - 1);
    }
  }

  lemma CompletionTimeIsOnFile(m: Data, text: string, states: seq<State>, requests: seq<Request>, j: nat, k: nat)
    requires PlainData(m) && Saved(m, text) && IsRun(text, states, requests) && j < k < |states|
    requires requests[j].CycleCompleted? && requests[j].time != ""
    requires forall i :: j < i < k ==> !requests[i].CycleCompleted?
    ensures ParseConfigFile(states[k].file, "LastSuccessfulCompletionTime") == Some(requests[j].time)
  {
    hide Next, Booted, Saved, PlainData, ReadFile, ParseConfigFile, FirstOptOut, LastMode, ModeChanged;
    RunKeeps(m, text, states, requests, k);
    CompletionTimeStays(states, requests, text, j, k);
    FileHoldsTheData(states[k].data, states[k].file, TIME_KEY);
  }

  // ---- What the answer of setMaintenanceMode tells ----

  /** The mode asked for can take effect now: no maintenance is running, or the event about it could be sent. */
  predicate ModeAllowed(r: Request)
    requires r.SetMode?
  {
    !r.inProgress || r.eventSent
  }

  /** For a request with one of the two modes, other than the current one, the answer says whether the mode took effect
      exactly when the opt-out choice is valid just in case the mode is allowed to change. */
  lemma AnswerTellsTheModeIff(s: State, r: Request, t: State)
    requires Next(s, r, t) && Heard(r) && r.mode.value != s.mode
    ensures (ChangesOptOut(r) <==> t.mode == r.mode.value) <==> (ValidOptOut(r.optOut.value) <==> ModeAllowed(r))
  {}

  /** Every request can be taken in every state. */
  lemma SomeNext(s: State, r: Request) returns (t: State)
    ensures Next(s, r, t)
  {
    hide DataAfter;
    var d := DataAfter(s.data, r);
    var order := SomeOrder(d);
    var file := if Writes(r) then Render(order, d) else s.file;
    assert Writes(r) ==> Saved(d, file);
    t := State(if ChangesMode(r) then r.mode.value else s.mode, if Heard(r) then TriggerOf(r) else s.trigger, d, file);
  }

  /** Refused, and yet the mode has changed. */
  lemma RefusedButChanged(s: State, badChoice: string) returns (r: Request, t: State)
    requires !ValidOptOut(badChoice) && s.mode == FOREGROUND_MODE
    ensures Next(s, r, t) && Heard(r) && r.optOut == Some(badChoice) && !ChangesOptOut(r)
    ensures t.mode == BACKGROUND_MODE != s.mode
  {
    hide ValidOptOut;
    r := SetMode(Some(BACKGROUND_MODE), Some(badChoice), None, false, false);
    t := SomeNext(s, r);
    assert BACKGROUND_MODE[0] != FOREGROUND_MODE[0];
  }

  /** Answered with true, and yet the mode is as it was: the event about it could not be sent during a maintenance. */
  lemma AnsweredButUnchanged(s: State) returns (r: Request, t: State)
    requires s.mode == FOREGROUND_MODE
    ensures Next(s, r, t) && Heard(r) && r.mode == Some(BACKGROUND_MODE) && ChangesOptOut(r)
    ensures t.mode == s.mode != BACKGROUND_MODE
  {
    r := SetMode(Some(BACKGROUND_MODE), Some("NONE"), None, true, false);
    t := SomeNext(s, r);
    assert BACKGROUND_MODE[0] != FOREGROUND_MODE[0];
  }

  /** Iteration orders for a request's writes, in the order they happen. */
  datatype Orders = Orders(emptied: seq<string>, written: seq<string>)

  class ModeManager {
    const setting: CSettings
    var mode: string
    var trigger: string

    ghost function View(): State
      reads this, setting
    {
      State(mode, trigger, setting.data, setting.file)
    }

    /** setValue after remove, both of which write the file. */
    method Replace(key: string, value: string, removed: bool, o: Orders)
      requires setting.fileThere
      requires Enumerates(o.emptied, if removed then setting.data - {key} else setting.data[key := ""])
      requires Enumerates(o.written, setting.data[key := value])
      modifies setting`data, setting`file
      ensures setting.data == old(setting.data)[key := value] && Saved(setting.data, setting.file)
    {
      var gone := setting.Remove(key, removed, o.emptied, true);
      assert setting.data[key := value] == old(setting.data)[key := value];
      var stored := setting.SetValue(key, value, o.written, true);
    }

    /** maintenanceManagerOnBootup, as far as modes go. */
    constructor (setting: CSettings, removed: bool, o: Orders)
      requires setting.fileThere
      requires Enumerates(o.emptied, if removed then setting.data - {OPTOUT_KEY} else setting.data[OPTOUT_KEY := ""])
      requires Enumerates(o.written, setting.data[OPTOUT_KEY := "NONE"])
      modifies setting`data, setting`file
      ensures this.setting == setting && BootedFrom(old(setting.data), old(setting.file), View())
    {
      this.setting := setting;
      mode, trigger := FOREGROUND_MODE, "";
      new;
      var optOut := setting.GetValue(OPTOUT_KEY);
      if !ValidOptOut(optOut) {
        Replace(OPTOUT_KEY, "NONE", removed, o);
      }
    }

    /** Sets the mode and its flag on file. */
    method ChangeMode(newMode: string, removed: bool, o: Orders)
      requires setting.fileThere
      requires Enumerates(o.emptied, if removed then setting.data - {FLAG_KEY} else setting.data[FLAG_KEY := ""])
      requires Enumerates(o.written, setting.data[FLAG_KEY := Flag(newMode)])
      modifies this`mode, setting`data, setting`file
      ensures mode == newMode
      ensures setting.data == old(setting.data)[FLAG_KEY := Flag(newMode)] && Saved(setting.data, setting.file)
      ensures setting.data[FLAG_KEY] == "true" <==> newMode == BACKGROUND_MODE
      ensures setting.data[FLAG_KEY] == "false" <==> newMode != BACKGROUND_MODE
    {
      FlagIs(newMode);
      var bgFlag := if newMode == BACKGROUND_MODE then "true" else "false";
      mode := newMode;
      Replace(FLAG_KEY, bgFlag, removed, o);
    }

    /** The new mode counts at once, or, during a maintenance, if the event about it could be sent. */
    method ApplyMode(newMode: string, inProgress: bool, eventSent: bool, removed: bool, o: Orders)
      returns (success: bool)
      requires setting.fileThere
      requires Enumerates(o.emptied, if removed then setting.data - {FLAG_KEY} else setting.data[FLAG_KEY := ""])
      requires Enumerates(o.written, setting.data[FLAG_KEY := Flag(newMode)])
      modifies this`mode, setting`data, setting`file
      ensures var changes := !inProgress || eventSent;
        && (if changes then Saved(setting.data, setting.file) else setting.file == old(setting.file))
        && mode == (if changes then newMode else old(mode))
        && setting.data == WithMode(old(setting.data), newMode, changes)
    {
      success := false;
      if !inProgress {
        ChangeMode(newMode, removed, o);
      } else {
        if eventSent {
          ChangeMode(newMode, removed, o);
        }
        success := true;
      }
    }

    /** setMaintenanceMode. The answer is false for an invalid opt-out choice although the mode may have changed,
        and true although it may not have, when the event could not be sent. */
    method SetMaintenanceMode(r: Request, removed: bool, o: Orders, last: seq<string>) returns (success: bool)
      requires r.SetMode? && setting.fileThere
      requires r.mode.Some? ==>
        Enumerates(o.emptied, if removed then setting.data - {FLAG_KEY} else setting.data[FLAG_KEY := ""]) &&
        Enumerates(o.written, setting.data[FLAG_KEY := Flag(r.mode.value)])
      requires Enumerates(last, DataAfter(setting.data, r))
      modifies this, setting`data, setting`file
      ensures Next(old(View()), r, View())
      ensures success == ChangesOptOut(r)
      ensures success <==>
        && (r.mode == Some("FOREGROUND") || r.mode == Some("BACKGROUND"))
        && r.optOut in {Some("ENFORCE_OPTOUT"), Some("BYPASS_OPTOUT"), Some("IGNORE_UPDATE"), Some("NONE")}
    {
      AcceptedIff(r);
      hide Enumerates, Saved, Flag, Plain, ValidOptOut, WithMode;
      success := false;
      if r.mode.Some? && r.optOut.Some? {
        var newMode := r.mode.value;
        if BACKGROUND_MODE != newMode && FOREGROUND_MODE != newMode {
          return false;
        }
        success := Accept(r, removed, o, last);
      }
    }

    /** The rest of setMaintenanceMode, for one of the two modes. */
    method Accept(r: Request, removed: bool, o: Orders, last: seq<string>) returns (success: bool)
      requires Heard(r) && setting.fileThere
      requires Enumerates(o.emptied, if removed then setting.data - {FLAG_KEY} else setting.data[FLAG_KEY := ""])
      requires Enumerates(o.written, setting.data[FLAG_KEY := Flag(r.mode.value)])
      requires Enumerates(last, DataAfter(setting.data, r))
      modifies this, setting`data, setting`file
      ensures Next(old(View()), r, View())
      ensures success == ChangesOptOut(r)
    {
      hide Enumerates, Saved, Flag, Plain, ValidOptOut, ValidMode, WithMode, DataAfter;
      DataAfterIs(setting.data, r);
      trigger := if r.trigger.Some? then r.trigger.value else "";
      success := ApplyMode(r.mode.value, r.inProgress, r.eventSent, removed, o);
      success := StoreOptOut(r.optOut.value, last);
    }

    method StoreOptOut(newOptOut: string, last: seq<string>) returns (success: bool)
      requires setting.fileThere
      requires ValidOptOut(newOptOut) ==> Enumerates(last, setting.data[OPTOUT_KEY := newOptOut])
      modifies setting`data, setting`file
      ensures success == ValidOptOut(newOptOut)
      ensures if success then Saved(setting.data, setting.file) else setting.file == old(setting.file)
      ensures setting.data == if success then old(setting.data)[OPTOUT_KEY := newOptOut] else old(setting.data)
    {
      if ValidOptOut(newOptOut) {
        var stored := setting.SetValue(OPTOUT_KEY, newOptOut, last, true);
        success := true;
      } else {
        success := false;
      }
    }

    method GetMaintenanceMode() returns (answer: Option<(string, string, string)>)
      ensures answer == if setting.fileThere then GetMode(View()) else None
    {
      if BACKGROUND_MODE != mode && FOREGROUND_MODE != mode {
        return None;
      }
      if !setting.fileThere {
        return None;
      }
      var optOut := ParseConfig(setting.file, OPTOUT_KEY);
      if optOut.Some? {
        if !ValidOptOut(optOut.value) {
          return None;
        }
      } else {
        return None;
      }
      return Some((mode, trigger, optOut.value));
    }

    /** The event handler's record of a successful cycle. */
    method RecordCompletion(time: string, removed: bool, o: Orders)
      requires setting.fileThere
      requires Enumerates(o.emptied, if removed then setting.data - {TIME_KEY} else setting.data[TIME_KEY := ""])
      requires Enumerates(o.written, setting.data[TIME_KEY := time])
      modifies setting`data, setting`file
      ensures Next(old(View()), CycleCompleted(time), View())
    {
      Replace(TIME_KEY, time, removed, o);
    }
  }
}
