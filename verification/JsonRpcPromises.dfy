/** The promise table of the JSON-RPC client: concurrent `sendRequest` calls against incoming messages. */
module JsonRpcPromises {
  import opened Wrappers

  const DEFAULT_VERSION := "2.0"

  /** The members of an error object that are set. */
  datatype ErrorObject = ErrorObject(codeSet: bool, textSet: bool)

  /** A received message with an `id` and no `method`: the number it is routed by, and what parsing it as a response
      object gives (section 5 of the JSON-RPC 2.0 specification). `result` holds the `success` member, if there is
      one. */
  datatype Message = Message(
    number: int,
    version: Option<string>,
    id: Option<int>,
    result: Option<Option<bool>>,
    error: Option<ErrorObject>)

  /** Response::isValid */
  predicate IsValid(m: Message) {
    && m.version == Some(DEFAULT_VERSION)
    && m.id.Some?
    && (m.result.Some? || m.error.Some?)
    && !(m.result.Some? && m.error.Some?)
    && (m.error.Some? ==> m.error.value.codeSet && m.error.value.textSet)
  }

  /** processResponse: the value of `success`, false unless the message is a valid result for this id. */
  function ProcessResponse(id: int, m: Message): bool {
    if IsValid(m) && m.id.value == id && m.result.Some? && m.result.value.Some? then m.result.value.value else false
  }

  /** json["id"].Number() passed as a uint32_t. */
  function Routed(m: Message): int { m.number % 0x1_0000_0000 }

  type CallId = nat

  datatype Pc = Checking | Creating | Sending | Waiting | Removing(ready: bool) | Returned(success: bool)

  /** A call of sendRequest: its request id, where it stands, and the shared state of its future. */
  datatype Call = Call(id: int, pc: Pc, future: Option<Message>)

  datatype State = State(
    table: map<int, CallId>,      // responseToPromise_: the call each promise belongs to
    calls: map<CallId, Call>,
    dropped: seq<Message>)        // messages nobody waited for

  datatype Step =
    | Begin(call: CallId, id: int)
    | Check(call: CallId)
    | Create(call: CallId)
    | Send(call: CallId, sent: bool)
    | Await(call: CallId)          // wait_for returns: ready if the future is fulfilled, else timeout
    | Remove(call: CallId)
    | Receive(message: Message)

  ghost predicate Initial(s: State) { s.table == map[] && s.calls == map[] && s.dropped == [] }

  function SetPc(s: State, c: CallId, pc: Pc): State
    requires c in s.calls
  {
    s.(calls := s.calls[c := s.calls[c].(pc := pc)])
  }

  predicate At(s: State, c: CallId, pc: Pc) { c in s.calls && s.calls[c].pc == pc }

  predicate Enabled(s: State, step: Step) {
    match step
    case Begin(c, id) => c !in s.calls && 0 <= id < 0x1_0000_0000
    case Check(c) => At(s, c, Checking)
    case Create(c) => At(s, c, Creating)
    case Send(c, _) => At(s, c, Sending)
    case Await(c) => At(s, c, Waiting)
    case Remove(c) => c in s.calls && s.calls[c].pc.Removing?
    case Receive(_) => true
  }

  /** isRequestProcessingOngoing */
  function CheckStep(s: State, c: CallId): State
    requires c in s.calls
  {
    SetPc(s, c, if s.calls[c].id in s.table then Returned(false) else Creating)
  }

  /** createFutureResponse: emplace fails when another call has got there first. */
  function CreateStep(s: State, c: CallId): State
    requires c in s.calls
  {
    var id := s.calls[c].id;
    if id in s.table then SetPc(s, c, Returned(false))
    else SetPc(s, c, Sending).(table := s.table[id := c])
  }

  function SendStep(s: State, c: CallId, sent: bool): State
    requires c in s.calls
  {
    SetPc(s, c, if sent then Waiting else Removing(false))
  }

  function AwaitStep(s: State, c: CallId): State
    requires c in s.calls
  {
    SetPc(s, c, Removing(s.calls[c].future.Some?))
  }

  /** removePromise, and then the result of the call. */
  function RemoveStep(s: State, c: CallId): State
    requires c in s.calls && s.calls[c].pc.Removing?
  {
    var call := s.calls[c];
    var success := call.pc.ready && call.future.Some? && ProcessResponse(call.id, call.future.value);
    SetPc(s, c, Returned(success)).(table := s.table - {call.id})
  }

  /** handleResponse. Fulfilling a promise twice throws and changes nothing. */
  function ReceiveStep(s: State, m: Message): State {
    var id := Routed(m);
    if id !in s.table then s.(dropped := s.dropped + [m])
    else
      var c := s.table[id];
      if c in s.calls && s.calls[c].future.None? then s.(calls := s.calls[c := s.calls[c].(future := Some(m))])
      else s
  }

  function Next(s: State, step: Step): State
    requires Enabled(s, step)
  {
    match step
    case Begin(c, id) => s.(calls := s.calls[c := Call(id, Checking, None)])
    case Check(c) => CheckStep(s, c)
    case Create(c) => CreateStep(s, c)
    case Send(c, sent) => SendStep(s, c, sent)
    case Await(c) => AwaitStep(s, c)
    case Remove(c) => RemoveStep(s, c)
    case Receive(m) => ReceiveStep(s, m)
  }

  ghost predicate IsRun(states: seq<State>, steps: seq<Step>) {
    && |states| == |steps| + 1 && Initial(states[0])
    && forall k :: 0 <= k < |steps| ==> Enabled(states[k], steps[k]) && states[k + 1] == Next(states[k], steps[k])
  }

  // ---- The invariant ----

  /** Between the creation of its promise and its removal. */
  predicate Holds(pc: Pc) { pc == Sending || pc == Waiting || pc.Removing? }

  predicate CallOk(s: State, c: CallId)
    requires c in s.calls
  {
    var call := s.calls[c];
    && 0 <= call.id < 0x1_0000_0000
    && (Holds(call.pc) ==> call.id in s.table && s.table[call.id] == c)
    && (call.pc == Checking || call.pc == Creating ==> call.future == None)
    && (call.future.Some? ==> Routed(call.future.value) == call.id)
    && (call.pc.Removing? && call.pc.ready ==> call.future.Some?)
    && (call.pc.Returned? && call.pc.success ==> call.future.Some? && ProcessResponse(call.id, call.future.value))
  }

  predicate EntryOk(s: State, id: int)
    requires id in s.table
  {
    var c := s.table[id]; c in s.calls && s.calls[c].id == id && Holds(s.calls[c].pc)
  }

  ghost predicate Inv(s: State) {
    && (forall c :: c in s.calls ==> CallOk(s, c))
    && (forall id :: id in s.table ==> EntryOk(s, id))
  }

  /** A step that leaves the table alone, and changes at most one call, keeps the invariant if it keeps that call's
      part. */
  lemma CallMoves(s: State, r: State, c: CallId)
    requires Inv(s) && r.table == s.table
    requires c in r.calls && r.calls == s.calls[c := r.calls[c]] && CallOk(r, c)
    requires c in s.calls ==> r.calls[c].id == s.calls[c].id && (Holds(s.calls[c].pc) ==> Holds(r.calls[c].pc))
    ensures Inv(r)
  {
    forall x | x in r.calls ensures CallOk(r, x) {
      assert x == c || CallOk(s, x);
    }
    forall id | id in r.table ensures EntryOk(r, id) {
      assert EntryOk(s, id);
    }
  }

  lemma CreateKeeps(s: State, c: CallId)
    requires Inv(s) && At(s, c, Creating)
    ensures Inv(CreateStep(s, c))
  {
    var r := CreateStep(s, c);
    forall x | x in r.calls ensures CallOk(r, x) {
      assert x in s.calls ==> CallOk(s, x);
    }
    forall id | id in r.table ensures EntryOk(r, id) {
      assert id in s.table ==> EntryOk(s, id);
    }
  }

  lemma RemoveKeeps(s: State, c: CallId)
    requires Inv(s) && c in s.calls && s.calls[c].pc.Removing?
    ensures Inv(RemoveStep(s, c))
  {
    var r := RemoveStep(s, c);
    assert CallOk(s, c);
    forall x | x in r.calls ensures CallOk(r, x) {
      assert x in s.calls ==> CallOk(s, x);
    }
    forall id | id in r.table ensures EntryOk(r, id) {
      assert id in s.table ==> EntryOk(s, id);
    }
  }

  lemma ReceiveKeeps(s: State, m: Message)
    requires Inv(s)
    ensures Inv(ReceiveStep(s, m))
  {
    var id := Routed(m);
    if id in s.table {
      assert EntryOk(s, id) && CallOk(s, s.table[id]);
      CallMoves(s, ReceiveStep(s, m), s.table[id]);
    }
  }

  lemma StepKeeps(s: State, step: Step)
    requires Inv(s) && Enabled(s, step)
    ensures Inv(Next(s, step))
  {
    hide Inv, CreateStep, RemoveStep, ReceiveStep, ProcessResponse, Routed;
    match step
    case Create(c) => CreateKeeps(s, c);
    case Remove(c) => RemoveKeeps(s, c);
    case Receive(m) => ReceiveKeeps(s, m);
    case _ => OwnStepKeeps(s, step);
  }

  lemma OwnStepKeeps(s: State, step: Step)
    requires Inv(s) && Enabled(s, step) && (step.Begin? || step.Check? || step.Send? || step.Await?)
    ensures Inv(Next(s, step))
  {
    hide ProcessResponse, Routed, CreateStep, RemoveStep, ReceiveStep;
    assert step.call in s.calls ==> CallOk(s, step.call);
    CallMoves(s, Next(s, step), step.call);
  }

  lemma {:induction false} RunKeeps(states: seq<State>, steps: seq<Step>, k: nat)
    requires IsRun(states, steps) && k < |states|
    ensures Inv(states[k])
  {
    if k > 0 {
      RunKeeps(states, steps, k - 1);
      StepKeeps(states[k - 1], steps[k - 1]);
    }
  }

  // ---- The theorems ----

  /** The keys of the table are exactly the ids of the calls between creation and removal, and each key belongs to one
      call, however many calls with that id have passed the early check. */
  lemma TableHoldsExactlyTheOpenCalls(states: seq<State>, steps: seq<Step>, k: nat, id: int)
    requires IsRun(states, steps) && k < |states|
    ensures var s := states[k];
      id in s.table <==> exists c :: c in s.calls && s.calls[c].id == id && Holds(s.calls[c].pc)
    ensures var s := states[k];
      forall c, d | c in s.calls && d in s.calls && s.calls[c].id == id && s.calls[d].id == id ::
        Holds(s.calls[c].pc) && Holds(s.calls[d].pc) ==> c == d
  {
    RunKeeps(states, steps, k);
    var s := states[k];
    if id in s.table {
      assert EntryOk(s, id);
      var c := s.table[id];
      assert c in s.calls && s.calls[c].id == id && Holds(s.calls[c].pc);
    }
    forall c, d | c in s.calls && d in s.calls && s.calls[c].id == id && s.calls[d].id == id
      && Holds(s.calls[c].pc) && Holds(s.calls[d].pc)
      ensures c == d
    {
      assert CallOk(s, c) && CallOk(s, d);
    }
  }

  /** A call that has returned has left no entry of its own behind. */
  lemma ReturnedCallsLeaveNothing(states: seq<State>, steps: seq<Step>, k: nat, c: CallId)
    requires IsRun(states, steps) && k < |states|
    requires c in states[k].calls && states[k].calls[c].pc.Returned?
    ensures forall id :: id in states[k].table ==> states[k].table[id] != c
  {
    RunKeeps(states, steps, k);
    forall id | id in states[k].table ensures states[k].table[id] != c {
      assert EntryOk(states[k], id);
    }
  }

  /** A message reaches exactly the call that is open with the id it is routed by and has no answer yet, and changes
      nothing but its future; if no open call has that id, the message is dropped. */
  lemma OnlyTheOwnerIsFulfilled(s: State, m: Message)
    requires Inv(s)
    ensures var r := ReceiveStep(s, m);
      && r.table == s.table && r.calls.Keys == s.calls.Keys
      && (forall c :: c in s.calls ==>
            var mine := s.calls[c].id == m.number % 0x1_0000_0000 && Holds(s.calls[c].pc) && s.calls[c].future == None;
            r.calls[c] == if mine then s.calls[c].(future := Some(m)) else s.calls[c])
      && (r.dropped == if IdIsOpen(s, m.number % 0x1_0000_0000) then s.dropped else s.dropped + [m])
  {
    var r := ReceiveStep(s, m);
    assert IdIsOpen(s, Routed(m)) <==> Routed(m) in s.table by { OpenMeansListed(s, Routed(m)); }
    forall c | c in s.calls ensures CallOk(s, c) {}
  }

  /** Some call with this id stands between the creation of its promise and its removal. */
  ghost predicate IdIsOpen(s: State, id: int) {
    exists c :: c in s.calls && s.calls[c].id == id && Holds(s.calls[c].pc)
  }

  lemma OpenMeansListed(s: State, id: int)
    requires Inv(s)
    ensures id in s.table <==> IdIsOpen(s, id)
  {
    if id in s.table {
      assert EntryOk(s, id) && s.calls[s.table[id]].id == id;
    }
    if IdIsOpen(s, id) {
      var c :| c in s.calls && s.calls[c].id == id && Holds(s.calls[c].pc);
      assert CallOk(s, c);
    }
  }

  /** Each of the two checks turns a call away, with false, exactly if a call with its id is open at that moment. */
  lemma TurnedAwayIff(s: State, c: CallId)
    requires Inv(s) && c in s.calls
    ensures At(s, c, Checking) ==>
      CheckStep(s, c).calls[c].pc == if IdIsOpen(s, s.calls[c].id) then Returned(false) else Creating
    ensures At(s, c, Creating) ==>
      CreateStep(s, c).calls[c].pc == if IdIsOpen(s, s.calls[c].id) then Returned(false) else Sending
  {
    OpenMeansListed(s, s.calls[c].id);
  }

  /** Step `j` delivers `m` to call `c` while `c` owns the entry of its id. */
  ghost predicate DeliveredAt(states: seq<State>, steps: seq<Step>, j: nat, c: CallId, m: Message)
    requires IsRun(states, steps)
  {
    && j < |steps| && steps[j] == Receive(m) && c in states[j].calls
    && Holds(states[j].calls[c].pc) && Routed(m) == states[j].calls[c].id
    && Routed(m) in states[j].table && states[j].table[Routed(m)] == c
  }

  /** A future is fulfilled by a message to the owner of its entry alone. */
  lemma NewFuture(s: State, step: Step, c: CallId)
    requires Inv(s) && Enabled(s, step) && c in Next(s, step).calls && Next(s, step).calls[c].future.Some?
    requires c in s.calls ==> s.calls[c].future != Next(s, step).calls[c].future
    ensures c in s.calls && step == Receive(Next(s, step).calls[c].future.value)
    ensures Holds(s.calls[c].pc) && Routed(step.message) == s.calls[c].id
    ensures Routed(step.message) in s.table && s.table[Routed(step.message)] == c
  {
    hide ProcessResponse, IsValid;
    assert c in s.calls ==> CallOk(s, c);
    if step.Receive? && Routed(step.message) in s.table {
      assert EntryOk(s, Routed(step.message));
    }
  }

  lemma {:induction false} FutureWasDelivered(states: seq<State>, steps: seq<Step>, k: nat, c: CallId) returns (j: nat)
    requires IsRun(states, steps) && k < |states| && c in states[k].calls && states[k].calls[c].future.Some?
    ensures j < k && DeliveredAt(states, steps, j, c, states[k].calls[c].future.value)
  {
    hide Next, Inv, Routed;
    RunKeeps(states, steps, k - 1);
    var before := states[k - 1];
    if c in before.calls && before.calls[c].future == states[k].calls[c].future {
      j := FutureWasDelivered(states, steps, k - 1, c);
    } else {
      j := k - 1;
      NewFuture(before, steps[j], c);
    }
  }

  /** sendRequest returns true only for a message delivered to this very call while its entry stood: a valid response
      object with the request's id whose result says success. */
  lemma TrueOnlyForAMatchingSuccess(states: seq<State>, steps: seq<Step>, k: nat, c: CallId)
    returns (j: nat, m: Message)
    requires IsRun(states, steps) && k < |states| && At(states[k], c, Returned(true))
    ensures j < k && DeliveredAt(states, steps, j, c, m)
    ensures IsValid(m) && m.id == Some(states[k].calls[c].id) && m.result == Some(Some(true)) && m.error == None
  {
    RunKeeps(states, steps, k);
    assert CallOk(states[k], c);
    m := states[k].calls[c].future.value;
    j := FutureWasDelivered(states, steps, k, c);
  }

  /** A valid response object with this id whose result says success. */
  predicate Says(m: Message, id: int) { IsValid(m) && m.id == Some(id) && m.result == Some(Some(true)) }

  /** Step `j` ends the wait of call `c`, which then holds an answer that says success. */
  ghost predicate FoundAt(states: seq<State>, steps: seq<Step>, j: nat, c: CallId)
    requires IsRun(states, steps)
  {
    && j < |steps| && steps[j] == Await(c)
    && states[j].calls[c].future.Some? && Says(states[j].calls[c].future.value, states[j].calls[c].id)
  }

  lemma RemoveAnswers(s: State, c: CallId)
    requires c in s.calls && s.calls[c].pc.Removing?
    ensures var call := s.calls[c];
      RemoveStep(s, c).calls[c] == call.(pc := Returned(call.pc.ready && call.future.Some? &&
                                                        Says(call.future.value, call.id)))
  {}

  /** Whether the wait of a call has found an answer that says success. */
  predicate Won(call: Call) {
    match call.pc
    case Removing(ready) => ready && call.future.Some? && Says(call.future.value, call.id)
    case Returned(success) => success
    case _ => false
  }

  /** A call has won exactly from the end of a wait on that it found such an answer. */
  lemma WonStep(s: State, step: Step, c: CallId)
    requires Inv(s) && Enabled(s, step) && c in Next(s, step).calls
    ensures var r := Next(s, step);
      Won(r.calls[c]) <==>
        && c in s.calls
        && (Won(s.calls[c]) ||
            (step == Await(c) && s.calls[c].future.Some? && Says(s.calls[c].future.value, s.calls[c].id)))
  {
    hide Says;
    assert c in s.calls ==> CallOk(s, c);
    if step.Remove? {
      RemoveAnswers(s, step.call);
    }
  }

  lemma {:induction false} WonIff(states: seq<State>, steps: seq<Step>, k: nat, c: CallId)
    requires IsRun(states, steps) && k < |states| && c in states[k].calls
    ensures Won(states[k].calls[c]) <==> exists j: nat :: j < k && FoundAt(states, steps, j, c)
  {
    hide Next, Inv, Won, Says;
    if k > 0 {
      RunKeeps(states, steps, k - 1);
      WonStep(states[k - 1], steps[k - 1], c);
      if c in states[k - 1].calls {
        WonIff(states, steps, k - 1, c);
        assert FoundAt(states, steps, k - 1, c) ==> states[k - 1].calls[c].future.Some?;
      } else {
        NeverBefore(states, steps, k - 1, c);
      }
    }
  }

  /** Calls stay known. */
  lemma {:induction false} NeverBefore(states: seq<State>, steps: seq<Step>, k: nat, c: CallId)
    requires IsRun(states, steps) && k < |states| && c !in states[k].calls
    ensures forall j :: 0 <= j <= k ==> c !in states[j].calls
  {
    if k > 0 {
      NeverBefore(states, steps, k - 1, c);
    }
  }

  /** sendRequest returns true exactly if, when its wait ended, an answer that says success had been delivered to it. */
  lemma ReturnsTrueIff(states: seq<State>, steps: seq<Step>, k: nat, c: CallId)
    requires IsRun(states, steps) && k < |states| && c in states[k].calls && states[k].calls[c].pc.Returned?
    ensures states[k].calls[c].pc.success <==> exists j: nat :: j < k && FoundAt(states, steps, j, c)
  {
    WonIff(states, steps, k, c);
  }

  /** A request that could not be sent returns false, whatever is received in the meantime. */
  lemma {:induction false} UnsentReturnsFalse(states: seq<State>, steps: seq<Step>, j: nat, k: nat, c: CallId)
    requires IsRun(states, steps) && j < k < |states| && steps[j] == Send(c, false)
    ensures At(states[k], c, Removing(false)) || At(states[k], c, Returned(false))
  {
    if k > j + 1 {
      UnsentReturnsFalse(states, steps, j, k - 1, c);
    }
  }

  /** The state of a client with one call. */
  function Single(c: CallId, call: Call): State {
    State(if Holds(call.pc) then map[call.id := c] else map[], map[c := call], [])
  }

  lemma SingleMoves(c: CallId, call: Call, m: Message)
    requires Routed(m) == call.id
    ensures var s := Single(c, call);
      && (call.pc == Checking ==> Next(s, Check(c)) == Single(c, call.(pc := Creating)))
      && (call.pc == Creating ==> Next(s, Create(c)) == Single(c, call.(pc := Sending)))
      && (call.pc == Sending ==> Next(s, Send(c, true)) == Single(c, call.(pc := Waiting)))
      && (call.pc == Waiting && call.future.None? ==> Next(s, Receive(m)) == Single(c, call.(future := Some(m))))
      && (call.pc == Waiting ==> Next(s, Await(c)) == Single(c, call.(pc := Removing(call.future.Some?))))
  {
    var s := Single(c, call);
    assert forall pc :: s.calls[c := call.(pc := pc)] == map[c := call.(pc := pc)];
    assert s.calls[c := call.(future := Some(m))] == map[c := call.(future := Some(m))];
  }

  lemma SingleReturns(c: CallId, call: Call)
    requires call.pc == Removing(true) && call.future.Some? && Says(call.future.value, call.id)
    ensures At(Next(Single(c, call), Remove(c)), c, Returned(true))
  {
    RemoveAnswers(Single(c, call), c);
  }

  function SuccessFor(id: int): (m: Message)
    ensures Says(m, id) && m.number == id
  {
    Message(id, Some(DEFAULT_VERSION), Some(id), Some(Some(true)), None)
  }

  /** From every initial state a request with any id can be sent, answered and return true. */
  lemma SuccessIsReachable(s: State, c: CallId, id: int) returns (states: seq<State>, steps: seq<Step>)
    requires Initial(s) && 0 <= id < 0x1_0000_0000
    ensures IsRun(states, steps) && states[0] == s && At(states[|steps|], c, Returned(true))
  {
    hide Next, Single, Says;
    var m := SuccessFor(id);
    steps := [Begin(c, id), Check(c), Create(c), Send(c, true), Receive(m), Await(c), Remove(c)];
    var first, answered := Call(id, Checking, None), Call(id, Waiting, Some(m));
    Starts(s, c, id);
    SingleMoves(c, first, m);
    SingleMoves(c, first.(pc := Creating), m);
    SingleMoves(c, first.(pc := Sending), m);
    SingleMoves(c, first.(pc := Waiting), m);
    SingleMoves(c, answered, m);
    Enables(c);
    var last := Single(c, answered.(pc := Removing(true)));
    SingleReturns(c, answered.(pc := Removing(true)));
    states := [s, Single(c, first), Single(c, first.(pc := Creating)), Single(c, first.(pc := Sending)),
               Single(c, first.(pc := Waiting)), Single(c, answered), last, Next(last, Remove(c))];
  }

  lemma Starts(s: State, c: CallId, id: int)
    requires Initial(s) && 0 <= id < 0x1_0000_0000
    ensures Enabled(s, Begin(c, id)) && Next(s, Begin(c, id)) == Single(c, Call(id, Checking, None))
  {}

  lemma Enables(c: CallId)
    ensures forall call :: At(Single(c, call), c, call.pc) && Single(c, call).calls[c] == call
  {}
}
