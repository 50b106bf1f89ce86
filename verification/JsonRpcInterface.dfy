/** The JSON-RPC interface object: each method is a section under `responseMutex_`, or the code between two of them. */
module JsonRpcInterface {
  import opened Wrappers
  import opened JsonRpcPromises

  class Interface {
    var responseToPromise: map<int, CallId>
    var calls: map<CallId, Call>
    ghost var dropped: seq<Message>

    ghost function View(): State
      reads this
    {
      State(responseToPromise, calls, dropped)
    }

    constructor ()
      ensures Initial(View()) && Inv(View())
    {
      responseToPromise, calls, dropped := map[], map[], [];
    }

    method MoveTo(c: CallId, pc: Pc)
      requires c in calls
      modifies this`calls
      ensures View() == SetPc(old(View()), c, pc)
    {
      calls := calls[c := calls[c].(pc := pc)];
    }

    /** sendRequest is called. */
    method Begin(c: CallId, id: int)
      requires Inv(View()) && Enabled(View(), Step.Begin(c, id))
      modifies this`calls
      ensures View() == Next(old(View()), Step.Begin(c, id))
      ensures Inv(View())
    {
      hide Inv;
      StepKeeps(View(), Step.Begin(c, id));
      calls := calls[c := Call(id, Checking, None)];
    }

    method IsRequestProcessingOngoing(c: CallId) returns (ongoing: bool)
      requires Inv(View()) && At(View(), c, Checking)
      modifies this`calls
      ensures View() == CheckStep(old(View()), c)
      ensures ongoing == (old(calls[c].id) in old(responseToPromise))
      ensures Inv(View())
    {
      hide Inv;
      StepKeeps(View(), Check(c));
      ongoing := calls[c].id in responseToPromise;
      if ongoing {
        MoveTo(c, Returned(false));
      } else {
        MoveTo(c, Creating);
      }
    }

    method CreateFutureResponse(c: CallId) returns (created: bool)
      requires Inv(View()) && At(View(), c, Creating)
      modifies this`calls, this`responseToPromise
      ensures View() == CreateStep(old(View()), c)
      ensures created == (old(calls[c].id) !in old(responseToPromise))
      ensures Inv(View())
    {
      hide Inv;
      StepKeeps(View(), Create(c));
      var id := calls[c].id;
      created := id !in responseToPromise;
      if created {
        responseToPromise := responseToPromise[id := c];
        MoveTo(c, Sending);
      } else {
        MoveTo(c, Returned(false));
      }
    }

    /** The request goes out, or the call is on its way to clean up. */
    method Send(c: CallId, sent: bool)
      requires Inv(View()) && At(View(), c, Sending)
      modifies this`calls
      ensures View() == SendStep(old(View()), c, sent)
      ensures Inv(View())
    {
      hide Inv;
      StepKeeps(View(), Step.Send(c, sent));
      MoveTo(c, if sent then Waiting else Removing(false));
    }

    /** wait_for on the future of the call. */
    method AwaitResponse(c: CallId) returns (ready: bool)
      requires Inv(View()) && At(View(), c, Waiting)
      modifies this`calls
      ensures View() == AwaitStep(old(View()), c) && ready == old(calls[c].future.Some?)
      ensures Inv(View())
    {
      hide Inv;
      StepKeeps(View(), Await(c));
      ready := calls[c].future.Some?;
      MoveTo(c, Removing(ready));
    }

    /** removePromise and the return of the call. */
    method RemovePromise(c: CallId) returns (success: bool)
      requires Inv(View()) && c in calls && calls[c].pc.Removing?
      modifies this`calls, this`responseToPromise
      ensures View() == RemoveStep(old(View()), c) && calls[c].pc == Returned(success)
      ensures var call := old(calls[c]);
        success <==> call.pc.ready && call.future.Some? && IsValid(call.future.value) &&
                     call.future.value.id == Some(call.id) && call.future.value.result == Some(Some(true))
      ensures Inv(View())
    {
      hide Inv;
      StepKeeps(View(), Remove(c));
      var call := calls[c];
      responseToPromise := responseToPromise - {call.id};
      success := false;
      if call.pc.ready && call.future.Some? {
        success := Process(call.id, call.future.value);
      }
      MoveTo(c, Returned(success));
    }

    /** processResponse */
    method Process(id: int, m: Message) returns (success: bool)
      ensures success <==> IsValid(m) && m.id == Some(id) && m.result == Some(Some(true))
      ensures success == ProcessResponse(id, m)
    {
      success := false;
      if IsValid(m) && m.id.value == id {
        if m.result.Some? && m.result.value.Some? {
          success := m.result.value.value;
        }
      }
    }

    method HandleResponse(m: Message) returns (threw: bool)
      requires Inv(View())
      modifies this`calls, this`dropped
      ensures View() == ReceiveStep(old(View()), m)
      ensures threw ==> View() == old(View())
      ensures Inv(View())
    {
      StepKeeps(View(), Receive(m));
      var id := Routed(m);
      threw := false;
      if id !in responseToPromise {
        dropped := dropped + [m];
      } else {
        assert EntryOk(View(), id);
        var c := responseToPromise[id];
        if calls[c].future.Some? {
          threw := true;
        } else {
          calls := calls[c := calls[c].(future := Some(m))];
        }
      }
    }
  }
}
