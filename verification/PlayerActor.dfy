/** The player as an object, updated by its timer and its messages. */
module PlayerActor {
  import opened Basics
  import Players

  class MpcPlayer<S, B, E, O> {
    const machine: Players.Machine<S, B, E, O>
    const index: U16
    var msgCount: U16
    var state: S
    var currentRound: Option<nat>
    var emitted: seq<Players.Msg<B>>
    var results: seq<O>
    var errors: seq<(E, Players.Msg<B>)>
    ghost var fed: seq<Players.Msg<B>>
    ghost var calls: seq<Players.Call<S, B>>

    ghost function View(): Players.Player<S, B, E, O>
      reads this
    {
      Players.Player(index, msgCount, state, currentRound, emitted, results, errors, fed, calls)
    }

    constructor (machine: Players.Machine<S, B, E, O>, index: U16, state: S)
      ensures View() == Players.Started(index, state) && this.machine == machine
    {
      this.machine := machine;
      this.index := index;
      this.state := state;
      msgCount, currentRound, emitted, results, errors, fed, calls := 0, None, [], [], [], [], [];
    }

    /** Drains the machine's queue, message by message. */
    method SendOutgoing()
      modifies this`emitted, this`state, this`calls
      ensures View() == Players.SendOutgoing(machine, old(View()))
    {
      var outgoing := machine.queue(state);
      calls := calls + [Players.Drain(state)];
      state := machine.drained(state);
      for i := 0 to |outgoing|
        invariant emitted == old(emitted) + outgoing[..i]
        invariant state == machine.drained(old(state)) && calls == old(calls) + [Players.Drain(old(state))]
      {
        emitted := emitted + [outgoing[i]];
      }
      assert outgoing[..|outgoing|] == outgoing;
    }

    method RefreshTimer()
      modifies this`currentRound
      ensures View() == Players.RefreshTimer(machine, old(View()))
    {
      var round := machine.round(state);
      if currentRound != Some(round) {
        currentRound := Some(round);
      }
    }

    method FinishIfPossible()
      modifies this`state, this`results, this`calls
      ensures View() == Players.FinishIfPossible(machine, old(View()))
    {
      if machine.isFinished(state) {
        calls := calls + [Players.Pick(state)];
        var (next, output) := machine.pick(state);
        state := next;
        if output.Some? && output.value.Ok? {
          results := results + [output.value.value];
        }
      }
    }

    method ProceedIfNeeded() returns (error: Option<E>)
      modifies this`state, this`calls
      ensures (View(), error) == Players.ProceedIfNeeded(machine, old(View()))
    {
      error := None;
      if machine.wantsToProceed(state) {
        calls := calls + [Players.Proceed(state)];
        var (next, e) := machine.proceed(state);
        state := next;
        error := e;
      }
    }

    method MaybeProceed() returns (error: Option<E>)
      modifies this`state, this`emitted, this`currentRound, this`results, this`calls
      ensures (View(), error) == Players.MaybeProceed(machine, old(View()))
    {
      SendOutgoing();
      RefreshTimer();
      error := ProceedIfNeeded();
      if error.Some? {
        return;
      }
      SendOutgoing();
      RefreshTimer();
      FinishIfPossible();
    }

    method OnMessage(msg: Players.Msg<B>)
      modifies this
      ensures View() == Players.OnMessage(machine, old(View()), msg)
    {
      if msg.sender == index {
        return;
      }
      if msg.receiver.Some? && msg.receiver.value != index {
        return;
      }
      msgCount := Truncate16(msgCount + 1);
      calls := calls + [Players.Handle(state, msg)];
      var (next, error) := machine.handle(state, msg);
      state := next;
      fed := fed + [msg];
      if error.Some? {
        errors := errors + [(error.value, msg)];
      }
      var error2 := MaybeProceed();
      if error2.Some? {
        errors := errors + [(error2.value, msg)];
      }
    }

    method OnTick()
      modifies this`state, this`emitted, this`currentRound, this`results, this`calls
      ensures View() == Players.OnTick(machine, old(View()))
    {
      if msgCount == 0 {
        var _ := MaybeProceed();
      }
    }
  }
}
