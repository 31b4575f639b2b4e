/** src/fsm/index.ts: a state machine whose `transitionTo` calls the current
    state's `onLeave`, switches, and calls the new state's `onEnter`.
    States are named by handles and their hooks are recorded, not run. */
module Fsms {
  import opened Common

  /** One call of a state's lifecycle hook. */
  datatype Hook = Leave(state: nat) | Enter(state: nat, params: JsValue)

  /** The hook calls a machine that started in `start` has made, ending in
      `current`: each `onEnter` comes right after the `onLeave` of the state
      that was current until then, except an entry from no state at all. */
  predicate Trace(start: Option<nat>, hooks: seq<Hook>, current: Option<nat>)
    decreases |hooks|
  {
    if hooks == [] then current == start
    else
      var last := hooks[|hooks| - 1];
      && last.Enter?
      && current == Some(last.state)
      && if |hooks| >= 2 && hooks[|hooks| - 2].Leave?
         then Trace(start, hooks[..|hooks| - 2], Some(hooks[|hooks| - 2].state))
         else |hooks| == 1 && start.None?
  }

  /** A machine's observable state. */
  datatype Machine = Machine(current: Option<nat>, hooks: seq<Hook>)

  /** `Fsm.transitionTo(toState, enterParams)`: there is no check for a
      missing current state, so that call throws before anything happens. */
  function Transition(m: Machine, to: nat, params: JsValue): Result<Machine>
  {
    match m.current
    case None => Err("Cannot read property 'onLeave' of undefined")
    case Some(c) => Ok(Machine(Some(to), m.hooks + [Leave(c), Enter(to, params)]))
  }

  /** A transition fails exactly when there is no current state; otherwise
      the old state is left before the new one is entered with the
      parameters, and the trace stays well formed. */
  lemma TransitionKeepsTrace(start: Option<nat>, m: Machine, to: nat, params: JsValue)
    requires Trace(start, m.hooks, m.current)
    ensures Transition(m, to, params).Ok? <==> m.current.Some?
    ensures Transition(m, to, params).Ok? ==>
      var m' := Transition(m, to, params).value;
      && m'.current == Some(to)
      && m'.hooks[..|m.hooks|] == m.hooks
      && m'.hooks[|m.hooks|..] == [Leave(m.current.value), Enter(to, params)]
      && Trace(start, m'.hooks, m'.current)
  {
    if m.current.Some? {
      var c := m.current.value;
      var h := m.hooks + [Leave(c), Enter(to, params)];
      assert Transition(m, to, params) == Ok(Machine(Some(to), h));
      assert h[..|h| - 2] == m.hooks;
      assert h[|h| - 2] == Leave(c) && h[|h| - 1] == Enter(to, params);
      assert h[..|m.hooks|] == m.hooks && h[|m.hooks|..] == [Leave(c), Enter(to, params)];
    }
  }

  class Fsm {
    /** Left undefined by the class; a subclass sets it. */
    var current: Option<nat>
    var hooks: seq<Hook>

    constructor (initial: Option<nat>)
      ensures current == initial && hooks == []
    {
      current := initial;
      hooks := [];
    }

    method TransitionTo(toState: nat, enterParams: JsValue) returns (r: Result<()>)
      modifies this
      ensures var t := Transition(Machine(old(current), old(hooks)), toState, enterParams);
        && (r.Ok? <==> t.Ok?)
        && (t.Ok? ==> Machine(current, hooks) == t.value)
        && (t.Err? ==> current == old(current) && hooks == old(hooks))
    {
      if current.None? {
        return Err("Cannot read property 'onLeave' of undefined");
      }
      hooks := hooks + [Leave(current.value)];
      current := Some(toState);
      hooks := hooks + [Enter(toState, enterParams)];
      r := Ok(());
    }
  }

  class State {
    const fsm: Fsm

    constructor (fsm: Fsm)
      ensures this.fsm == fsm
    {
      this.fsm := fsm;
    }

    /** Delegates to the machine with its arguments unchanged. */
    method TransitionTo(toState: nat, enterParams: JsValue) returns (r: Result<()>)
      modifies fsm
      ensures var t := Transition(Machine(old(fsm.current), old(fsm.hooks)), toState, enterParams);
        && (r.Ok? <==> t.Ok?)
        && (t.Ok? ==> Machine(fsm.current, fsm.hooks) == t.value)
        && (t.Err? ==> fsm.current == old(fsm.current) && fsm.hooks == old(fsm.hooks))
    {
      r := fsm.TransitionTo(toState, enterParams);
    }
  }
}
