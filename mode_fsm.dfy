/** src/game/modes/ModeFsm.ts: the game's mode machine.  Modes are
    registered under names; a transition to a name leaves the current mode,
    if any, and enters the registered one. */
module ModeFsms {
  import opened Common
  import opened Fsms

  const STATE_FPS: string := "STATE_FPS"
  const STATE_TRANSITION: string := "STATE_TRANSITION"
  const STATE_TOP_DOWN: string := "STATE_TOP_DOWN"

  /** What a mode throws when it reads a property of `this.fsm.states`:
      ModeFsm declares no `states`, so the object is undefined. */
  const STATES_UNDEFINED: string := "TypeError: Cannot read properties of undefined (this.fsm.states)"

  datatype ModeMachine = ModeMachine(registry: map<string, nat>, current: Option<nat>, hooks: seq<Hook>)

  /** `register(stateName, state)`. */
  function Registered(m: ModeMachine, name: string, state: nat): ModeMachine
  {
    m.(registry := m.registry[name := state])
  }

  /** `transitionTo(state, params)`. */
  function Transitioned(m: ModeMachine, name: string, params: JsValue): Result<ModeMachine>
  {
    if name !in m.registry then Err("State not exist: " + name)
    else
      var left := if m.current.Some? then m.hooks + [Leave(m.current.value)] else m.hooks;
      var to := m.registry[name];
      Ok(m.(current := Some(to), hooks := left + [Enter(to, params)]))
  }

  /** Registering overwrites only the registered name. */
  lemma RegisterOverwrites(m: ModeMachine, name: string, state: nat, other: string)
    ensures Registered(m, name, state).registry[name] == state
    ensures other != name ==> (other in Registered(m, name, state).registry <==> other in m.registry)
    ensures other != name && other in m.registry ==> Registered(m, name, state).registry[other] == m.registry[other]
    ensures Registered(m, name, state).current == m.current && Registered(m, name, state).hooks == m.hooks
  {
  }

  /** A transition to an unknown name throws and calls no hook; to a known
      name it makes the registered mode current, having left the old mode
      (when there was one) before entering the new one with the parameters;
      either way the hook trace stays well formed. */
  lemma TransitionEffect(start: Option<nat>, m: ModeMachine, name: string, params: JsValue)
    requires Trace(start, m.hooks, m.current)
    ensures Transitioned(m, name, params).Ok? <==> name in m.registry
    ensures Transitioned(m, name, params).Ok? ==>
      var m' := Transitioned(m, name, params).value;
      && m'.registry == m.registry
      && m'.current == Some(m.registry[name])
      && m'.hooks[..|m.hooks|] == m.hooks
      && m'.hooks[|m.hooks|..] == (if m.current.Some? then [Leave(m.current.value)] else [])
                                   + [Enter(m.registry[name], params)]
      && Trace(start, m'.hooks, m'.current)
  {
    if name in m.registry {
      var m' := Transitioned(m, name, params).value;
      if m.current.Some? {
        assert m'.hooks[..|m'.hooks| - 2] == m.hooks;
      } else {
        assert m.hooks == [];
      }
    }
  }

  /** The mode registered last under a name is the one a transition enters. */
  lemma RegisterThenTransition(m: ModeMachine, name: string, state: nat, params: JsValue)
    ensures Transitioned(Registered(m, name, state), name, params).Ok?
    ensures Transitioned(Registered(m, name, state), name, params).value.current == Some(state)
  {
  }

  class ModeFsm {
    var registry: map<string, nat>
    var current: Option<nat>
    var hooks: seq<Hook>

    function Abs(): ModeMachine
      reads this
    {
      ModeMachine(registry, current, hooks)
    }

    constructor ()
      ensures Abs() == ModeMachine(map[], None, [])
    {
      registry := map[];
      current := None;
      hooks := [];
    }

    method Register(stateName: string, state: nat)
      modifies this
      ensures Abs() == Registered(old(Abs()), stateName, state)
    {
      registry := registry[stateName := state];
    }

    method TransitionTo(state: string, params: JsValue) returns (r: Result<()>)
      modifies this
      ensures r.Ok? <==> Transitioned(old(Abs()), state, params).Ok?
      ensures r.Ok? ==> Abs() == Transitioned(old(Abs()), state, params).value
      ensures r.Err? ==> Abs() == old(Abs())
    {
      if state !in registry {
        return Err("State not exist: " + state);
      }
      if current.Some? {
        hooks := hooks + [Leave(current.value)];
      }
      current := Some(registry[state]);
      hooks := hooks + [Enter(current.value, params)];
      r := Ok(());
    }
  }

  /** `ModeState`: a mode holding its machine. */
  class ModeState {
    const fsm: ModeFsm

    constructor (fsm: ModeFsm)
      ensures this.fsm == fsm
    {
      this.fsm := fsm;
    }

    /** Delegates to the machine with its arguments unchanged. */
    method TransitionTo(state: string, params: JsValue) returns (r: Result<()>)
      modifies fsm
      ensures r.Ok? <==> Transitioned(old(fsm.Abs()), state, params).Ok?
      ensures r.Ok? ==> fsm.Abs() == Transitioned(old(fsm.Abs()), state, params).value
      ensures r.Err? ==> fsm.Abs() == old(fsm.Abs())
    {
      r := fsm.TransitionTo(state, params);
    }
  }
}
