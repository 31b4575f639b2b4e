/** src/game/Character.ts: a game character with three property stores, a
    current behaviour to which ticks and uses are delegated, and the parts
    of the engine's game object the behaviours drive (its event emitter,
    its body's commands, its physics body).  Behaviours are named by
    handles; what a delegated call does is the behaviour's own model. */
module Characters {
  import opened Common

  /** Handle of the shared `defaultBehavior`, whose hooks do nothing. */
  const DEFAULT_BEHAVIOR: nat := 0

  /** A call the character forwards to its current behaviour. */
  datatype BehaviorCall = TickCall(behavior: nat, dt: real) | UsedCall(behavior: nat, sender: string)

  /** An event the character emitted.  Delivery to listeners is the engine's. */
  datatype Emitted =
    | MessageEvent(sender: string, message: string)
    | CodeEvent(sender: string)

  /** A command given to the character's body. */
  datatype Action = LookAt(target: Vec3) | Jump | Stop | Move(path: seq<Vec3>)

  /** A listener function: the forwarder the constructor registers, or a
      handler owned by a behaviour instance. */
  datatype Listener = ForwardUsed | Handler(owner: nat, name: string)

  /** `!!map.get(key)`: an unset key reads as false. */
  function BoolProp(m: map<string, bool>, key: string): bool
  {
    key in m && m[key]
  }

  /** `map.get(key) || 0`: an unset key reads as 0.  A stored number is read
      back as it is (0 is the only falsy number modelled, and it reads as 0). */
  function NumProp(m: map<string, real>, key: string): real
  {
    if key in m && m[key] != 0.0 then m[key] else 0.0
  }

  /** An unset property reads as false or 0; a set property reads back what
      was stored, and setting one key leaves every other key as it read. */
  lemma PropsReadBack(b: map<string, bool>, n: map<string, real>, key: string, other: string, vb: bool, vn: real)
    ensures !BoolProp(map[], key) && NumProp(map[], key) == 0.0
    ensures BoolProp(b[key := vb], key) == vb && NumProp(n[key := vn], key) == vn
    ensures other != key ==> BoolProp(b[key := vb], other) == BoolProp(b, other)
    ensures other != key ==> NumProp(n[key := vn], other) == NumProp(n, other)
  {
  }

  /** The lines of a conversation, as the `'message'` events the listener receives. */
  function Said(sender: string, lines: seq<string>): (es: seq<Emitted>)
    ensures |es| == |lines|
    ensures forall i :: 0 <= i < |lines| ==> es[i] == MessageEvent(sender, lines[i])
  {
    if lines == [] then [] else [MessageEvent(sender, lines[0])] + Said(sender, lines[1..])
  }

  lemma SaidAppend(sender: string, a: seq<string>, b: seq<string>)
    ensures Said(sender, a + b) == Said(sender, a) + Said(sender, b)
  {
  }

  class Character {
    const id: string
    var name: string
    /** The body's position and its physics state, kept by the engine. */
    var position: Vec3
    var velocity: Vec3
    var center: Vec3
    var behavior: nat
    var propsB: map<string, bool>
    var propsBT: map<string, bool>
    var propsN: map<string, real>
    /** Calls forwarded to behaviours, in order. */
    var delegated: seq<BehaviorCall>
    /** Registered listeners, as (event, listener); a listener added twice
        is there twice, and `removeListener` takes one away. */
    var listeners: multiset<(string, Listener)>
    var emitted: seq<Emitted>
    var actions: seq<Action>

    constructor (id: string, name: string, position: Vec3)
      ensures this.id == id && this.name == name && this.position == position
      ensures behavior == DEFAULT_BEHAVIOR
      ensures propsB == map[] && propsBT == map[] && propsN == map[]
      ensures listeners == multiset{("used", ForwardUsed)}
      ensures delegated == [] && emitted == [] && actions == []
    {
      this.id := id;
      this.name := name;
      this.position := position;
      velocity := Vec3(0.0, 0.0, 0.0);
      center := position;
      behavior := DEFAULT_BEHAVIOR;
      propsB := map[];
      propsBT := map[];
      propsN := map[];
      delegated := [];
      listeners := multiset{("used", ForwardUsed)};
      emitted := [];
      actions := [];
    }

    function GetPropB(key: string): bool
      reads this
    {
      BoolProp(propsB, key)
    }

    function GetPropBT(key: string): bool
      reads this
    {
      BoolProp(propsBT, key)
    }

    function GetPropN(key: string): real
      reads this
    {
      NumProp(propsN, key)
    }

    method SetPropsB(key: string, val: bool)
      modifies this
      ensures propsB == old(propsB)[key := val] && GetPropB(key) == val
      ensures propsBT == old(propsBT) && propsN == old(propsN)
      ensures behavior == old(behavior) && delegated == old(delegated)
      ensures listeners == old(listeners) && emitted == old(emitted) && actions == old(actions)
    {
      propsB := propsB[key := val];
    }

    method SetPropBT(key: string, val: bool)
      modifies this
      ensures propsBT == old(propsBT)[key := val] && GetPropBT(key) == val
      ensures propsB == old(propsB) && propsN == old(propsN)
      ensures behavior == old(behavior) && delegated == old(delegated)
      ensures listeners == old(listeners) && emitted == old(emitted) && actions == old(actions)
    {
      propsBT := propsBT[key := val];
    }

    method SetPropN(key: string, val: real)
      modifies this
      ensures propsN == old(propsN)[key := val] && GetPropN(key) == val
      ensures propsB == old(propsB) && propsBT == old(propsBT)
      ensures behavior == old(behavior) && delegated == old(delegated)
      ensures listeners == old(listeners) && emitted == old(emitted) && actions == old(actions)
    {
      propsN := propsN[key := val];
    }

    method SetBehavior(b: nat)
      modifies this
      ensures behavior == b
      ensures propsB == old(propsB) && propsBT == old(propsBT) && propsN == old(propsN)
      ensures delegated == old(delegated) && listeners == old(listeners)
      ensures emitted == old(emitted) && actions == old(actions)
    {
      behavior := b;
    }

    /** `onTick` goes to the behaviour current at the time of the call. */
    method OnTick(dt: real)
      modifies this
      ensures delegated == old(delegated) + [TickCall(behavior, dt)]
      ensures behavior == old(behavior)
      ensures propsB == old(propsB) && propsBT == old(propsBT) && propsN == old(propsN)
      ensures listeners == old(listeners) && emitted == old(emitted) && actions == old(actions)
    {
      delegated := delegated + [TickCall(behavior, dt)];
    }

    /** The `'used'` listener the constructor registers: it reads `behavior`
        when the event arrives, not when it was registered. */
    method Used(sender: string)
      modifies this
      ensures delegated == old(delegated) + [UsedCall(behavior, sender)]
      ensures behavior == old(behavior)
      ensures propsB == old(propsB) && propsBT == old(propsBT) && propsN == old(propsN)
      ensures listeners == old(listeners) && emitted == old(emitted) && actions == old(actions)
    {
      delegated := delegated + [UsedCall(behavior, sender)];
    }

    /** The emitter's `on`. */
    method On(event: string, listener: Listener)
      modifies this
      ensures listeners == old(listeners) + multiset{(event, listener)}
      ensures propsB == old(propsB) && propsBT == old(propsBT) && propsN == old(propsN)
      ensures behavior == old(behavior) && delegated == old(delegated)
      ensures emitted == old(emitted) && actions == old(actions)
    {
      listeners := listeners + multiset{(event, listener)};
    }

    /** The emitter's `removeListener`: one registration goes, if there is one. */
    method RemoveListener(event: string, listener: Listener)
      modifies this
      ensures listeners == old(listeners) - multiset{(event, listener)}
      ensures propsB == old(propsB) && propsBT == old(propsBT) && propsN == old(propsN)
      ensures behavior == old(behavior) && delegated == old(delegated)
      ensures emitted == old(emitted) && actions == old(actions)
    {
      listeners := listeners - multiset{(event, listener)};
    }

    function IsListening(event: string, listener: Listener): bool
      reads this
    {
      listeners[(event, listener)] > 0
    }

    /** `emit(...)`, recorded. */
    method Emit(e: Emitted)
      modifies this
      ensures emitted == old(emitted) + [e]
      ensures propsB == old(propsB) && propsBT == old(propsBT) && propsN == old(propsN)
      ensures behavior == old(behavior) && delegated == old(delegated)
      ensures listeners == old(listeners) && actions == old(actions)
      ensures velocity == old(velocity) && position == old(position) && center == old(center)
    {
      emitted := emitted + [e];
    }

    /** A command to the body (`lookAt`, `jump`, `stop`, `move`), recorded. */
    method Command(a: Action)
      modifies this
      ensures actions == old(actions) + [a]
      ensures propsB == old(propsB) && propsBT == old(propsBT) && propsN == old(propsN)
      ensures behavior == old(behavior) && delegated == old(delegated)
      ensures listeners == old(listeners) && emitted == old(emitted)
      ensures velocity == old(velocity) && position == old(position) && center == old(center)
    {
      actions := actions + [a];
    }
  }

  /** Delegation follows the behaviour in place at call time: a tick before
      `setBehavior(b)` goes to the old behaviour and one after it goes to `b`;
      a new character's first tick goes to the shared default. */
  method SwitchBehavior(c: Character, b: nat, dt: real)
    modifies c
    ensures c.delegated == old(c.delegated) + [TickCall(old(c.behavior), dt), TickCall(b, dt)]
  {
    c.OnTick(dt);
    c.SetBehavior(b);
    c.OnTick(dt);
  }

  /** The three stores are separate: a numeric property set under a key
      leaves the boolean properties under the same key as they read. */
  method StoresAreSeparate(c: Character, key: string, v: real)
    modifies c
    ensures c.GetPropN(key) == v
    ensures c.GetPropB(key) == old(c.GetPropB(key)) && c.GetPropBT(key) == old(c.GetPropBT(key))
  {
    c.SetPropN(key, v);
  }
}
