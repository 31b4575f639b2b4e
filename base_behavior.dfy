/** src/game/behaviors/BaseBehavior.ts: the behaviour base class, which owns
    its character, a set of named locks, and a way to send that character's
    messages to another. */
module BaseBehaviors {
  import opened Common
  import opened Characters

  /** The quest stage a character has reached, as stored under
      N_QUEST_FARM_PROGRESS.  The key and the enum values come from modules
      that are not part of this model; the values are taken to be the
      enum's positions. */
  const N_QUEST_FARM_PROGRESS: string := "N_QUEST_FARM_PROGRESS"
  const BT_WATER_INTRODUCED: string := "BT_WATER_INTRODUCED"
  const BT_SPROUT_INTRODUCED: string := "BT_SPROUT_INTRODUCED"

  datatype Stage = Init | WaterFound | SproutFound | WheatFound

  function StageValue(s: Stage): real
  {
    match s
    case Init => 0.0
    case WaterFound => 1.0
    case SproutFound => 2.0
    case WheatFound => 3.0
  }

  /** The `switch` over the stored progress: a value that is not one of
      the four stages selects no case. */
  function StageOf(progress: real): Option<Stage>
  {
    if progress == 0.0 then Some(Init)
    else if progress == 1.0 then Some(WaterFound)
    else if progress == 2.0 then Some(SproutFound)
    else if progress == 3.0 then Some(WheatFound)
    else None
  }

  /** The dispatch recognises exactly the stage values, each as itself. */
  lemma StageOfValue(s: Stage, progress: real)
    ensures StageOf(StageValue(s)) == Some(s)
    ensures StageOf(progress).Some? <==> exists t: Stage :: StageValue(t) == progress
    ensures StageOf(progress).Some? ==> StageValue(StageOf(progress).value) == progress
  {
    if StageOf(progress).Some? {
      assert StageValue(StageOf(progress).value) == progress;
    }
  }

  class BaseBehavior {
    const me: Character
    var locks: set<string>

    constructor (me: Character)
      ensures this.me == me && locks == {}
    {
      this.me := me;
      locks := {};
    }

    /** Takes the lock and answers true, or answers false when it is held. */
    method Lock(key: string) returns (taken: bool)
      modifies this
      ensures taken <==> key !in old(locks)
      ensures locks == old(locks) + {key}
    {
      if key in locks {
        return false;
      }
      locks := locks + {key};
      return true;
    }

    method Unlock(key: string)
      modifies this
      ensures locks == old(locks) - {key}
    {
      locks := locks - {key};
    }

    /** `sendMessage`: the target emits `'message'` with this behaviour's
        character as sender.  The promise resolves when the message has been
        shown, which is taken to happen at once. */
    method SendMessage(target: Character, message: string)
      modifies target
      ensures target.emitted == old(target.emitted) + [MessageEvent(me.id, message)]
      ensures target.propsB == old(target.propsB) && target.propsBT == old(target.propsBT)
      ensures target.propsN == old(target.propsN) && target.behavior == old(target.behavior)
      ensures target.delegated == old(target.delegated) && target.listeners == old(target.listeners)
      ensures target.actions == old(target.actions) && target.position == old(target.position)
    {
      target.Emit(MessageEvent(me.id, message));
    }
  }

  /** A held lock cannot be taken again until it is released, and locks
      under different keys do not affect each other. */
  method LocksAreIndependent(b: BaseBehavior, k1: string, k2: string) returns (first: bool, again: bool, other: bool)
    requires b.locks == {} && k1 != k2
    modifies b
    ensures first && !again && other
    ensures b.locks == {k1, k2}
  {
    first := b.Lock(k1);
    again := b.Lock(k1);
    other := b.Lock(k2);
  }

  /** Unlocking twice is unlocking once, and a released lock can be taken. */
  method UnlockIsIdempotent(b: BaseBehavior, k: string) returns (retaken: bool)
    modifies b
    ensures retaken
    ensures b.locks == old(b.locks) + {k}
  {
    b.Unlock(k);
    b.Unlock(k);
    retaken := b.Lock(k);
  }
}
