/** src/game/behaviors/WorkerBehavior.ts: a farm worker who, under the
    `'used'` lock, greets a player who has not harvested wheat yet and
    hands a player who has the code editor (the `'code'` event). */
module WorkerBehaviors {
  import opened Common
  import opened Characters
  import opened BaseBehaviors

  const USED: string := "used"
  const GREETING: string := "Hello! Helper is waiting for you"

  /** What the source hears from the worker at a progress value. */
  function Reply(me: string, stage: Option<Stage>): seq<Emitted>
  {
    match stage
    case None => []
    case Some(WheatFound) => [CodeEvent(me)]
    case Some(_) => [MessageEvent(me, GREETING)]
  }

  /** The worker hands over the code exactly at WHEAT_FOUND, greets at each
      earlier stage, and says nothing for a value that is no stage. */
  lemma ReplyCases(me: string, stage: Option<Stage>)
    ensures (exists e :: e in Reply(me, stage) && e.CodeEvent?) <==> stage == Some(WheatFound)
    ensures MessageEvent(me, GREETING) in Reply(me, stage) <==> stage.Some? && stage != Some(WheatFound)
    ensures Reply(me, stage) == [] <==> stage.None?
    ensures |Reply(me, stage)| <= 1
  {
    if stage == Some(WheatFound) {
      assert CodeEvent(me) in Reply(me, stage);
    }
  }

  class WorkerBehavior {
    const base: BaseBehavior

    constructor (base: BaseBehavior)
      ensures this.base == base
    {
      this.base := base;
    }

    /** `onUsed(source)`: a held lock ignores the use; otherwise the reply
        for the source's progress, a look at the source when greeting, and
        the lock is released, so the set of held locks is as before. */
    method OnUsed(source: Character)
      modifies base, base.me, source
      ensures base.locks == old(base.locks)
      ensures USED in old(base.locks) ==>
        source.emitted == old(source.emitted) && base.me.actions == old(base.me.actions)
      ensures USED !in old(base.locks) ==>
        var stage := StageOf(old(source.GetPropN(N_QUEST_FARM_PROGRESS)));
        && source.emitted == old(source.emitted) + Reply(base.me.id, stage)
        && base.me.actions == old(base.me.actions)
             + (if stage.Some? && stage != Some(WheatFound) then [LookAt(old(source.position))] else [])
      ensures source.propsN == old(source.propsN) && source.propsBT == old(source.propsBT)
      ensures source.listeners == old(source.listeners)
    {
      var taken := base.Lock(USED);
      if !taken {
        return;
      }
      var stage := StageOf(source.GetPropN(N_QUEST_FARM_PROGRESS));
      match stage {
        case None =>
        case Some(WheatFound) =>
          source.Emit(CodeEvent(base.me.id));
        case Some(_) =>
          Greet(source);
      }
      base.Unlock(USED);
    }

    /** `greet(target)`: look at the target, then the greeting. */
    method Greet(target: Character)
      modifies base.me, target
      ensures base.me.actions == old(base.me.actions) + [LookAt(old(target.position))]
      ensures target.emitted == old(target.emitted) + [MessageEvent(base.me.id, GREETING)]
      ensures target.propsN == old(target.propsN) && target.propsBT == old(target.propsBT)
      ensures target.listeners == old(target.listeners)
    {
      base.me.Command(LookAt(target.position));
      base.SendMessage(target, GREETING);
    }
  }
}
