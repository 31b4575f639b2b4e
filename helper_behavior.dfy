/** src/game/behaviors/HelperBehavior.ts: the helper who walks the player
    through the farm quest.  Each use of the helper, under the `'used'` lock,
    runs the step for the player's quest progress; three listeners advance
    the progress when the player gets water, waters farmland and gets wheat.

    Awaited messages, stops and jumps complete at once.  The walk (`me.move`)
    is where an `onUsed` waits: `OnUsed` runs up to the start of the walk,
    and `OnWalkEnd` runs the rest when the engine reports the walk over. */
module HelperBehaviors {
  import opened Common
  import opened Characters
  import opened BaseBehaviors
  import opened MapServices

  const USED: string := "used"
  const FARMLAND: int := 7
  const WHEAT: int := 15

  /** The three listener functions of the behaviour instance `owner`. */
  function GetWaterListener(owner: nat): Listener { Handler(owner, "listenGetWater") }
  function UseWaterListener(owner: nat): Listener { Handler(owner, "listenUseWater") }
  function GetWheatListener(owner: nat): Listener { Handler(owner, "listenGetWheat") }

  /** The lines `onUsed` says for a progress value and the two
      introduce-once flags, before the walk when there is one. */
  function Lines(stage: Option<Stage>, waterIntroduced: bool, sproutIntroduced: bool): seq<string>
  {
    match stage
    case None => []
    case Some(Init) =>
      if !waterIntroduced then ["This place is so nice!", "Follow me. You can get water here."]
      else ["Click water block."]
    case Some(WaterFound) =>
      if !sproutIntroduced then ["Now you can grow a sprout"] else ["Click dirt block"]
    case Some(SproutFound) =>
      ["You can grow the sprout you've just planted by watering",
       "When all grown up, you can harvest wheat"]
    case Some(WheatFound) =>
      ["Well done! Now you know how to get a wheat",
       "We need wheat hmm... at least 20",
       "It would be hard to grow the whole wheat on your own",
       "Let me introduce people who can help you"]
  }

  /** The hint said at the end of a walk is the line an already-introduced
      step says at once, and a progress value that is no stage says nothing. */
  lemma WalkEndsWithHint(water: bool, sprout: bool)
    ensures Lines(None, water, sprout) == []
    ensures Lines(Some(Init), true, sprout) == ["Click water block."]
    ensures Lines(Some(WaterFound), water, true) == ["Click dirt block"]
    ensures |Lines(Some(Init), false, sprout)| == 2 && |Lines(Some(WaterFound), water, false)| == 1
  {
  }

  /** The step an `onUsed` is waiting in, with the character it talks to. */
  datatype Walk = ToWater(target: Character) | ToFarmland(target: Character)

  class HelperBehavior {
    const base: BaseBehavior
    const player: Character
    const mapService: MapService
    /** Identifies this instance's listener functions. */
    const handle: nat
    var moving: int
    var walk: Option<Walk>

    /** A waiting `onUsed` holds the lock and has counted its walk. */
    predicate Valid()
      reads this, base
    {
      && moving >= 0
      && (walk.Some? ==> USED in base.locks && moving >= 1)
    }

    constructor (base: BaseBehavior, player: Character, mapService: MapService, handle: nat)
      requires base.locks == {}
      ensures this.base == base && this.player == player && this.mapService == mapService
      ensures this.handle == handle
      ensures moving == 0 && walk == None && Valid()
    {
      this.base := base;
      this.player := player;
      this.mapService := mapService;
      this.handle := handle;
      moving := 0;
      walk := None;
    }

    /** How a step that walks ends its first half: the walk is counted and
        the lock kept; the walk starts, and waits in `next`, exactly when a
        walk for the ids can start from where the helper stood, and its path
        is the route planned there; otherwise nothing is commanded. */
    twostate predicate WalkBegun(new r: Result<()>, next: Walk, blockIds: seq<int>, finder: (int, int, int, int) -> seq<(int, int)>)
      reads this, base, base.me, mapService, mapService.ground
    {
      && moving == old(moving) + 1 && USED in base.locks
      && (r.Ok? <==> walk.Some?)
      && (r.Ok? <==> old(CanWalk(mapService, base.me.position, blockIds)))
      && (r.Err? ==> base.me.actions == old(base.me.actions))
      && (r.Ok? ==>
            && walk == Some(next)
            && |base.me.actions| == |old(base.me.actions)| + 1
            && base.me.actions[..|old(base.me.actions)|] == old(base.me.actions)
            && base.me.actions[|old(base.me.actions)|].Move?
            && PlannedWalk(mapService, old(base.me.position), blockIds, finder, base.me.actions[|old(base.me.actions)|].path))
    }

    /** The helper looks at the player except while it is walking. */
    method OnTick(dt: real)
      modifies base.me
      ensures base.me.actions == old(base.me.actions) + (if moving <= 0 then [LookAt(old(player.position))] else [])
      ensures base.me.emitted == old(base.me.emitted) && base.me.listeners == old(base.me.listeners)
    {
      if moving <= 0 {
        base.me.Command(LookAt(player.position));
      }
    }

    /** `onUsed(source)`, up to the walk when the step has one.  A held lock
        makes it return at once.  A walk starts by counting itself in
        `moving`; when there is no voxel to walk to, or no walkable cell
        next to it, the step throws and the lock and the count stay. */
    method OnUsed(source: Character, finder: (int, int, int, int) -> seq<(int, int)>) returns (r: Result<()>)
      requires Valid()
      modifies this, base, base.me, source
      ensures Valid()
      ensures USED in old(base.locks) ==>
        && r == Ok(()) && base.locks == old(base.locks) && walk == old(walk) && moving == old(moving)
        && source.emitted == old(source.emitted) && source.listeners == old(source.listeners)
        && source.propsBT == old(source.propsBT) && base.me.actions == old(base.me.actions)
      ensures USED !in old(base.locks) ==> StageOf(old(source.GetPropN(N_QUEST_FARM_PROGRESS))) == Some(Init) ==>
        var water := old(source.GetPropBT(BT_WATER_INTRODUCED));
        && source.emitted == old(source.emitted) + Said(base.me.id, Lines(Some(Init), water, false))
        && source.propsBT == old(source.propsBT) && source.propsN == old(source.propsN)
        && source.listeners == old(source.listeners)
        && (water ==>
              && r == Ok(()) && walk == None && USED !in base.locks && moving == old(moving)
              && base.me.actions == old(base.me.actions) + [Jump])
        && (!water ==> WalkBegun(r, ToWater(source), [WATER], finder))
      ensures USED !in old(base.locks) ==> StageOf(old(source.GetPropN(N_QUEST_FARM_PROGRESS))) == Some(WaterFound) ==>
        var sprout := old(source.GetPropBT(BT_SPROUT_INTRODUCED));
        && source.emitted == old(source.emitted) + Said(base.me.id, Lines(Some(WaterFound), false, sprout))
        && source.propsBT == old(source.propsBT) && source.propsN == old(source.propsN)
        && source.listeners == old(source.listeners)
        && (sprout ==>
              && r == Ok(()) && walk == None && USED !in base.locks && moving == old(moving)
              && base.me.actions == old(base.me.actions) + [Jump])
        && (!sprout ==> WalkBegun(r, ToFarmland(source), [FARMLAND], finder))
      ensures USED !in old(base.locks) ==> var stage := StageOf(old(source.GetPropN(N_QUEST_FARM_PROGRESS)));
        stage != Some(Init) && stage != Some(WaterFound) ==>
        && r == Ok(()) && walk == None && USED !in base.locks && moving == old(moving)
        && base.me.actions == old(base.me.actions)
        && source.emitted == old(source.emitted) + Said(base.me.id, Lines(stage, false, false))
        && source.propsBT == old(source.propsBT) && source.propsN == old(source.propsN)
        && (stage == Some(SproutFound) ==>
              source.listeners == old(source.listeners)
                + (if old(source.IsListening("getitem", GetWheatListener(handle))) then multiset{}
                   else multiset{("getitem", GetWheatListener(handle))}))
        && (stage != Some(SproutFound) ==> source.listeners == old(source.listeners))
    {
      var taken := base.Lock(USED);
      if !taken {
        return Ok(());
      }
      r := Step(source, finder);
    }

    /** The `switch` of `onUsed`, run under the lock. */
    method Step(source: Character, finder: (int, int, int, int) -> seq<(int, int)>) returns (r: Result<()>)
      requires USED in base.locks && walk == None && moving >= 0
      modifies this, base, base.me, source
      ensures Valid()
      ensures StageOf(old(source.GetPropN(N_QUEST_FARM_PROGRESS))) == Some(Init) ==>
        var water := old(source.GetPropBT(BT_WATER_INTRODUCED));
        && source.emitted == old(source.emitted) + Said(base.me.id, Lines(Some(Init), water, false))
        && source.propsBT == old(source.propsBT) && source.propsN == old(source.propsN)
        && source.listeners == old(source.listeners)
        && (water ==>
              && r == Ok(()) && walk == None && USED !in base.locks && moving == old(moving)
              && base.me.actions == old(base.me.actions) + [Jump])
        && (!water ==> WalkBegun(r, ToWater(source), [WATER], finder))
      ensures StageOf(old(source.GetPropN(N_QUEST_FARM_PROGRESS))) == Some(WaterFound) ==>
        var sprout := old(source.GetPropBT(BT_SPROUT_INTRODUCED));
        && source.emitted == old(source.emitted) + Said(base.me.id, Lines(Some(WaterFound), false, sprout))
        && source.propsBT == old(source.propsBT) && source.propsN == old(source.propsN)
        && source.listeners == old(source.listeners)
        && (sprout ==>
              && r == Ok(()) && walk == None && USED !in base.locks && moving == old(moving)
              && base.me.actions == old(base.me.actions) + [Jump])
        && (!sprout ==> WalkBegun(r, ToFarmland(source), [FARMLAND], finder))
      ensures var stage := StageOf(old(source.GetPropN(N_QUEST_FARM_PROGRESS)));
        stage != Some(Init) && stage != Some(WaterFound) ==>
        && r == Ok(()) && walk == None && USED !in base.locks && moving == old(moving)
        && base.me.actions == old(base.me.actions)
        && source.emitted == old(source.emitted) + Said(base.me.id, Lines(stage, false, false))
        && source.propsBT == old(source.propsBT) && source.propsN == old(source.propsN)
        && (stage == Some(SproutFound) ==>
              source.listeners == old(source.listeners)
                + (if old(source.IsListening("getitem", GetWheatListener(handle))) then multiset{}
                   else multiset{("getitem", GetWheatListener(handle))}))
        && (stage != Some(SproutFound) ==> source.listeners == old(source.listeners))
    {
      var stage := StageOf(source.GetPropN(N_QUEST_FARM_PROGRESS));
      match stage {
        case Some(Init) =>
          r := IntroduceWater(source, finder);
        case Some(WaterFound) =>
          r := IntroduceSprout(source, finder);
        case _ =>
          Talk(source, stage);
          r := Ok(());
      }
    }

    /** The steps without a walk: the lines, the wheat listener at
        SPROUT_FOUND, and the lock goes. */
    method Talk(source: Character, stage: Option<Stage>)
      requires stage != Some(Init) && stage != Some(WaterFound)
      modifies base, source
      ensures base.locks == old(base.locks) - {USED}
      ensures source.emitted == old(source.emitted) + Said(base.me.id, Lines(stage, false, false))
      ensures source.propsBT == old(source.propsBT) && source.propsN == old(source.propsN)
      ensures source.actions == old(source.actions)
      ensures stage == Some(SproutFound) ==>
        source.listeners == old(source.listeners)
          + (if old(source.IsListening("getitem", GetWheatListener(handle))) then multiset{}
             else multiset{("getitem", GetWheatListener(handle))})
      ensures stage != Some(SproutFound) ==> source.listeners == old(source.listeners)
    {
      match stage {
        case None =>
        case Some(SproutFound) =>
          RequestWheat(source);
        case Some(WheatFound) =>
          IntroduceWorker(source);
      }
      base.Unlock(USED);
    }

    /** Step 1, up to the walk: the walk and its lines happen only while the
        water flag is unset; otherwise the jump and hint, and the lock goes. */
    method IntroduceWater(target: Character, finder: (int, int, int, int) -> seq<(int, int)>) returns (r: Result<()>)
      requires USED in base.locks && walk == None && moving >= 0
      modifies this, base, base.me, target
      ensures Valid()
      ensures var water := old(target.GetPropBT(BT_WATER_INTRODUCED));
        && target.emitted == old(target.emitted) + Said(base.me.id, Lines(Some(Init), water, false))
        && target.propsBT == old(target.propsBT) && target.propsN == old(target.propsN)
        && target.listeners == old(target.listeners)
        && (water ==>
              && r == Ok(()) && walk == None && USED !in base.locks && moving == old(moving)
              && base.me.actions == old(base.me.actions) + [Jump])
        && (!water ==> WalkBegun(r, ToWater(target), [WATER], finder))
    {
      if !target.GetPropBT(BT_WATER_INTRODUCED) {
        base.SendMessage(target, "This place is so nice!");
        base.SendMessage(target, "Follow me. You can get water here.");
        r := BeginWalk([WATER], ToWater(target), finder);
        return;
      }
      FinishIntroduceWater(target);
      r := Ok(());
    }

    /** Step 2, up to the walk, under the sprout flag. */
    method IntroduceSprout(target: Character, finder: (int, int, int, int) -> seq<(int, int)>) returns (r: Result<()>)
      requires USED in base.locks && walk == None && moving >= 0
      modifies this, base, base.me, target
      ensures Valid()
      ensures var sprout := old(target.GetPropBT(BT_SPROUT_INTRODUCED));
        && target.emitted == old(target.emitted) + Said(base.me.id, Lines(Some(WaterFound), false, sprout))
        && target.propsBT == old(target.propsBT) && target.propsN == old(target.propsN)
        && target.listeners == old(target.listeners)
        && (sprout ==>
              && r == Ok(()) && walk == None && USED !in base.locks && moving == old(moving)
              && base.me.actions == old(base.me.actions) + [Jump])
        && (!sprout ==> WalkBegun(r, ToFarmland(target), [FARMLAND], finder))
    {
      if !target.GetPropBT(BT_SPROUT_INTRODUCED) {
        base.SendMessage(target, "Now you can grow a sprout");
        r := BeginWalk([FARMLAND], ToFarmland(target), finder);
        return;
      }
      FinishIntroduceSprout(target);
      r := Ok(());
    }

    /** `moveTo(blockIds)` up to `me.move(path)`: count the walk, find the
        nearest such voxel from the helper's position and a path to it. */
    method BeginWalk(blockIds: seq<int>, next: Walk, finder: (int, int, int, int) -> seq<(int, int)>) returns (r: Result<()>)
      requires USED in base.locks && walk == None && moving >= 0
      modifies this, base.me
      ensures Valid()
      ensures WalkBegun(r, next, blockIds, finder)
      ensures NearestVoxels.NoMatch(mapService.ground, blockIds) ==> r.Err?
      ensures base.me.emitted == old(base.me.emitted) && base.me.listeners == old(base.me.listeners)
      ensures base.me.propsBT == old(base.me.propsBT) && base.me.propsN == old(base.me.propsN)
    {
      moving := moving + 1;
      var path := PathToNearest(mapService, base.me.position, blockIds, finder);
      if path.Err? {
        return Err(path.error);
      }
      base.me.Command(Move(path.value));
      walk := Some(next);
      r := Ok(());
    }

    method FinishIntroduceWater(target: Character)
      modifies base, base.me, target
      ensures base.me.listeners == old(base.me.listeners)
      ensures target.emitted == old(target.emitted) + Said(base.me.id, ["Click water block."])
      ensures base.me.actions == old(base.me.actions) + [Jump]
      ensures base.locks == old(base.locks) - {USED}
      ensures target.propsBT == old(target.propsBT) && target.propsN == old(target.propsN)
      ensures target.listeners == old(target.listeners)
    {
      base.me.Command(Jump);
      base.SendMessage(target, "Click water block.");
      base.Unlock(USED);
    }

    method FinishIntroduceSprout(target: Character)
      modifies base, base.me, target
      ensures base.me.listeners == old(base.me.listeners)
      ensures target.emitted == old(target.emitted) + Said(base.me.id, ["Click dirt block"])
      ensures base.me.actions == old(base.me.actions) + [Jump]
      ensures base.locks == old(base.locks) - {USED}
      ensures target.propsBT == old(target.propsBT) && target.propsN == old(target.propsN)
      ensures target.listeners == old(target.listeners)
    {
      base.me.Command(Jump);
      base.SendMessage(target, "Click dirt block");
      base.Unlock(USED);
    }

    /** The rest of the waiting `onUsed` once the walk is over: uncount it,
        stop, set the introduce-once flag and register the step's listener
        (for water, on the player; for farmland, on the target), then the
        jump and hint, and release the lock.  With no walk pending, nothing
        happens. */
    method OnWalkEnd()
      requires Valid()
      modifies this, base, base.me, player, if walk.Some? then {walk.value.target} else {}
      ensures Valid() && walk == None
      ensures old(walk).None? ==> moving == old(moving) && base.locks == old(base.locks)
      ensures old(walk).Some? ==>
        var t := old(walk).value.target;
        && moving == old(moving) - 1 && base.locks == old(base.locks) - {USED}
        && base.me.actions == old(base.me.actions) + [Stop, Jump]
        && (old(walk).value.ToWater? ==>
              && t.GetPropBT(BT_WATER_INTRODUCED)
              && t.emitted == old(t.emitted) + Said(base.me.id, ["Click water block."])
              && player.listeners == old(player.listeners) + multiset{("getitem", GetWaterListener(handle))})
        && (old(walk).value.ToFarmland? ==>
              && t.GetPropBT(BT_SPROUT_INTRODUCED)
              && t.emitted == old(t.emitted) + Said(base.me.id, ["Click dirt block"])
              && t.listeners == old(t.listeners) + multiset{("usevoxel", UseWaterListener(handle))})
    {
      if walk.None? {
        return;
      }
      var w := walk.value;
      walk := None;
      moving := moving - 1;
      match w {
        case ToWater(t) => EndWaterWalk(t);
        case ToFarmland(t) => EndFarmlandWalk(t);
      }
    }

    method EndWaterWalk(t: Character)
      modifies base, base.me, player, t
      ensures base.locks == old(base.locks) - {USED}
      ensures base.me.actions == old(base.me.actions) + [Stop, Jump]
      ensures t.GetPropBT(BT_WATER_INTRODUCED)
      ensures t.emitted == old(t.emitted) + Said(base.me.id, ["Click water block."])
      ensures player.listeners == old(player.listeners) + multiset{("getitem", GetWaterListener(handle))}
    {
      base.me.Command(Stop);
      player.On("getitem", GetWaterListener(handle));
      t.SetPropBT(BT_WATER_INTRODUCED, true);
      FinishIntroduceWater(t);
    }

    method EndFarmlandWalk(t: Character)
      modifies base, base.me, t
      ensures base.locks == old(base.locks) - {USED}
      ensures base.me.actions == old(base.me.actions) + [Stop, Jump]
      ensures t.GetPropBT(BT_SPROUT_INTRODUCED)
      ensures t.emitted == old(t.emitted) + Said(base.me.id, ["Click dirt block"])
      ensures t.listeners == old(t.listeners) + multiset{("usevoxel", UseWaterListener(handle))}
    {
      base.me.Command(Stop);
      t.On("usevoxel", UseWaterListener(handle));
      t.SetPropBT(BT_SPROUT_INTRODUCED, true);
      FinishIntroduceSprout(t);
    }

    /** Step 3: the wheat listener is registered once, then two lines. */
    method RequestWheat(target: Character)
      modifies target
      ensures target.IsListening("getitem", GetWheatListener(handle))
      ensures target.listeners == old(target.listeners)
        + (if old(target.IsListening("getitem", GetWheatListener(handle))) then multiset{}
           else multiset{("getitem", GetWheatListener(handle))})
      ensures target.emitted == old(target.emitted) + Said(base.me.id, Lines(Some(SproutFound), false, false))
      ensures target.propsBT == old(target.propsBT) && target.propsN == old(target.propsN)
      ensures target.actions == old(target.actions)
    {
      if !target.IsListening("getitem", GetWheatListener(handle)) {
        target.On("getitem", GetWheatListener(handle));
      }
      base.SendMessage(target, "You can grow the sprout you've just planted by watering");
      base.SendMessage(target, "When all grown up, you can harvest wheat");
    }

    /** Step 4: four lines. */
    method IntroduceWorker(target: Character)
      modifies target
      ensures target.emitted == old(target.emitted) + Said(base.me.id, Lines(Some(WheatFound), false, false))
      ensures target.propsBT == old(target.propsBT) && target.propsN == old(target.propsN)
      ensures target.actions == old(target.actions)
      ensures target.listeners == old(target.listeners)
    {
      base.SendMessage(target, "Well done! Now you know how to get a wheat");
      base.SendMessage(target, "We need wheat hmm... at least 20");
      base.SendMessage(target, "It would be hard to grow the whole wheat on your own");
      base.SendMessage(target, "Let me introduce people who can help you");
    }

    /** `listenGetWater`: only water (6) counts; it unregisters itself from
        the player and records WATER_FOUND on the player. */
    method ListenGetWater(voxelId: int)
      modifies player
      ensures voxelId != WATER ==> player.propsN == old(player.propsN) && player.listeners == old(player.listeners)
      ensures voxelId == WATER ==>
        && player.GetPropN(N_QUEST_FARM_PROGRESS) == StageValue(WaterFound)
        && player.listeners == old(player.listeners) - multiset{("getitem", GetWaterListener(handle))}
      ensures player.propsBT == old(player.propsBT) && player.emitted == old(player.emitted)
    {
      if voxelId != WATER {
        return;
      }
      player.RemoveListener("getitem", GetWaterListener(handle));
      player.SetPropN(N_QUEST_FARM_PROGRESS, StageValue(WaterFound));
    }

    /** `listenUseWater`: only farmland (7) counts; it records SPROUT_FOUND.
        It unregisters itself from the player, though it was registered on
        the target of the step. */
    method ListenUseWater(voxelId: int)
      modifies player
      ensures voxelId != FARMLAND ==> player.propsN == old(player.propsN) && player.listeners == old(player.listeners)
      ensures voxelId == FARMLAND ==>
        && player.GetPropN(N_QUEST_FARM_PROGRESS) == StageValue(SproutFound)
        && player.listeners == old(player.listeners) - multiset{("usevoxel", UseWaterListener(handle))}
      ensures player.propsBT == old(player.propsBT) && player.emitted == old(player.emitted)
    {
      if voxelId != FARMLAND {
        return;
      }
      player.RemoveListener("usevoxel", UseWaterListener(handle));
      player.SetPropN(N_QUEST_FARM_PROGRESS, StageValue(SproutFound));
    }

    /** `listenGetWheat`: only wheat (15) counts; it records WHEAT_FOUND. */
    method ListenGetWheat(voxelId: int)
      modifies player
      ensures voxelId != WHEAT ==> player.propsN == old(player.propsN) && player.listeners == old(player.listeners)
      ensures voxelId == WHEAT ==>
        && player.GetPropN(N_QUEST_FARM_PROGRESS) == StageValue(WheatFound)
        && player.listeners == old(player.listeners) - multiset{("getitem", GetWheatListener(handle))}
      ensures player.propsBT == old(player.propsBT) && player.emitted == old(player.emitted)
    {
      if voxelId != WHEAT {
        return;
      }
      player.RemoveListener("getitem", GetWheatListener(handle));
      player.SetPropN(N_QUEST_FARM_PROGRESS, StageValue(WheatFound));
    }
  }

  /** While the helper walks, a use is ignored and the helper does not turn
      to the player. */
  method UseWhileWalking(h: HelperBehavior, source: Character, finder: (int, int, int, int) -> seq<(int, int)>)
      returns (r: Result<()>)
    requires h.Valid() && h.walk.Some?
    modifies h, h.base, h.base.me, source
    ensures r == Ok(()) && h.walk == old(h.walk) && source.emitted == old(source.emitted)
    ensures h.base.me.actions == old(h.base.me.actions)
  {
    r := h.OnUsed(source, finder);
    h.OnTick(16.0);
  }

  /** A walk that cannot start leaves the lock held and the walk counted, so
      every later use is ignored and the helper never looks at the player
      again. */
  method StuckAfterFailedWalk(h: HelperBehavior, source: Character, finder: (int, int, int, int) -> seq<(int, int)>)
      returns (first: Result<()>, second: Result<()>)
    requires h.Valid() && h.walk.None? && h.moving == 0 && USED !in h.base.locks
    requires source.GetPropN(N_QUEST_FARM_PROGRESS) == StageValue(Init)
    requires !source.GetPropBT(BT_WATER_INTRODUCED)
    modifies h, h.base, h.base.me, source
    ensures first.Err? ==> second == Ok(()) && h.moving == 1 && USED in h.base.locks
    ensures first.Err? ==> h.base.me.actions == old(h.base.me.actions)
  {
    first := h.OnUsed(source, finder);
    if first.Err? {
      second := h.OnUsed(source, finder);
      h.OnTick(16.0);
    } else {
      second := Ok(());
    }
  }

  /** The first use at INIT, when its walk starts and ends, says the two walk
      lines and then the hint, sets the water flag, leaves the player
      listening for water and releases the lock: the state a second use
      finds, which then says only the hint. */
  method WaterWalkConversation(h: HelperBehavior, source: Character, finder: (int, int, int, int) -> seq<(int, int)>)
      returns (r: Result<()>)
    requires h.Valid() && h.walk.None? && USED !in h.base.locks
    requires source.GetPropN(N_QUEST_FARM_PROGRESS) == StageValue(Init)
    requires !source.GetPropBT(BT_WATER_INTRODUCED)
    modifies h, h.base, h.base.me, h.player, source
    ensures r.Ok? ==>
      && source.emitted == old(source.emitted)
           + Said(h.base.me.id, Lines(Some(Init), false, false) + Lines(Some(Init), true, false))
      && source.GetPropBT(BT_WATER_INTRODUCED)
      && h.player.IsListening("getitem", GetWaterListener(h.handle))
      && USED !in h.base.locks && h.walk.None? && h.moving == old(h.moving)
  {
    r := h.OnUsed(source, finder);
    if r.Ok? {
      h.OnWalkEnd();
      SaidAppend(h.base.me.id, Lines(Some(Init), false, false), Lines(Some(Init), true, false));
    }
  }
}
