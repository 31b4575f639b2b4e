/** src/game/HelperBehavior.tsx: the scripted helper, which on each use
    while idle runs the next of four steps (to water, to farmland, the wheat
    request, the cubies) and counts the step once it has run.  Messages go
    to the player with the helper as sender.  The two walks are where a use
    waits: `HandleUsed` runs up to the start of the walk and `OnMoveEnd`
    runs the rest of the step. */
module StepHelpers {
  import opened Common
  import opened Characters
  import opened MapServices

  datatype HelperState = Idle | Moving

  /** The step waiting in a walk. */
  datatype Goal = WaterGoal | SproutGoal

  const WATER_ID: int := 6
  const FARMLAND_ID: int := 7
  const STEPS: int := 4

  /** The `'used'` handler this helper registers on its character. */
  function HandleUsedListener(owner: nat): Listener { Handler(owner, "handleUsed") }

  /** The first two steps walk. */
  predicate Walks(step: int)
  {
    step == 0 || step == 1
  }

  /** What a step says before its walk, or all it says when it has none. */
  function Opening(step: int): seq<string>
  {
    if step == 0 then ["This place is so nice!", "Follow me. You can get water here."]
    else if step == 1 then ["Now you can grow a sprout"]
    else if step == 2 then
      ["You can grow the sprout you've just planted by watering", "When all grown up, you can harvest wheat"]
    else if step == 3 then ["Let's go cubies", "Click cubie"]
    else []
  }

  /** What a walking step says after its walk. */
  function Closing(g: Goal): seq<string>
  {
    match g
    case WaterGoal => ["Click water block."]
    case SproutGoal => ["Click dirt block"]
  }

  /** The voxel each walking step walks to. */
  function Target(g: Goal): int
  {
    match g
    case WaterGoal => WATER_ID
    case SproutGoal => FARMLAND_ID
  }

  /** All a step says when its walk, if any, succeeds. */
  function StepLines(step: int): seq<string>
  {
    Opening(step) + (if step == 0 then Closing(WaterGoal) else if step == 1 then Closing(SproutGoal) else [])
  }

  /** The script of the first `steps` steps, as the player hears it. */
  function Script(steps: nat): seq<string>
  {
    if steps == 0 then [] else Script(steps - 1) + StepLines(steps - 1)
  }

  /** Each step continues the script of the steps before it. */
  lemma {:induction false} ScriptGrows(m: nat, n: nat)
    requires m <= n
    ensures Script(m) <= Script(n)
  {
    if m < n {
      ScriptGrows(m, n - 1);
      PrefixOfLonger(Script(m), Script(n - 1), StepLines(n - 1));
    }
  }

  lemma PrefixOfLonger(a: seq<string>, b: seq<string>, c: seq<string>)
    requires a <= b
    ensures a <= b + c
  {
    assert (b + c)[..|a|] == b[..|a|];
  }

  /** The four steps say nine lines in all, and no later use says more. */
  lemma {:induction false} ScriptIsFinite(steps: nat)
    ensures steps >= STEPS ==> Script(steps) == Script(STEPS)
    ensures |Script(STEPS)| == 9
  {
    if steps > STEPS {
      ScriptIsFinite(steps - 1);
    }
    assert Script(STEPS) == StepLines(0) + StepLines(1) + StepLines(2) + StepLines(3);
  }

  class StepHelper {
    const mapService: MapService
    const player: Character
    const helper: Character
    const handle: nat
    var state: HelperState
    /** The number of steps that have run to their end. */
    var step: int
    /** The step waiting in a walk. */
    var walk: Option<Goal>

    /** The helper walks exactly while a step waits in a walk, and that is
        the current step, which walks. */
    predicate Valid()
      reads this
    {
      && step >= 0
      && (state == Moving <==> walk.Some?)
      && (walk == Some(WaterGoal) ==> step == 0)
      && (walk == Some(SproutGoal) ==> step == 1)
    }

    constructor (mapService: MapService, player: Character, helper: Character, handle: nat)
      modifies helper
      ensures this.mapService == mapService && this.player == player && this.helper == helper
      ensures this.handle == handle
      ensures state == Idle && step == 0 && walk == None && Valid()
      ensures helper.listeners == old(helper.listeners) + multiset{("used", HandleUsedListener(handle))}
      ensures helper.actions == old(helper.actions) && helper.emitted == old(helper.emitted)
    {
      this.mapService := mapService;
      this.player := player;
      this.helper := helper;
      this.handle := handle;
      helper.On("used", HandleUsedListener(handle));
      state := Idle;
      step := 0;
      walk := None;
    }

    /** How a walking step ends its first half: the walk starts, and waits
        in `g`, exactly when a walk to the goal's voxel can start from where
        the helper stood, and its path is the route planned there;
        otherwise the helper stays idle and nothing is commanded. */
    twostate predicate WalkBegun(new r: Result<()>, g: Goal, finder: (int, int, int, int) -> seq<(int, int)>)
      reads this, helper, mapService, mapService.ground
    {
      && (r.Ok? <==> state == Moving)
      && (r.Ok? <==> old(CanWalk(mapService, helper.position, [Target(g)])))
      && (r.Err? ==> state == Idle && walk == None && helper.actions == old(helper.actions))
      && (r.Ok? ==>
            && walk == Some(g)
            && |helper.actions| == |old(helper.actions)| + 1
            && helper.actions[..|old(helper.actions)|] == old(helper.actions)
            && helper.actions[|old(helper.actions)|].Move?
            && PlannedWalk(mapService, old(helper.position), [Target(g)], finder, helper.actions[|old(helper.actions)|].path))
    }

    /** The helper looks at the player except while walking. */
    method OnTick(dt: real)
      modifies helper
      ensures helper.actions == old(helper.actions) + (if state != Moving then [LookAt(old(player.position))] else [])
      ensures helper.emitted == old(helper.emitted)
    {
      if state != Moving {
        helper.Command(LookAt(player.position));
      }
    }

    /** `sendMessageToPlayer`: the player emits `'message'` from the helper. */
    method SendMessageToPlayer(message: string)
      modifies player
      ensures player.emitted == old(player.emitted) + [MessageEvent(helper.id, message)]
      ensures player.actions == old(player.actions) && player.position == old(player.position)
    {
      player.Emit(MessageEvent(helper.id, message));
    }

    /** `handleUsed`, up to the walk of a walking step.  An idle helper runs
        the current step: the opening lines, then for the first two steps
        the walk to the nearest water or farmland, and for the other two
        their actions and the count.  A walk that cannot start rejects the
        step's promise: the helper stays idle and the step is not counted,
        so the next use runs it again.  From the fifth use on, nothing. */
    method HandleUsed(finder: (int, int, int, int) -> seq<(int, int)>) returns (r: Result<()>)
      requires Valid()
      modifies this, player, helper
      ensures Valid()
      ensures old(state) != Idle || old(step) >= STEPS ==>
        && r == Ok(()) && state == old(state) && step == old(step) && walk == old(walk)
        && player.emitted == old(player.emitted) && helper.actions == old(helper.actions)
      ensures old(state) == Idle && old(step) < STEPS ==>
        && player.emitted == old(player.emitted) + Said(helper.id, Opening(old(step)))
        && (!Walks(old(step)) ==>
              && r == Ok(()) && state == Idle && step == old(step) + 1
              && helper.actions == old(helper.actions) + (if old(step) == 3 then [Jump] else []))
        && (Walks(old(step)) ==>
              && step == old(step)
              && WalkBegun(r, if old(step) == 0 then WaterGoal else SproutGoal, finder))
    {
      if state != Idle {
        return Ok(());
      }
      if step == 0 {
        r := GoWater(finder);
      } else if step == 1 {
        r := GoSprout(finder);
      } else if step == 2 {
        OrderWheat();
        step := step + 1;
        r := Ok(());
      } else if step == 3 {
        GoCubie();
        step := step + 1;
        r := Ok(());
      } else {
        r := Ok(());
      }
    }

    /** `goWater`, up to the walk. */
    method GoWater(finder: (int, int, int, int) -> seq<(int, int)>) returns (r: Result<()>)
      requires state == Idle && walk == None
      modifies this, player, helper
      ensures step == old(step)
      ensures player.emitted == old(player.emitted) + Said(helper.id, Opening(0))
      ensures WalkBegun(r, WaterGoal, finder)
    {
      SendMessageToPlayer("This place is so nice!");
      SendMessageToPlayer("Follow me. You can get water here.");
      r := GoWalk(WaterGoal, finder);
    }

    /** `goSprout`, up to the walk. */
    method GoSprout(finder: (int, int, int, int) -> seq<(int, int)>) returns (r: Result<()>)
      requires state == Idle && walk == None
      modifies this, player, helper
      ensures step == old(step)
      ensures player.emitted == old(player.emitted) + Said(helper.id, Opening(1))
      ensures WalkBegun(r, SproutGoal, finder)
    {
      SendMessageToPlayer("Now you can grow a sprout");
      r := GoWalk(SproutGoal, finder);
    }

    /** `orderWheat`: two lines. */
    method OrderWheat()
      modifies player
      ensures player.emitted == old(player.emitted) + Said(helper.id, Opening(2))
      ensures player.actions == old(player.actions)
    {
      SendMessageToPlayer("You can grow the sprout you've just planted by watering");
      SendMessageToPlayer("When all grown up, you can harvest wheat");
    }

    /** `goCubie`: a line, a jump, a line. */
    method GoCubie()
      modifies player, helper
      ensures player.emitted == old(player.emitted) + Said(helper.id, Opening(3))
      ensures helper.actions == old(helper.actions) + [Jump]
    {
      SendMessageToPlayer("Let's go cubies");
      helper.Command(Jump);
      SendMessageToPlayer("Click cubie");
    }

    /** The walk of `goWater` / `goSprout`: the nearest such voxel from where
        the helper stands, a path to it, MOVING, then `helper.move(path)`. */
    method GoWalk(g: Goal, finder: (int, int, int, int) -> seq<(int, int)>) returns (r: Result<()>)
      requires state == Idle && walk == None
      modifies this, helper
      ensures step == old(step)
      ensures WalkBegun(r, g, finder)
      ensures helper.emitted == old(helper.emitted)
    {
      var path := PathToNearest(mapService, helper.position, [Target(g)], finder);
      if path.Err? {
        return Err(path.error);
      }
      state := Moving;
      walk := Some(g);
      helper.Command(Move(path.value));
      r := Ok(());
    }

    /** The rest of the waiting step: IDLE, stop, jump, the closing line,
        and the step is counted. */
    method OnMoveEnd()
      requires Valid() && walk.Some?
      modifies this, helper, player
      ensures Valid() && state == Idle && walk == None
      ensures step == old(step) + 1
      ensures helper.actions == old(helper.actions) + [Stop, Jump]
      ensures player.emitted == old(player.emitted) + Said(helper.id, Closing(old(walk).value))
    {
      var g := walk.value;
      state := Idle;
      walk := None;
      helper.Command(Stop);
      helper.Command(Jump);
      SendMessageToPlayer(if g == WaterGoal then "Click water block." else "Click dirt block");
      step := step + 1;
    }
  }

  /** A use of an idle helper, followed by the end of its walk when it
      walks, runs one whole step: the player hears that step of the script,
      and the helper is idle with the step counted. */
  method OneStep(h: StepHelper, finder: (int, int, int, int) -> seq<(int, int)>) returns (r: Result<()>)
    requires h.Valid() && h.state == Idle && 0 <= h.step < STEPS
    modifies h, h.player, h.helper
    ensures h.Valid() && h.state == Idle
    ensures r.Ok? ==>
      && h.step == old(h.step) + 1
      && h.player.emitted == old(h.player.emitted) + Said(h.helper.id, StepLines(old(h.step)))
    ensures r.Err? ==> h.step == old(h.step)
    ensures r.Ok? <==>
      (!Walks(old(h.step))
       || old(CanWalk(h.mapService, h.helper.position, [Target(if h.step == 0 then WaterGoal else SproutGoal)])))
  {
    ghost var step0 := h.step;
    ghost var canWalk := CanWalk(h.mapService, h.helper.position, [Target(if step0 == 0 then WaterGoal else SproutGoal)]);
    r := h.HandleUsed(finder);
    assert r.Ok? <==> (!Walks(step0) || canWalk);
    if r.Ok? && h.walk.Some? {
      var g := h.walk.value;
      assert StepLines(step0) == Opening(step0) + Closing(g);
      h.OnMoveEnd();
      SaidAppend(h.helper.id, Opening(step0), Closing(g));
    } else if r.Ok? {
      assert StepLines(step0) == Opening(step0);
    }
  }
}
