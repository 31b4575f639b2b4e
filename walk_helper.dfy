/** src/game/HelperBehavior.ts: the first helper, which on each use walks to
    the nearest water, stops and jumps, and otherwise watches the player.
    A use while it is walking is ignored.  As in the later helper, the walk
    (`helper.move`) is where a use waits: `HandleUsed` runs up to the start
    of the walk and `OnMoveEnd` runs its continuation. */
module WalkHelpers {
  import opened Common
  import opened Characters
  import opened NearestVoxels
  import opened MapServices

  datatype HelperState = Idle | Moving

  /** The `'used'` handler this helper registers on its character. */
  function HandleUsedListener(owner: nat): Listener { Handler(owner, "handleUsed") }

  class WalkHelper {
    const mapService: MapService
    const player: Character
    const helper: Character
    /** Identifies this instance's listener function. */
    const handle: nat
    var state: HelperState

    /** Registers `handleUsed` for the helper's `'used'` events; starts idle. */
    constructor (mapService: MapService, player: Character, helper: Character, handle: nat)
      modifies helper
      ensures this.mapService == mapService && this.player == player && this.helper == helper
      ensures this.handle == handle && state == Idle
      ensures helper.listeners == old(helper.listeners) + multiset{("used", HandleUsedListener(handle))}
      ensures helper.actions == old(helper.actions) && helper.emitted == old(helper.emitted)
    {
      this.mapService := mapService;
      this.player := player;
      this.helper := helper;
      this.handle := handle;
      helper.On("used", HandleUsedListener(handle));
      state := Idle;
    }

    /** The helper looks at the player except while walking. */
    method OnTick(dt: real)
      modifies helper
      ensures helper.actions == old(helper.actions) + (if state != Moving then [LookAt(old(player.position))] else [])
      ensures helper.emitted == old(helper.emitted) && helper.listeners == old(helper.listeners)
    {
      if state != Moving {
        helper.Command(LookAt(player.position));
      }
    }

    /** `handleUsed`, up to the walk.  Only an idle helper reacts.  It walks
        to the nearest water (6) as seen from where it stands, along the
        planned route; when there is none, or no walkable cell next to it,
        the handler throws before changing state, and the helper stays
        idle. */
    method HandleUsed(finder: (int, int, int, int) -> seq<(int, int)>) returns (r: Result<()>)
      modifies this, helper
      ensures old(state) != Idle ==> r == Ok(()) && state == old(state) && helper.actions == old(helper.actions)
      ensures old(state) == Idle ==>
        && (r.Ok? <==> state == Moving)
        && (r.Err? ==> state == Idle && helper.actions == old(helper.actions))
        && (r.Ok? <==> old(CanWalk(mapService, helper.position, [WATER])))
        && (NoMatch(mapService.ground, [WATER]) ==> r.Err?)
        && (r.Ok? ==>
              && |helper.actions| == |old(helper.actions)| + 1
              && helper.actions[..|old(helper.actions)|] == old(helper.actions)
              && var walk := helper.actions[|old(helper.actions)|];
              && walk.Move? && PlannedWalk(mapService, old(helper.position), [WATER], finder, walk.path))
      ensures helper.emitted == old(helper.emitted) && helper.listeners == old(helper.listeners)
    {
      if state != Idle {
        return Ok(());
      }
      var path := PathToNearest(mapService, helper.position, [WATER], finder);
      if path.Err? {
        return Err(path.error);
      }
      state := Moving;
      helper.Command(Move(path.value));
      r := Ok(());
    }

    /** The continuation of the walk: idle again, then stop, then jump. */
    method OnMoveEnd()
      requires state == Moving
      modifies this, helper
      ensures state == Idle
      ensures helper.actions == old(helper.actions) + [Stop, Jump]
      ensures helper.emitted == old(helper.emitted) && helper.listeners == old(helper.listeners)
    {
      state := Idle;
      helper.Command(Stop);
      helper.Command(Jump);
    }
  }

  /** A use that starts a walk is the only one until the walk ends: a second
      use and a tick during the walk do nothing, and at its end the helper
      has walked, stopped and jumped, and is idle for the next use. */
  method OneWalkAtATime(h: WalkHelper, finder: (int, int, int, int) -> seq<(int, int)>) returns (r: Result<()>)
    requires h.state == Idle
    modifies h, h.helper
    ensures h.state == Idle
    ensures r.Ok? ==>
      && |h.helper.actions| == |old(h.helper.actions)| + 3
      && h.helper.actions[..|old(h.helper.actions)|] == old(h.helper.actions)
      && h.helper.actions[|old(h.helper.actions)|].Move?
      && h.helper.actions[|old(h.helper.actions)| + 1..] == [Stop, Jump]
    ensures r.Err? ==> h.helper.actions == old(h.helper.actions)
  {
    r := h.HandleUsed(finder);
    if r.Ok? {
      var again := h.HandleUsed(finder);
      h.OnTick(16.0);
      h.OnMoveEnd();
    }
  }
}
