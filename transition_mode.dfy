/** src/game/modes/TransitionMode.ts: a camera transition that, once
    started, fades the code editor in over 500 milliseconds of rendered
    time and then reports completion once.  `performance.now()` is an
    input; the target, matrices and callback are handles; the camera and
    drawing calls are not modelled. */
module TransitionModes {
  const DURATION: real := 500.0

  /** `Math.min(accum / 500, 1)`. */
  function Progress(accum: real): (p: real)
    ensures p <= 1.0
    ensures p == 1.0 <==> accum >= DURATION
    ensures accum >= 0.0 ==> p >= 0.0
  {
    if accum / DURATION < 1.0 then accum / DURATION else 1.0
  }

  /** Progress never goes back as time accumulates. */
  lemma ProgressMonotone(a: real, b: real)
    requires a <= b
    ensures Progress(a) <= Progress(b)
  {
  }

  class TransitionMode {
    var lt: real
    var accum: real
    var enabled: bool
    var target: nat
    var fromMatrix: nat
    var callback: nat
    /** The shell's pointer-lock flags. */
    var pointerLock: bool
    var stickyPointerLock: bool
    /** Last opacity given to `codeEditor.setOpacity`. */
    var editorOpacity: real
    /** Calls `callback(succeeded)`, as (callback, succeeded). */
    var callbacks: seq<(nat, bool)>
    /** Frames drawn through the transition camera. */
    var frames: nat

    constructor (pointerLock: bool, stickyPointerLock: bool)
      ensures lt == 0.0 && accum == 0.0 && !enabled
      ensures callbacks == [] && frames == 0
      ensures this.pointerLock == pointerLock && this.stickyPointerLock == stickyPointerLock
    {
      lt := 0.0;
      accum := 0.0;
      enabled := false;
      target := 0;
      fromMatrix := 0;
      callback := 0;
      this.pointerLock := pointerLock;
      this.stickyPointerLock := stickyPointerLock;
      editorOpacity := 0.0;
      callbacks := [];
      frames := 0;
    }

    /** Releases the pointer lock, stores the target, the starting view and
        the callback, and enables the mode.  `accum` is kept as it was. */
    method Start(target: nat, viewMatrix: nat, callback: nat, now: real)
      modifies this
      ensures !pointerLock && !stickyPointerLock
      ensures this.target == target && fromMatrix == viewMatrix && this.callback == callback
      ensures lt == now && enabled
      ensures accum == old(accum) && callbacks == old(callbacks) && frames == old(frames)
      ensures editorOpacity == old(editorOpacity)
    {
      pointerLock := false;
      stickyPointerLock := false;
      this.target := target;
      fromMatrix := viewMatrix;
      lt := now;
      enabled := true;
      this.callback := callback;
    }

    /** One frame at time `now`. */
    method OnRender(now: real)
      modifies this
      ensures !old(enabled) ==>
        && lt == old(lt) && accum == old(accum) && !enabled
        && callbacks == old(callbacks) && frames == old(frames) && editorOpacity == old(editorOpacity)
      ensures old(enabled) ==>
        && lt == now
        && accum == old(accum) + (now - old(lt))
        && editorOpacity == Progress(accum)
        && (if Progress(accum) == 1.0
            then !enabled && callbacks == old(callbacks) + [(callback, true)] && frames == old(frames)
            else enabled && callbacks == old(callbacks) && frames == old(frames) + 1)
      ensures callback == old(callback) && target == old(target) && fromMatrix == old(fromMatrix)
      ensures pointerLock == old(pointerLock) && stickyPointerLock == old(stickyPointerLock)
    {
      if !enabled {
        return;
      }
      var dt := now - lt;
      lt := now;
      accum := accum + dt;
      var progress := Progress(accum);
      editorOpacity := progress;
      if progress == 1.0 {
        enabled := false;
        callbacks := callbacks + [(callback, true)];
        return;
      }
      frames := frames + 1;
    }

    method OnTick(dt: real)
    {
    }
  }

  /** After a start, the callback fires once when 500 ms have been
      rendered, and later frames do nothing until the next start. */
  method RenderPastEnd(mode: TransitionMode, target: nat, viewMatrix: nat, callback: nat, t0: real)
    requires mode.accum == 0.0
    modifies mode
    ensures mode.callbacks == old(mode.callbacks) + [(callback, true)]
    ensures !mode.enabled
  {
    mode.Start(target, viewMatrix, callback, t0);
    mode.OnRender(t0 + 200.0);
    mode.OnRender(t0 + 600.0);
    mode.OnRender(t0 + 900.0);
  }

  /** `start` does not reset `accum`: a second start after a finished
      transition reports completion on its first frame, however little
      time that frame took. */
  method SecondStartFinishesAtOnce(mode: TransitionMode, callback: nat, t0: real, t1: real)
    requires mode.accum == 0.0 && t1 >= t0 + 500.0
    modifies mode
    ensures mode.callbacks == old(mode.callbacks) + [(0, true), (callback, true)]
    ensures mode.frames == old(mode.frames)
  {
    mode.Start(0, 0, 0, t0);
    mode.OnRender(t1);
    mode.Start(0, 0, callback, t1);
    mode.OnRender(t1);
  }
}
