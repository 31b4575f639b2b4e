/** src/game/modes/ToFpsMode.ts: the mode that fades the code editor out
    over DURATION milliseconds and then asks for the first-person mode.
    Camera and rendering calls are not modelled.

    As written, both `onRender` and `onTick` read `this.fsm.states`, which
    ModeFsm does not have, so they throw a TypeError (`OnRenderAsWritten`,
    `OnTickAsWritten`).  `OnRender` and `OnTick` are the evidently intended
    mode: the frame is drawn, and the transition asked for is recorded as a
    request for the first-person mode. */
module ToFpsModes {
  import opened Common
  import opened ModeFsms

  const DURATION: real := 500.0

  /** The editor opacity `onRender` sets for the time accumulated so far. */
  function Opacity(accum: real): (o: real)
    ensures 0.0 <= accum <= DURATION ==> 0.0 <= o <= 1.0
    ensures o == 0.0 <==> accum == DURATION
  {
    1.0 - accum / DURATION
  }

  /** The fade only goes one way: more elapsed time, less opacity. */
  lemma OpacityFades(a: real, b: real)
    requires a <= b
    ensures Opacity(b) <= Opacity(a)
  {
  }

  /** Time accumulated by a run of ticks. */
  function Elapsed(dts: seq<real>): real
  {
    if dts == [] then 0.0 else Elapsed(dts[..|dts| - 1]) + dts[|dts| - 1]
  }

  /** Whether the tick that brings the accumulated time to `accum` asks for
      the first-person mode. */
  predicate AsksForFps(accum: real)
  {
    accum > DURATION
  }

  /** Once a run of non-negative ticks has passed DURATION, every later
      tick asks again: the request repeats until the mode is left. */
  lemma {:induction false} RequestPersists(dts: seq<real>, k: nat, j: nat)
    requires forall i :: 0 <= i < |dts| ==> dts[i] >= 0.0
    requires k <= j <= |dts|
    ensures Elapsed(dts[..k]) <= Elapsed(dts[..j])
    ensures AsksForFps(Elapsed(dts[..k])) ==> AsksForFps(Elapsed(dts[..j]))
    decreases j - k
  {
    if k < j {
      RequestPersists(dts, k, j - 1);
      assert dts[..j][..j - 1] == dts[..j - 1];
    }
  }

  class ToFpsMode {
    var accum: real
    /** The copied view matrix, as a handle. */
    var fromMatrix: nat
    /** Last opacity given to `codeEditor.setOpacity`. */
    var editorOpacity: real
    var editorClosed: bool
    /** Ticks that asked for the first-person mode. */
    var fpsRequests: nat

    constructor ()
      ensures accum == 0.0 && fpsRequests == 0 && !editorClosed
    {
      accum := 0.0;
      fromMatrix := 0;
      editorOpacity := 1.0;
      editorClosed := false;
      fpsRequests := 0;
    }

    method OnEnter(viewMatrix: nat)
      modifies this
      ensures accum == 0.0 && fromMatrix == viewMatrix
      ensures editorOpacity == old(editorOpacity) && editorClosed == old(editorClosed) && fpsRequests == old(fpsRequests)
    {
      fromMatrix := viewMatrix;
      accum := 0.0;
    }

    method OnRender()
      modifies this
      ensures editorOpacity == Opacity(accum)
      ensures accum == old(accum) && fromMatrix == old(fromMatrix)
      ensures editorClosed == old(editorClosed) && fpsRequests == old(fpsRequests)
    {
      var progress := accum / DURATION;
      editorOpacity := 1.0 - progress;
    }

    method OnTick(dt: real)
      modifies this
      ensures accum == old(accum) + dt
      ensures fpsRequests == old(fpsRequests) + (if AsksForFps(accum) then 1 else 0)
      ensures fromMatrix == old(fromMatrix) && editorOpacity == old(editorOpacity) && editorClosed == old(editorClosed)
    {
      accum := accum + dt;
      if accum > DURATION {
        fpsRequests := fpsRequests + 1;
      }
    }

    /** `onRender` as written: the opacity is set, then reading
        `this.fsm.states` throws, so no frame is drawn. */
    method OnRenderAsWritten() returns (r: Result<()>)
      modifies this
      ensures r == Err(STATES_UNDEFINED)
      ensures editorOpacity == Opacity(accum)
      ensures accum == old(accum) && fromMatrix == old(fromMatrix)
      ensures editorClosed == old(editorClosed) && fpsRequests == old(fpsRequests)
    {
      var progress := accum / DURATION;
      editorOpacity := 1.0 - progress;
      r := Err(STATES_UNDEFINED);
    }

    /** `onTick` as written: the time accumulates, and a tick past DURATION
        throws on `this.fsm.states.fpsMode` instead of asking for the
        first-person mode. */
    method OnTickAsWritten(dt: real) returns (r: Result<()>)
      modifies this
      ensures accum == old(accum) + dt
      ensures r.Err? <==> AsksForFps(accum)
      ensures r.Err? ==> r.error == STATES_UNDEFINED
      ensures fpsRequests == old(fpsRequests)
      ensures fromMatrix == old(fromMatrix) && editorOpacity == old(editorOpacity) && editorClosed == old(editorClosed)
    {
      accum := accum + dt;
      if accum > DURATION {
        return Err(STATES_UNDEFINED);
      }
      r := Ok(());
    }

    method OnLeave()
      modifies this
      ensures editorClosed
      ensures accum == old(accum) && fpsRequests == old(fpsRequests) && editorOpacity == old(editorOpacity)
    {
      editorClosed := true;
    }
  }

  /** As written, the first frame after entering already throws, and the
      tick that passes DURATION throws without asking for the first-person
      mode, so the fade never leads anywhere. */
  method AsWrittenFadeThrows(m: ToFpsMode, viewMatrix: nat) returns (render: Result<()>, tick: Result<()>)
    modifies m
    ensures render.Err? && tick.Err?
    ensures m.fpsRequests == old(m.fpsRequests)
  {
    m.OnEnter(viewMatrix);
    render := m.OnRenderAsWritten();
    tick := m.OnTickAsWritten(DURATION + 1.0);
  }

  /** The intended mode: the first frame shows the editor fully opaque, and
      the tick that passes DURATION asks for the first-person mode. */
  method IntendedFadeAsksForFps(m: ToFpsMode, viewMatrix: nat)
    modifies m
    ensures m.editorOpacity == 1.0
    ensures m.fpsRequests == old(m.fpsRequests) + 1
  {
    m.OnEnter(viewMatrix);
    m.OnRender();
    m.OnTick(DURATION + 1.0);
  }
}
