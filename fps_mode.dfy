/** src/game/modes/FpsMode/FpsMode.tsx: the first-person mode.  Modelled
    are the key-name clean-up used to bind the keys, the focus chosen each
    frame among the objects the view ray hits, the click and code handlers,
    and the flip of the chunk-bounds box cells.  Ray tests, distances and
    the voxel ray cast are inputs; drawing is not modelled. */
module FpsModes {
  import opened Common
  import opened ModeFsms

  /** A character the pattern `\s` of a JavaScript regular expression
      matches. */
  predicate IsJsWhitespace(c: char)
  {
    var n := c as int;
    n == 0x20 || 0x09 <= n <= 0x0D || n == 0xA0 || n == 0x1680 || 0x2000 <= n <= 0x200A
    || n == 0x2028 || n == 0x2029 || n == 0x202F || n == 0x205F || n == 0x3000 || n == 0xFEFF
  }

  predicate Bracketed(k: string)
  {
    |k| >= 2 && k[0] == '<' && k[|k| - 1] == '>'
  }

  /** `filtered_vkey`: drops a surrounding pair of angle brackets, then
      replaces every whitespace character by `-`. */
  function FilteredVkey(k: string): (r: string)
    ensures var inner := if Bracketed(k) then k[1..|k| - 1] else k;
      && |r| == |inner|
      && (forall i :: 0 <= i < |r| ==> !IsJsWhitespace(r[i]))
      && (forall i :: 0 <= i < |r| && !IsJsWhitespace(inner[i]) ==> r[i] == inner[i])
      && (forall i :: 0 <= i < |r| && IsJsWhitespace(inner[i]) ==> r[i] == '-')
  {
    var inner := if |k| >= 1 && k[0] == '<' && k[|k| - 1] == '>' && |k| != 1 then k[1..|k| - 1] else k;
    seq(|inner|, i requires 0 <= i < |inner| => if IsJsWhitespace(inner[i]) then '-' else inner[i])
  }

  /** The key table the constructor binds, as (key, action) pairs in
      declaration order. */
  const Keybindings: seq<(string, string)> := [
    ("W", "forward"), ("A", "left"), ("S", "backward"), ("D", "right"),
    ("<up>", "forward"), ("<left>", "left"), ("<down>", "backward"), ("<right>", "right"),
    ("<mouse 1>", "fire"), ("<mouse 3>", "firealt"), ("<space>", "jump"),
    ("<shift>", "crouch"), ("<control>", "alt"), ("<tab>", "sprint")]

  /** The shell key names the table's keys turn into. */
  lemma KeyNames()
    ensures FilteredVkey("W") == "W"
    ensures FilteredVkey("<up>") == "up"
    ensures FilteredVkey("<mouse 1>") == "mouse-1"
    ensures FilteredVkey("<space>") == "space"
  {
    assert FilteredVkey("W") == "W";
    assert FilteredVkey("<up>") == "up";
    assert FilteredVkey("<mouse 1>") == "mouse-1";
    assert FilteredVkey("<space>") == "space";
  }

  /** The constructor's binding loop: `shell.bind(name, filtered_vkey(key))`
      for each entry, in order; the result lists the calls as (name, key). */
  method BindKeys(bindings: seq<(string, string)>) returns (calls: seq<(string, string)>)
    ensures |calls| == |bindings|
    ensures forall i :: 0 <= i < |bindings| ==> calls[i] == (bindings[i].1, FilteredVkey(bindings[i].0))
  {
    calls := [];
    var i := 0;
    while i < |bindings|
      invariant 0 <= i <= |bindings|
      invariant |calls| == i
      invariant forall j :: 0 <= j < i ==> calls[j] == (bindings[j].1, FilteredVkey(bindings[j].0))
    {
      var key := bindings[i].0;
      var name := bindings[i].1;
      calls := calls + [(name, FilteredVkey(key))];
      i := i + 1;
    }
  }

  /* Focus selection. */

  /** One entry of `game.objects` as the frame sees it: its squared
      distance from the camera and whether the view ray hits its box. */
  datatype Candidate = Candidate(id: nat, sqDist: real, hit: bool)

  /** An object that can take the focus: not the player, within the ray
      distance, and hit by the ray. */
  predicate Eligible(c: Candidate, player: nat, limit: real)
  {
    c.id != player && c.sqDist <= limit && c.hit
  }

  /** `index` is where the focus falls: none when nothing is eligible, and
      otherwise an eligible object no eligible object is closer than, and
      which no later eligible object ties. */
  predicate IsFocus(cs: seq<Candidate>, player: nat, limit: real, index: Option<nat>)
  {
    match index
    case None => forall j :: 0 <= j < |cs| ==> !Eligible(cs[j], player, limit)
    case Some(k) =>
      && k < |cs| && Eligible(cs[k], player, limit)
      && (forall j :: 0 <= j < |cs| && Eligible(cs[j], player, limit) ==> cs[k].sqDist <= cs[j].sqDist)
      && (forall j :: k < j < |cs| && Eligible(cs[j], player, limit) ==> cs[k].sqDist < cs[j].sqDist)
  }

  /** At most one index is the focus. */
  lemma FocusUnique(cs: seq<Candidate>, player: nat, limit: real, a: Option<nat>, b: Option<nat>)
    requires IsFocus(cs, player, limit, a) && IsFocus(cs, player, limit, b)
    ensures a == b
  {
  }

  /** The object loop of `onRender`, with `minDist` starting at
      `RAY_MIN_DIST * RAY_MIN_DIST`. */
  method SelectFocus(objects: seq<Candidate>, player: nat, rayMinDist: real) returns (index: Option<nat>)
    ensures IsFocus(objects, player, rayMinDist * rayMinDist, index)
  {
    var limit := rayMinDist * rayMinDist;
    var minDist := limit;
    index := None;
    var i := 0;
    while i < |objects|
      invariant 0 <= i <= |objects|
      invariant IsFocus(objects[..i], player, limit, index)
      invariant index.None? ==> minDist == limit
      invariant index.Some? ==> index.value < i && minDist == objects[index.value].sqDist
    {
      var c := objects[i];
      if c.id != player && c.sqDist <= minDist && c.hit {
        minDist := c.sqDist;
        index := Some(i);
      }
      assert objects[..i + 1] == objects[..i] + [c];
      i := i + 1;
    }
    assert objects[..i] == objects;
  }

  /* The mode object. */

  /** Events the mode makes characters emit, and its own `enter` event. */
  datatype Event =
    | Used(target: nat, user: nat)
    | UseVoxel(user: nat, voxel: (int, int, int))
    | CodeReady(target: nat)
    | ToTransitionMode(target: nat, viewMatrix: nat)
    | Entered
    | Left

  /** Calls on the focus label. */
  datatype FocusUi = SetVisible(visible: bool) | SetName(id: nat)

  function FloorHalfBack(v0: Vec3, v1: Vec3): (int, int, int)
  {
    ((v0.x - v1.x / 2.0).Floor, (v0.y - v1.y / 2.0).Floor, (v0.z - v1.z / 2.0).Floor)
  }

  class FpsMode {
    const player: nat
    var focusedObject: Option<nat>
    /** `game.focusedVoxel`. */
    var focusedVoxel: Option<(int, int, int)>
    var pointerLock: bool
    var stickyPointerLock: bool
    var clickListening: bool
    /** How many times `handleCode` is registered for the player's `code`
        event: `on` adds a registration, `removeListener` drops one. */
    var codeListeners: nat
    var events: seq<Event>
    var ui: seq<FocusUi>

    constructor (player: nat)
      ensures this.player == player && focusedObject == None && events == [] && ui == []
      ensures codeListeners == 0
    {
      this.player := player;
      focusedObject := None;
      focusedVoxel := None;
      pointerLock := false;
      stickyPointerLock := false;
      clickListening := false;
      codeListeners := 0;
      events := [];
      ui := [];
    }

    /** Takes both pointer locks, clears the focus and hides its label,
        listens for clicks, registers `handleCode` for the player's `code`
        event, and announces `enter`. */
    method OnEnter()
      modifies this
      ensures pointerLock && stickyPointerLock && clickListening
      ensures focusedObject == None
      ensures ui == old(ui) + [SetVisible(false)]
      ensures codeListeners == old(codeListeners) + 1
      ensures events == old(events) + [Entered]
      ensures focusedVoxel == old(focusedVoxel)
    {
      pointerLock := true;
      stickyPointerLock := true;
      focusedObject := None;
      ui := ui + [SetVisible(false)];
      clickListening := true;
      codeListeners := codeListeners + 1;
      events := events + [Entered];
    }

    /** Hides the focus label, stops listening for clicks, announces
        `leave` and unregisters one `handleCode` from the player (none when
        none is registered); the focus itself is kept. */
    method OnLeave()
      modifies this
      ensures !clickListening
      ensures ui == old(ui) + [SetVisible(false)]
      ensures events == old(events) + [Left]
      ensures codeListeners == if old(codeListeners) > 0 then old(codeListeners) - 1 else 0
      ensures focusedObject == old(focusedObject) && focusedVoxel == old(focusedVoxel)
      ensures pointerLock == old(pointerLock) && stickyPointerLock == old(stickyPointerLock)
    {
      ui := ui + [SetVisible(false)];
      clickListening := false;
      events := events + [Left];
      if codeListeners > 0 {
        codeListeners := codeListeners - 1;
      }
    }

    /** `handleClick`: only the main button acts; a focused object is used
      by the player, else a focused voxel is used, else nothing happens. */
    method HandleClick(button: int)
      modifies this
      ensures button != 0 ==> events == old(events)
      ensures button == 0 && focusedObject.Some? ==> events == old(events) + [Used(focusedObject.value, player)]
      ensures button == 0 && focusedObject.None? && focusedVoxel.Some? ==>
        events == old(events) + [UseVoxel(player, focusedVoxel.value)]
      ensures button == 0 && focusedObject.None? && focusedVoxel.None? ==> events == old(events)
      ensures focusedObject == old(focusedObject) && focusedVoxel == old(focusedVoxel) && ui == old(ui)
    {
      if button == 0 {
        if focusedObject.Some? {
          events := events + [Used(focusedObject.value, player)];
        } else if focusedVoxel.Some? {
          events := events + [UseVoxel(player, focusedVoxel.value)];
        }
      }
    }

    /** `handleCode` as written: the target hears `codeready`, then reading
        `this.fsm.states.transitionMode` throws, since ModeFsm has no
        `states`; no transition is asked for. */
    method HandleCodeAsWritten(target: nat) returns (r: Result<()>)
      modifies this
      ensures r == Err(STATES_UNDEFINED)
      ensures events == old(events) + [CodeReady(target)]
      ensures focusedObject == old(focusedObject) && focusedVoxel == old(focusedVoxel) && ui == old(ui)
    {
      events := events + [CodeReady(target)];
      r := Err(STATES_UNDEFINED);
    }

    /** `handleCode` as intended: the target hears `codeready` before the
        mode asks for the transition mode with the target and the current
        view. */
    method HandleCode(target: nat, viewMatrix: nat)
      modifies this
      ensures events == old(events) + [CodeReady(target), ToTransitionMode(target, viewMatrix)]
      ensures focusedObject == old(focusedObject) && focusedVoxel == old(focusedVoxel) && ui == old(ui)
    {
      events := events + [CodeReady(target)];
      events := events + [ToTransitionMode(target, viewMatrix)];
    }

    /** The focus part of `onRender`.  `voxelHit` is what
        `game.raycastVoxels` finds, as the hit point and the face normal. */
    method OnRender(objects: seq<Candidate>, rayMinDist: real, voxelHit: Option<(Vec3, Vec3)>)
      modifies this
      ensures exists k: Option<nat> ::
        (IsFocus(objects, player, rayMinDist * rayMinDist, k)
         && focusedObject == (if k.Some? then Some(objects[k.value].id) else None))
      ensures focusedObject == old(focusedObject) ==> ui == old(ui)
      ensures focusedObject != old(focusedObject) ==>
        ui == old(ui) + (if focusedObject.Some? then [SetVisible(true), SetName(focusedObject.value)] else [SetVisible(false)])
      ensures focusedObject.Some? ==> focusedVoxel == None
      ensures focusedObject.None? ==>
        focusedVoxel == (if voxelHit.Some? then Some(FloorHalfBack(voxelHit.value.0, voxelHit.value.1)) else None)
      ensures events == old(events)
    {
      var index := SelectFocus(objects, player, rayMinDist);
      var focused := if index.Some? then Some(objects[index.value].id) else None;
      if focusedObject != focused {
        focusedObject := focused;
        if focusedObject.Some? {
          ui := ui + [SetVisible(true), SetName(focusedObject.value)];
        } else {
          ui := ui + [SetVisible(false)];
        }
      }
      if focusedObject.Some? {
        focusedVoxel := None;
      } else if voxelHit.None? {
        focusedVoxel := None;
      } else {
        focusedVoxel := Some(FloorHalfBack(voxelHit.value.0, voxelHit.value.1));
      }
    }
  }

  /* The chunk-bounds box. */

  /** A cell with its first two corner indices exchanged. */
  function Flip(cell: seq<int>): (r: seq<int>)
    requires |cell| >= 2
    ensures |r| == |cell| && r[0] == cell[1] && r[1] == cell[0] && r[2..] == cell[2..]
  {
    [cell[1], cell[0]] + cell[2..]
  }

  /** Flipping twice gives the cell back. */
  lemma FlipInvolution(cell: seq<int>)
    requires |cell| >= 2
    ensures Flip(Flip(cell)) == cell
  {
    assert Flip(Flip(cell)) == [cell[0], cell[1]] + cell[2..];
    assert cell == [cell[0], cell[1]] + cell[2..];
  }

  /** The `// Flip` loop over the box's cells, in place. */
  method FlipCells(cells: array<seq<int>>)
    requires forall i :: 0 <= i < cells.Length ==> |cells[i]| >= 2
    modifies cells
    ensures forall i :: 0 <= i < cells.Length ==> |old(cells[i])| >= 2 && cells[i] == Flip(old(cells[i]))
  {
    var i := 0;
    while i < cells.Length
      invariant 0 <= i <= cells.Length
      invariant forall j :: 0 <= j < i ==> cells[j] == Flip(old(cells[j]))
      invariant forall j :: i <= j < cells.Length ==> cells[j] == old(cells[j])
    {
      var cell := cells[i];
      var tmp := cell[0];
      cell := cell[0 := cell[1]];
      cell := cell[1 := tmp];
      assert cell == Flip(old(cells[i]));
      cells[i] := cell;
      i := i + 1;
    }
  }

  /** Entering and then leaving the mode leaves the player's `code`
      listeners as they were, and the mode no longer listens for clicks:
      `handleCode` runs only while the mode is current. */
  method EnterThenLeave(m: FpsMode)
    modifies m
    ensures m.codeListeners == old(m.codeListeners)
    ensures !m.clickListening
    ensures m.events == old(m.events) + [Entered, Left]
  {
    m.OnEnter();
    m.OnLeave();
  }
}
