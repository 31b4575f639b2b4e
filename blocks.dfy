/** src/blockly/blocks.ts: the JavaScript generators of the game's blocks.
    Each turns a block's field values and the code of its inputs into
    script text; the inputs' code (`valueToCode`, `statementToCode` after
    `addLoopTrap`) is given as plain strings. */
module BlockGenerators {
  import opened Common

  /** Precedence tag a value generator returns beside its code. */
  datatype Order = OrderNone

  /** The host function each direction of the `move` dropdown calls. */
  const MoveFunctions: map<string, string> :=
    map["FORWARD" := "moveForward", "BACK" := "moveBack", "LEFT" := "moveLeft", "RIGHT" := "moveRight"]

  /** The `nearestVoxel` dropdown: water, farmland, growing crop, grown crop. */
  const VoxelChoices: seq<seq<nat>> := [[6], [7], [8, 9, 10, 11, 12, 13, 14], [15]]

  /** One statement calling `name` with argument text `arg`. */
  function Call(name: string, arg: string): string
  {
    name + "(" + arg + ");\n"
  }

  /** The index of the first `c` in `s`. */
  function FirstIndex(s: string, c: char): (r: Option<nat>)
    ensures r.Some? ==> r.value < |s| && s[r.value] == c && c !in s[..r.value]
    ensures r.None? ==> c !in s
  {
    if s == [] then None
    else if s[0] == c then Some(0)
    else
      match FirstIndex(s[1..], c)
      case None => None
      case Some(i) =>
        assert s[..i + 1] == [s[0]] + s[1..][..i];
        Some(i + 1)
  }

  /** Reads a statement written by `Call` back into its function name and
      argument text. */
  function ParseCall(code: string): Option<(string, string)>
  {
    if |code| < 3 || code[|code| - 3..] != ");\n" then None
    else
      match FirstIndex(code, '(')
      case None => None
      case Some(i) =>
        if i + 1 <= |code| - 3 then Some((code[..i], code[i + 1..|code| - 3])) else None
  }

  lemma {:induction false} FirstIndexAfter(name: string, rest: string)
    requires '(' !in name
    ensures FirstIndex(name + "(" + rest, '(') == Some(|name|)
    decreases |name|
  {
    var s := name + "(" + rest;
    if name != [] {
      assert name[0] in name;
      assert s[1..] == name[1..] + "(" + rest;
      FirstIndexAfter(name[1..], rest);
    }
  }

  /** Parsing undoes `Call` for every function name without a parenthesis. */
  lemma ParseCallOfCall(name: string, arg: string)
    requires '(' !in name
    ensures ParseCall(Call(name, arg)) == Some((name, arg))
  {
    var code := Call(name, arg);
    assert code == name + "(" + (arg + ");\n");
    FirstIndexAfter(name, arg + ");\n");
    assert code[|code| - 3..] == ");\n";
    assert code[..|name|] == name;
    assert code[|name| + 1..|code| - 3] == arg;
  }

  /** `Blockly.JavaScript['when_run']`: the hat block emits nothing itself. */
  function WhenRun(): (code: string)
    ensures code == ""
  {
    ""
  }

  /** `Blockly.JavaScript['move']`. */
  function Move(direction: string, distance: string): (code: string)
    ensures distance == "" || direction !in MoveFunctions ==> code == ""
    ensures distance != "" && direction in MoveFunctions ==> code == Call(MoveFunctions[direction], distance)
  {
    if distance == "" then ""
    else if direction == "FORWARD" then "moveForward(" + distance + ");\n"
    else if direction == "BACK" then "moveBack(" + distance + ");\n"
    else if direction == "LEFT" then "moveLeft(" + distance + ");\n"
    else if direction == "RIGHT" then "moveRight(" + distance + ");\n"
    else ""
  }

  /** A move statement names the direction's function and carries the
      distance unchanged; different directions or distances never give the
      same text. */
  lemma MoveRoundTrip(direction: string, distance: string)
    requires distance != "" && direction in MoveFunctions
    ensures ParseCall(Move(direction, distance)) == Some((MoveFunctions[direction], distance))
  {
    ParseCallOfCall(MoveFunctions[direction], distance);
  }

  /** `Blockly.JavaScript['moveTo']`. */
  function MoveTo(position: string): (code: string)
    ensures position == "" <==> code == ""
  {
    if position == "" then "" else "moveTo(" + position + ");\n"
  }

  lemma MoveToRoundTrip(position: string)
    requires position != ""
    ensures ParseCall(MoveTo(position)) == Some(("moveTo", position))
  {
    assert MoveTo(position) == Call("moveTo", position);
    ParseCallOfCall("moveTo", position);
  }

  /** `Blockly.JavaScript['use']`. */
  function Use(position: string): (code: string)
    ensures position == "" <==> code == ""
  {
    if position == "" then "" else "use(" + position + ");\n"
  }

  lemma UseRoundTrip(position: string)
    requires position != ""
    ensures ParseCall(Use(position)) == Some(("use", position))
  {
    assert Use(position) == Call("use", position);
    ParseCallOfCall("use", position);
  }

  /** `Blockly.JavaScript['jump']`. */
  function Jump(): (code: string)
  {
    "jump();\n"
  }

  lemma JumpRoundTrip()
    ensures ParseCall(Jump()) == Some(("jump", ""))
  {
    assert Jump() == Call("jump", "");
    ParseCallOfCall("jump", "");
  }

  /** `Blockly.JavaScript['controls_forever']`, given the loop-trapped body. */
  function Forever(branch: string): (code: string)
    ensures |code| == |branch| + 17
  {
    "while (true) {\n" + branch + "}\n"
  }

  /** The body of a forever loop, as `Forever` wrote it. */
  function ForeverBody(code: string): Option<string>
  {
    if |code| >= 17 && code[..15] == "while (true) {\n" && code[|code| - 2..] == "}\n"
    then Some(code[15..|code| - 2])
    else None
  }

  lemma ForeverRoundTrip(branch: string)
    ensures ForeverBody(Forever(branch)) == Some(branch)
  {
    var code := Forever(branch);
    assert code[..15] == "while (true) {\n";
    assert code[|code| - 2..] == "}\n";
    assert code[15..|code| - 2] == branch;
  }

  /* The comma-joined id lists of the `nearestVoxel` dropdown. */

  function DigitChar(d: nat): char
    requires d < 10
  {
    "0123456789"[d]
  }

  function DigitValue(c: char): nat
  {
    if '0' <= c <= '9' then (c - '0') as nat else 0
  }

  /** `String(n)` for a natural number. */
  function Decimal(n: nat): (s: string)
    ensures |s| >= 1 && ',' !in s
    decreases n
  {
    if n < 10 then [DigitChar(n)] else Decimal(n / 10) + [DigitChar(n % 10)]
  }

  /** The number a string of decimal digits denotes. */
  function ParseDecimal(s: string): nat
  {
    if s == [] then 0 else ParseDecimal(s[..|s| - 1]) * 10 + DigitValue(s[|s| - 1])
  }

  lemma {:induction false} ParseDecimalOfDecimal(n: nat)
    ensures ParseDecimal(Decimal(n)) == n
    decreases n
  {
    var s := Decimal(n);
    if n < 10 {
      assert s[..0] == [];
    } else {
      ParseDecimalOfDecimal(n / 10);
      assert s[..|s| - 1] == Decimal(n / 10);
    }
  }

  /** `ids.join(',')`. */
  function JoinIds(ids: seq<nat>): string
  {
    if ids == [] then ""
    else if |ids| == 1 then Decimal(ids[0])
    else Decimal(ids[0]) + "," + JoinIds(ids[1..])
  }

  /** Splits at every comma, `cur` holding the part read so far. */
  function SplitAt(s: string, cur: string): seq<string>
  {
    if s == [] then [cur]
    else if s[0] == ',' then [cur] + SplitAt(s[1..], "")
    else SplitAt(s[1..], cur + [s[0]])
  }

  lemma {:induction false} SplitThrough(d: string, rest: string, cur: string)
    requires ',' !in d
    ensures SplitAt(d + rest, cur) == SplitAt(rest, cur + d)
    decreases |d|
  {
    if d != [] {
      assert (d + rest)[1..] == d[1..] + rest;
      assert d[0] != ',' by { assert d[0] in d; }
      SplitThrough(d[1..], rest, cur + [d[0]]);
      assert cur + [d[0]] + d[1..] == cur + d;
    } else {
      assert d + rest == rest;
      assert cur + d == cur;
    }
  }

  /** Reads a comma-joined list of decimals back into numbers. */
  function ParseIds(s: string): seq<nat>
  {
    var parts := SplitAt(s, "");
    seq(|parts|, i requires 0 <= i < |parts| => ParseDecimal(parts[i]))
  }

  /** Splitting a join of two or more ids yields the first id's digits,
      then the split of the rest. */
  lemma SplitJoinCons(ids: seq<nat>)
    requires |ids| >= 2
    ensures SplitAt(JoinIds(ids), "") == [Decimal(ids[0])] + SplitAt(JoinIds(ids[1..]), "")
  {
    var d := Decimal(ids[0]);
    var t := JoinIds(ids[1..]);
    assert JoinIds(ids) == d + ("," + t);
    SplitThrough(d, "," + t, "");
    assert ("," + t)[1..] == t;
    assert "" + d == d;
  }

  lemma {:induction false} SplitJoin(ids: seq<nat>)
    requires |ids| >= 1
    ensures |SplitAt(JoinIds(ids), "")| == |ids|
    ensures forall i :: 0 <= i < |ids| ==> SplitAt(JoinIds(ids), "")[i] == Decimal(ids[i])
  {
    var d := Decimal(ids[0]);
    if |ids| == 1 {
      SplitThrough(d, "", "");
      assert d + "" == d;
      assert "" + d == d;
    } else {
      SplitJoin(ids[1..]);
      SplitJoinCons(ids);
      forall i | 0 < i < |ids|
        ensures SplitAt(JoinIds(ids), "")[i] == Decimal(ids[i])
      {
        assert ids[1..][i - 1] == ids[i];
      }
    }
  }

  /** Joining a non-empty id list loses nothing: reading it back gives the
      same ids. */
  lemma ParseJoinIds(ids: seq<nat>)
    requires |ids| >= 1
    ensures ParseIds(JoinIds(ids)) == ids
  {
    SplitJoin(ids);
    var parts := SplitAt(JoinIds(ids), "");
    forall i | 0 <= i < |ids|
      ensures ParseDecimal(parts[i]) == ids[i]
    {
      ParseDecimalOfDecimal(ids[i]);
    }
  }

  /** `Blockly.JavaScript['nearestVoxel']` for the dropdown value `ids`
      (already joined by the field). */
  function NearestVoxel(ids: seq<nat>): (r: (string, Order))
    ensures r.1 == OrderNone
    ensures |r.0| == |JoinIds(ids)| + 20
  {
    ("getNearestVoxels([" + JoinIds(ids) + "])", OrderNone)
  }

  /** The argument list of a `nearestVoxel` expression, as the expression
      was written. */
  function NearestVoxelIds(code: string): Option<seq<nat>>
  {
    var prefix := "getNearestVoxels([";
    if |code| >= |prefix| + 2 && code[..|prefix|] == prefix && code[|code| - 2..] == "])"
    then Some(ParseIds(code[|prefix|..|code| - 2]))
    else None
  }

  /** Every dropdown choice yields an expression that asks for exactly that
      choice's voxel ids. */
  lemma NearestVoxelRoundTrip(ids: seq<nat>)
    requires |ids| >= 1
    ensures NearestVoxelIds(NearestVoxel(ids).0) == Some(ids)
  {
    var prefix := "getNearestVoxels([";
    var code := NearestVoxel(ids).0;
    assert code[..|prefix|] == prefix;
    assert code[|code| - 2..] == "])";
    assert code[|prefix|..|code| - 2] == JoinIds(ids);
    ParseJoinIds(ids);
  }

  /** The ids the four dropdown choices ask for. */
  lemma DropdownChoicesRoundTrip(k: nat)
    requires k < |VoxelChoices|
    ensures NearestVoxelIds(NearestVoxel(VoxelChoices[k]).0) == Some(VoxelChoices[k])
  {
    NearestVoxelRoundTrip(VoxelChoices[k]);
  }
}
