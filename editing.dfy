// Edit dispatch: the keys of one frame select incremental transform steps,
// composed in the order Update tests them.

module Editing {
  import opened Transforms
  import opened Input

  /** Translation per frame of a held arrow key. */
  const Nudge: real := 0.003

  /** The eleven edit commands, named by their effect on the selected object. */
  datatype Command =
    | PlusX | MinusX | PlusZ | MinusZ | PlusY | MinusY
    | Grow | Shrink | TurnX | TurnY | TurnZ

  /** The position at which Update tests a command. */
  function Rank(c: Command): nat
  {
    match c
    case PlusX => 0
    case MinusX => 1
    case PlusZ => 2
    case MinusZ => 3
    case PlusY => 4
    case MinusY => 5
    case Grow => 6
    case Shrink => 7
    case TurnX => 8
    case TurnY => 9
    case TurnZ => 10
  }

  /** The transform one command contributes. */
  function StepOf(c: Command): Step
  {
    match c
    case PlusX => Translate(Nudge, 0.0, 0.0)
    case MinusX => Translate(-Nudge, 0.0, 0.0)
    case PlusZ => Translate(0.0, 0.0, Nudge)
    case MinusZ => Translate(0.0, 0.0, -Nudge)
    case PlusY => Translate(0.0, Nudge, 0.0)
    case MinusY => Translate(0.0, -Nudge, 0.0)
    case Grow => Scaling(1.001)
    case Shrink => Scaling(0.999)
    case TurnX => Rotation(X, Radians(15.0))
    case TurnY => Rotation(Y, Radians(15.0))
    case TurnZ => Rotation(Z, Radians(15.0))
  }

  /**
   * The key binding of each command, one command at a time: arrows are
   * held keys, rotations are presses, Control turns Up/Down into scaling and
   * Shift turns them into vertical moves and blocks rotation about X.
   */
  predicate Active(c: Command, down: set<Key>, press: set<Key>)
  {
    match c
    case PlusX => Left in down
    case MinusX => Right in down
    case PlusZ => Down in down && Control !in down && Shift !in down
    case MinusZ => Up in down && Control !in down && Shift !in down
    case PlusY => Up in down && Shift in down && Control !in down
    case MinusY => Down in down && Shift in down && Control !in down
    case Grow => Up in down && Control in down
    case Shrink => Down in down && Control in down
    case TurnX => KeyX in press && Shift !in down
    case TurnY => KeyY in press
    case TurnZ => KeyZ in press
  }

  predicate Increasing(cs: seq<Command>)
  {
    forall i, j :: 0 <= i < j < |cs| ==> Rank(cs[i]) < Rank(cs[j])
  }

  /** Every command of cs is tested at a position in [lo, hi). */
  predicate RanksWithin(cs: seq<Command>, lo: nat, hi: nat)
  {
    forall c :: c in cs ==> lo <= Rank(c) < hi
  }

  lemma IncreasingConcat(a: seq<Command>, b: seq<Command>, lo: nat, mid: nat, hi: nat)
    requires lo <= mid <= hi
    requires Increasing(a) && Increasing(b)
    requires RanksWithin(a, lo, mid) && RanksWithin(b, mid, hi)
    ensures Increasing(a + b) && RanksWithin(a + b, lo, hi)
  {
    forall i, j | 0 <= i < j < |a + b|
      ensures Rank((a + b)[i]) < Rank((a + b)[j])
    {
      if j < |a| {
        assert (a + b)[i] == a[i] && (a + b)[j] == a[j];
      } else if i >= |a| {
        assert (a + b)[i] == b[i - |a|] && (a + b)[j] == b[j - |a|];
      } else {
        assert (a + b)[i] == a[i] && (a + b)[i] in a;
        assert (a + b)[j] == b[j - |a|] && (a + b)[j] in b;
      }
    }
    forall c | c in a + b
      ensures lo <= Rank(c) < hi
    {
      assert c in a || c in b;
    }
  }

  function When(guard: bool, c: Command): seq<Command>
  {
    if guard then [c] else []
  }

  /** The translation tests: Control encloses the Shift test for Z and the Shift tests for Y. */
  function Translations(down: set<Key>): seq<Command>
  {
    When(Left in down, PlusX) + When(Right in down, MinusX) + (if Control !in down then UpDownMoves(down) else [])
  }

  /** The moves Up and Down make when Control is not held: along Z, or along Y with Shift. */
  function UpDownMoves(down: set<Key>): seq<Command>
  {
    var moveZ := if Shift !in down then When(Down in down, PlusZ) + When(Up in down, MinusZ) else [];
    moveZ + (When(Up in down && Shift in down, PlusY) + When(Down in down && Shift in down, MinusY))
  }

  function Scalings(down: set<Key>): seq<Command>
  {
    When(Up in down && Control in down, Grow) + When(Down in down && Control in down, Shrink)
  }

  function Rotations(down: set<Key>, press: set<Key>): seq<Command>
  {
    When(KeyX in press && Shift !in down, TurnX) + When(KeyY in press, TurnY) + When(KeyZ in press, TurnZ)
  }

  /**
   * The commands of one frame: translations, then scalings, then rotations,
   * each in the order Update tests them.
   */
  function Commands(down: set<Key>, press: set<Key>): seq<Command>
  {
    Translations(down) + Scalings(down) + Rotations(down, press)
  }

  lemma WhenIncreasing(guard: bool, c: Command)
    ensures Increasing(When(guard, c)) && RanksWithin(When(guard, c), Rank(c), Rank(c) + 1)
  {
  }

  lemma TranslationsIncreasing(down: set<Key>)
    ensures Increasing(Translations(down)) && RanksWithin(Translations(down), 0, 6)
  {
    var x1, x2 := When(Left in down, PlusX), When(Right in down, MinusX);
    var z1, z2 := When(Down in down, PlusZ), When(Up in down, MinusZ);
    var y1, y2 := When(Up in down && Shift in down, PlusY), When(Down in down && Shift in down, MinusY);
    WhenIncreasing(Left in down, PlusX);
    WhenIncreasing(Right in down, MinusX);
    WhenIncreasing(Down in down, PlusZ);
    WhenIncreasing(Up in down, MinusZ);
    WhenIncreasing(Up in down && Shift in down, PlusY);
    WhenIncreasing(Down in down && Shift in down, MinusY);
    IncreasingConcat(x1, x2, 0, 1, 2);
    IncreasingConcat(z1, z2, 2, 3, 4);
    IncreasingConcat(y1, y2, 4, 5, 6);
    var moveZ := if Shift !in down then z1 + z2 else [];
    IncreasingConcat(moveZ, y1 + y2, 2, 4, 6);
    assert UpDownMoves(down) == moveZ + (y1 + y2);
    var moveYZ := if Control !in down then UpDownMoves(down) else [];
    IncreasingConcat(x1 + x2, moveYZ, 0, 2, 6);
  }

  lemma ScalingsIncreasing(down: set<Key>)
    ensures Increasing(Scalings(down)) && RanksWithin(Scalings(down), 6, 8)
  {
    WhenIncreasing(Up in down && Control in down, Grow);
    WhenIncreasing(Down in down && Control in down, Shrink);
    IncreasingConcat(When(Up in down && Control in down, Grow), When(Down in down && Control in down, Shrink), 6, 7, 8);
  }

  lemma RotationsIncreasing(down: set<Key>, press: set<Key>)
    ensures Increasing(Rotations(down, press)) && RanksWithin(Rotations(down, press), 8, 11)
  {
    var tx, ty, tz := When(KeyX in press && Shift !in down, TurnX), When(KeyY in press, TurnY), When(KeyZ in press, TurnZ);
    WhenIncreasing(KeyX in press && Shift !in down, TurnX);
    WhenIncreasing(KeyY in press, TurnY);
    WhenIncreasing(KeyZ in press, TurnZ);
    IncreasingConcat(tx, ty, 8, 9, 10);
    IncreasingConcat(tx + ty, tz, 8, 10, 11);
  }

  /** The commands of a frame come out in the order Update tests them. */
  lemma CommandsIncreasing(down: set<Key>, press: set<Key>)
    ensures Increasing(Commands(down, press))
  {
    var t, s, q := Translations(down), Scalings(down), Rotations(down, press);
    TranslationsIncreasing(down);
    ScalingsIncreasing(down);
    RotationsIncreasing(down, press);
    IncreasingConcat(t, s, 0, 6, 8);
    IncreasingConcat(t + s, q, 0, 8, 11);
  }

  lemma UpDownAreActive(down: set<Key>, press: set<Key>, c: Command)
    requires Control !in down
    ensures c in UpDownMoves(down) <==> 2 <= Rank(c) < 6 && Active(c, down, press)
  {
    var moveZ := if Shift !in down then When(Down in down, PlusZ) + When(Up in down, MinusZ) else [];
    var moveY := When(Up in down && Shift in down, PlusY) + When(Down in down && Shift in down, MinusY);
    assert UpDownMoves(down) == moveZ + moveY;
    assert c in moveZ <==> (c == PlusZ || c == MinusZ) && Active(c, down, press);
    assert c in moveY <==> (c == PlusY || c == MinusY) && Active(c, down, press);
  }

  lemma TranslationsAreActive(down: set<Key>, press: set<Key>, c: Command)
    requires Rank(c) < 6
    ensures c in Translations(down) <==> Active(c, down, press)
  {
    var moveX := When(Left in down, PlusX) + When(Right in down, MinusX);
    var upDown := if Control !in down then UpDownMoves(down) else [];
    assert Translations(down) == moveX + upDown;
    assert c in moveX <==> Rank(c) < 2 && Active(c, down, press);
    if Control !in down {
      UpDownAreActive(down, press, c);
    } else if 2 <= Rank(c) {
      assert !Active(c, down, press);
    }
  }

  lemma ScalingsAreActive(down: set<Key>, press: set<Key>, c: Command)
    requires 6 <= Rank(c) < 8
    ensures c in Scalings(down) <==> Active(c, down, press)
  {
  }

  lemma RotationsAreActive(down: set<Key>, press: set<Key>, c: Command)
    requires 8 <= Rank(c)
    ensures c in Rotations(down, press) <==> Active(c, down, press)
  {
  }

  /** A command is issued exactly when its key binding holds. */
  lemma CommandsAreActive(down: set<Key>, press: set<Key>)
    ensures forall c :: c in Commands(down, press) <==> Active(c, down, press)
  {
    forall c
      ensures c in Commands(down, press) <==> Active(c, down, press)
    {
      var t, s, q := Translations(down), Scalings(down), Rotations(down, press);
      assert Commands(down, press) == t + s + q;
      if Rank(c) < 6 {
        TranslationsAreActive(down, press, c);
        assert c !in s && c !in q;
      } else if Rank(c) < 8 {
        ScalingsAreActive(down, press, c);
        assert c !in t && c !in q;
      } else {
        RotationsAreActive(down, press, c);
        assert c !in t && c !in s;
      }
    }
  }

  /**
   * Commands is the only list that holds exactly the active commands in
   * increasing rank: the binding table and the test order determine it.
   */
  lemma CommandsUnique(down: set<Key>, press: set<Key>, cs: seq<Command>)
    requires Increasing(cs)
    requires forall c :: c in cs <==> Active(c, down, press)
    ensures cs == Commands(down, press)
  {
    CommandsAreActive(down, press);
    CommandsIncreasing(down, press);
    SameIncreasing(cs, Commands(down, press));
  }

  /** The first command of an increasing list has the least rank of all its commands. */
  lemma FirstIsLeast(cs: seq<Command>, c: Command)
    requires Increasing(cs) && c in cs
    ensures Rank(cs[0]) <= Rank(c)
    ensures Rank(cs[0]) == Rank(c) ==> c == cs[0]
  {
    var j :| 0 <= j < |cs| && cs[j] == c;
  }

  /** Two increasing lists with the same commands are the same list. */
  lemma {:induction false} SameIncreasing(a: seq<Command>, b: seq<Command>)
    requires Increasing(a) && Increasing(b)
    requires forall c :: c in a <==> c in b
    ensures a == b
    decreases |a|
  {
    assert |a| > 0 ==> a[0] in a;
    assert |b| > 0 ==> b[0] in b;
    if a != [] && b != [] {
      assert a[0] in a && a[0] in b;
      FirstIsLeast(b, a[0]);
      FirstIsLeast(a, b[0]);
      RankInjective(a[0], b[0]);
      forall c
        ensures c in a[1..] <==> c in b[1..]
      {
        if c in a[1..] {
          var j :| 1 <= j < |a| && a[j] == c;
          FirstIsLeast(b, c);
        }
        if c in b[1..] {
          var j :| 1 <= j < |b| && b[j] == c;
          FirstIsLeast(a, c);
        }
      }
      SameIncreasing(a[1..], b[1..]);
      assert a == [a[0]] + a[1..] && b == [b[0]] + b[1..];
    }
  }

  lemma RankInjective(c: Command, d: Command)
    ensures Rank(c) == Rank(d) ==> c == d
  {
  }

  /** The factors of a command list, in the same order. */
  function Steps(cs: seq<Command>): Matrix
  {
    if cs == [] then Identity else Mul([StepOf(cs[0])], Steps(cs[1..]))
  }

  /** The product has one factor per command, the i-th from the i-th command. */
  lemma {:induction false} StepsAt(cs: seq<Command>)
    ensures |Steps(cs)| == |cs|
    ensures forall i :: 0 <= i < |cs| ==> Steps(cs)[i] == StepOf(cs[i])
  {
    if cs != [] {
      StepsAt(cs[1..]);
    }
  }

  /** The incremental transform of one frame: Identity times each active step in turn. */
  function EditTransform(down: set<Key>, press: set<Key>): Matrix
  {
    Steps(Commands(down, press))
  }

  /** Distinct commands contribute distinct steps. */
  lemma StepOfInjective(c: Command, d: Command)
    ensures StepOf(c) == StepOf(d) ==> c == d
  {
  }

  /** A step occurs in the product of a command list exactly when its command occurs in the list. */
  lemma StepsHold(cs: seq<Command>, c: Command)
    ensures StepOf(c) in Steps(cs) <==> c in cs
  {
    var m := Steps(cs);
    StepsAt(cs);
    if c in cs {
      var i :| 0 <= i < |cs| && cs[i] == c;
      assert m[i] == StepOf(c);
    }
    if StepOf(c) in m {
      var i :| 0 <= i < |m| && m[i] == StepOf(c);
      StepOfInjective(cs[i], c);
      assert cs[i] in cs;
    }
  }

  /** Every step of a product of commands is the step of one of them. */
  lemma StepsFrom(cs: seq<Command>, s: Step)
    requires s in Steps(cs)
    ensures exists c :: c in cs && StepOf(c) == s
  {
    StepsAt(cs);
    var i :| 0 <= i < |Steps(cs)| && Steps(cs)[i] == s;
    assert cs[i] in cs;
  }

  /** The frame's transform holds a command's step exactly when the command's key binding holds. */
  lemma EditTransformSteps(down: set<Key>, press: set<Key>, c: Command)
    ensures StepOf(c) in EditTransform(down, press) <==> Active(c, down, press)
  {
    CommandsAreActive(down, press);
    StepsHold(Commands(down, press), c);
  }

  /** With Control held no step moves along Y or Z: Up and Down no longer translate. */
  lemma ControlBlocksYZ(down: set<Key>, press: set<Key>)
    requires Control in down
    ensures forall s :: s in EditTransform(down, press) && s.Translate? ==> s.dy == 0.0 && s.dz == 0.0
  {
    forall s | s in EditTransform(down, press) && s.Translate?
      ensures s.dy == 0.0 && s.dz == 0.0
    {
      StepsFrom(Commands(down, press), s);
      var c :| c in Commands(down, press) && StepOf(c) == s;
      CommandsAreActive(down, press);
    }
  }

  /** With Control held, Up grows the object by 1.001 and Down shrinks it by 0.999. */
  lemma ControlScales(down: set<Key>, press: set<Key>)
    requires Control in down
    ensures (Scaling(1.001) in EditTransform(down, press)) <==> Up in down
    ensures (Scaling(0.999) in EditTransform(down, press)) <==> Down in down
  {
    EditTransformSteps(down, press, Grow);
    EditTransformSteps(down, press, Shrink);
  }

  /** Holding Shift blocks the X rotation even when X is pressed; Y and Z still turn. */
  lemma ShiftBlocksTurnX(down: set<Key>, press: set<Key>)
    requires Shift in down
    ensures TurnX !in Commands(down, press)
    ensures TurnY in Commands(down, press) <==> KeyY in press
    ensures TurnZ in Commands(down, press) <==> KeyZ in press
  {
    CommandsAreActive(down, press);
  }

  /** A frame without arrow or rotation keys leaves the object where it is. */
  lemma NoEditKeysNoEdit(down: set<Key>, press: set<Key>)
    requires Left !in down && Right !in down && Up !in down && Down !in down
    requires KeyX !in press && KeyY !in press && KeyZ !in press
    ensures EditTransform(down, press) == Identity
  {
    assert Translations(down) == [] && Scalings(down) == [] && Rotations(down, press) == [];
  }

  lemma {:induction false} StepsConcat(a: seq<Command>, b: seq<Command>)
    ensures Steps(a + b) == Mul(Steps(a), Steps(b))
  {
    if a == [] {
      assert a + b == b;
    } else {
      assert (a + b)[0] == a[0];
      assert (a + b)[1..] == a[1..] + b;
      StepsConcat(a[1..], b);
    }
  }

  /** Multiplying by the steps of a, then by those of b, is multiplying by the steps of a + b. */
  lemma Then(transform0: Matrix, a: seq<Command>, b: seq<Command>)
    ensures Mul(Mul(transform0, Steps(a)), Steps(b)) == Mul(transform0, Steps(a + b))
  {
    StepsConcat(a, b);
    MulAssoc(transform0, Steps(a), Steps(b));
  }

  /** One test of the dispatch: `if (guard) transform *= m;` where m is the matrix of command c. */
  method MulIf(guard: bool, transform0: Matrix, m: Matrix, ghost c: Command) returns (transform: Matrix)
    requires m == [StepOf(c)]
    ensures transform == Mul(transform0, Steps(When(guard, c)))
  {
    transform := transform0;
    if guard {
      transform := Mul(transform, m);
    }
  }

  /** The TRANSLATE block of Update: right-multiplies the steps of Translations. */
  method ApplyTranslations(down: set<Key>, transform0: Matrix) returns (transform: Matrix)
    ensures transform == Mul(transform0, Steps(Translations(down)))
  {
    transform := MulIf(Left in down, transform0, Translation(Nudge, 0.0, 0.0), PlusX);
    transform := MulIf(Right in down, transform, Translation(-Nudge, 0.0, 0.0), MinusX);
    ghost var moveX := When(Left in down, PlusX) + When(Right in down, MinusX);
    Then(transform0, When(Left in down, PlusX), When(Right in down, MinusX));
    if Control !in down {
      transform := ApplyUpDown(down, transform);
      Then(transform0, moveX, UpDownMoves(down));
    } else {
      assert Translations(down) == moveX + [];
    }
  }

  /** The arrow moves inside the Control test of the TRANSLATE block. */
  method ApplyUpDown(down: set<Key>, transform0: Matrix) returns (transform: Matrix)
    ensures transform == Mul(transform0, Steps(UpDownMoves(down)))
  {
    transform := transform0;
    ghost var moveZ: seq<Command> := [];
    if Shift !in down {
      transform := MulIf(Down in down, transform, Translation(0.0, 0.0, Nudge), PlusZ);
      transform := MulIf(Up in down, transform, Translation(0.0, 0.0, -Nudge), MinusZ);
      Then(transform0, When(Down in down, PlusZ), When(Up in down, MinusZ));
      moveZ := When(Down in down, PlusZ) + When(Up in down, MinusZ);
    } else {
      assert transform == Mul(transform0, Steps(moveZ));
    }
    ghost var plusY, minusY := When(Up in down && Shift in down, PlusY), When(Down in down && Shift in down, MinusY);
    transform := MulIf(Up in down && Shift in down, transform, Translation(0.0, Nudge, 0.0), PlusY);
    transform := MulIf(Down in down && Shift in down, transform, Translation(0.0, -Nudge, 0.0), MinusY);
    Then(transform0, moveZ, plusY);
    Then(transform0, moveZ + plusY, minusY);
    assert moveZ + plusY + minusY == UpDownMoves(down);
  }

  /** The SCALE block of Update. */
  method ApplyScalings(down: set<Key>, transform0: Matrix) returns (transform: Matrix)
    ensures transform == Mul(transform0, Steps(Scalings(down)))
  {
    transform := MulIf(Up in down && Control in down, transform0, Scale(1.001), Grow);
    transform := MulIf(Down in down && Control in down, transform, Scale(0.999), Shrink);
    Then(transform0, When(Up in down && Control in down, Grow), When(Down in down && Control in down, Shrink));
  }

  /** The ROTATE block of Update: X only without Shift, Y and Z on their press alone. */
  method ApplyRotations(down: set<Key>, press: set<Key>, transform0: Matrix) returns (transform: Matrix)
    ensures transform == Mul(transform0, Steps(Rotations(down, press)))
  {
    ghost var turnX, turnY, turnZ := When(KeyX in press && Shift !in down, TurnX), When(KeyY in press, TurnY), When(KeyZ in press, TurnZ);
    transform := MulIf(KeyX in press && Shift !in down, transform0, Rotate(X, Radians(15.0)), TurnX);
    transform := MulIf(KeyY in press, transform, Rotate(Y, Radians(15.0)), TurnY);
    transform := MulIf(KeyZ in press, transform, Rotate(Z, Radians(15.0)), TurnZ);
    Then(transform0, turnX, turnY);
    Then(transform0, turnX + turnY, turnZ);
  }

  /** Update's dispatch as written: Identity multiplied on the right by each step whose test passes. */
  method ComposeEdit(down: set<Key>, press: set<Key>) returns (transform: Matrix)
    ensures transform == EditTransform(down, press)
  {
    transform := ApplyTranslations(down, Identity);
    transform := ApplyScalings(down, transform);
    transform := ApplyRotations(down, press, transform);
    Then(Identity, Translations(down), Scalings(down));
    Then(Identity, Translations(down) + Scalings(down), Rotations(down, press));
  }
}
