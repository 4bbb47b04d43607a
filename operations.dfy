/**
 * The editor's operation list: seven toggles, each with its own parameters,
 * become the ordered list of tagged operations posted to the apply endpoint.
 */
module Operations {

  /** The seven kinds of editing operation, one per toggle of the editor panel. */
  datatype Kind = ResizeOp | CropOp | RotateOp | FlipOp | QualityOp | BrightnessContrastOp | FormatOp

  /**
   * One entry of the posted list. Each variant carries only its own parameters;
   * numeric parameters are the values after the string-to-number conversion.
   */
  datatype Operation =
    | Resize(width: real, height: real)
    | Crop(width: real, height: real, x: real, y: real)
    | Rotate(angle: real)
    | Flip(horizontal: bool, vertical: bool)
    | Quality(quality: real)
    | BrightnessContrast(brightness: real, contrast: real)
    | Format(format: string)

  /** The seven operation toggles of the editor panel. */
  datatype Toggles = Toggles(
    resize: bool, crop: bool, rotate: bool, flip: bool, quality: bool, bc: bool, format: bool)

  /** The parameter inputs of the editor panel, including the two flip check boxes. */
  datatype Parameters = Parameters(
    resizeWidth: real, resizeHeight: real,
    cropWidth: real, cropHeight: real, cropX: real, cropY: real,
    rotateAngle: real,
    flipH: bool, flipV: bool,
    qualityValue: real,
    brightness: real, contrast: real,
    formatValue: string)

  /** Everything the editor panel holds. */
  datatype Config = Config(on: Toggles, params: Parameters)

  /** The panel as first shown: every toggle off, the inputs at their initial values. */
  const DefaultConfig: Config := Config(
    Toggles(false, false, false, false, false, false, false),
    Parameters(500.0, 500.0, 250.0, 250.0, 0.0, 0.0, 90.0, false, false, 85.0, 0.0, 0.0, "jpeg"))

  /** The `type` field an operation carries on the wire. */
  function Tag(k: Kind): string {
    match k
    case ResizeOp => "resize"
    case CropOp => "crop"
    case RotateOp => "rotate"
    case FlipOp => "flip"
    case QualityOp => "quality"
    case BrightnessContrastOp => "brightness-contrast"
    case FormatOp => "format"
  }

  function KindOf(op: Operation): Kind {
    match op
    case Resize(_, _) => ResizeOp
    case Crop(_, _, _, _) => CropOp
    case Rotate(_) => RotateOp
    case Flip(_, _) => FlipOp
    case Quality(_) => QualityOp
    case BrightnessContrast(_, _) => BrightnessContrastOp
    case Format(_) => FormatOp
  }

  /** Position of a kind in the fixed declaration order. */
  function Rank(k: Kind): (r: nat)
    ensures r < 7
  {
    match k
    case ResizeOp => 0
    case CropOp => 1
    case RotateOp => 2
    case FlipOp => 3
    case QualityOp => 4
    case BrightnessContrastOp => 5
    case FormatOp => 6
  }

  /** The number of kinds, and so of toggles. */
  const KindCount: nat := 7

  /** The kind at position `r` of the declaration order. */
  function KindAt(r: nat): (k: Kind)
    requires r < KindCount
    ensures Rank(k) == r
  {
    if r == 0 then ResizeOp
    else if r == 1 then CropOp
    else if r == 2 then RotateOp
    else if r == 3 then FlipOp
    else if r == 4 then QualityOp
    else if r == 5 then BrightnessContrastOp
    else FormatOp
  }

  /** Every kind has its place in the declaration order. */
  lemma KindAtRank(k: Kind)
    ensures Rank(k) < KindCount && KindAt(Rank(k)) == k
  {
  }

  /** Whether the toggle of kind `k` is on. */
  predicate Enabled(c: Config, k: Kind) {
    match k
    case ResizeOp => c.on.resize
    case CropOp => c.on.crop
    case RotateOp => c.on.rotate
    case FlipOp => c.on.flip
    case QualityOp => c.on.quality
    case BrightnessContrastOp => c.on.bc
    case FormatOp => c.on.format
  }

  /** The operation of kind `k`, built from that kind's own parameters only. */
  function OperationFor(c: Config, k: Kind): (op: Operation)
    ensures KindOf(op) == k
  {
    var p := c.params;
    match k
    case ResizeOp => Resize(p.resizeWidth, p.resizeHeight)
    case CropOp => Crop(p.cropWidth, p.cropHeight, p.cropX, p.cropY)
    case RotateOp => Rotate(p.rotateAngle)
    case FlipOp => Flip(p.flipH, p.flipV)
    case QualityOp => Quality(p.qualityValue)
    case BrightnessContrastOp => BrightnessContrast(p.brightness, p.contrast)
    case FormatOp => Format(p.formatValue)
  }

  /** The entry of one toggle: its operation when it is on, nothing when it is off. */
  function Slot(on: bool, op: Operation): seq<Operation> {
    if on then [op] else []
  }

  /**
   * The entries of the kinds placed before position `n` of the declaration
   * order: those before `n - 1`, then the entry of the kind at `n - 1`.
   */
  function Collect(c: Config, n: nat): seq<Operation>
    requires n <= KindCount
  {
    if n == 0 then [] else Collect(c, n - 1) + Slot(Enabled(c, KindAt(n - 1)), OperationFor(c, KindAt(n - 1)))
  }

  /** The list the editor posts for the panel state `c`. */
  function BuildOperations(c: Config): seq<Operation> {
    Collect(c, KindCount)
  }

  /** Builds the list by a conditional push per toggle, in declaration order. */
  method CollectOperations(c: Config) returns (operations: seq<Operation>)
    ensures operations == BuildOperations(c)
  {
    var on, p := c.on, c.params;
    operations := [];
    if on.resize { operations := operations + [Resize(p.resizeWidth, p.resizeHeight)]; }
    assert operations == Collect(c, 1);
    if on.crop { operations := operations + [Crop(p.cropWidth, p.cropHeight, p.cropX, p.cropY)]; }
    assert operations == Collect(c, 2);
    if on.rotate { operations := operations + [Rotate(p.rotateAngle)]; }
    assert operations == Collect(c, 3);
    if on.flip { operations := operations + [Flip(p.flipH, p.flipV)]; }
    assert operations == Collect(c, 4);
    if on.quality { operations := operations + [Quality(p.qualityValue)]; }
    assert operations == Collect(c, 5);
    if on.bc { operations := operations + [BrightnessContrast(p.brightness, p.contrast)]; }
    assert operations == Collect(c, 6);
    if on.format { operations := operations + [Format(p.formatValue)]; }
  }

  // ---------------------------------------------------------------------------
  // Independent descriptions of the list

  function Count(b: bool): (n: nat)
    ensures n <= 1
  {
    if b then 1 else 0
  }

  /** The number of toggles that are on. */
  function EnabledCount(c: Config): nat {
    var on := c.on;
    Count(on.resize) + Count(on.crop) + Count(on.rotate) + Count(on.flip)
    + Count(on.quality) + Count(on.bc) + Count(on.format)
  }

  predicate AnyEnabled(c: Config) {
    var on := c.on;
    on.resize || on.crop || on.rotate || on.flip || on.quality || on.bc || on.format
  }

  /** Every entry comes from an enabled toggle and carries that toggle's parameters. */
  ghost predicate Sound(c: Config, ops: seq<Operation>) {
    forall op :: op in ops ==> Enabled(c, KindOf(op)) && op == OperationFor(c, KindOf(op))
  }

  /** Every enabled toggle has its entry. */
  ghost predicate Complete(c: Config, ops: seq<Operation>) {
    forall k :: Enabled(c, k) ==> OperationFor(c, k) in ops
  }

  /** Entries follow the declaration order strictly, so no kind occurs twice. */
  ghost predicate Ordered(ops: seq<Operation>) {
    forall i, j :: 0 <= i < j < |ops| ==> Rank(KindOf(ops[i])) < Rank(KindOf(ops[j]))
  }

  // ---------------------------------------------------------------------------
  // Lemmas

  /** The first four toggles contribute one entry each when on. */
  lemma CollectLengthFirstFour(c: Config)
    ensures |Collect(c, 4)| == Count(c.on.resize) + Count(c.on.crop) + Count(c.on.rotate) + Count(c.on.flip)
  {
    assert |Collect(c, 1)| == Count(c.on.resize);
    assert |Collect(c, 2)| == |Collect(c, 1)| + Count(c.on.crop);
    assert |Collect(c, 3)| == |Collect(c, 2)| + Count(c.on.rotate);
  }

  /** One entry per enabled toggle: the length is the number of toggles on, at most seven. */
  lemma BuildOperationsLength(c: Config)
    ensures |BuildOperations(c)| == EnabledCount(c) <= 7
  {
    CollectLengthFirstFour(c);
    assert |Collect(c, 5)| == |Collect(c, 4)| + Count(c.on.quality);
    assert |Collect(c, 6)| == |Collect(c, 5)| + Count(c.on.bc);
  }

  /** The list is empty exactly when no toggle is on. */
  lemma BuildOperationsEmpty(c: Config)
    ensures BuildOperations(c) == [] <==> !AnyEnabled(c)
  {
    BuildOperationsLength(c);
  }

  lemma {:induction false} CollectSound(c: Config, n: nat)
    requires n <= KindCount
    ensures Sound(c, Collect(c, n))
    ensures forall op :: op in Collect(c, n) ==> Rank(KindOf(op)) < n
  {
    if n > 0 {
      CollectSound(c, n - 1);
    }
  }

  lemma {:induction false} CollectComplete(c: Config, n: nat)
    requires n <= KindCount
    ensures forall k :: Rank(k) < n && Enabled(c, k) ==> OperationFor(c, k) in Collect(c, n)
  {
    if n > 0 {
      CollectComplete(c, n - 1);
      forall k | Rank(k) < n && Enabled(c, k)
        ensures OperationFor(c, k) in Collect(c, n)
      {
        KindAtRank(k);
      }
    }
  }

  lemma {:induction false} CollectOrdered(c: Config, n: nat)
    requires n <= KindCount
    ensures Ordered(Collect(c, n))
  {
    if n > 0 {
      var front := Collect(c, n - 1);
      CollectOrdered(c, n - 1);
      CollectSound(c, n - 1);
      var last := KindAt(n - 1);
      if Enabled(c, last) {
        var all := front + [OperationFor(c, last)];
        forall i, j | 0 <= i < j < |all|
          ensures Rank(KindOf(all[i])) < Rank(KindOf(all[j]))
        {
          assert all[i] == front[i];
          if j < |front| {
            assert all[j] == front[j];
          } else {
            assert front[i] in front;
          }
        }
      } else {
        assert Collect(c, n) == front;
      }
    }
  }

  /** The built list is sound, complete and in declaration order. */
  lemma BuildOperationsSpec(c: Config)
    ensures Sound(c, BuildOperations(c))
    ensures Complete(c, BuildOperations(c))
    ensures Ordered(BuildOperations(c))
  {
    CollectSound(c, KindCount);
    CollectComplete(c, KindCount);
    CollectOrdered(c, KindCount);
  }

  /** Two lists in strict declaration order with the same entries are the same list. */
  lemma {:induction false} OrderedSameEntries(a: seq<Operation>, b: seq<Operation>)
    requires Ordered(a) && Ordered(b)
    requires forall op :: op in a <==> op in b
    ensures a == b
    decreases |a|
  {
    if a != [] || b != [] {
      assert a != [] ==> a[0] in b;
      assert b != [] ==> b[0] in a;
      var i :| 0 <= i < |a| && a[i] == b[0];
      var j :| 0 <= j < |b| && b[j] == a[0];
      assert Rank(KindOf(a[0])) <= Rank(KindOf(a[i]));
      assert Rank(KindOf(b[0])) <= Rank(KindOf(b[j]));
      assert i == 0;
      forall op
        ensures op in a[1..] <==> op in b[1..]
      {
        if op in a[1..] {
          var k :| 1 <= k < |a| && a[k] == op;
          assert Rank(KindOf(a[0])) < Rank(KindOf(op));
          assert op in b && op != b[0];
          var m :| 0 <= m < |b| && b[m] == op;
          assert m != 0;
          assert b[1..][m - 1] == op;
        }
        if op in b[1..] {
          var k :| 1 <= k < |b| && b[k] == op;
          assert Rank(KindOf(b[0])) < Rank(KindOf(op));
          assert op in a && op != a[0];
          var m :| 0 <= m < |a| && a[m] == op;
          assert m != 0;
          assert a[1..][m - 1] == op;
        }
      }
      OrderedSameEntries(a[1..], b[1..]);
      assert a == [a[0]] + a[1..];
      assert b == [b[0]] + b[1..];
    }
  }

  /**
   * The built list is the one and only list that is sound, complete and in
   * declaration order: those three facts describe it fully.
   */
  lemma BuildOperationsCharacterised(c: Config, ops: seq<Operation>)
    ensures ops == BuildOperations(c) <==> Sound(c, ops) && Complete(c, ops) && Ordered(ops)
  {
    BuildOperationsSpec(c);
    if Sound(c, ops) && Complete(c, ops) && Ordered(ops) {
      var built := BuildOperations(c);
      forall op
        ensures op in ops <==> op in built
      {
        if op in ops {
          assert OperationFor(c, KindOf(op)) in built;
        }
        if op in built {
          assert OperationFor(c, KindOf(op)) in ops;
        }
      }
      OrderedSameEntries(ops, built);
    }
  }

  /**
   * The list depends on the panel only through which toggles are on and the
   * operation each kind would contribute.
   */
  lemma {:induction false} CollectCongruent(c: Config, d: Config, n: nat)
    requires n <= KindCount
    requires forall k :: Enabled(c, k) == Enabled(d, k) && OperationFor(c, k) == OperationFor(d, k)
    ensures Collect(c, n) == Collect(d, n)
  {
    if n > 0 {
      CollectCongruent(c, d, n - 1);
    }
  }

  /** Wire tags tell the kinds apart. */
  lemma TagInjective(a: Kind, b: Kind)
    ensures Tag(a) == Tag(b) ==> a == b
  {
  }

  // ---------------------------------------------------------------------------
  // Editing the panel

  /** Clicking the header of kind `k`: that toggle flips, nothing else changes. */
  function Toggled(c: Config, k: Kind): (r: Config)
    ensures r.params == c.params
    ensures forall j :: Enabled(r, j) == (if j == k then !Enabled(c, j) else Enabled(c, j))
  {
    var on := c.on;
    var on' := match k
      case ResizeOp => on.(resize := !on.resize)
      case CropOp => on.(crop := !on.crop)
      case RotateOp => on.(rotate := !on.rotate)
      case FlipOp => on.(flip := !on.flip)
      case QualityOp => on.(quality := !on.quality)
      case BrightnessContrastOp => on.(bc := !on.bc)
      case FormatOp => on.(format := !on.format);
    c.(on := on')
  }

  /** Flipping the same toggle twice restores the panel. */
  lemma ToggleTwice(c: Config, k: Kind)
    ensures Toggled(Toggled(c, k), k) == c
  {
  }

  /**
   * The list depends only on which toggles end up on, not on the order in
   * which they were clicked.
   */
  lemma ToggleOrderIrrelevant(c: Config, a: Kind, b: Kind)
    ensures BuildOperations(Toggled(Toggled(c, a), b)) == BuildOperations(Toggled(Toggled(c, b), a))
  {
    var ab, ba := Toggled(Toggled(c, a), b), Toggled(Toggled(c, b), a);
    assert forall k :: Enabled(ab, k) == Enabled(ba, k);
    assert forall k :: OperationFor(ab, k) == OperationFor(ba, k) by {
      assert ab.params == ba.params;
    }
    CollectCongruent(ab, ba, KindCount);
  }

  /** Flipping toggle `k` adds its entry when it was off and removes it when it was on. */
  lemma ToggleAddsOrRemoves(c: Config, k: Kind)
    ensures OperationFor(c, k) in BuildOperations(Toggled(c, k)) <==> !Enabled(c, k)
    ensures forall j :: j != k ==>
      (OperationFor(c, j) in BuildOperations(Toggled(c, k)) <==> OperationFor(c, j) in BuildOperations(c))
  {
    var t := Toggled(c, k);
    BuildOperationsSpec(c);
    BuildOperationsSpec(t);
    forall j
      ensures OperationFor(c, j) in BuildOperations(t) <==> Enabled(t, j)
      ensures OperationFor(c, j) in BuildOperations(c) <==> Enabled(c, j)
    {
      if OperationFor(c, j) in BuildOperations(t) {
        assert KindOf(OperationFor(c, j)) == j;
      }
    }
  }

  /** With every toggle off, switching one on makes the list that operation alone. */
  lemma SingleToggle(c: Config, k: Kind)
    requires !AnyEnabled(c)
    ensures BuildOperations(Toggled(c, k)) == [OperationFor(c, k)]
  {
    var t := Toggled(c, k);
    var op := OperationFor(c, k);
    assert forall j :: Enabled(t, j) <==> j == k;
    assert OperationFor(t, k) == op by {
      assert t.params == c.params;
    }
    BuildOperationsCharacterised(t, [op]);
  }
}
