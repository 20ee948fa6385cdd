/**
 * The logic skia-safe's `Matrix` wrapper implements itself: naming the nine
 * slots of `SkMatrix::fMat`, reading and writing them by name or by raw
 * index, the named setters, the `is_translate` test on a type mask, the
 * length guard of `new_poly_to_poly` and the defaulting of an omitted pivot.
 * Every other operation forwards to the native library and is not modelled.
 * Matrix elements are `real`s: nothing here computes with them.
 */
module SkiaMatrix {
  import opened Wrappers

  /** `MatrixMember`: the nine elements in row-major order; the discriminant is the `fMat` position. */
  datatype MatrixMember = ScaleX | SkewX | TransX | SkewY | ScaleY | TransY | Persp0 | Persp1 | Persp2
  {
    /** `self as usize`, the position in `fMat` an index by this member reaches. */
    function Slot(): (i: nat)
      ensures i < 9
    {
      match this
      case ScaleX => 0
      case SkewX => 1
      case TransX => 2
      case SkewY => 3
      case ScaleY => 4
      case TransY => 5
      case Persp0 => 6
      case Persp1 => 7
      case Persp2 => 8
    }
  }

  /** The member whose discriminant is the raw index `i`. */
  function MemberAt(i: nat): (m: MatrixMember)
    requires i < 9
    ensures m.Slot() == i
  {
    [MatrixMember.ScaleX, MatrixMember.SkewX, MatrixMember.TransX,
     MatrixMember.SkewY, MatrixMember.ScaleY, MatrixMember.TransY,
     MatrixMember.Persp0, MatrixMember.Persp1, MatrixMember.Persp2][i]
  }

  /** Distinct members reach distinct slots: `MemberAt` undoes `Slot`. */
  lemma SlotRoundTrip(m: MatrixMember)
    ensures MemberAt(m.Slot()) == m
  {
  }

  /**
   * `AffineMatrixMember`: the six affine elements in the order of Skia's
   * six-float affine arrays. Indexing a `Matrix` with one uses this
   * discriminant as the raw `fMat` position too.
   */
  datatype AffineMatrixMember = ScaleX | SkewY | SkewX | ScaleY | TransX | TransY
  {
    /** `self as usize`, the position in `fMat` an index by this member reaches. */
    function Slot(): (i: nat)
      ensures i < 6
    {
      match this
      case ScaleX => 0
      case SkewY => 1
      case SkewX => 2
      case ScaleY => 3
      case TransX => 4
      case TransY => 5
    }

    /** The full member that reaches the same `fMat` slot as this affine member. */
    function Alias(): (m: MatrixMember)
      ensures m.Slot() == Slot()
    {
      MemberAt(Slot())
    }

    /** The full member that carries the same name as this affine member. */
    function Namesake(): (m: MatrixMember) {
      match this
      case ScaleX => MatrixMember.ScaleX
      case SkewY => MatrixMember.SkewY
      case SkewX => MatrixMember.SkewX
      case ScaleY => MatrixMember.ScaleY
      case TransX => MatrixMember.TransX
      case TransY => MatrixMember.TransY
    }
  }

  /**
   * Affine and full members reach the same slot exactly when the full member
   * is the affine member's alias.
   */
  lemma SharedSlotIsAlias(a: AffineMatrixMember, m: MatrixMember)
    ensures a.Slot() == m.Slot() <==> m == a.Alias()
  {
    SlotRoundTrip(m);
  }

  /**
   * Because affine discriminants are used as raw positions, only `ScaleX`
   * and `TransY` reach the slot of their namesake: affine `SkewY` reaches
   * full `SkewX`, affine `SkewX` reaches `TransX`, affine `ScaleY` reaches
   * `SkewY` and affine `TransX` reaches `ScaleY`.
   */
  lemma AffineAliases(a: AffineMatrixMember)
    ensures a.Alias() == a.Namesake() <==> a == AffineMatrixMember.ScaleX || a == AffineMatrixMember.TransY
    ensures AffineMatrixMember.SkewY.Alias() == MatrixMember.SkewX
    ensures AffineMatrixMember.SkewX.Alias() == MatrixMember.TransX
    ensures AffineMatrixMember.ScaleY.Alias() == MatrixMember.SkewY
    ensures AffineMatrixMember.TransX.Alias() == MatrixMember.ScaleY
  {
  }

  /** Affine members reach exactly the first two rows, slots 0 to 5, and never the perspective row. */
  lemma AffineMembersReachFirstTwoRows(i: nat)
    ensures (exists a: AffineMatrixMember :: a.Slot() == i) <==> i < 6
  {
    if i < 6 {
      var a := [AffineMatrixMember.ScaleX, AffineMatrixMember.SkewY, AffineMatrixMember.SkewX,
                AffineMatrixMember.ScaleY, AffineMatrixMember.TransX, AffineMatrixMember.TransY][i];
      assert a.Slot() == i;
    }
  }

  /** The flags of `MatrixTypeMask`; the identity type is the empty mask. */
  datatype TypeFlag = Translate | Scale | Affine | Perspective
  type TypeMask = set<TypeFlag>

  const AllTypeFlags: TypeMask := {Translate, Scale, Affine, Perspective}

  /** Every flag is one of the four defined ones. */
  lemma FlagIsDefined(f: TypeFlag)
    ensures f in AllTypeFlags
  {
    match f
    case Translate =>
    case Scale =>
    case Affine =>
    case Perspective =>
  }

  /** The bit-set complement `!mask`, which keeps only defined flags. */
  function Complement(mask: TypeMask): (c: TypeMask) {
    AllTypeFlags - mask
  }

  /**
   * `is_translate`: the type mask the native `getType` reports has no flag
   * besides `Translate`. The identity's empty mask is a translate.
   */
  function IsTranslate(typeMask: TypeMask): (b: bool)
    ensures b <==> typeMask <= {Translate}
    ensures b <==> typeMask == {} || typeMask == {Translate}
  {
    forall f | f in typeMask ensures f in AllTypeFlags { FlagIsDefined(f); }
    typeMask * Complement({Translate}) == {}
  }

  datatype Point = Point(x: real, y: real)

  const Origin: Point := Point(0.0, 0.0)

  /** The pivot the scale, rotate, sin-cos and skew operations pass on: the given one, else the origin. */
  function PivotOrOrigin(pivot: Option<Point>): (p: Point)
    ensures pivot.None? ==> p == Origin
    ensures pivot.Some? ==> p == pivot.value
  {
    pivot.UnwrapOr(Origin)
  }

  /** The native routines that take a pivot, and how many operands each takes before it. */
  datatype PivotOp =
    | SetScale | SetRotate | SetSinCos | SetSkew
    | PreScale | PreRotate | PreSkew
    | PostScale | PostRotate | PostSkew
  {
    function Arity(): (n: nat) {
      if this == SetRotate || this == PreRotate || this == PostRotate then 1 else 2
    }
  }

  /** The arguments one native pivot routine receives. */
  datatype NativePivotCall = NativePivotCall(op: PivotOp, operands: seq<real>, px: real, py: real)

  /**
   * What `set_scale`, `set_rotate`, `set_sin_cos`, `set_skew` and their
   * `pre_` and `post_` variants hand to the native routine: the operands
   * unchanged, followed by the pivot's coordinates, (0, 0) when no pivot
   * was given.
   */
  function PivotCall(op: PivotOp, operands: seq<real>, pivot: Option<Point>): (c: NativePivotCall)
    requires |operands| == op.Arity()
    ensures c.op == op && c.operands == operands
    ensures pivot.None? ==> c.px == 0.0 && c.py == 0.0
    ensures pivot.Some? ==> c.px == pivot.value.x && c.py == pivot.value.y
  {
    var p := PivotOrOrigin(pivot);
    NativePivotCall(op, operands, p.x, p.y)
  }

  /** The contents of an `fMat` array. */
  type Mat9 = s: seq<real> | |s| == 9 witness [0.0, 0.0, 0.0, 0.0, 0.0, 0.0, 0.0, 0.0, 0.0]

  const IdentityElements: Mat9 := [1.0, 0.0, 0.0, 0.0, 1.0, 0.0, 0.0, 0.0, 1.0]

  /**
   * `new_poly_to_poly`: point lists of different lengths give `None` before
   * the native solver is called; otherwise the solver's outcome is the result.
   * `solve` stands for the native `setPolyToPoly` applied to an identity matrix.
   */
  function NewPolyToPoly(src: seq<Point>, dst: seq<Point>, solve: (seq<Point>, seq<Point>) -> Option<Mat9>)
    : (r: Option<Mat9>)
    ensures |src| != |dst| ==> r == None
    ensures |src| == |dst| ==> r == solve(src, dst)
    ensures r.Some? ==> |src| == |dst|
  {
    if |src| != |dst| then None else solve(src, dst)
  }

  /** `Matrix`: the nine elements of a native `SkMatrix`, in row-major order. */
  class Matrix {
    var fMat: array<real>

    ghost predicate Valid()
      reads this
    {
      fMat.Length == 9
    }

    function Elements(): (s: Mat9)
      reads this, fMat
      requires Valid()
    {
      fMat[..]
    }

    /** `new_identity`: the native reset leaves the identity in `fMat`. */
    constructor Identity()
      ensures Valid() && fresh(fMat)
      ensures Elements() == IdentityElements
    {
      fMat := new real[] [1.0, 0.0, 0.0, 0.0, 1.0, 0.0, 0.0, 0.0, 1.0];
    }

    /** `Index<usize>`: element `index` of `fMat`; an index of 9 or more panics. */
    function At(index: nat): (v: real)
      reads this, fMat
      requires Valid() && index < 9
      ensures v == Elements()[index]
    {
      fMat[index]
    }

    /** `Index<MatrixMember>`: the element at the member's row-major position. */
    function Get(m: MatrixMember): (v: real)
      reads this, fMat
      requires Valid()
      ensures v == Elements()[m.Slot()]
    {
      At(m.Slot())
    }

    /** `Index<AffineMatrixMember>`: the element at the affine discriminant, read as an `fMat` position. */
    function GetAffine(a: AffineMatrixMember): (v: real)
      reads this, fMat
      requires Valid()
      ensures v == Elements()[a.Slot()]
      ensures v == Get(a.Alias())
    {
      At(a.Slot())
    }

    /** `IndexMut<usize>`: writes element `index` and nothing else. */
    method SetAt(index: nat, v: real)
      requires Valid() && index < 9
      modifies fMat
      ensures Valid()
      ensures Elements() == old(Elements())[index := v]
      ensures At(index) == v
    {
      fMat[index] := v;
    }

    /** `IndexMut<MatrixMember>`: writes the slot that `Get(m)` reads. */
    method Set(m: MatrixMember, v: real)
      requires Valid()
      modifies fMat
      ensures Valid()
      ensures Elements() == old(Elements())[m.Slot() := v]
      ensures Get(m) == v
    {
      SetAt(m.Slot(), v);
    }

    /**
     * `IndexMut<AffineMatrixMember>`: writes the slot that `GetAffine(a)`
     * reads, which is the slot of the full member `a.Alias()`.
     */
    method SetAffine(a: AffineMatrixMember, v: real)
      requires Valid()
      modifies fMat
      ensures Valid()
      ensures Elements() == old(Elements())[a.Slot() := v]
      ensures GetAffine(a) == v && Get(a.Alias()) == v
    {
      SetAt(a.Slot(), v);
    }

    /** `set_scale_x`: writes slot 0 only. */
    method SetScaleX(v: real)
      requires Valid()
      modifies fMat
      ensures Valid()
      ensures Elements() == old(Elements())[0 := v]
      ensures Get(MatrixMember.ScaleX) == v
    {
      Set(MatrixMember.ScaleX, v);
    }

    /** `set_scale_y`: writes slot 4 only. */
    method SetScaleY(v: real)
      requires Valid()
      modifies fMat
      ensures Valid()
      ensures Elements() == old(Elements())[4 := v]
      ensures Get(MatrixMember.ScaleY) == v
    {
      Set(MatrixMember.ScaleY, v);
    }

    /** `set_skew_y`: writes slot 3 only. */
    method SetSkewY(v: real)
      requires Valid()
      modifies fMat
      ensures Valid()
      ensures Elements() == old(Elements())[3 := v]
      ensures Get(MatrixMember.SkewY) == v
    {
      Set(MatrixMember.SkewY, v);
    }

    /** `set_skew_x`: writes slot 1 only. */
    method SetSkewX(v: real)
      requires Valid()
      modifies fMat
      ensures Valid()
      ensures Elements() == old(Elements())[1 := v]
      ensures Get(MatrixMember.SkewX) == v
    {
      Set(MatrixMember.SkewX, v);
    }

    /** `set_translate_x`: writes slot 2 only. */
    method SetTranslateX(v: real)
      requires Valid()
      modifies fMat
      ensures Valid()
      ensures Elements() == old(Elements())[2 := v]
      ensures Get(MatrixMember.TransX) == v
    {
      Set(MatrixMember.TransX, v);
    }

    /** `set_translate_y`: writes slot 5 only. */
    method SetTranslateY(v: real)
      requires Valid()
      modifies fMat
      ensures Valid()
      ensures Elements() == old(Elements())[5 := v]
      ensures Get(MatrixMember.TransY) == v
    {
      Set(MatrixMember.TransY, v);
    }

    /** `set_persp_x`: writes slot 6 (`Persp0`) only. */
    method SetPerspX(v: real)
      requires Valid()
      modifies fMat
      ensures Valid()
      ensures Elements() == old(Elements())[6 := v]
      ensures Get(MatrixMember.Persp0) == v
    {
      Set(MatrixMember.Persp0, v);
    }

    /** `set_persp_y`: writes slot 7 (`Persp1`) only. */
    method SetPerspY(v: real)
      requires Valid()
      modifies fMat
      ensures Valid()
      ensures Elements() == old(Elements())[7 := v]
      ensures Get(MatrixMember.Persp1) == v
    {
      Set(MatrixMember.Persp1, v);
    }
  }

  /**
   * Writing through affine `SkewY` and reading through full `SkewX` meet in
   * the same slot, while full `SkewY` keeps its old value.
   */
  method AffineSkewYWritesSkewX(m: Matrix, v: real)
    requires m.Valid()
    modifies m.fMat
    ensures m.Valid()
    ensures m.Get(MatrixMember.SkewX) == v
    ensures m.Get(MatrixMember.SkewY) == old(m.Get(MatrixMember.SkewY))
  {
    m.SetAffine(AffineMatrixMember.SkewY, v);
  }
}
