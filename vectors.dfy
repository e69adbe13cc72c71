/**
 * Two- and three-component vectors over `int` (include/Vector.h), the type the framework
 * uses for indices and shapes (`Int3`, `Vector2<int>`). The binary operators, `dot`,
 * `cross` and `volume` are functions; the compound assignments, which update their left
 * operand in place, are methods returning the updated operand.
 */
module Vectors {
  import Text

  datatype Vector2 = Vector2(x: int, y: int) {

    /** `operator[]`: component 0 is x and component 1 is y. */
    function At(idx: int): (c: int)
      requires 0 <= idx < 2
      ensures idx == 0 ==> c == x
      ensures idx == 1 ==> c == y
    {
      if idx == 0 then x else y
    }

    function Volume(): int {
      x * y
    }

    function Plus(w: Vector2): Vector2 {
      Vector2(x + w.x, y + w.y)
    }

    /** `operator -`; the source builds a `Vector3` here (see README). */
    function Minus(w: Vector2): Vector2 {
      Vector2(x - w.x, y - w.y)
    }

    function Times(w: Vector2): Vector2 {
      Vector2(x * w.x, y * w.y)
    }

    function Scaled(a: int): Vector2 {
      Vector2(x * a, y * a)
    }

    function Dot(w: Vector2): int {
      x * w.x + y * w.y
    }

    predicate Equals(w: Vector2) {
      x == w.x && y == w.y
    }

    predicate NotEquals(w: Vector2) {
      x != w.x || y != w.y
    }

    predicate Less(w: Vector2) {
      x < w.x && y < w.y
    }

    predicate LessOrEqual(w: Vector2) {
      x <= w.x && y <= w.y
    }

    predicate Greater(w: Vector2) {
      x > w.x && y > w.y
    }

    predicate GreaterOrEqual(w: Vector2) {
      x >= w.x && y >= w.y
    }

    /** `v1 += v2`: x is updated first, then y. */
    method PlusAssign(w: Vector2) returns (r: Vector2)
      ensures r == Plus(w)
      ensures r.Minus(w) == this
    {
      r := this;
      r := r.(x := r.x + w.x);
      r := r.(y := r.y + w.y);
    }

    /** `v1 -= v2`. */
    method MinusAssign(w: Vector2) returns (r: Vector2)
      ensures r == Minus(w)
      ensures r.Plus(w) == this
    {
      r := this;
      r := r.(x := r.x - w.x);
      r := r.(y := r.y - w.y);
    }

    /** `v1 *= v2`. */
    method TimesAssign(w: Vector2) returns (r: Vector2)
      ensures r == Times(w)
      ensures r.Volume() == Volume() * w.Volume()
    {
      r := this;
      r := r.(x := r.x * w.x);
      r := r.(y := r.y * w.y);
      assert r.x * r.y == (x * y) * (w.x * w.y);
    }

    /** `v *= a`. */
    method ScaleAssign(a: int) returns (r: Vector2)
      ensures r == Scaled(a)
      ensures r.Volume() == Volume() * a * a
    {
      r := this;
      r := r.(x := r.x * a);
      r := r.(y := r.y * a);
      assert r.x * r.y == (x * y) * a * a;
    }

    /** `operator<<`: "(x, y)". */
    function ToString(): string {
      "(" + Text.DecimalString(x) + ", " + Text.DecimalString(y) + ")"
    }
  }

  datatype Vector3 = Vector3(x: int, y: int, z: int) {

    /** `operator[]`: components 0, 1 and 2 are x, y and z. */
    function At(idx: int): (c: int)
      requires 0 <= idx < 3
      ensures idx == 0 ==> c == x
      ensures idx == 1 ==> c == y
      ensures idx == 2 ==> c == z
    {
      if idx == 0 then x else if idx == 1 then y else z
    }

    function Volume(): int {
      x * y * z
    }

    function Plus(w: Vector3): Vector3 {
      Vector3(x + w.x, y + w.y, z + w.z)
    }

    function Minus(w: Vector3): Vector3 {
      Vector3(x - w.x, y - w.y, z - w.z)
    }

    function Times(w: Vector3): Vector3 {
      Vector3(x * w.x, y * w.y, z * w.z)
    }

    function Scaled(a: int): Vector3 {
      Vector3(x * a, y * a, z * a)
    }

    function Dot(w: Vector3): int {
      x * w.x + y * w.y + z * w.z
    }

    function Cross(w: Vector3): Vector3 {
      Vector3(y * w.z - z * w.y, z * w.x - x * w.z, x * w.y - y * w.x)
    }

    predicate Equals(w: Vector3) {
      x == w.x && y == w.y && z == w.z
    }

    predicate NotEquals(w: Vector3) {
      x != w.x || y != w.y || z != w.z
    }

    predicate Less(w: Vector3) {
      x < w.x && y < w.y && z < w.z
    }

    predicate LessOrEqual(w: Vector3) {
      x <= w.x && y <= w.y && z <= w.z
    }

    predicate Greater(w: Vector3) {
      x > w.x && y > w.y && z > w.z
    }

    predicate GreaterOrEqual(w: Vector3) {
      x >= w.x && y >= w.y && z >= w.z
    }

    method PlusAssign(w: Vector3) returns (r: Vector3)
      ensures r == Plus(w)
      ensures r.Minus(w) == this
    {
      r := this;
      r := r.(x := r.x + w.x);
      r := r.(y := r.y + w.y);
      r := r.(z := r.z + w.z);
    }

    method MinusAssign(w: Vector3) returns (r: Vector3)
      ensures r == Minus(w)
      ensures r.Plus(w) == this
    {
      r := this;
      r := r.(x := r.x - w.x);
      r := r.(y := r.y - w.y);
      r := r.(z := r.z - w.z);
    }

    method TimesAssign(w: Vector3) returns (r: Vector3)
      ensures r == Times(w)
      ensures r.Volume() == Volume() * w.Volume()
    {
      r := this;
      r := r.(x := r.x * w.x);
      r := r.(y := r.y * w.y);
      r := r.(z := r.z * w.z);
      TimesVolume(this, w);
    }

    method ScaleAssign(a: int) returns (r: Vector3)
      ensures r == Scaled(a)
      ensures r.Volume() == Volume() * a * a * a
    {
      r := this;
      r := r.(x := r.x * a);
      r := r.(y := r.y * a);
      r := r.(z := r.z * a);
      TimesVolume(this, Vector3(a, a, a));
    }

    /** `operator<<`: "(x, y, z)". */
    function ToString(): string {
      "(" + Text.DecimalString(x) + ", " + Text.DecimalString(y) + ", " + Text.DecimalString(z) + ")"
    }
  }

  /** The conversion constructor `Vector3(Vector2 v)`. */
  function FromVector2(v: Vector2): (r: Vector3)
    ensures r.x == v.x && r.y == v.y && r.z == 0
    ensures r.Volume() == 0
  {
    Vector3(v.x, v.y, 0)
  }

  lemma TimesVolume(v: Vector3, w: Vector3)
    ensures v.Times(w).Volume() == v.Volume() * w.Volume()
  {
    calc {
      v.Times(w).Volume();
      (v.x * w.x) * (v.y * w.y) * (v.z * w.z);
      { assert (v.x * w.x) * (v.y * w.y) == (v.x * v.y) * (w.x * w.y); }
      ((v.x * v.y) * (w.x * w.y)) * (v.z * w.z);
      (v.x * v.y * v.z) * (w.x * w.y * w.z);
    }
  }

  /** `!=` is exactly the negation of the component-wise `==`, and `==` is value equality. */
  lemma NotEqualsIsNegation2(v: Vector2, w: Vector2)
    ensures v.NotEquals(w) <==> !v.Equals(w)
    ensures v.Equals(w) <==> v == w
  {
  }

  lemma NotEqualsIsNegation3(v: Vector3, w: Vector3)
    ensures v.NotEquals(w) <==> !v.Equals(w)
    ensures v.Equals(w) <==> v == w
  {
  }

  /**
   * The orderings ask every component to satisfy the relation: strict implies non-strict,
   * `>` is `<` with the operands swapped, and two vectors may be incomparable.
   */
  lemma Orderings2(v: Vector2, w: Vector2)
    ensures v.Less(w) ==> v.LessOrEqual(w) && !w.LessOrEqual(v)
    ensures v.Greater(w) <==> w.Less(v)
    ensures v.GreaterOrEqual(w) <==> w.LessOrEqual(v)
    ensures v.LessOrEqual(w) && w.LessOrEqual(v) ==> v == w
  {
  }

  lemma Orderings3(v: Vector3, w: Vector3)
    ensures v.Less(w) ==> v.LessOrEqual(w) && !w.LessOrEqual(v)
    ensures v.Greater(w) <==> w.Less(v)
    ensures v.GreaterOrEqual(w) <==> w.LessOrEqual(v)
    ensures v.LessOrEqual(w) && w.LessOrEqual(v) ==> v == w
  {
  }

  /** `<` is not a total order: (0, 1) and (1, 0) are different and neither is below the other. */
  lemma LessIsPartial2()
    ensures exists v: Vector2, w: Vector2 :: v != w && !v.Less(w) && !w.Less(v) && !v.LessOrEqual(w) && !w.LessOrEqual(v)
  {
    var v, w := Vector2(0, 1), Vector2(1, 0);
    assert v != w && !v.Less(w) && !w.Less(v) && !v.LessOrEqual(w) && !w.LessOrEqual(v);
  }

  lemma LessIsPartial3()
    ensures exists v: Vector3, w: Vector3 :: v != w && !v.Less(w) && !w.Less(v) && !v.LessOrEqual(w) && !w.LessOrEqual(v)
  {
    var v, w := Vector3(0, 1, 0), Vector3(1, 0, 0);
    assert v != w && !v.Less(w) && !w.Less(v) && !v.LessOrEqual(w) && !w.LessOrEqual(v);
  }

  /** `dot` is symmetric. */
  lemma DotSymmetric2(v: Vector2, w: Vector2)
    ensures v.Dot(w) == w.Dot(v)
  {
  }

  lemma DotSymmetric3(v: Vector3, w: Vector3)
    ensures v.Dot(w) == w.Dot(v)
  {
  }

  /** Over the integers, `cross(v, v)` is zero and `cross(v, w)` is orthogonal to both operands. */
  lemma CrossProperties(v: Vector3, w: Vector3)
    ensures v.Cross(v) == Vector3(0, 0, 0)
    ensures v.Dot(v.Cross(w)) == 0
    ensures w.Dot(v.Cross(w)) == 0
    ensures v.Cross(w) == w.Cross(v).Scaled(-1)
  {
    var c := v.Cross(w);
    assert v.x * c.x == v.x * v.y * w.z - v.x * v.z * w.y;
    assert v.y * c.y == v.y * v.z * w.x - v.y * v.x * w.z;
    assert v.z * c.z == v.z * v.x * w.y - v.z * v.y * w.x;
    assert w.x * c.x == w.x * v.y * w.z - w.x * v.z * w.y;
    assert w.y * c.y == w.y * v.z * w.x - w.y * v.x * w.z;
    assert w.z * c.z == w.z * v.x * w.y - w.z * v.y * w.x;
  }

  /** The component-wise product multiplies volumes. */
  lemma TimesVolume2(v: Vector2, w: Vector2)
    ensures v.Times(w).Volume() == v.Volume() * w.Volume()
  {
    assert (v.x * w.x) * (v.y * w.y) == (v.x * v.y) * (w.x * w.y);
  }

  /** A `Vector3` converted from a `Vector2` keeps its first two components and indexes like it. */
  lemma FromVector2Indexing(v: Vector2, idx: int)
    requires 0 <= idx < 2
    ensures FromVector2(v).At(idx) == v.At(idx)
    ensures FromVector2(v).At(2) == 0
  {
  }
}
