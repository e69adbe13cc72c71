/**
 * InterData data sets (include/InterData.h): `Value`, `Array`, `Array2d` and `Array3d` are
 * flat buffers of `rawSize` elements with a shape `size`. Multi-dimensional indices map to
 * buffer offsets in row-major order, and the checked `element(...)` accessors throw
 * `OutOfRangeException` for an index outside the shape.
 *
 * The element type is fixed to `int`. A lookup is `Found`, `Thrown`, or `Undefined` when the
 * arithmetic points outside the buffer (undefined behaviour in the source).
 */
module DataSets {
  import opened Wrappers
  import Text
  import Vectors
  import Exceptions

  datatype Lookup = Found(value: int) | Thrown(failure: Exceptions.Failure) | Undefined

  /** `raw[offset]`, the unchecked access. */
  function Read(raw: seq<int>, offset: int): (r: Lookup)
    ensures r.Found? <==> 0 <= offset < |raw|
    ensures r.Found? ==> r.value == raw[offset]
    ensures !r.Thrown?
  {
    if 0 <= offset < |raw| then Found(raw[offset]) else Undefined
  }

  function OutOfRange(message: string): Lookup {
    Thrown(Exceptions.Failure(Exceptions.OutOfRange, message))
  }

  /** One row-major step: position `k` within block `p` of blocks of length `n`. */
  function RowMajor(p: int, k: int, n: int): int {
    p * n + k
  }

  /** A row-major offset of an in-range position lies inside the `m * n` elements. */
  lemma RowMajorBounds(p: int, k: int, m: int, n: int)
    requires 0 <= p < m && 0 <= k < n
    ensures 0 <= RowMajor(p, k, n) < m * n
  {
    assert p * n <= (m - 1) * n by {
      assert (m - 1 - p) * n >= 0;
    }
  }

  /** Distinct in-range positions have distinct row-major offsets. */
  lemma RowMajorInjective(p: int, k: int, p': int, k': int, n: int)
    requires 0 <= k < n && 0 <= k' < n
    requires RowMajor(p, k, n) == RowMajor(p', k', n)
    ensures p == p' && k == k'
  {
    var d := p - p';
    assert d * n == k' - k by {
      assert p * n - p' * n == (p - p') * n;
    }
    if d != 0 {
      assert false;
    }
  }

  /** Every offset inside the `m * n` elements is the row-major offset of an in-range position. */
  lemma RowMajorOnto(o: int, m: int, n: int)
    requires 0 < n && 0 <= o < m * n
    ensures 0 <= o / n < m && 0 <= o % n < n
    ensures RowMajor(o / n, o % n, n) == o
  {
    var p := o / n;
    assert o == p * n + o % n;
  }

  // ---- Value ----

  /** `Value::element()` and `operator()()`: the single element. */
  function ValueElement(raw: seq<int>): (r: Lookup)
    ensures |raw| >= 1 ==> r == Found(raw[0])
  {
    Read(raw, 0)
  }

  // ---- Array ----

  function ArrayMessage(index: int, size: int): string {
    "index " + Text.DecimalString(index) + " " + "is out of range for Array of size " + Text.DecimalString(size)
  }

  /** `Array::element(index)`. */
  function ArrayElement(size: int, raw: seq<int>, index: int): Lookup {
    if 0 <= index && index < size then Read(raw, index)
    else OutOfRange(ArrayMessage(index, size))
  }

  /**
   * When the shape matches the buffer, `element(index)` succeeds exactly for
   * `0 <= index < size` and returns `raw[index]`; otherwise it throws an out-of-range
   * exception naming the index and the size. It is never undefined.
   */
  lemma ArrayElementSpec(size: int, raw: seq<int>, index: int)
    requires size <= |raw|
    ensures ArrayElement(size, raw, index).Found? <==> 0 <= index < size
    ensures 0 <= index < size ==> ArrayElement(size, raw, index) == Found(raw[index])
    ensures !(0 <= index < size) ==> ArrayElement(size, raw, index) == OutOfRange(ArrayMessage(index, size))
  {
  }

  /** The message reads back as the index and the size, so different failures say different things. */
  lemma ArrayMessageInjective(index: int, size: int, index': int, size': int)
    requires ArrayMessage(index, size) == ArrayMessage(index', size')
    ensures index == index' && size == size'
  {
    var a, b := Text.DecimalString(index), Text.DecimalString(size);
    var a', b' := Text.DecimalString(index'), Text.DecimalString(size');
    var rest := "is out of range for Array of size ";
    var t, t' := a + " " + (rest + b), a' + " " + (rest + b');
    MessageTail(a, rest, b);
    MessageTail(a', rest, b');
    StripPrefix("index ", t, t');
    NoSpace(a);
    NoSpace(a');
    SplitAtSpace(a, rest + b, a', rest + b');
    StripPrefix(rest, b, b');
    Text.DecimalStringInjective(index, index');
    Text.DecimalStringInjective(size, size');
  }

  lemma MessageTail(a: string, rest: string, b: string)
    ensures "index " + a + " " + rest + b == "index " + (a + " " + (rest + b))
  {
  }

  lemma StripPrefix(p: string, s: string, s': string)
    requires p + s == p + s'
    ensures s == s'
  {
    assert s == (p + s)[|p|..];
    assert s' == (p + s')[|p|..];
  }

  /** A rendered integer contains no space. */
  lemma NoSpace(s: string)
    requires |s| > 0
    requires forall k :: (if s[0] == '-' then 1 else 0) <= k < |s| ==> Text.IsDigit(s[k])
    ensures forall k :: 0 <= k < |s| ==> s[k] != ' '
  {
  }

  /** The characters of `s` before its first space. */
  function UpToSpace(s: string): string
    decreases |s|
  {
    if s == [] || s[0] == ' ' then [] else [s[0]] + UpToSpace(s[1..])
  }

  lemma {:induction false} UpToSpaceOfJoin(a: string, r: string)
    requires forall k :: 0 <= k < |a| ==> a[k] != ' '
    ensures UpToSpace(a + " " + r) == a
    decreases |a|
  {
    if a != [] {
      assert (a + " " + r)[1..] == a[1..] + " " + r;
      UpToSpaceOfJoin(a[1..], r);
    }
  }

  /** The first space of `a + " " + r` ends `a` when `a` has none. */
  lemma SplitAtSpace(a: string, r: string, a': string, r': string)
    requires forall k :: 0 <= k < |a| ==> a[k] != ' '
    requires forall k :: 0 <= k < |a'| ==> a'[k] != ' '
    requires a + " " + r == a' + " " + r'
    ensures a == a' && r == r'
  {
    UpToSpaceOfJoin(a, r);
    UpToSpaceOfJoin(a', r');
    StripPrefix(a + " ", r, r');
  }

  // ---- Array2d ----

  /** `operator()(i, j)`: row-major offset `i * size.y + j`. */
  function Offset2(size: Vectors.Vector2, i: int, j: int): int {
    RowMajor(i, j, size.y)
  }

  predicate InPlane(size: Vectors.Vector2, i: int, j: int) {
    0 <= i < size.x && 0 <= j < size.y
  }

  /**
   * The 2d index map is a bijection between the in-range indices and the offsets
   * `0 .. size.x * size.y - 1`.
   */
  lemma Offset2Bijection(size: Vectors.Vector2, i: int, j: int, i': int, j': int)
    requires InPlane(size, i, j) && InPlane(size, i', j')
    ensures 0 <= Offset2(size, i, j) < size.Volume()
    ensures Offset2(size, i, j) == Offset2(size, i', j') ==> i == i' && j == j'
  {
    RowMajorBounds(i, j, size.x, size.y);
    if Offset2(size, i, j) == Offset2(size, i', j') {
      RowMajorInjective(i, j, i', j', size.y);
    }
  }

  lemma Offset2Onto(size: Vectors.Vector2, o: int)
    requires 0 <= o < size.Volume() && size.y > 0
    ensures InPlane(size, o / size.y, o % size.y) && Offset2(size, o / size.y, o % size.y) == o
  {
    RowMajorOnto(o, size.x, size.y);
  }

  function Array2dMessage(index: Vectors.Vector2, size: Vectors.Vector2): string {
    "index " + index.ToString() + " is out of range for Array2d of size " + size.ToString()
  }

  /** `Array2d::element(i, j)`: both coordinates are checked. */
  function Array2dElement(size: Vectors.Vector2, raw: seq<int>, i: int, j: int): Lookup {
    if InPlane(size, i, j) then Read(raw, Offset2(size, i, j))
    else OutOfRange(Array2dMessage(Vectors.Vector2(i, j), size))
  }

  /**
   * When the buffer holds the whole matrix, `element(i, j)` succeeds exactly for in-range
   * indices, returns the element at the row-major offset, and throws otherwise.
   */
  lemma Array2dElementSpec(size: Vectors.Vector2, raw: seq<int>, i: int, j: int)
    requires |raw| == size.Volume()
    ensures Array2dElement(size, raw, i, j).Found? <==> InPlane(size, i, j)
    ensures InPlane(size, i, j) ==> Array2dElement(size, raw, i, j) == Found(raw[Offset2(size, i, j)])
    ensures !InPlane(size, i, j) ==> Array2dElement(size, raw, i, j).Thrown?
  {
    if InPlane(size, i, j) {
      Offset2Bijection(size, i, j, i, j);
    }
  }

  /** The range check of `Array2d::element(IndexType)` as written: it tests `index.y` against `size.x`. */
  predicate Array2dIndexAccepted(size: Vectors.Vector2, index: Vectors.Vector2) {
    index.x >= 0 && index.y < size.x && index.y >= 0 && index.y < size.y
  }

  /** `Array2d::element(IndexType index)` as written. */
  function Array2dElementAtAsWritten(size: Vectors.Vector2, raw: seq<int>, index: Vectors.Vector2): Lookup {
    if Array2dIndexAccepted(size, index) then Read(raw, Offset2(size, index.x, index.y))
    else OutOfRange(Array2dMessage(index, size))
  }

  /** `Array2d::element(IndexType index)` as intended: the same check as `element(i, j)`. */
  function Array2dElementAt(size: Vectors.Vector2, raw: seq<int>, index: Vectors.Vector2): (r: Lookup)
    ensures r == Array2dElement(size, raw, index.x, index.y)
  {
    if InPlane(size, index.x, index.y) then Read(raw, Offset2(size, index.x, index.y))
    else OutOfRange(Array2dMessage(index, size))
  }

  /**
   * The check as written accepts `index.x` beyond the rows and reads outside the buffer, and
   * rejects in-range indices whose column is not below the row count.
   */
  lemma Array2dIndexCheckCounterexample()
    ensures var size, raw := Vectors.Vector2(1, 5), [0, 0, 0, 0, 0];
      && |raw| == size.Volume()
      && Array2dIndexAccepted(size, Vectors.Vector2(3, 0)) && !InPlane(size, 3, 0)
      && Array2dElementAtAsWritten(size, raw, Vectors.Vector2(3, 0)) == Undefined
      && InPlane(size, 0, 2) && Array2dElementAtAsWritten(size, raw, Vectors.Vector2(0, 2)).Thrown?
  {
    var size := Vectors.Vector2(1, 5);
    assert Offset2(size, 3, 0) == 15;
  }

  /** The intended check agrees with `element(i, j)`: it accepts exactly the in-range indices and never reads outside the buffer. */
  lemma Array2dElementAtSpec(size: Vectors.Vector2, raw: seq<int>, index: Vectors.Vector2)
    requires |raw| == size.Volume()
    ensures Array2dElementAt(size, raw, index).Found? <==> InPlane(size, index.x, index.y)
    ensures Array2dElementAt(size, raw, index) != Undefined
  {
    Array2dElementSpec(size, raw, index.x, index.y);
  }

  // ---- Array3d ----

  /** `operator()(i, j, k)`: row-major offset `(i * size.y + j) * size.z + k`. */
  function Offset3(size: Vectors.Vector3, i: int, j: int, k: int): int {
    RowMajor(RowMajor(i, j, size.y), k, size.z)
  }

  predicate InBox(size: Vectors.Vector3, i: int, j: int, k: int) {
    0 <= i < size.x && 0 <= j < size.y && 0 <= k < size.z
  }

  /**
   * The 3d index map sends the in-range indices into `0 .. n1 * n2 * n3 - 1` and is
   * injective there.
   */
  lemma Offset3Bijection(size: Vectors.Vector3, i: int, j: int, k: int, i': int, j': int, k': int)
    requires InBox(size, i, j, k) && InBox(size, i', j', k')
    ensures 0 <= Offset3(size, i, j, k) < size.Volume()
    ensures Offset3(size, i, j, k) == Offset3(size, i', j', k') ==> i == i' && j == j' && k == k'
  {
    RowMajorBounds(i, j, size.x, size.y);
    RowMajorBounds(RowMajor(i, j, size.y), k, size.x * size.y, size.z);
    if Offset3(size, i, j, k) == Offset3(size, i', j', k') {
      RowMajorBounds(i', j', size.x, size.y);
      RowMajorInjective(RowMajor(i, j, size.y), k, RowMajor(i', j', size.y), k', size.z);
      RowMajorInjective(i, j, i', j', size.y);
    }
  }

  /** Every buffer offset is reached by exactly one in-range index. */
  lemma Offset3Onto(size: Vectors.Vector3, o: int)
    requires 0 <= o < size.Volume() && size.y > 0 && size.z > 0
    ensures var p := o / size.z;
      InBox(size, p / size.y, p % size.y, o % size.z) && Offset3(size, p / size.y, p % size.y, o % size.z) == o
  {
    RowMajorOnto(o, size.x * size.y, size.z);
    RowMajorOnto(o / size.z, size.x, size.y);
  }

  function Array3dMessage(index: Vectors.Vector3, size: Vectors.Vector3): string {
    "index " + index.ToString() + " is out of range for Array3d of size " + size.ToString()
  }

  /** `Array3d::element(i, j, k)` and `element(IndexType)`, which check the same condition. */
  function Array3dElement(size: Vectors.Vector3, raw: seq<int>, i: int, j: int, k: int): Lookup {
    if InBox(size, i, j, k) then Read(raw, Offset3(size, i, j, k))
    else OutOfRange(Array3dMessage(Vectors.Vector3(i, j, k), size))
  }

  /**
   * When the buffer holds the whole array, `element` succeeds exactly for in-range indices,
   * returns the element at the row-major offset, and throws as soon as any coordinate is out
   * of range.
   */
  lemma Array3dElementSpec(size: Vectors.Vector3, raw: seq<int>, i: int, j: int, k: int)
    requires |raw| == size.Volume()
    ensures Array3dElement(size, raw, i, j, k).Found? <==> InBox(size, i, j, k)
    ensures InBox(size, i, j, k) ==> Array3dElement(size, raw, i, j, k) == Found(raw[Offset3(size, i, j, k)])
    ensures !InBox(size, i, j, k) ==> Array3dElement(size, raw, i, j, k) == OutOfRange(Array3dMessage(Vectors.Vector3(i, j, k), size))
  {
    if InBox(size, i, j, k) {
      Offset3Bijection(size, i, j, k, i, j, k);
    }
  }

  // ---- DataSetImplementation ----

  datatype Kind = Value | Array | Array2d | Array3d

  /** The `size` field: an `int` for `Value` and `Array`, a `Vector2` or a `Vector3` otherwise. */
  datatype Shape = Linear(n: int) | Plane(v: Vectors.Vector2) | Box(w: Vectors.Vector3)

  predicate ShapeFits(kind: Kind, size: Shape) {
    match kind
    case Value => size.Linear?
    case Array => size.Linear?
    case Array2d => size.Plane?
    case Array3d => size.Box?
  }

  /** The checked lookups of each data set kind, on its shape and buffer. */
  function ElementOf(size: Shape, raw: seq<int>, index: Vectors.Vector3): Lookup {
    match size
    case Linear(n) => ArrayElement(n, raw, index.x)
    case Plane(v) => Array2dElementAt(v, raw, Vectors.Vector2(index.x, index.y))
    case Box(w) => Array3dElement(w, raw, index.x, index.y, index.z)
  }

  class DataSet {
    const kind: Kind
    var size: Shape
    /** The buffer; a null `raw` is an empty array. */
    var raw: array<int>
    var rawSize: int
    var ownsMemory: bool

    /** The buffer holds at least the `rawSize` elements that `changeRaw` copies. */
    predicate Valid()
      reads this
    {
      0 <= rawSize <= raw.Length && ShapeFits(kind, size)
    }

    /**
     * The default constructor: no buffer, no elements, owning. An `int` shape is left
     * uninitialised, given here as `unspecified`; vector shapes start at zero.
     */
    constructor Empty(kind: Kind, unspecified: int)
      requires kind != Value
      ensures this.kind == kind && raw.Length == 0 && rawSize == 0 && ownsMemory
      ensures size == (match kind
                       case Array2d => Plane(Vectors.Vector2(0, 0))
                       case Array3d => Box(Vectors.Vector3(0, 0, 0))
                       case _ => Linear(unspecified))
      ensures Valid() && fresh(raw)
    {
      this.kind := kind;
      size := match kind
              case Array2d => Plane(Vectors.Vector2(0, 0))
              case Array3d => Box(Vectors.Vector3(0, 0, 0))
              case _ => Linear(unspecified);
      raw := new int[0];
      rawSize := 0;
      ownsMemory := true;
    }

    /**
     * The sized constructor as intended: store the shape, allocate `rawSize` elements and
     * fill them with `value`.
     */
    constructor Sized(kind: Kind, size: Shape, rawSize: int, value: int)
      requires ShapeFits(kind, size) && rawSize >= 0
      ensures this.kind == kind && this.size == size && this.rawSize == rawSize && ownsMemory
      ensures raw.Length == rawSize && forall k :: 0 <= k < rawSize ==> raw[k] == value
      ensures Valid() && fresh(raw)
    {
      this.kind := kind;
      this.size := size;
      this.rawSize := rawSize;
      ownsMemory := true;
      raw := new int[rawSize](_ => value);
    }

    /**
     * The sized constructor as written: the shape member is initialised from itself, so it
     * holds an indeterminate value, given here as `unspecified`; the buffer is as intended.
     */
    constructor SizedAsWritten(kind: Kind, size: Shape, rawSize: int, value: int, unspecified: Shape)
      requires ShapeFits(kind, size) && ShapeFits(kind, unspecified) && rawSize >= 0
      ensures this.kind == kind && this.size == unspecified && this.rawSize == rawSize && ownsMemory
      ensures raw.Length == rawSize && forall k :: 0 <= k < rawSize ==> raw[k] == value
      ensures Valid() && fresh(raw)
    {
      this.kind := kind;
      this.size := unspecified;
      this.rawSize := rawSize;
      ownsMemory := true;
      raw := new int[rawSize](_ => value);
    }

    function GetNumElements(): int
      reads this
    {
      rawSize
    }

    function GetSize(): Shape
      reads this
    {
      size
    }

    /** `Array2d::getNumRows`. */
    function GetNumRows(): int
      requires size.Plane?
      reads this
    {
      size.v.x
    }

    /** `Array2d::getNumCols`: the column count `size.y` (see README). */
    function GetNumCols(): int
      requires size.Plane?
      reads this
    {
      size.v.y
    }

    /** The checked `element(...)` lookup of this data set. */
    function Element(index: Vectors.Vector3): Lookup
      reads this, raw
    {
      if kind == Value then ValueElement(raw[..]) else ElementOf(size, raw[..], index)
    }

    /**
     * `changeRaw(newRaw)`: copy the `rawSize` elements into `newRaw`, point `raw` at it and
     * give up ownership. Elements of `newRaw` past `rawSize` keep their values.
     */
    method ChangeRaw(newRaw: array<int>)
      requires Valid() && rawSize <= newRaw.Length
      modifies this, newRaw
      ensures raw == newRaw && !ownsMemory
      ensures size == old(size) && rawSize == old(rawSize)
      ensures newRaw[..rawSize] == old(raw[..rawSize])
      ensures newRaw[rawSize..] == old(newRaw[rawSize..])
      ensures Valid()
    {
      forall k | 0 <= k < rawSize {
        newRaw[k] := raw[k];
      }
      raw := newRaw;
      ownsMemory := false;
    }

    /** The destructor: the buffer is freed exactly when the data set owns it. */
    method Destroy() returns (freesRaw: bool)
      ensures freesRaw <==> ownsMemory
    {
      freesRaw := ownsMemory;
    }
  }

  /** `Value(value)`: one element, `value`. */
  method NewValue(value: int) returns (d: DataSet)
    ensures fresh(d) && d.Valid() && d.kind == Value && d.rawSize == 1
    ensures d.Element(Vectors.Vector3(0, 0, 0)) == Found(value)
  {
    d := new DataSet.Sized(Value, Linear(1), 1, value);
  }

  /** `Array(size, value)` with `size` elements, all `value`. */
  method NewArray(size: int, value: int) returns (d: DataSet)
    requires size >= 0
    ensures fresh(d) && d.Valid() && d.kind == Array && d.rawSize == size
    ensures forall i :: 0 <= i < size ==> d.Element(Vectors.Vector3(i, 0, 0)) == Found(value)
    ensures forall i :: !(0 <= i < size) ==> d.Element(Vectors.Vector3(i, 0, 0)) == OutOfRange(ArrayMessage(i, size))
  {
    d := new DataSet.Sized(Array, Linear(size), size, value);
  }

  /** `Array2d(nRows, nCols, value)` and `Array2d(size, value)`: `size.volume()` elements. */
  method NewArray2d(size: Vectors.Vector2, value: int) returns (d: DataSet)
    requires size.Volume() >= 0
    ensures fresh(d) && d.Valid() && d.kind == Array2d && d.rawSize == size.Volume()
    ensures forall i, j :: d.Element(Vectors.Vector3(i, j, 0)).Found? <==> InPlane(size, i, j)
    ensures forall i, j :: InPlane(size, i, j) ==> d.Element(Vectors.Vector3(i, j, 0)) == Found(value)
  {
    d := new DataSet.Sized(Array2d, Plane(size), size.Volume(), value);
    forall i, j ensures d.Element(Vectors.Vector3(i, j, 0)).Found? <==> InPlane(size, i, j) {
      Array2dElementSpec(size, d.raw[..], i, j);
    }
    forall i, j | InPlane(size, i, j) ensures d.Element(Vectors.Vector3(i, j, 0)) == Found(value) {
      Array2dElementSpec(size, d.raw[..], i, j);
    }
  }

  /** `Array3d(n1, n2, n3, value)` and `Array3d(size, value)`: `size.volume()` elements. */
  method NewArray3d(size: Vectors.Vector3, value: int) returns (d: DataSet)
    requires size.Volume() >= 0
    ensures fresh(d) && d.Valid() && d.kind == Array3d && d.rawSize == size.Volume()
    ensures forall i, j, k :: d.Element(Vectors.Vector3(i, j, k)).Found? <==> InBox(size, i, j, k)
    ensures forall i, j, k :: InBox(size, i, j, k) ==> d.Element(Vectors.Vector3(i, j, k)) == Found(value)
  {
    d := new DataSet.Sized(Array3d, Box(size), size.Volume(), value);
    forall i, j, k ensures d.Element(Vectors.Vector3(i, j, k)).Found? <==> InBox(size, i, j, k) {
      Array3dElementSpec(size, d.raw[..], i, j, k);
    }
    forall i, j, k | InBox(size, i, j, k) ensures d.Element(Vectors.Vector3(i, j, k)) == Found(value) {
      Array3dElementSpec(size, d.raw[..], i, j, k);
    }
  }

  /**
   * With the shape as written, `Array(100)` whose shape is left as `3` throws for index 50,
   * and one of 3 elements whose shape is left as `100` reads outside its buffer.
   */
  lemma SelfInitialisedSizeCounterexample()
    ensures ArrayElement(3, seq(100, _ => 0), 50).Thrown?
    ensures ArrayElement(100, [0, 0, 0], 50) == Undefined
  {
  }

  /** With the shape stored, an array's lookups never read outside its buffer. */
  lemma SizedArrayNeverUndefined(size: int, value: int, index: int)
    requires size >= 0
    ensures ArrayElement(size, seq(size, _ => value), index) != Undefined
  {
  }
}
