/**
 * MatDynMem: a float matrix whose storage is a DynMem.  Each constructor
 * computes the element count it hands to DynMem from a shape and a type code;
 * the cv::Mat header laid over that storage is not modelled, only the count,
 * which is compared here with the number of elements that header needs.
 */
module MatDynMem {
  import opened CvType
  import opened DynMemory

  /** DynMem's element type `float`, kept as its 32-bit pattern: elements are only copied and read. */
  type Float = bv32

  /** sizeof(DynMem::type), the size of a float in bytes. */
  const SIZEOF_FLOAT := 4

  /** cv::Size: a width and a height. */
  datatype Size = Size(width: Int32, height: Int32)

  /** Conversion of an `int` (or an unsigned product) to `size_t`: reduction modulo 2^64. */
  function ToSizeT(x: int): (n: SizeT)
    ensures 0 <= x < 0x1_0000_0000_0000_0000 ==> n == x
    ensures -0x1_0000_0000_0000_0000 <= x < 0 ==> n == x + 0x1_0000_0000_0000_0000
  {
    x % 0x1_0000_0000_0000_0000
  }

  /** Product of the extents, multiplied left to right; 1 for no extents. */
  function Product(s: seq<int>): (r: int)
    ensures |s| == 0 ==> r == 1
    ensures (exists i :: 0 <= i < |s| && s[i] == 0) ==> r == 0
  {
    if |s| == 0 then 1 else Product(s[..|s| - 1]) * s[|s| - 1]
  }

  /** No partial product `vol *= sizes[i]` leaves the range of `int`. */
  predicate NoOverflow(s: seq<int>) {
    forall k :: 0 <= k <= |s| ==> IsInt32(Product(s[..k]))
  }

  predicate AllNonnegative(s: seq<int>) {
    forall i :: 0 <= i < |s| ==> s[i] >= 0
  }

  predicate AllPositive(s: seq<int>) {
    forall i :: 0 <= i < |s| ==> s[i] > 0
  }

  /** The number of extents the loop of `volume` reads: a negative rank reads none. */
  function Rank(ndims: int): nat {
    if ndims < 0 then 0 else ndims
  }

  /** Number of floats a cv::Mat of these extents and this type holds: total() times channels. */
  function MatElems(dims: seq<int>, t: Int32): int {
    Product(dims) * Channels(t)
  }

  /**
   * volume(ndims, sizes): the product of sizes[0..ndims), accumulated in an
   * `int` starting from 1.  Every partial product must fit in an `int`.
   */
  method Volume(ndims: Int32, sizes: array<Int32>) returns (vol: Int32)
    requires ndims <= sizes.Length
    requires NoOverflow(sizes[..Rank(ndims)])
    ensures vol == Product(sizes[..Rank(ndims)])
    ensures ndims <= 0 ==> vol == 1
  {
    ghost var dims := sizes[..Rank(ndims)];
    vol := 1;
    var i := 0;
    while i < ndims
      invariant 0 <= i <= Rank(ndims)
      invariant vol == Product(sizes[..i])
    {
      assert sizes[..i + 1][..i] == sizes[..i];
      assert dims[..i + 1] == sizes[..i + 1];
      vol := vol * sizes[i];
      i := i + 1;
    }
    assert sizes[..i] == dims;
  }

  /** MatDynMem(cv::Size, int): size.area() * CV_MAT_CN(type) elements. */
  function SizeCount(size: Size, t: Int32): (n: SizeT)
    requires IsInt32(size.width * size.height)
    requires IsInt32(size.width * size.height * Channels(t))
    ensures size.width * size.height >= 0 ==> n == size.width * size.height * Channels(t)
    ensures size.width * size.height < 0 ==> n >= 0x1_0000_0000_0000_0000 - 0x8000_0000
  {
    var a := size.width * size.height;
    if a < 0 then
      MulNegPos(a, Channels(t));
      ToSizeT(a * Channels(t))
    else
      MulNonneg(a, Channels(t));
      ToSizeT(a * Channels(t))
  }

  /**
   * MatDynMem(int height, int width, int type): width * height * sizeof(float)
   * * CV_MAT_CN(type) elements; the `int` product width * height is converted
   * to `size_t` at the multiplication by sizeof, and the rest is unsigned.
   */
  function HeightWidthCount(height: Int32, width: Int32, t: Int32): (n: SizeT)
    requires IsInt32(width * height)
    ensures width * height >= 0 ==> n == width * height * SIZEOF_FLOAT * Channels(t)
    ensures width * height < 0 ==> n == width * height * SIZEOF_FLOAT * Channels(t) + 0x1_0000_0000_0000_0000
    ensures width * height < 0 ==> n >= 0x1_0000_0000_0000_0000 - 0x400_0000_0000
  {
    var a := width * height;
    if a >= 0 then
      MulBounded(a * SIZEOF_FLOAT, Channels(t));
      ToSizeT(ToSizeT(ToSizeT(a) * SIZEOF_FLOAT) * Channels(t))
    else
      WrapScaled(a, SIZEOF_FLOAT);
      MulAtMost(-a * SIZEOF_FLOAT, Channels(t));
      WrapScaled(a * SIZEOF_FLOAT, Channels(t));
      ToSizeT(ToSizeT(ToSizeT(a) * SIZEOF_FLOAT) * Channels(t))
  }

  /** MatDynMem(int ndims, const int *sizes, int type): volume(ndims, sizes) * CV_MAT_CN(type) elements. */
  function DimsCount(ndims: Int32, sizes: seq<Int32>, t: Int32): (n: SizeT)
    requires ndims <= |sizes|
    requires NoOverflow(sizes[..Rank(ndims)])
    requires IsInt32(Product(sizes[..Rank(ndims)]) * Channels(t))
    ensures Product(sizes[..Rank(ndims)]) >= 0 ==> n == Product(sizes[..Rank(ndims)]) * Channels(t)
    ensures ndims <= 0 ==> n == Channels(t)
  {
    MulNonnegIf(Product(sizes[..Rank(ndims)]), Channels(t));
    ToSizeT(Product(sizes[..Rank(ndims)]) * Channels(t))
  }

  /** MatDynMem(std::array<int, 3> size, int type): size[0] * size[1] * size[2] elements, no channel factor. */
  function Array3Count(size: seq<Int32>): (n: SizeT)
    requires |size| == 3
    requires IsInt32(size[0] as int * size[1]) && IsInt32(size[0] as int * size[1] * size[2])
    ensures n == ToSizeT(Product(size))
  {
    assert size[..2][..1] == [size[0]] && size[..3] == size && size[..2] == [size[0], size[1]];
    assert [size[0]][..0] == [];
    assert Product([size[0]]) == size[0];
    assert Product([size[0], size[1]]) == size[0] * size[1];
    assert Product(size) == size[0] as int * size[1] * size[2];
    ToSizeT(size[0] as int * size[1] * size[2])
  }

  /** MatDynMem(cv::Size, int): allocates SizeCount elements; the type must be single-precision float. */
  method FromSize(size: Size, t: Int32) returns (m: DynMem<Float>)
    requires IsInt32(size.width * size.height)
    requires IsInt32(size.width * size.height * Channels(t))
    requires IsFloat32(t)
    ensures fresh(m) && fresh(m.ptrH) && m.Valid()
    ensures m.ptrH != null && m.ptrH.Length == m.numElem == SizeCount(size, t)
  {
    m := new DynMem<Float>(SizeCount(size, t));
  }

  /** MatDynMem(int height, int width, int type): allocates HeightWidthCount elements; float type only. */
  method FromHeightWidth(height: Int32, width: Int32, t: Int32) returns (m: DynMem<Float>)
    requires IsInt32(width * height)
    requires IsFloat32(t)
    ensures fresh(m) && fresh(m.ptrH) && m.Valid()
    ensures m.ptrH != null && m.ptrH.Length == m.numElem == HeightWidthCount(height, width, t)
  {
    m := new DynMem<Float>(HeightWidthCount(height, width, t));
  }

  /** MatDynMem(int ndims, const int *sizes, int type): allocates volume * channels elements; float type only. */
  method FromDims(ndims: Int32, sizes: array<Int32>, t: Int32) returns (m: DynMem<Float>)
    requires ndims <= sizes.Length
    requires NoOverflow(sizes[..Rank(ndims)])
    requires IsInt32(Product(sizes[..Rank(ndims)]) * Channels(t))
    requires IsFloat32(t)
    ensures fresh(m) && fresh(m.ptrH) && m.Valid()
    ensures m.ptrH != null && m.ptrH.Length == m.numElem == DimsCount(ndims, sizes[..], t)
  {
    var vol := Volume(ndims, sizes);
    assert sizes[..][..Rank(ndims)] == sizes[..Rank(ndims)];
    m := new DynMem<Float>(ToSizeT(vol * Channels(t)));
  }

  /** MatDynMem(std::array<int, 3>, int): allocates Array3Count elements; any type is accepted. */
  method FromArray3(size: seq<Int32>, t: Int32) returns (m: DynMem<Float>)
    requires |size| == 3
    requires IsInt32(size[0] as int * size[1]) && IsInt32(size[0] as int * size[1] * size[2])
    ensures fresh(m) && fresh(m.ptrH) && m.Valid()
    ensures m.ptrH != null && m.ptrH.Length == m.numElem == Array3Count(size)
  {
    m := new DynMem<Float>(Array3Count(size));
  }

  /** MatDynMem(const cv::Mat &other): allocates other.total() elements; any type is accepted. */
  method FromMat(otherTotal: SizeT) returns (m: DynMem<Float>)
    ensures fresh(m) && fresh(m.ptrH) && m.Valid()
    ensures m.ptrH != null && m.ptrH.Length == m.numElem == otherTotal
  {
    m := new DynMem<Float>(otherTotal);
  }

  // ---------------------------------------------------------------------
  // Properties of the volume product

  /** Extents that are all nonnegative have a nonnegative product. */
  lemma {:induction false} ProductNonnegative(s: seq<int>)
    requires AllNonnegative(s)
    ensures Product(s) >= 0
  {
    if |s| > 0 {
      ProductNonnegative(s[..|s| - 1]);
    }
  }

  /** Among nonnegative extents, the product is zero exactly when some extent is zero. */
  lemma {:induction false} ProductZeroIff(s: seq<int>)
    requires AllNonnegative(s)
    ensures Product(s) == 0 <==> exists i :: 0 <= i < |s| && s[i] == 0
  {
    if |s| > 0 {
      var init := s[..|s| - 1];
      ProductZeroIff(init);
      ProductNonnegative(init);
      if Product(s) == 0 {
        if s[|s| - 1] != 0 {
          var i :| 0 <= i < |init| && init[i] == 0;
          assert s[i] == 0;
        }
      } else {
        forall i | 0 <= i < |s| ensures s[i] != 0 {
          if i < |s| - 1 {
            assert init[i] == s[i];
          }
        }
      }
    }
  }

  /** With positive extents every prefix product lies between 1 and the whole product. */
  lemma {:induction false} ProductPrefixBounded(s: seq<int>, k: nat)
    requires AllPositive(s) && k <= |s|
    ensures 1 <= Product(s[..k]) <= Product(s)
  {
    if k < |s| {
      var init := s[..|s| - 1];
      assert init[..k] == s[..k];
      ProductPrefixBounded(init, k);
      assert s[..|s|] == s;
    } else {
      assert s[..k] == s;
      if |s| > 0 {
        var init := s[..|s| - 1];
        ProductPrefixBounded(init, |s| - 1);
        assert init[..|s| - 1] == init;
      }
    }
  }

  /** For positive extents, the loop of `volume` cannot overflow exactly when the whole product fits in an `int`. */
  lemma NoOverflowPositive(s: seq<int>)
    requires AllPositive(s)
    ensures NoOverflow(s) <==> Product(s) < 0x8000_0000
  {
    assert s[..|s|] == s;
    if Product(s) < 0x8000_0000 {
      forall k | 0 <= k <= |s| ensures IsInt32(Product(s[..k])) {
        ProductPrefixBounded(s, k);
      }
    }
  }

  // ---------------------------------------------------------------------
  // Element counts against the shape each constructor lays over the buffer

  /** A nonnegative `int` converts to `size_t` unchanged; a negative one wraps to at least 2^64 - 2^31. */
  lemma ToSizeTOfInt(x: Int32)
    ensures x >= 0 ==> ToSizeT(x) == x
    ensures x < 0 ==> ToSizeT(x) >= 0x1_0000_0000_0000_0000 - 0x8000_0000
  {
    assert IsInt32(x);
  }

  /** The Size constructor allocates exactly the elements of its height-by-width header; a negative area wraps around. */
  lemma SizeCountMatchesShape(size: Size, t: Int32)
    requires IsInt32(size.width * size.height)
    requires IsInt32(size.width * size.height * Channels(t))
    ensures size.width >= 0 && size.height >= 0 ==>
              SizeCount(size, t) == MatElems([size.height, size.width], t)
    ensures size.width * size.height < 0 ==>
              SizeCount(size, t) >= 0x1_0000_0000_0000_0000 - 0x8000_0000
  {
    var cn := Channels(t);
    assert [size.height, size.width][..1] == [size.height];
    assert [size.height][..0] == [];
    assert Product([size.height]) == size.height;
    assert Product([size.height, size.width]) == size.height * size.width;
    if size.width * size.height < 0 {
      assert size.width * size.height * cn < 0 by {
        assert cn >= 1;
        MulNegPos(size.width * size.height, cn);
      }
    } else {
      assert size.width * size.height * cn >= 0 by {
        MulNonneg(size.width * size.height, cn);
      }
    }
  }

  /**
   * The height/width constructor allocates sizeof(float) = 4 times the
   * elements of its height-by-width header: the extra factor turns an
   * element count into a byte count that DynMem then reads as elements.
   */
  lemma HeightWidthCountIsFourTimes(height: Int32, width: Int32, t: Int32)
    requires IsInt32(width * height)
    requires width >= 0 && height >= 0
    ensures HeightWidthCount(height, width, t) == SIZEOF_FLOAT * MatElems([height, width], t)
    ensures MatElems([height, width], t) <= HeightWidthCount(height, width, t)
    ensures MatElems([height, width], t) > 0 ==> MatElems([height, width], t) < HeightWidthCount(height, width, t)
  {
    var cn := Channels(t);
    var a := width * height;
    MulNonneg(width, height);
    assert [height, width][..1] == [height];
    assert [height][..0] == [];
    assert Product([height]) == height;
    assert Product([height, width]) == a;
    assert 0 <= a * SIZEOF_FLOAT < 0x1_0000_0000_0000_0000;
    MulNonneg(a, cn);
    MulBounded(a * SIZEOF_FLOAT, cn);
    assert HeightWidthCount(height, width, t) == a * SIZEOF_FLOAT * cn;
  }

  /** For the same nonnegative shape and type, the height/width constructor allocates four times what the Size constructor does. */
  lemma FloatConstructorsDisagree(height: Int32, width: Int32, t: Int32)
    requires IsInt32(width * height) && IsInt32(width * height * Channels(t))
    requires width >= 0 && height >= 0
    ensures HeightWidthCount(height, width, t) == SIZEOF_FLOAT * SizeCount(Size(width, height), t)
  {
    HeightWidthCountIsFourTimes(height, width, t);
    SizeCountMatchesShape(Size(width, height), t);
  }

  /** The N-dimensional constructor allocates exactly the elements of its header, for nonnegative extents. */
  lemma DimsCountMatchesShape(ndims: Int32, sizes: seq<Int32>, t: Int32)
    requires 0 <= ndims <= |sizes|
    requires NoOverflow(sizes[..ndims])
    requires IsInt32(Product(sizes[..ndims]) * Channels(t))
    requires AllNonnegative(sizes[..ndims])
    ensures DimsCount(ndims, sizes, t) == MatElems(sizes[..ndims], t)
  {
    ProductNonnegative(sizes[..ndims]);
    MulNonneg(Product(sizes[..ndims]), Channels(t));
  }

  /**
   * The 3-array constructor allocates the product of its extents whatever the
   * type: that is the header's element count exactly when the type has one
   * channel (or the shape is empty), and fewer elements than the header needs
   * otherwise.
   */
  lemma Array3CountMatchesShapeIff(size: seq<Int32>, t: Int32)
    requires |size| == 3
    requires IsInt32(size[0] as int * size[1]) && IsInt32(size[0] as int * size[1] * size[2])
    requires AllNonnegative(size)
    ensures Array3Count(size) == Product(size)
    ensures Array3Count(size) == MatElems(size, t) <==> Channels(t) == 1 || Product(size) == 0
    ensures Array3Count(size) <= MatElems(size, t)
  {
    assert size[..2][..1] == [size[0]];
    assert size[..3] == size;
    assert size[..2] == [size[0], size[1]];
    assert [size[0]][..0] == [];
    assert Product([size[0]]) == size[0];
    assert Product([size[0], size[1]]) == size[0] * size[1];
    assert Product(size) == size[0] * size[1] * size[2];
    MulNonneg(size[0], size[1]);
    MulNonneg(size[0] * size[1], size[2]);
    var p := Product(size);
    var cn := Channels(t);
    if p > 0 && cn > 1 {
      MulGrows(p, cn);
    }
    MulNonneg(p, cn - 1);
    assert p * cn == p + p * (cn - 1);
  }

  /** A 2 x 2 x 2 two-channel float shape gets 8 elements from the 3-array constructor where its header needs 16. */
  lemma Array3TwoChannelShortfall()
    ensures Array3Count([2, 2, 2]) == 8
    ensures MatElems([2, 2, 2], CV_32FC2) == 16
  {
    NamedTypes();
    assert [2, 2, 2][..2] == [2, 2];
    assert [2, 2][..1] == [2];
    assert [2][..0] == [];
  }

  /**
   * A 64 x 64 single-channel float matrix: the Size constructor allocates its
   * 4096 elements, the height/width constructor 16384.
   */
  lemma SixtyFourSquare()
    ensures SizeCount(Size(64, 64), CV_32FC1) == 4096
    ensures HeightWidthCount(64, 64, CV_32FC1) == 16384
    ensures MatElems([64, 64], CV_32FC1) == 4096
  {
    NamedTypes();
    HeightWidthCountIsFourTimes(64, 64, CV_32FC1);
    SizeCountMatchesShape(Size(64, 64), CV_32FC1);
    assert [64, 64][..1] == [64];
    assert [64][..0] == [];
  }

  // ---------------------------------------------------------------------
  // Arithmetic helpers

  lemma MulNonneg(a: int, b: int)
    requires a >= 0 && b >= 0
    ensures a * b >= 0
  {
  }

  lemma MulNegPos(a: int, b: int)
    requires a < 0 && b > 0
    ensures a * b < 0
  {
  }

  lemma MulNonnegIf(a: int, b: int)
    requires b >= 0
    ensures a >= 0 ==> a * b >= 0
  {
  }

  lemma MulGrows(a: int, b: int)
    requires a > 0 && b > 1
    ensures a * b > a
  {
  }

  /** Scaling the wrapped image of a negative value wraps the scaled value. */
  lemma WrapScaled(a: int, k: int)
    requires 1 <= k && -0x1_0000_0000_0000_0000 <= a * k < 0
    ensures ToSizeT(ToSizeT(a) * k) == a * k + 0x1_0000_0000_0000_0000
  {
    var M := 0x1_0000_0000_0000_0000;
    MulNegPos(a, k);
    assert ToSizeT(a) == a + M;
    var y := a * k + M;
    assert (a + M) * k == y + (k - 1) * M;
    assert 0 <= y < M;
    MulNonneg(k - 1, M);
    assert (y + (k - 1) * M) / M == k - 1;
  }

  lemma MulAtMost(a: int, cn: int)
    requires 0 <= a <= 0x8000_0000 * SIZEOF_FLOAT && 1 <= cn <= CV_CN_MAX
    ensures a * cn <= 0x400_0000_0000
  {
    var d := CV_CN_MAX - cn;
    assert a * CV_CN_MAX == a * cn + a * d;
    MulNonneg(a, d);
  }

  lemma MulBounded(a: int, cn: int)
    requires 0 <= a < 0x8000_0000 * SIZEOF_FLOAT && 1 <= cn <= CV_CN_MAX
    ensures 0 <= a * cn < 0x1_0000_0000_0000_0000
  {
    var d := CV_CN_MAX - cn;
    assert a * CV_CN_MAX == a * cn + a * d;
    MulNonneg(a, d);
    MulNonneg(a, cn);
  }
}
