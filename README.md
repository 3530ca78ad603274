# DynMem and MatDynMem, modelled in Dafny

This project models the owned-buffer component of a correlation-filter tracker.
It has two parts:

- `DynMem_<T>` is an exclusive-ownership handle on a heap array of `num_elem` elements.
  It always has a host pointer. In the mapped GPU build (CUFFT) it also has a device
  pointer that aliases the same pages.
- `MatDynMem` is a float matrix whose storage is such a buffer. Each of its
  constructors computes, from a shape and an OpenCV type code, how many elements to
  allocate.

Files:

- `dynmem.dfy`, module `DynMemory`: class `DynMem<T>`. The fields are `ptrH`
  (host pointer, `array?<T>`), a ghost `ptrD` (device pointer) and `numElem` (a
  `size_t`). `Valid()` says that the device pointer is the host pointer. The
  operations are the count constructor, the move constructor (`MoveFrom`), the
  destructor (`Destroy`, which returns the pointer it releases), `HostMem`,
  `DeviceMem`, copy assignment (`CopyAssign`), move assignment (`MoveAssign`) and
  `operator[]` (`At`).
- `cvtype.dfy`, module `CvType`: OpenCV's type code. Depth is the low three bits
  and the channel count is bits 3..11 plus one. `CV_32F` is 5. `IsFloat32` is the
  depth assertion of the float-only constructors.
- `matdynmem.dfy`, module `MatDynMem`: the private `volume` loop (`Volume`), the
  element count of each constructor as a function (`SizeCount`, `HeightWidthCount`,
  `DimsCount`, `Array3Count`), and the constructors as methods (`FromSize`,
  `FromHeightWidth`, `FromDims`, `FromArray3`, `FromMat`). Each method returns a fresh
  `DynMem` of the computed size. Lemmas compare each count with the number of floats
  the matrix header laid over the buffer needs (`MatElems`: the product of the
  extents times the channel count).
- `lifecycle.dfy`, module `Lifecycle`: client sequences that follow from the
  contracts. A moved-from handle's destructor releases nothing. Move assignment leaks
  the target's old allocation. A copy stays independent of its source.

The model keeps these quirks of the code as written:

- The move constructor never sets `num_elem`, so its value is left arbitrary.
- Move assignment neither releases the old allocation nor updates `num_elem`.
  Moving a handle into itself leaves it empty.
- Copy assignment copies the destination's `num_elem` elements. The source's own
  count is never read. Since the copy is a `memcpy`, the two allocations must not
  overlap, so the model requires them to be distinct.
- The height/width constructor multiplies by `sizeof(float)`, so it allocates four
  times the elements its header needs.
- The 3-array constructor neither checks the depth nor multiplies by the channel
  count. For a multi-channel type and a nonempty shape it allocates fewer elements than
  its header needs.
- Sizes are C `int`s. A negative count converts to `size_t` modulo 2^64.

Integer widths are explicit in the element counts. `size_t` is `DynMemory.SizeT` (0 up to 2^64),
the index of `operator[]` is a 32-bit `unsigned`, and shape values and type codes are
`CvType.Int32`. Signed overflow is undefined behaviour, so the sizing functions and
`Volume` require that every `int` product they form fits in an `int`. Elements are
`float`s that are only copied and read, so `MatDynMem.Float` is their 32-bit
pattern.

## Model

| member | source | states |
|---|---|---|
| `DynMemory.DynMem.constructor` | src/dynmem.hpp:24-32 | a fresh, non-null host allocation of exactly `numElem` elements; `numElem` recorded unchanged; the device pointer aliases the host pointer |
| `DynMemory.DynMem.MoveFrom` | src/dynmem.hpp:33-40 | the new handle takes `other`'s host and device pointers, with their contents untouched, so nothing is allocated or copied; `other` is left with null pointers and its count; the new handle's `numElem` is unconstrained |
| `DynMemory.DynMem.Destroy` | src/dynmem.hpp:41-48 | releases exactly the host allocation, which is also the device allocation; on a moved-from handle it releases nothing (null) |
| `DynMemory.DynMem.HostMem` | src/dynmem.hpp:49 | the host pointer is the same storage as the device pointer |
| `DynMemory.DynMem.DeviceMem` | src/dynmem.hpp:50-52 | the device pointer is the same storage as the host pointer |
| `DynMemory.DynMem.CopyAssign` | src/dynmem.hpp:53-55 | needs both allocations to be distinct and to hold at least the destination's `numElem`; afterwards the first `numElem` elements equal `rhs`'s, the remaining elements of the destination are unchanged, `rhs` is unchanged, and no pointer or count changes |
| `DynMemory.DynMem.MoveAssign` | src/dynmem.hpp:56-64 | `this` adopts `rhs`'s pointers and `rhs` is left pointer-free; both counts are kept; the allocation `this` owned before stays allocated with its contents but is owned by neither handle; a self-move leaves the handle empty |
| `DynMemory.DynMem.At` | src/dynmem.hpp:65 | reads element `i` of the host allocation without changing state; requires `i` inside the allocation |
| `CvType.Depth` | src/dynmem.hpp:76 | CV_MAT_DEPTH: the low three bits of the code, a depth in 0..7 for every `int` code, negative ones included |
| `CvType.Channels` | src/dynmem.hpp:74 | CV_MAT_CN: bits 3..11 of the code plus one, a channel count in 1..512 for every `int` code |
| `CvType.IsFloat32` | src/dynmem.hpp:76 | the depth assertion of the float-only constructors; within the encoded range it holds exactly for the codes CV_32FC1 to CV_32FC512 |
| `MatDynMem.Product` | src/dynmem.hpp:99-105 | the value `volume` accumulates: 1 for no extents, 0 as soon as any extent is 0 |
| `MatDynMem.SizeCount` | src/dynmem.hpp:74 | the count `size.area() * CV_MAT_CN(type)`: the `int` product itself when the area is nonnegative; a negative area wraps to at least 2^64 - 2^31 |
| `MatDynMem.HeightWidthCount` | src/dynmem.hpp:79 | the count `width * height * sizeof(float) * CV_MAT_CN(type)`: no unsigned wrap for a nonnegative area, so exactly the product with the factor 4; a negative area wraps to that product plus 2^64, at least 2^64 - 2^42 |
| `MatDynMem.DimsCount` | src/dynmem.hpp:84 | the count `volume(ndims, sizes) * CV_MAT_CN(type)`: exactly that product for a nonnegative volume, and the channel count alone for a rank of 0 or below |
| `MatDynMem.Array3Count` | src/dynmem.hpp:89 | the count `size[0] * size[1] * size[2]`: the product of the three extents converted to `size_t`, with no channel factor |
| `CvType.DecodeMakeType` | src/dynmem.hpp:74-76 | depth extraction and channel extraction invert the type-code encoding |
| `CvType.MakeTypeOfFields` | src/dynmem.hpp:74-76 | a code in the encoded range is the encoding of its own depth and channel count |
| `CvType.FieldsIgnoreHighBits` | src/dynmem.hpp:74-76 | bits above bit 11 of a code affect neither its depth nor its channel count |
| `CvType.NamedTypes` | src/dynmem.hpp:76 | CV_32FC1 and CV_32FC2 pass the float-depth assertion with 1 and 2 channels; CV_8UC3 fails it |
| `MatDynMem.ToSizeT` | src/dynmem.hpp:74 | converting an `int` to `size_t` keeps a nonnegative value and adds 2^64 to a negative one |
| `MatDynMem.ToSizeTOfInt` | src/dynmem.hpp:74 | a negative `int` count becomes a `size_t` of at least 2^64 - 2^31 |
| `MatDynMem.Volume` | src/dynmem.hpp:99-105 | returns the product of `sizes[0..ndims)`, which is 1 when `ndims <= 0`; requires every partial product to fit in an `int` |
| `MatDynMem.ProductNonnegative` | src/dynmem.hpp:99-105 | nonnegative extents have a nonnegative volume |
| `MatDynMem.ProductZeroIff` | src/dynmem.hpp:99-105 | for nonnegative extents, the volume is zero exactly when some extent is zero |
| `MatDynMem.ProductPrefixBounded` | src/dynmem.hpp:101-103 | with positive extents, every partial product of the loop lies between 1 and the final volume |
| `MatDynMem.NoOverflowPositive` | src/dynmem.hpp:101-103 | with positive extents, the loop stays within `int` exactly when the final volume does |
| `MatDynMem.FromSize` | src/dynmem.hpp:73-77 | requires a float-depth type; allocates `SizeCount(size, type)` elements (`area * channels`) |
| `MatDynMem.FromHeightWidth` | src/dynmem.hpp:78-82 | requires a float-depth type; allocates `HeightWidthCount` elements (`width * height * sizeof(float) * channels`) |
| `MatDynMem.FromDims` | src/dynmem.hpp:83-87 | requires a float-depth type; allocates `volume(ndims, sizes) * channels` elements, computed by `Volume` |
| `MatDynMem.FromArray3` | src/dynmem.hpp:88-90 | accepts any type; allocates `size[0] * size[1] * size[2]` elements |
| `MatDynMem.FromMat` | src/dynmem.hpp:92-93 | accepts any type; allocates `other.total()` elements |
| `MatDynMem.SizeCountMatchesShape` | src/dynmem.hpp:73-74 | for a nonnegative size, the count is exactly the elements of the height-by-width header; a negative area wraps to an enormous count |
| `MatDynMem.HeightWidthCountIsFourTimes` | src/dynmem.hpp:78-79 | for a nonnegative shape, the count is 4 times the header's elements: never too few, and strictly more for any nonempty shape |
| `MatDynMem.FloatConstructorsDisagree` | src/dynmem.hpp:73-79 | the same shape and type get 4 times as many elements from the height/width constructor as from the Size constructor |
| `MatDynMem.DimsCountMatchesShape` | src/dynmem.hpp:83-84 | for nonnegative extents, the N-dimensional count is exactly the header's elements |
| `MatDynMem.Array3CountMatchesShapeIff` | src/dynmem.hpp:88-89 | for nonnegative extents, the 3-array count is the extents' product. It equals the header's elements exactly when the type has one channel or the shape is empty, and it is never more |
| `MatDynMem.Array3TwoChannelShortfall` | src/dynmem.hpp:88-89 | a 2x2x2 CV_32FC2 shape gets 8 elements where its header needs 16 |
| `MatDynMem.SixtyFourSquare` | src/dynmem.hpp:73-79 | a 64x64 CV_32FC1 matrix gets 4096 elements from the Size constructor (exactly its header) and 16384 from the height/width constructor |
| `Lifecycle.MoveConstructThenDestroy` | src/dynmem.hpp:33-48 | after a move construction, the new handle reads back what was written through the old one. The new handle's destructor releases the original allocation and the moved-from handle's destructor releases nothing |
| `Lifecycle.MoveAssignAbandons` | src/dynmem.hpp:41-64 | after a move assignment, the target releases the adopted allocation with its old count kept, the source releases nothing, and the target's old allocation is released by neither |
| `Lifecycle.CopyIsIndependent` | src/dynmem.hpp:49-55 | after a copy assignment the copy equals the source, and a later write through the copy's host pointer leaves the source unchanged |

## Left out

- CUDA calls (`cudaHostAlloc`, `cudaHostGetDevicePointer`, `cudaFreeHost`, `CudaSafeCall`) are foreign runtime calls. The device pointer is a ghost field that is always the host pointer. Host/device visibility and synchronisation are concurrency matters and are not modelled.
- The build switch between plain heap memory and mapped memory is not modelled as a parameter. The class serves both builds: in the plain build the ghost device pointer simply does not exist. The byte size the mapped build requests is covered only as the next line says.
- Allocation failure and the resulting abort are process-level. Every allocation in the model succeeds. That includes a count whose byte size `num_elem * sizeof(T)` does not fit in `size_t`: the mapped build's request wraps, but the constructor still promises `numElem` elements. The `MatDynMem` constructors reach this case only through a negative size, whose wrapped count of at least 2^64 - 2^42 elements no real allocator could satisfy, or through `FromMat` with a `total()` of 2^62 or more, which no real `cv::Mat` has. Allocated contents are not specified, which matches the indeterminate values of `new float[n]`.
- The `cv::Mat` base of `MatDynMem` is external library code. This covers laying the header over `hostMem()`, `total()`, the header's own storage, and `operator=(const cv::MatExpr&)` (expression evaluation into the existing storage). It also covers the `cv::Mat` that `using cv::Mat::create` hides. Only the count handed to `DynMem` is modelled, and `MatElems` stands for the elements the header needs.
- `MatDynMem(const cv::Mat&)`: the model only allocates `other.total()` elements (`FromMat`). The header then becomes a shallow, reference-counted copy of `other`, which is `cv::Mat` behaviour.
- The defaulted `MatDynMem` move constructor depends on `cv::Mat`'s move semantics. Its `DynMem` part is `DynMem.MoveFrom`.
- Floating-point arithmetic is not modelled: elements are only copied and read.
- The depth assertions are stated as preconditions of `FromSize`, `FromHeightWidth` and `FromDims`. A release build that drops `assert` is not modelled.
- Destruction of the handle object itself is not modelled (Dafny has no deallocation). `Destroy` only reports which allocation is released.
