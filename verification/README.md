# rust-skia: matrix slots and Vulkan descriptors, modelled in Dafny

This project models the little logic that two files of the rust-skia bindings
implement themselves, rather than forwarding to the native Skia library.

- `src/skia/matrix.rs` wraps `SkMatrix`, whose nine elements live in the
  array `fMat` in row-major order. The wrapper names the slots with two
  enumerations, `MatrixMember` (row-major, 0..8) and `AffineMatrixMember`
  (affine order, 0..5). Both discriminants are used as raw `fMat` positions.
  It also provides `Index`/`IndexMut` by member or raw index, the eight
  named setters, an `is_translate` test on the type mask, the length guard
  of `new_poly_to_poly`, and the rule that an omitted pivot is the origin.
- `skia-safe/src/gpu/vk/types.rs` defines the Vulkan descriptors `Alloc`,
  `YcbcrConversionInfo`, `ImageInfo` and `DrawableInfo`. It gives their
  `Default` values, the two guarded YCbCr constructors and `is_valid`, and
  the `ImageInfo` constructors that fill in omitted optional arguments.

Files:

- `wrappers.dfy`: module `Wrappers`, Rust's `Option` with `unwrap_or`.
- `vk_types.dfy`: module `VkTypes`. It is pure: every descriptor is a
  datatype, and every constructor and default is a static function.
- `matrix.dfy`: module `SkiaMatrix`. The member enumerations, `is_translate`,
  pivot defaulting and `new_poly_to_poly` are functions. `Matrix` is a class
  over a nine-element `array<real>`. Its reads are functions, and the
  `IndexMut` writes and the setters are methods that modify the array.

The model keeps one quirk of the source on purpose. Indexing a matrix with an
`AffineMatrixMember` uses the affine discriminant as an `fMat` position. So
affine `SkewY` (1) reaches the same slot as full `SkewX` (1). Affine `SkewX`,
`ScaleY` and `TransX` likewise reach `TransX`, `SkewY` and `ScaleY`. Only
`ScaleX` and `TransY` reach their namesakes. `AffineAliases` and
`SharedSlotIsAlias` state this exactly.

Modelling decisions:

- `new_with_format` checks its two conditions with `debug_assert!`, which
  release builds drop. The model makes them preconditions, i.e. the
  debug-build contract. `YcbcrConversionInfo::new` passes `Format::UNDEFINED`,
  so its precondition is a nonzero external format.
- The numeric values of Vulkan enumerations and of the `AllocFlag` and
  `MatrixTypeMask` bits come from generated bindings. They are modelled as
  distinct datatype constructors, and bit sets as sets of flags. `Format`
  and `ImageLayout` name only `Undefined`, Vulkan's value 0; every other
  value is kept as its nonzero code, and a non-null pointer is a nonzero
  address.
  `VK_NULL_HANDLE` (0) and `VK_QUEUE_FAMILY_IGNORED` (`~0U`) are the values
  the Vulkan specification gives them.
- The bitflags complement `!Translate` keeps only defined flags. It is
  modelled as the set difference from the four defined type flags.
- Matrix elements are `f32` in the source and `real` here. No operation
  modelled here computes with them.

## Model

| member | source | states |
|---|---|---|
| `VkTypes.Alloc.Default` | skia-safe/src/gpu/vk/types.rs:33-44 | the default allocation has null memory, offset 0, size 0, no flags, backend memory 0 and does not use the system heap |
| `VkTypes.YcbcrConversionInfo.IsValid` | skia-safe/src/gpu/vk/types.rs:168-170 | holds exactly when the colour model is not RGB identity, i.e. is one of the four real YCbCr conversion models |
| `VkTypes.YcbcrConversionInfo.HasExclusiveFormat` | skia-safe/src/gpu/vk/types.rs:130 | holds exactly when the format is defined and the external format is 0, or the format is undefined and the external format is nonzero |
| `VkTypes.YcbcrConversionInfo.Default` | skia-safe/src/gpu/vk/types.rs:100-114 | the default has an undefined format, external format 0 and the RGB identity model; it is neither valid nor exclusive in its formats |
| `VkTypes.YcbcrConversionInfo.NewWithFormat` | skia-safe/src/gpu/vk/types.rs:118-142 | requires a non-identity model and exactly one of a format or a nonzero external format; stores each argument in its field; the result is valid and differs from the default |
| `VkTypes.YcbcrConversionInfo.New` | skia-safe/src/gpu/vk/types.rs:145-166 | is `new_with_format` with an undefined format, so it requires a nonzero external format; the result keeps that external format, takes the external features as its format features and is valid |
| `VkTypes.NewWithFormatReachesEveryWellFormed` | skia-safe/src/gpu/vk/types.rs:118-142 | every valid descriptor with exclusive formats is what `new_with_format` builds from its own fields, so the constructor's results are exactly those descriptors |
| `VkTypes.NewReachesEveryExternal` | skia-safe/src/gpu/vk/types.rs:145-166 | every valid descriptor with no format and a nonzero external format is what `new` builds from its own fields |
| `VkTypes.IsValidIgnoresFormatExclusivity` | skia-safe/src/gpu/vk/types.rs:128-170 | `is_valid` looks only at the colour model: some valid descriptor gives both a format and a nonzero external format, and some gives neither, although the constructors' assertion rejects both |
| `VkTypes.ImageInfo.Default` | skia-safe/src/gpu/vk/types.rs:195-209 | the default image descriptor has a null image, the default allocation, optimal tiling, undefined layout and format, 0 levels, the ignored queue family, `No` protection and the default YCbCr descriptor |
| `VkTypes.ImageInfo.New` | skia-safe/src/gpu/vk/types.rs:215-242 | the required arguments are stored as given; each optional argument is kept when given; otherwise the queue family is `QUEUE_FAMILY_IGNORED`, the YCbCr descriptor its default and protection `No` |
| `VkTypes.ImageInfo.FromImage` | skia-safe/src/gpu/vk/types.rs:248-270 | gives exactly what `new` gives for the same arguments |
| `VkTypes.ImageInfo.FromInfo` | skia-safe/src/gpu/vk/types.rs:274-286 | the result equals `info` in every field except the layout, which is the given one |
| `VkTypes.DefaultImageInfoIsNewWithDefaults` | skia-safe/src/gpu/vk/types.rs:195-242 | the default image descriptor equals `new` applied to a null image, the default allocation and no optional arguments |
| `VkTypes.FromInfoRestoresLayout` | skia-safe/src/gpu/vk/types.rs:274-286 | replacing the layout and then restoring the old one gives back the original descriptor |
| `VkTypes.DrawableInfo.Default` | skia-safe/src/gpu/vk/types.rs:329-340 | the default drawable descriptor has null command buffer, render pass and image, attachment index 0, undefined format and a null bounds pointer |
| `SkiaMatrix.MatrixMember.Slot` | src/skia/matrix.rs:33-43 | the position a full member reaches is below 9, so indexing by member never fails the bounds check |
| `SkiaMatrix.MemberAt` | src/skia/matrix.rs:33-43 | every raw index below 9 that `Index<usize>` accepts is the discriminant of a member, so indexing by member reaches every slot |
| `SkiaMatrix.SlotRoundTrip` | src/skia/matrix.rs:33-43 | `MemberAt` undoes `Slot`, so distinct members reach distinct slots |
| `SkiaMatrix.AffineMatrixMember.Slot` | src/skia/matrix.rs:45-52 | the position an affine member reaches is below 6 |
| `SkiaMatrix.AffineMatrixMember.Alias` | src/skia/matrix.rs:62-68 | names the full member whose slot the affine member's discriminant reaches |
| `SkiaMatrix.SharedSlotIsAlias` | src/skia/matrix.rs:45-68 | an affine and a full member reach the same slot exactly when the full member is the affine member's alias |
| `SkiaMatrix.AffineAliases` | src/skia/matrix.rs:45-68 | affine `SkewY` reaches full `SkewX`, and only `ScaleX` and `TransY` reach the slot of their namesake |
| `SkiaMatrix.AffineMembersReachFirstTwoRows` | src/skia/matrix.rs:45-52 | a slot is reached by some affine member exactly when it is below 6, so the perspective row is never reached |
| `SkiaMatrix.IsTranslate` | src/skia/matrix.rs:129-132 | holds exactly when the type mask has no flag besides `Translate`, so the empty identity mask counts as a translate |
| `SkiaMatrix.PivotOrOrigin` | src/skia/matrix.rs:238-241 | an omitted pivot becomes the origin (0, 0); a given pivot is kept |
| `SkiaMatrix.PivotCall` | src/skia/matrix.rs:238-306 | the scale, rotate, sin-cos and skew setters and their pre and post variants pass their operands unchanged and the pivot, or (0, 0) when omitted |
| `SkiaMatrix.NewPolyToPoly` | src/skia/matrix.rs:321-335 | point lists of different lengths give `None`; a result exists only for equal lengths, and then it is the native solver's outcome |
| `SkiaMatrix.Matrix.Identity` | src/skia/matrix.rs:372-377 | a new matrix holds the identity elements 1, 0, 0, 0, 1, 0, 0, 0, 1 |
| `SkiaMatrix.Matrix.At` | src/skia/matrix.rs:70-76 | raw indexing requires an index below 9 and returns that element of `fMat` |
| `SkiaMatrix.Matrix.Get` | src/skia/matrix.rs:54-60 | indexing by a full member returns the element at its row-major discriminant |
| `SkiaMatrix.Matrix.GetAffine` | src/skia/matrix.rs:62-68 | indexing by an affine member returns the element at its affine discriminant, which is what indexing by its alias returns |
| `SkiaMatrix.Matrix.SetAt` | src/skia/matrix.rs:90-94 | raw mutable indexing requires an index below 9, writes that element and leaves the other eight unchanged |
| `SkiaMatrix.Matrix.Set` | src/skia/matrix.rs:78-82 | mutable indexing by a full member writes the slot that reading by it returns, and nothing else |
| `SkiaMatrix.Matrix.SetAffine` | src/skia/matrix.rs:84-88 | mutable indexing by an affine member writes the slot that reading by it, and by its alias, returns, and nothing else |
| `SkiaMatrix.Matrix.SetScaleX` | src/skia/matrix.rs:186-188 | writes slot 0 (`ScaleX`) only |
| `SkiaMatrix.Matrix.SetScaleY` | src/skia/matrix.rs:190-192 | writes slot 4 (`ScaleY`) only |
| `SkiaMatrix.Matrix.SetSkewY` | src/skia/matrix.rs:194-196 | writes slot 3 (`SkewY`) only |
| `SkiaMatrix.Matrix.SetSkewX` | src/skia/matrix.rs:198-200 | writes slot 1 (`SkewX`) only |
| `SkiaMatrix.Matrix.SetTranslateX` | src/skia/matrix.rs:202-204 | writes slot 2 (`TransX`) only |
| `SkiaMatrix.Matrix.SetTranslateY` | src/skia/matrix.rs:206-208 | writes slot 5 (`TransY`) only |
| `SkiaMatrix.Matrix.SetPerspX` | src/skia/matrix.rs:210-212 | writes slot 6 (`Persp0`) only |
| `SkiaMatrix.Matrix.SetPerspY` | src/skia/matrix.rs:214-216 | writes slot 7 (`Persp1`) only |
| `SkiaMatrix.AffineSkewYWritesSkewX` | src/skia/matrix.rs:84-88 | writing through affine `SkewY` changes what full `SkewX` reads and leaves full `SkewY` as it was |

## Left out

- The native forwards of `matrix.rs` are not modelled: `new_scale`, `new_trans`, `new_all`, `get_type`, `is_identity`, `is_scale_translate`, `rect_stays_rect`, `preserves_axis_alignment`, `has_perspective`, `is_similarity`, `preserves_right_angles`, the `get_*` getters, `get_9`/`set_9`, `reset`, `set_identity`, `set_translate`, `set_concat`, `pre_translate`, `post_translate`, `pre_concat`, `post_concat`, `post_idiv`, `new_rect_to_rect`, `invert`, `set_affine_identity`, `as_affine` and `new_affine`. Their results come from Skia's native code, which is not part of this model, and involve floating-point arithmetic.
- PivotCall: models only the arguments handed to the native pivot routines (`setScale`, `setRotate`, `setSinCos`, `setSkew` and their pre and post forms). Their effect on `fMat` is native and is not modelled.
- IsTranslate: takes the type mask as a parameter, because `get_type` is a native call. The model holds no type-mask state: the `Matrix` class has only `fMat`. The native `SkMatrix` also caches a type mask, and the `IndexMut` writes and the named setters write `fMat` directly without touching that cache. The model does not relate the mask `IsTranslate` receives to the elements those writes change.
- NewPolyToPoly: the native `setPolyToPoly` solver is the parameter `solve`. The point conversion to native points is the identity here.
- Matrix.Identity: the identity comes from the native `reset`. The model states the documented identity layout rather than calling native code.
- Equality of matrices, allocations and YCbCr descriptors is defined by native comparators (`C_SkMatrix_Equals`, `C_GrVkAlloc_Equals`, `C_GrVkYcbcrConversionInfo_Equals`). These are not modelled; Dafny's structural equality is used only inside the proofs.
- `Alloc::from_device_memory` is built by the native `C_GrVkAlloc_Construct` and is not modelled.
- The `#[repr(C)]` layout fidelity and the `test_layout` checks are about byte layout, which the model does not represent.
- `GetProcOf`, `GetProcOf::name`, the `GetProc` closure trait, and the `Send`/`Sync` declarations are not modelled. They concern raw C strings, function pointers and threads. The `draw_bounds` pointer is only an opaque `Null` or `Address` value.
- The `IndexGet`/`IndexSet` helper traits come from the crate's prelude, which is not part of this model. Their use in the source's test indexes with `AffineMatrixMember::ScaleX`, so it goes through the affine-discriminant mapping of `GetAffine` and `SetAffine`.
- Integer widths: `u32` and `u64` fields are bounded newtypes. `GrVkBackendMemory` is an unbounded `int`, because its width depends on the platform.
