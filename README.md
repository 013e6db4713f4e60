# Overlay SDK transform math, modelled in Dafny

The SDK header `updates/sdk.h` of a game overlay turns values read out of a
running game into screen positions. Its arithmetic core is modelled here:

- `Vector3::dot` and `Vector3::operator-` (module `Vectors`);
- the 4×4 `D3DMATRIX` and `matrix_multiplication` (module `Matrices`);
- `FTransform::to_matrix_with_scale`, which builds a row-major affine matrix
  from a quaternion, a translation and a per-axis scale (module `Transforms`);
- `to_matrix`, which builds a rotation matrix from Euler angles in degrees
  and an origin (module `Rotations`);
- the composition step of `get_entity_bone`, including the fallback to the
  cached bone array when the primary pointer is null (module `Bones`);
- `get_view_point`'s decoding of the camera, the pure part of
  `project_world_to_screen` and `is_visible` (module `View`). The global
  `cache::local_camera`, which `project_world_to_screen` overwrites before
  projecting, is the field of class `View.ViewCache`.

Numbers are Dafny `real`s. Matrices act on row vectors (p ↦ p·M), so the
translation sits in row 4 (`_41,_42,_43`) and an affine matrix has fourth
column (0,0,0,1). Every value the code reads from the game's memory is a
parameter. So are the C library's `sinf`, `cosf`, `tanf`, `asin` and
`atan2`, passed in as the function-valued fields of `Rotations.Trig` and
`View.InverseTrig`. Lemmas that need particular trig values ask for them in
their preconditions, e.g. sin 0 = 0 and cos 0 = 1, or sin² + cos² = 1.

At zero rotation the code's depth axis is world X, its right axis world Y
and its up axis world Z. This follows from `to_matrix` and from the order
(row 1, row 2, row 0) in which `project_world_to_screen` takes the axes. So
a point at (100, 0, 0) in front of a camera at the origin lands on the
screen centre (`View.PointAheadIsCentred`). The point (0, 0, 100) is
straight above an unrotated camera at the origin, not ahead of it: its
depth is 0, which the clamp raises to 1, so it lands above the centre and
not on it (`View.PointAboveIsNotCentred`).

## Model

| member | source | states |
|---|---|---|
| Vectors.Dot | updates/sdk.h:31 | no contract of its own; `Vectors.DotSymmetric` and `Vectors.DotSub` state its symmetry, its zero law and its linearity over differences |
| Vectors.Sub | updates/sdk.h:33 | `operator-` is the displacement that addition undoes, and it is zero exactly when the two points coincide |
| Vectors.DotSymmetric | updates/sdk.h:31 | `dot` is symmetric, and the zero vector gives 0 on either side |
| Vectors.DotSub | updates/sdk.h:31-33 | the dot product of a difference is the difference of the dot products |
| Matrices.MatMul | updates/sdk.h:90-110 | no contract of its own; `Matrices.MatMulEntry` ties each entry to row times column, and `Matrices.AffineProduct` and `Matrices.ProductTranslation` state what the product does to points and translations |
| Matrices.MatMulEntry | updates/sdk.h:90-110 | every entry (i, j) of `matrix_multiplication(A, B)` is Σₖ A[i][k]·B[k][j] |
| Matrices.IdentityIsUnit | updates/sdk.h:90-110 | the identity matrix is both a left and a right unit of the product |
| Matrices.AffineProduct | updates/sdk.h:93-108 | a product of two matrices with fourth column (0,0,0,1) has that column too; its translation is A's translation mapped by B; mapping by the product equals mapping by A, then by B |
| Matrices.ProductTranslation | updates/sdk.h:105-107 | when A's `_44` is 1, the product's translation row is A's translation row mapped by B |
| Transforms.EffectiveScale | updates/sdk.h:49-54 | each scale component equal to 0 becomes 1, every other one is kept, so none of the applied scales is 0 |
| Transforms.ToMatrixWithScale | updates/sdk.h:45-87 | the matrix has fourth column (0,0,0,1), and its translation row is the transform's translation, unchanged |
| Transforms.ToMatrixWithScaleFactors | updates/sdk.h:56-80 | the matrix is the effective scale followed by the quaternion's textbook rotation matrix and the translation: row i of the block is the rotation's row i times the i-th scale |
| Transforms.ZeroScaleIsUnitScale | updates/sdk.h:49-54 | a transform with scale (0,0,0) gives exactly the matrix of the same transform with scale (1,1,1) |
| Transforms.IdentityRotationIsTranslation | updates/sdk.h:56-84 | the identity quaternion with unit or all-zero scale gives the pure translation: identity 3×3 block |
| Rotations.Radians | updates/sdk.h:114-116 | no contract of its own; `View.Degrees` is proved to be its inverse |
| Rotations.AnglesOf | updates/sdk.h:114-122 | no contract of its own; it feeds `Rotations.ToMatrix`, whose contract and `Rotations.ZeroAnglesIsTranslation` state what the angles produce |
| Rotations.EulerMatrix | updates/sdk.h:123-139 | the matrix built from the six sines and cosines has fourth column (0,0,0,1) and the origin as its translation row |
| Rotations.ToMatrix | updates/sdk.h:112-141 | `to_matrix(rot, origin)` puts the origin in row 4 and (0,0,0,1) in column 4 |
| Rotations.ZeroAnglesIsTranslation | updates/sdk.h:114-139 | with all angles zero (sin 0 = 0, cos 0 = 1) the matrix is the pure translation by the origin |
| Rotations.EulerFactors | updates/sdk.h:124-139 | for any sines and cosines, the block is roll, then pitch, then yaw, applied to a row vector, followed by the move to the origin |
| Rotations.EulerOrthonormal | updates/sdk.h:124-134 | when each sine and cosine pair satisfies sin² + cos² = 1, the 3×3 block is orthonormal |
| Bones.BoneArray | updates/sdk.h:226-227 | the result is the primary bone-array pointer when that pointer is not null, and the cached pointer when it is null |
| Bones.BoneTransform | updates/sdk.h:228 | no contract of its own; the bone is entry `id` of the array `Bones.BoneArray` selects, and `Bones.EntityBoneIsBoneOriginInWorld` states what is done with it |
| Bones.EntityBone | updates/sdk.h:224-231 | no contract of its own; `Bones.EntityBoneIsBoneOriginInWorld` states its result |
| Bones.EntityBoneIsBoneOriginInWorld | updates/sdk.h:228-231 | the translation row of bone matrix × component-to-world matrix is the bone's translation mapped by the component-to-world matrix |
| Bones.EntityBoneDependsOnlyOnTranslation | updates/sdk.h:228-231 | two bones with the same translation under the same component-to-world transform give the same position, whatever their rotations and scales |
| Bones.UnrotatedComponentAddsTranslation | updates/sdk.h:228-231 | with an identity component rotation and unit or unset scale, the bone's position is its translation plus the component's |
| View.ScreenCentre | updates/sdk.h:10-13 | the centre coordinates are the integer halves of the screen size |
| View.Degrees | updates/sdk.h:205-206 | the radians-to-degrees conversion of the pitch and the yaw is undone by the degrees-to-radians conversion `to_matrix` uses |
| View.ViewPoint | updates/sdk.h:194-209 | the location is copied; the pitch is asin(c) and the yaw atan2(-a, b), in degrees, with the yaw's two sign flips cancelling; the roll stays 0; the field of view is the factor times 90 |
| View.PitchIsARightAngleAtMost | updates/sdk.h:205 | when asin stays in [-π/2, π/2], the pitch lies in [-90, 90] |
| View.ClampDepth | updates/sdk.h:220 | the clamped depth is the larger of the depth and 1 |
| View.Axes | updates/sdk.h:215-219 | no contract of its own; `View.IdentityAxes` and `View.CameraIsOrigin` state its order (right, up, forward) and its zero |
| View.CameraSpace | updates/sdk.h:214-219 | no contract of its own; `View.CameraIsOrigin` and `View.UnrotatedCameraAxes` state it |
| View.HalfFovTangent | updates/sdk.h:221 | no contract of its own; `View.Project`'s contract states that it alone decides whether there is a screen point |
| View.PerspectiveDivide | updates/sdk.h:220-221 | no contract of its own; `View.UnprojectInvertsDivide`, `View.CentredIffOnAxis`, `View.OnAxisIsCentred` and `View.SidesPreserved` state its inverse, its centre and its sides |
| View.Project | updates/sdk.h:211-222 | there is no finite screen point exactly when tan(fov/2) is 0 |
| View.UnprojectInvertsDivide | updates/sdk.h:219-221 | unprojecting a projected camera-space point at its clamped depth gives back its right and up coordinates |
| View.UnprojectInvertsProject | updates/sdk.h:213-221 | the same inverse for a world point and a camera |
| View.CentredIffOnAxis | updates/sdk.h:221 | on a screen of nonzero width, a point lands on the centre if and only if it has no right and no up offset |
| View.OnAxisIsCentred | updates/sdk.h:221 | no right offset keeps the point on the centre column, no up offset on the centre row |
| View.SidesPreserved | updates/sdk.h:221 | with a positive width and tangent, a point is right of the centre exactly when it is right of the camera, and above the centre exactly when it is above the camera |
| View.CameraIsOrigin | updates/sdk.h:214-219 | the camera's own location has camera-space coordinates (0, 0, 0), whatever the rotation |
| View.CameraLocationIsCentre | updates/sdk.h:213-221 | the camera's own location projects to (screen_center_x, screen_center_y) |
| View.IdentityAxes | updates/sdk.h:215-219 | with the identity block, camera space is (right, up, forward) = (Y, Z, X) |
| View.UnrotatedCameraAxes | updates/sdk.h:214-219 | for an unrotated camera, camera space is the displacement d reordered as (d.y, d.z, d.x) |
| View.UnrotatedProjection | updates/sdk.h:214-221 | an unrotated camera projects the point at displacement v as the camera-space point (v.y, v.z, v.x) |
| View.PointAheadIsCentred | updates/sdk.h:214-221 | a point on world X ahead of an unrotated camera lands on the centre |
| View.PointAboveIsNotCentred | updates/sdk.h:214-221 | a point on world Z above an unrotated camera does not land on the centre |
| View.PointRightIsRightOfCentre | updates/sdk.h:214-221 | a point to the right along world Y of an unrotated camera lands right of the centre, on the centre row |
| View.IsVisible | updates/sdk.h:236-240 | visible exactly when the last render time is at least the current time minus the tolerance |
| View.IsVisibleByDefault | updates/sdk.h:236-240 | no contract of its own; it is `View.IsVisible` with the default tolerance, and `View.DefaultToleranceIsBelowPointZeroSix` states what that tolerance admits |
| View.DefaultToleranceIsBelowPointZeroSix | updates/sdk.h:236-239 | by default, a mesh last rendered exactly 0.06 seconds ago is not visible, because 0.06f is below 0.06, while one rendered 0.06f seconds ago is |
| View.IsVisibleMonotone | updates/sdk.h:239 | a mesh rendered now is visible under any non-negative tolerance; visibility only grows with the tolerance and the render time |
| View.ViewCache.constructor | updates/sdk.h:180 | the cached camera starts zeroed |
| View.ViewCache.ProjectWorldToScreen | updates/sdk.h:211-222 | the cached camera is overwritten with the freshly decoded one, and the result is the projection with that camera |

## Left out

- Memory reads (`read<T>`), the driver, `TArray::Get`, and the offsets and strides (`0x140`, `0x148`, `0x150`, `0x1D0`, `0x3AC`, `0x30C`, `BONE_ARRAY`, `BONE_ARRAY_CACHE`, `COMPONENT_TO_WORLD`, `0x60`): they are memory I/O of another process. Their results are parameters: `View.ViewReads`, `Bones.Mesh` and `boneAt`.
- Floating-point rounding: the `float` narrowing in `to_matrix` and of the field of view, the `1.0f` literals, `tanf` taking a `float`, and the rounding of `Seconds - LastRenderTime` in `is_visible`. All arithmetic is exact real arithmetic. The one `float` value that is modelled exactly is the literal 0.06f, `View.DefaultTolerance`.
- The values of `sinf`, `cosf`, `tanf`, `asin` and `atan2`: they are transcendental. They are parameters, and `asin`'s NaN result outside [-1, 1] is not modelled.
- View.Project: where tan(fov/2) is 0 the C code divides by zero and yields a non-finite point. The model returns `None` and makes no claim about what the code then draws.
- `Vector3::distance` (`sqrtf` and `powf`): square roots are floating-point library calls with no exact real counterpart used anywhere in the core.
- `GetSystemMetrics`: the screen size is a parameter of `View.ScreenCentre`, and the centre coordinates are parameters of the projection.
- The struct padding (`pad1c`, `pad2c`, the `FNRot` pads) and the D3D types: they are memory-layout contracts, not logic.
- The `cache::` globals other than `local_camera`: they only store values between calls.
- The quaternion matrix's orthonormality for unit quaternions is not stated. Only its factorisation into scale and rotation is.
