/** `get_entity_bone`: the world position of one bone of a skeletal mesh.
    The reads from the game's memory become values: a `Mesh` holds the two
    bone-array pointers and the component-to-world transform, and `boneAt`
    gives the transform stored at index `id` of the array at an address. */
module Bones {
  import opened Vectors
  import opened Matrices
  import opened Transforms

  /** The three things `get_entity_bone` reads from the mesh. An address of
      0 is the null pointer. */
  datatype Mesh = Mesh(boneArray: nat, boneArrayCache: nat, componentToWorld: Transform)

  /** The bone array in use: the primary pointer, or the cached one when the
      primary pointer is null. */
  function BoneArray(mesh: Mesh): (address: nat)
    ensures address == mesh.boneArray || address == mesh.boneArrayCache
    ensures mesh.boneArray != 0 ==> address == mesh.boneArray
    ensures mesh.boneArray == 0 ==> address == mesh.boneArrayCache
  {
    if mesh.boneArray == 0 then mesh.boneArrayCache else mesh.boneArray
  }

  /** The bone's transform: entry `id` of the bone array in use. */
  function BoneTransform(mesh: Mesh, id: int, boneAt: (nat, int) -> Transform): Transform
  {
    boneAt(BoneArray(mesh), id)
  }

  /** `get_entity_bone(mesh, id)`: the bone matrix times the
      component-to-world matrix, bone first, and the translation row of the
      product. */
  function EntityBone(mesh: Mesh, id: int, boneAt: (nat, int) -> Transform): Vector3
  {
    var bone := BoneTransform(mesh, id, boneAt);
    Translation(MatMul(ToMatrixWithScale(bone), ToMatrixWithScale(mesh.componentToWorld)))
  }

  /** The bone's position in the world is its position in the component
      (its translation) carried into the world by the component-to-world
      matrix. Its rotation and scale play no part. */
  lemma EntityBoneIsBoneOriginInWorld(mesh: Mesh, id: int, boneAt: (nat, int) -> Transform)
    ensures EntityBone(mesh, id, boneAt)
            == TransformPoint(ToMatrixWithScale(mesh.componentToWorld), BoneTransform(mesh, id, boneAt).translation)
  {
    var bone := ToMatrixWithScale(BoneTransform(mesh, id, boneAt));
    ProductTranslation(bone, ToMatrixWithScale(mesh.componentToWorld));
  }

  /** Two bones with the same translation are reported at the same place,
      whatever their rotations and scales. */
  lemma EntityBoneDependsOnlyOnTranslation(mesh: Mesh, id: int, boneAt: (nat, int) -> Transform,
                                           other: Mesh, otherId: int, otherBoneAt: (nat, int) -> Transform)
    requires other.componentToWorld == mesh.componentToWorld
    requires BoneTransform(other, otherId, otherBoneAt).translation == BoneTransform(mesh, id, boneAt).translation
    ensures EntityBone(other, otherId, otherBoneAt) == EntityBone(mesh, id, boneAt)
  {
    EntityBoneIsBoneOriginInWorld(mesh, id, boneAt);
    EntityBoneIsBoneOriginInWorld(other, otherId, otherBoneAt);
  }

  /** With an identity component-to-world rotation and unit (or unset)
      scale, the bone sits at its translation plus the component's. */
  lemma UnrotatedComponentAddsTranslation(mesh: Mesh, id: int, boneAt: (nat, int) -> Transform)
    requires mesh.componentToWorld.rotation == IdentityQuat
    requires mesh.componentToWorld.scale == Vector3(1.0, 1.0, 1.0) || mesh.componentToWorld.scale == Zero
    ensures EntityBone(mesh, id, boneAt)
            == Add(BoneTransform(mesh, id, boneAt).translation, mesh.componentToWorld.translation)
  {
    EntityBoneIsBoneOriginInWorld(mesh, id, boneAt);
    IdentityRotationIsTranslation(mesh.componentToWorld);
  }
}
