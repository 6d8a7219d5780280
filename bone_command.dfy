// ApplyCommand, the queued command that the bone redirector and both root-bone
// redirectors declare identically: a bone, a captured position and rotation, and
// the None/Local/Global policy for each.
module BoneCommandModel {
  import opened Geometry

  datatype ApplyCommand = ApplyCommand(bone: Transform, position: Vec3, rotation: Quat,
                                       positionType: Space, rotationType: Space)

  /** What executing `c` leaves in its bone: the position in the field its policy
      names, then the rotation likewise; a None policy leaves both fields of that
      component as they were, and nothing else of the bone changes. */
  twostate predicate Applied(c: ApplyCommand)
    reads c.bone
  {
    c.bone.position == (if c.positionType == Global then c.position else old(c.bone.position)) &&
    c.bone.localPosition == (if c.positionType == Local then c.position else old(c.bone.localPosition)) &&
    c.bone.rotation == (if c.rotationType == Global then c.rotation else old(c.bone.rotation)) &&
    c.bone.localRotation == (if c.rotationType == Local then c.rotation else old(c.bone.localRotation)) &&
    c.bone.localEulerAngles == old(c.bone.localEulerAngles)
  }

  /** ApplyCommand.Execute: ApplyPosition, then ApplyRotation. */
  method Execute(c: ApplyCommand)
    modifies c.bone
    ensures Applied(c)
  {
    SetPosition(c.bone, c.position, c.positionType);
    SetRotation(c.bone, c.rotation, c.rotationType);
  }
}
