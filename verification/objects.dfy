/** The spatial base shared by characters, mines and buildings (`object_t`), and the
    handles the model uses in place of the C code's object pointers. */
module Objects {

  /** The discriminant of `object_t` (O_CHARACTER, O_MINE, O_BUILDING). */
  datatype Tag = CharacterTag | MineTag | BuildingTag

  /** Position of the object's anchor and its width and height. */
  datatype Obj = Obj(tag: Tag, x: real, y: real, w: real, h: real)

  /** A reference to a world object: an index into the world's character, mine or
      building array. It replaces the `object_t*` held in a character's goal. */
  datatype ObjRef = CharacterRef(index: nat) | MineRef(index: nat) | BuildingRef(index: nat)
}
