// What one call of Multi::Update reads from its collaborators.

module Input {

  /** The keys and mouse buttons Update polls. */
  datatype Key =
    | Escape | LButton | RButton | Delete | Tab
    | KeyS | KeyW | KeyE | KeyB | KeyC | KeyG | KeyP
    | Left | Right | Up | Down | Control | Shift
    | KeyX | KeyY | KeyZ

  /**
   * One frame of input: the mouse position, the keys held (`input->KeyDown`),
   * the keys pressed this frame (`input->KeyPress`) and the seconds the timer
   * reports (`timer.Elapsed()`).
   */
  datatype Sample = Sample(mouseX: int, mouseY: int, down: set<Key>, press: set<Key>, elapsed: real)

  /** A frame in which nothing is held or pressed. */
  predicate Quiet(f: Sample)
  {
    f.down == {} && f.press == {}
  }
}
