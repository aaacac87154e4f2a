/** An animation action (one clip bound to one root node) reduced to the
    fields the controller reads and writes. The clip's time is kept only as
    the end it rests at or starts from; the per-frame advance is replaced by
    the `Finish` event. */
module Anim {

  datatype LoopMode = LoopRepeat | LoopOnce

  datatype ClipPos = ClipStart | ClipEnd

  datatype Action = Action(
    loop: LoopMode,
    clampWhenFinished: bool,
    running: bool,
    timeScale: int,
    time: ClipPos)

  /** What the mixer hands out the first time a clip is bound to a root:
      repeating, not clamped, stopped, forward, at time 0. */
  function NewAction(): Action
  {
    Action(LoopRepeat, false, false, 1, ClipStart)
  }

  /** `setLoop(LoopOnce)` followed by `clampWhenFinished = true`. */
  function OneShot(a: Action): Action
  {
    a.(loop := LoopOnce, clampWhenFinished := true)
  }

  /** `reset()`: rewinds to time 0. */
  function Reset(a: Action): Action
  {
    a.(time := ClipStart)
  }

  /** `play()`: schedules the action. */
  function Play(a: Action): Action
  {
    a.(running := true)
  }

  /** The mixer reaches the end of a one-shot clip in its playing direction:
      the clamped pose holds and the action stops running. A stopped action
      has nothing to finish. */
  function Finish(a: Action): Action
  {
    if a.running then a.(running := false, time := if a.timeScale > 0 then ClipEnd else ClipStart) else a
  }
}
