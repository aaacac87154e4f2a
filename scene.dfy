/** The scene's vocabulary: the video clips, the camera targets, the names of
    the nodes a click can strike, and the routing of a struck name to the
    handler that the click dispatcher runs for it. */
module Scene {

  datatype Option<T> = None | Some(value: T)

  /** The entries of the `videos` table. Only `Intro` is created without
      looping, so it is the only clip whose end ever fires. */
  datatype VideoId = Intro | Video1 | Video2 | Video3 | Video4 | Video5 | Video6 | VideoContact

  /** A camera position in tenths of a scene unit, so that the literal
      positions of the source are represented exactly. */
  datatype Vec3 = Vec3(x: int, y: int, z: int)

  /** (0, 1, 8): the start-up camera position and the target when closed. */
  const DefaultTarget := Vec3(0, 10, 80)

  /** (1.7, 1.8, 2.5): the target while the panel is focused. */
  const FocusedTarget := Vec3(17, 18, 25)

  /** The address opened when the contact overlay is struck. */
  const ContactUrl := "https://many.bio/_"

  /** The name given to the invisible contact overlay box. */
  const LinkContact := "LINK_CONTACT"

  /** The handler the click dispatcher chooses for the nearest struck node. */
  datatype Route =
    | TogglePanel
    | ContentButton(video: VideoId)
    | ContactButton
    | OpenContactLink
    | Ignore

  /** The `switch` on the nearest hit's name. */
  function RouteOf(name: string): Route
  {
    if name == "FLOOR" || name == "FRIDGE" || name == "SCREEN" then TogglePanel
    else if name == "BUTTON_1" then ContentButton(Video1)
    else if name == "BUTTON_2" then ContentButton(Video2)
    else if name == "BUTTON_3" then ContentButton(Video3)
    else if name == "BUTTON_4" then ContentButton(Video4)
    else if name == "BUTTON_5" then ContentButton(Video5)
    else if name == "BUTTON_6" then ContentButton(Video6)
    else if name == "BUTTON_CONTACT" then ContactButton
    else if name == LinkContact then OpenContactLink
    else Ignore
  }

  /** The name of the button that requests content clip `v`. */
  function ButtonFor(v: VideoId): string
  {
    match v
    case Intro => ""
    case Video1 => "BUTTON_1"
    case Video2 => "BUTTON_2"
    case Video3 => "BUTTON_3"
    case Video4 => "BUTTON_4"
    case Video5 => "BUTTON_5"
    case Video6 => "BUTTON_6"
    case VideoContact => "BUTTON_CONTACT"
  }

  /** Every clip the dispatcher can request is a content clip, and the
      button of each content clip routes back to that clip. */
  lemma RouteRequestsContent(name: string)
    ensures RouteOf(name).ContentButton? ==> RouteOf(name).video != Intro && RouteOf(name).video != VideoContact
    ensures RouteOf(name).ContentButton? ==> ButtonFor(RouteOf(name).video) == name
    ensures forall v :: v != Intro && v != VideoContact ==> RouteOf(ButtonFor(v)) == ContentButton(v)
    ensures RouteOf(name) == ContactButton <==> name == "BUTTON_CONTACT"
    ensures RouteOf(name) == OpenContactLink <==> name == LinkContact
    ensures RouteOf(name) == TogglePanel <==> name in {"FLOOR", "FRIDGE", "SCREEN"}
  {
  }
}
