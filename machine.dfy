/** The controller's state as a value, and each handler of the page as a
    function from the state before it to the state after it. These functions
    are the specification the `App.Controller` methods are proved against,
    and the subject of the lemmas in `Properties`. */
module Machine {
  import opened Scene
  import opened Anim

  /** The module-level mutable state of the page. */
  datatype State = State(
    isClose: bool,                   // the panel is closed (camera away)
    cameraTarget: Vec3,              // where the camera drifts towards
    panel: Action,                   // the panel clip's action
    buttons: map<string, Action>,    // the button clip's action per button node
    current: VideoId,                // `currentVideo`
    screen: VideoId,                 // the texture on the SCREEN node's material
    looseMap: VideoId,               // the texture of the unattached module-level material
    playing: set<VideoId>,           // clips whose media element is not paused
    disposed: set<VideoId>,          // clips whose media has been released
    onIntroEnded: Option<VideoId>,   // the target of the intro's `onended` closure
    overlays: nat,                   // LINK_CONTACT nodes in the scene
    links: seq<string>)              // addresses opened in a new browsing context

  /** The globals as declared, with the model loaded: the panel action made
      one-shot and clamped, the screen showing the intro. */
  function Init(): State
  {
    State(true, DefaultTarget, OneShot(NewAction()), map[], Intro, Intro, Intro,
          {}, {}, None, 0, [])
  }

  /** The panel toggle. While the panel clip runs it does nothing. From
      closed it aims at the focused position and plays the clip forward from
      its start; from open it aims back at the default position and plays
      the clip backwards at double speed from its end. */
  function AfterSwitch(s: State): State
  {
    if s.panel.running then s
    else if s.isClose then
      s.(cameraTarget := FocusedTarget,
         panel := Play(Reset(s.panel).(timeScale := 1)),
         isClose := false)
    else
      s.(cameraTarget := DefaultTarget,
         panel := Play(Reset(s.panel).(time := ClipEnd, timeScale := -2)),
         isClose := true)
  }

  /** The button cue: the button's action is made one-shot and clamped, and
      restarted forward from time 0 only if it is not already running. */
  function AfterCue(s: State, name: string): State
  {
    var a := OneShot(if name in s.buttons then s.buttons[name] else NewAction());
    var b := if a.running then a else Play(Reset(a).(time := ClipStart, timeScale := 1));
    s.(buttons := s.buttons[name := b])
  }

  /** `playIntroThenVideo(v)` up to the point where it returns: the screen
      shows the intro, which plays, and the one pending continuation is
      replaced by one that targets `v`. */
  function AfterRequest(s: State, v: VideoId): State
  {
    s.(screen := Intro,
       playing := s.playing + {Intro},
       current := Intro,
       onIntroEnded := Some(v))
  }

  /** The continuation installed by `AfterRequest`, run for target `v`. */
  function AfterContinuation(s: State, v: VideoId): State
  {
    var started := s.playing + {v};
    var dispose := s.current != Intro;
    s.(looseMap := v,
       playing := if dispose then started - {s.current} else started,
       disposed := if dispose then s.disposed + {s.current} else s.disposed,
       current := v,
       screen := v)
  }

  /** The intro plays to its end: it pauses, and the installed continuation
      (if any) runs. A paused intro has no end to reach. */
  function AfterIntroEnded(s: State): State
  {
    if Intro !in s.playing then s
    else
      var t := s.(playing := s.playing - {Intro});
      match s.onIntroEnded
      case None => t
      case Some(v) => AfterContinuation(t, v)
  }

  /** The panel clip reaches its end. */
  function AfterPanelFinished(s: State): State
  {
    s.(panel := Finish(s.panel))
  }

  /** The clip of button `name` reaches its end. */
  function AfterButtonFinished(s: State, name: string): State
  {
    if name in s.buttons then s.(buttons := s.buttons[name := Finish(s.buttons[name])]) else s
  }

  /** `scene.remove(scene.getObjectByName("LINK_CONTACT"))`: removes one
      overlay if there is one. */
  function AfterRemoveOverlay(s: State): State
  {
    s.(overlays := if s.overlays > 0 then s.overlays - 1 else 0)
  }

  /** `scene.add(linkContact)`: one more overlay, whether or not one is
      already there. */
  function AfterAddOverlay(s: State): State
  {
    s.(overlays := s.overlays + 1)
  }

  /** A click whose nearest hit has the given name, if anything was hit. */
  function AfterClick(s: State, hit: Option<string>): State
  {
    match hit
    case None => s
    case Some(name) =>
      match RouteOf(name)
      case TogglePanel => AfterSwitch(s)
      case ContentButton(v) => AfterRemoveOverlay(AfterCue(AfterRequest(s, v), name))
      case ContactButton => AfterAddOverlay(AfterCue(AfterRequest(s, VideoContact), name))
      case OpenContactLink => s.(links := s.links + [ContactUrl])
      case Ignore => s
  }

  /** `autoStart`: the initial state, then a request for `video1`. */
  function Startup(): State
  {
    AfterRequest(Init(), Video1)
  }

  /** The events the page reacts to: clicks, and the ends of clips that the
      browser and the animation mixer report. */
  datatype Event =
    | Click(hit: Option<string>)
    | IntroEnd
    | PanelEnd
    | ButtonEnd(name: string)

  function Step(s: State, e: Event): State
  {
    match e
    case Click(hit) => AfterClick(s, hit)
    case IntroEnd => AfterIntroEnded(s)
    case PanelEnd => AfterPanelFinished(s)
    case ButtonEnd(name) => AfterButtonFinished(s, name)
  }

  /** The state after handling `evs` in order, each to completion. */
  function Run(s: State, evs: seq<Event>): State
    decreases |evs|
  {
    if evs == [] then s else Run(Step(s, evs[0]), evs[1..])
  }

  /** Handling one more event after a history is one more step. */
  lemma {:induction false} RunSnoc(s: State, evs: seq<Event>, e: Event)
    ensures Run(s, evs + [e]) == Step(Run(s, evs), e)
    decreases |evs|
  {
    if evs == [] {
      assert [e][1..] == [];
    } else {
      assert (evs + [e])[1..] == evs[1..] + [e];
      RunSnoc(Step(s, evs[0]), evs[1..], e);
    }
  }
}
