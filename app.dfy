/** The page's controller: the module-level variables of the page as the
    fields of one object, and each handler as a method that updates them in
    the order the page does. Each method is proved to produce the state the
    matching `Machine` function describes; the ghost `history` records the
    events handled so far, so that the invariants proved in `Properties`
    apply to the object. */
module App {
  import opened Scene
  import opened Anim
  import opened Machine
  import Properties

  class Controller {
    var isClose: bool
    var cameraTarget: Vec3
    var remoteAction: Action
    var buttonActions: map<string, Action>
    var currentVideo: VideoId
    var screenMap: VideoId
    var materialMap: VideoId
    var playing: set<VideoId>
    var disposed: set<VideoId>
    var onIntroEnded: Option<VideoId>
    var overlays: nat
    var links: seq<string>

    ghost var history: seq<Event>

    /** The object's state as a `Machine.State` value. */
    function Model(): State
      reads this
    {
      State(isClose, cameraTarget, remoteAction, buttonActions, currentVideo, screenMap,
            materialMap, playing, disposed, onIntroEnded, overlays, links)
    }

    /** The object is in the state that start-up followed by `history` leads to. */
    ghost predicate Valid()
      reads this
    {
      Model() == Run(Startup(), history)
    }

    /** Loading the page: the globals, the one-shot set-up of the panel action
        and the screen's material when the model is loaded, then `autoStart`'s
        request for `video1`. */
    constructor ()
      ensures Valid() && history == []
      ensures isClose && cameraTarget == DefaultTarget && !remoteAction.running
      ensures screenMap == Intro && currentVideo == Intro && Intro in playing
      ensures onIntroEnded == Some(Video1) && overlays == 0 && disposed == {}
    {
      isClose := true;
      cameraTarget := DefaultTarget;
      currentVideo := Intro;
      materialMap := Intro;
      playing, disposed := {}, {};
      onIntroEnded := None;
      overlays := 0;
      links := [];
      buttonActions := map[];
      remoteAction := NewAction();
      screenMap := Intro;
      history := [];
      new;
      remoteAction := remoteAction.(loop := LoopOnce);
      remoteAction := remoteAction.(clampWhenFinished := true);
      PlayIntroThenVideo(Video1);
    }

    /** The panel toggle; a no-op while the panel clip runs. */
    method SwitchStates()
      modifies this
      ensures Model() == AfterSwitch(old(Model())) && history == old(history)
      ensures old(remoteAction.running) ==>
        isClose == old(isClose) && cameraTarget == old(cameraTarget) && remoteAction == old(remoteAction)
      ensures !old(remoteAction.running) && old(isClose) ==>
        !isClose && cameraTarget == FocusedTarget &&
        remoteAction.running && remoteAction.time == ClipStart && remoteAction.timeScale == 1
      ensures !old(remoteAction.running) && !old(isClose) ==>
        isClose && cameraTarget == DefaultTarget &&
        remoteAction.running && remoteAction.time == ClipEnd && remoteAction.timeScale == -2
    {
      if !remoteAction.running {
        if isClose {
          cameraTarget := FocusedTarget;
          remoteAction := Reset(remoteAction);
          remoteAction := remoteAction.(timeScale := 1);
          remoteAction := Play(remoteAction);
          isClose := false;
        } else {
          cameraTarget := DefaultTarget;
          remoteAction := Reset(remoteAction);
          remoteAction := remoteAction.(time := ClipEnd);
          remoteAction := remoteAction.(timeScale := -2);
          remoteAction := Play(remoteAction);
          isClose := true;
        }
      }
    }

    /** The one-shot cue of the button node `name`; restarted only when that
        button's action is not running. */
    method AnimButton(name: string)
      modifies this
      ensures Model() == AfterCue(old(Model()), name) && history == old(history)
      ensures name in buttonActions && buttonActions[name].loop == LoopOnce && buttonActions[name].clampWhenFinished
      ensures forall n :: n in old(buttonActions) && n != name ==> n in buttonActions && buttonActions[n] == old(buttonActions)[n]
      ensures name in old(buttonActions) && old(buttonActions)[name].running ==>
        buttonActions[name] == OneShot(old(buttonActions)[name])
      ensures !(name in old(buttonActions) && old(buttonActions)[name].running) ==>
        buttonActions[name].running && buttonActions[name].time == ClipStart && buttonActions[name].timeScale == 1
    {
      var action := if name in buttonActions then buttonActions[name] else NewAction();
      action := action.(loop := LoopOnce);
      action := action.(clampWhenFinished := true);
      if !action.running {
        action := Reset(action);
        action := action.(time := ClipStart);
        action := action.(timeScale := 1);
        action := Play(action);
      }
      buttonActions := buttonActions[name := action];
    }

    /** Shows and plays the intro, and installs the continuation that will
        show `selected` when the intro ends, replacing any earlier one. */
    method PlayIntroThenVideo(selected: VideoId)
      modifies this
      ensures Model() == AfterRequest(old(Model()), selected) && history == old(history)
      ensures screenMap == Intro && Intro in playing && currentVideo == Intro
      ensures onIntroEnded == Some(selected)
      ensures playing - {Intro} == old(playing) - {Intro} && disposed == old(disposed)
    {
      if Intro in playing {
        playing := playing - {Intro};
      }
      screenMap := Intro;
      playing := playing + {Intro};
      currentVideo := Intro;
      onIntroEnded := Some(selected);
    }

    /** Releases clip `v`'s media: it stops and is marked disposed. */
    method DisposeVideoTexture(v: VideoId)
      modifies this
      ensures playing == old(playing) - {v} && disposed == old(disposed) + {v}
      ensures Model() == old(Model()).(playing := playing, disposed := disposed) && history == old(history)
    {
      playing := playing - {v};
      disposed := disposed + {v};
    }

    /** The body of the continuation installed for `selected`. */
    method RunContinuation(selected: VideoId)
      modifies this
      ensures Model() == AfterContinuation(old(Model()), selected) && history == old(history)
      ensures screenMap == selected && currentVideo == selected
      ensures old(currentVideo) == Intro ==> disposed == old(disposed) && selected in playing
      ensures old(currentVideo) != Intro ==> old(currentVideo) in disposed && old(currentVideo) !in playing
    {
      materialMap := selected;
      playing := playing + {selected};
      if currentVideo != Intro {
        DisposeVideoTexture(currentVideo);
      }
      currentVideo := selected;
      screenMap := selected;
    }

    /** The intro's `ended` event: delivered only when the intro plays to its
        end, so a paused intro ignores it. */
    method IntroEnded()
      requires Valid()
      modifies this
      ensures Valid() && history == old(history) + [IntroEnd]
      ensures Model() == AfterIntroEnded(old(Model()))
      ensures old(Intro in playing) ==>
        old(onIntroEnded).Some? && screenMap == old(onIntroEnded).value && screenMap in playing && currentVideo == screenMap && Intro !in playing
      ensures disposed == {}
    {
      Properties.ReachableInv(history);
      if Intro in playing {
        playing := playing - {Intro};
        match onIntroEnded {
          case Some(v) => RunContinuation(v);
          case None =>
        }
      }
      RunSnoc(Startup(), history, IntroEnd);
      history := history + [IntroEnd];
      Properties.ReachableInv(history);
    }

    /** The mixer's report that the panel clip reached its end. */
    method PanelClipFinished()
      requires Valid()
      modifies this
      ensures Valid() && history == old(history) + [PanelEnd]
      ensures Model() == AfterPanelFinished(old(Model()))
      ensures !remoteAction.running
    {
      remoteAction := Finish(remoteAction);
      RunSnoc(Startup(), history, PanelEnd);
      history := history + [PanelEnd];
    }

    /** The mixer's report that the clip of button `name` reached its end. */
    method ButtonClipFinished(name: string)
      requires Valid()
      modifies this
      ensures Valid() && history == old(history) + [ButtonEnd(name)]
      ensures Model() == AfterButtonFinished(old(Model()), name)
      ensures name in buttonActions ==> !buttonActions[name].running
    {
      if name in buttonActions {
        buttonActions := buttonActions[name := Finish(buttonActions[name])];
      }
      RunSnoc(Startup(), history, ButtonEnd(name));
      history := history + [ButtonEnd(name)];
    }

    /** The click handler, given the name of the nearest node the click
        struck, if any. */
    method OnClick(hit: Option<string>)
      requires Valid()
      modifies this
      ensures Valid() && history == old(history) + [Click(hit)]
      ensures Model() == AfterClick(old(Model()), hit)
      ensures hit.None? || RouteOf(hit.value) == Ignore ==> Model() == old(Model())
      ensures hit.Some? && RouteOf(hit.value).ContentButton? ==>
        onIntroEnded == Some(RouteOf(hit.value).video) && screenMap == Intro &&
        overlays == (if old(overlays) > 0 then old(overlays) - 1 else 0)
      ensures hit == Some("BUTTON_CONTACT") ==>
        onIntroEnded == Some(VideoContact) && screenMap == Intro && overlays == old(overlays) + 1
      ensures hit == Some(LinkContact) ==>
        links == old(links) + [ContactUrl] && Model() == old(Model()).(links := links)
      ensures Properties.Inv(Model())
    {
      match hit {
        case None =>
        case Some(name) =>
          match RouteOf(name) {
            case TogglePanel =>
              SwitchStates();
            case ContentButton(v) =>
              PlayIntroThenVideo(v);
              AnimButton(name);
              if overlays > 0 {
                overlays := overlays - 1;
              }
            case ContactButton =>
              PlayIntroThenVideo(VideoContact);
              AnimButton(name);
              overlays := overlays + 1;
            case OpenContactLink =>
              links := links + [ContactUrl];
            case Ignore =>
          }
      }
      RunSnoc(Startup(), old(history), Click(hit));
      history := history + [Click(hit)];
      Properties.ReachableInv(history);
    }
  }
}
