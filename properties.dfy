/** What holds of every state the page can reach from start-up, and of the
    handlers' behaviour across several events. */
module Properties {
  import opened Scene
  import opened Anim
  import opened Machine

  /** The invariant of every reachable state. */
  ghost predicate Inv(s: State)
  {
    // exactly one clip is bound to the screen, and it is `currentVideo`
    s.screen == s.current &&
    // nothing is ever released
    s.disposed == {} &&
    // a continuation is always installed, and it targets a content clip
    s.onIntroEnded.Some? && s.onIntroEnded.value != Intro &&
    // while `currentVideo` is the intro, the intro plays ...
    (s.current == Intro ==> Intro in s.playing) &&
    // ... and once the continuation has run, the intro is over and its target plays
    (s.current != Intro ==>
       Intro !in s.playing && s.onIntroEnded == Some(s.current) && s.current in s.playing) &&
    // the camera target follows the panel state
    s.cameraTarget == (if s.isClose then DefaultTarget else FocusedTarget) &&
    // every clip action in use is one-shot and clamped
    s.panel.loop == LoopOnce && s.panel.clampWhenFinished &&
    (forall n :: n in s.buttons ==> s.buttons[n].loop == LoopOnce && s.buttons[n].clampWhenFinished)
  }

  lemma StartupInv()
    ensures Inv(Startup())
  {
  }

  lemma ClickPreservesInv(s: State, hit: Option<string>)
    requires Inv(s)
    ensures Inv(AfterClick(s, hit))
  {
    if hit.Some? {
      RouteRequestsContent(hit.value);
    }
  }

  lemma StepPreservesInv(s: State, e: Event)
    requires Inv(s)
    ensures Inv(Step(s, e))
  {
    match e
    case Click(hit) => ClickPreservesInv(s, hit);
    case IntroEnd =>
    case PanelEnd =>
    case ButtonEnd(name) =>
  }

  lemma {:induction false} RunPreservesInv(s: State, evs: seq<Event>)
    requires Inv(s)
    ensures Inv(Run(s, evs))
    decreases |evs|
  {
    if evs != [] {
      StepPreservesInv(s, evs[0]);
      RunPreservesInv(Step(s, evs[0]), evs[1..]);
    }
  }

  /** Every state reached from start-up by any sequence of events keeps `Inv`. */
  lemma ReachableInv(evs: seq<Event>)
    ensures Inv(Run(Startup(), evs))
  {
    StartupInv();
    RunPreservesInv(Startup(), evs);
  }

  /** The disposal branch of the continuation never runs: whenever the intro
      can still reach its end, `currentVideo` is the intro, so no clip is
      ever released, and the screen always shows `currentVideo`. */
  lemma DisposalNeverRuns(evs: seq<Event>)
    ensures var s := Run(Startup(), evs);
      (Intro in s.playing ==> s.current == Intro) &&
      s.disposed == {} && AfterIntroEnded(s).disposed == {} &&
      s.screen == s.current
  {
    ReachableInv(evs);
  }

  /** The clip a single event requests, if it requests one. */
  function RequestOf(e: Event): Option<VideoId>
  {
    match e
    case Click(Some(name)) =>
      (match RouteOf(name)
       case ContentButton(v) => Some(v)
       case ContactButton => Some(VideoContact)
       case _ => None)
    case _ => None
  }

  /** The clip of the most recent request in `evs`, or `d` when there is none. */
  function LatestRequest(evs: seq<Event>, d: VideoId): VideoId
    decreases |evs|
  {
    if evs == [] then d
    else match RequestOf(evs[|evs| - 1])
      case Some(v) => v
      case None => LatestRequest(evs[..|evs| - 1], d)
  }

  /** Only a request replaces the pending continuation, and a request always
      does (last writer wins). */
  lemma StepPending(s: State, e: Event)
    ensures Step(s, e).onIntroEnded == if RequestOf(e).Some? then RequestOf(e) else s.onIntroEnded
  {
  }

  /** After any history, the pending continuation targets the most recently
      requested clip; start-up's request for `video1` counts as the first. */
  lemma {:induction false} PendingIsLatest(evs: seq<Event>)
    ensures Run(Startup(), evs).onIntroEnded == Some(LatestRequest(evs, Video1))
    decreases |evs|
  {
    if evs != [] {
      var p, e := evs[..|evs| - 1], evs[|evs| - 1];
      assert evs == p + [e];
      RunSnoc(Startup(), p, e);
      PendingIsLatest(p);
      StepPending(Run(Startup(), p), e);
    }
  }

  /** The screen shows either the intro or the most recently requested clip:
      it shows that clip as soon as the intro is not playing, and the intro's
      end switches it to that clip. Requests superseded before the intro
      ended are never shown. */
  lemma ShowsLatestRequest(evs: seq<Event>)
    ensures var s, v := Run(Startup(), evs), LatestRequest(evs, Video1);
      (s.screen == Intro || s.screen == v) &&
      (Intro !in s.playing ==> s.screen == v) &&
      (Intro in s.playing ==>
         s.screen == Intro && AfterIntroEnded(s).screen == v && AfterIntroEnded(s).current == v &&
         v in AfterIntroEnded(s).playing && Intro !in AfterIntroEnded(s).playing)
  {
    ReachableInv(evs);
    PendingIsLatest(evs);
  }

  /** A click that hits nothing, or hits a node the dispatcher does not
      know, changes no state. */
  predicate IsIgnoredClick(e: Event)
  {
    e.Click? && (e.hit.None? || RouteOf(e.hit.value) == Ignore)
  }

  lemma {:induction false} IgnoredClicksChangeNothing(s: State, evs: seq<Event>)
    requires forall i :: 0 <= i < |evs| ==> IsIgnoredClick(evs[i])
    ensures Run(s, evs) == s
    decreases |evs|
  {
    if evs != [] {
      assert IsIgnoredClick(evs[0]);
      assert Step(s, evs[0]) == s;
      IgnoredClicksChangeNothing(s, evs[1..]);
    }
  }

  /** Whether an event is a click on one of the numbered content buttons. */
  predicate IsNumberedClick(e: Event)
  {
    e.Click? && e.hit.Some? && RouteOf(e.hit.value).ContentButton?
  }

  /** The number of presses of the contact button in `evs`. */
  function ContactPresses(evs: seq<Event>): nat
    decreases |evs|
  {
    if evs == [] then 0
    else (if evs[0] == Click(Some("BUTTON_CONTACT")) then 1 else 0) + ContactPresses(evs[1..])
  }

  /** Each contact press adds an overlay without checking for an existing
      one, so with no numbered press in between the overlays accumulate. */
  lemma {:induction false} OverlaysAccumulate(s: State, evs: seq<Event>)
    requires forall i :: 0 <= i < |evs| ==> !IsNumberedClick(evs[i])
    ensures Run(s, evs).overlays == s.overlays + ContactPresses(evs)
    decreases |evs|
  {
    if evs != [] {
      assert !IsNumberedClick(evs[0]);
      var e := evs[0];
      if e.Click? && e.hit.Some? {
        RouteRequestsContent(e.hit.value);
      }
      OverlaysAccumulate(Step(s, evs[0]), evs[1..]);
    }
  }

  /** A numbered press removes one overlay, if there is one, and never more. */
  lemma NumberedPressRemovesOne(s: State, k: VideoId)
    requires k != Intro && k != VideoContact
    ensures var t := AfterClick(s, Some(ButtonFor(k)));
      t.overlays == (if s.overlays > 0 then s.overlays - 1 else 0) &&
      t.onIntroEnded == Some(k) && t.screen == Intro
  {
  }

  /** Pressing the contact button and then `BUTTON_1` leaves no overlay, and
      once the intro ends the screen shows `video1`. */
  lemma ContactThenButton1(s: State)
    requires s.overlays == 0
    ensures var a := AfterClick(s, Some("BUTTON_CONTACT"));
      var b := AfterClick(a, Some("BUTTON_1"));
      a.overlays == 1 && b.overlays == 0 &&
      AfterIntroEnded(b).screen == Video1 && AfterIntroEnded(b).current == Video1
  {
  }

  /** If the continuation for a content clip runs a second time with no
      request in between, the clip it shows is released: it stops and is
      marked disposed while it stays bound to the screen. */
  lemma ContinuationTwiceReleasesShownClip(s: State, v: VideoId)
    requires v != Intro
    ensures var t := AfterContinuation(AfterContinuation(s, v), v);
      t.screen == v && t.current == v && v in t.disposed && v !in t.playing
  {
  }

  /** Pressing the contact button twice and then `BUTTON_1` leaves one
      overlay behind. */
  lemma TwoContactsThenButton1(s: State)
    requires s.overlays == 0
    ensures AfterClick(AfterClick(AfterClick(s, Some("BUTTON_CONTACT")), Some("BUTTON_CONTACT")), Some("BUTTON_1")).overlays == 1
  {
  }

  /** Requesting `video2` and then `video3` before the intro ends shows
      `video3`; `video2` is never bound to the screen, started or released. */
  lemma LastRequestWins(evs: seq<Event>)
    ensures var s := Run(Startup(), evs);
      var a := AfterClick(s, Some("BUTTON_2"));
      var b := AfterClick(a, Some("BUTTON_3"));
      var c := AfterIntroEnded(b);
      a.screen == Intro && b.screen == Intro &&
      c.screen == Video3 && c.current == Video3 &&
      Video2 !in c.disposed && (Video2 in c.playing <==> Video2 in s.playing)
  {
    ReachableInv(evs);
  }

  /** In a reachable state where the panel clip is not running, a toggle
      flips the panel, and a second toggle once the clip has finished
      restores both the panel state and the camera target exactly. */
  lemma TogglesRestore(evs: seq<Event>)
    requires !Run(Startup(), evs).panel.running
    ensures var s := Run(Startup(), evs);
      var t := AfterSwitch(s);
      var u := AfterSwitch(AfterPanelFinished(t));
      t.isClose == !s.isClose && t.cameraTarget != s.cameraTarget &&
      u.isClose == s.isClose && u.cameraTarget == s.cameraTarget
  {
    ReachableInv(evs);
  }

  /** Triggering the panel toggle while its clip runs changes nothing. */
  lemma ToggleWhileRunning(s: State)
    requires s.panel.running
    ensures AfterSwitch(s) == s
  {
  }

  /** In a reachable state, cueing a button whose action is still running
      changes nothing: the second trigger is dropped, not queued. */
  lemma CueWhileRunning(evs: seq<Event>, name: string)
    requires name in Run(Startup(), evs).buttons && Run(Startup(), evs).buttons[name].running
    ensures AfterCue(Run(Startup(), evs), name) == Run(Startup(), evs)
  {
    ReachableInv(evs);
    var s := Run(Startup(), evs);
    assert OneShot(s.buttons[name]) == s.buttons[name];
    assert s.buttons[name := s.buttons[name]] == s.buttons;
  }
}
