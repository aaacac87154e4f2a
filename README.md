# Interactive appliance page: controller model

This project models the controller behind a single-page 3D presentation.
The page shows an appliance with a screen. Clicking the floor, the fridge
or the screen toggles a panel: the camera aims at a close-up position and
a panel animation plays. Clicking one of six numbered buttons, or the
contact button, plays a short intro clip on the screen. When the intro
ends, the chosen content clip follows. Each button also plays a short
press animation. The contact button also places an invisible clickable box
over the screen, and clicking that box opens an external link.

The model keeps the page's module-level variables as the fields of one
class, `App.Controller`:

- the panel flag `isClose`;
- the camera target, in tenths of a unit, so that (0, 1, 8) and
  (1.7, 1.8, 2.5) are exact;
- the panel action and one action per button node;
- `currentVideo` and the clip bound to the SCREEN material;
- which clips play and which were released;
- the target of the intro's single `onended` continuation;
- the texture of the module-level `material`, which is not attached to the
  screen (`materialMap`, app.js:35, 248);
- the number of LINK_CONTACT boxes in the scene;
- the links opened so far.

Each handler is a method that updates these fields in the page's order.
Each handler is proved to give the state described by a pure function in
`Machine` (`AfterSwitch`, `AfterCue`, `AfterRequest`, `AfterContinuation`,
`AfterIntroEnded`, `AfterClick`, …). The one exception is
`DisposeVideoTexture`, whose new state is stated directly as the old state
with the clip stopped and marked released.

The browser and the animation mixer report two kinds of events: the intro
ended, and a clip finished. These become the environment methods
`IntroEnded`, `PanelClipFinished` and `ButtonClipFinished`. `Machine.Run`
folds any sequence of events over the start-up state. `Properties` proves
an invariant of every reachable state, and the multi-event behaviours, over
that fold. The ghost `history` of the class ties each object to such a
run, so the invariant also holds of the object. This link holds while the
object is changed only through its constructor, `OnClick`, `IntroEnded`,
`PanelClipFinished` and `ButtonClipFinished`. The helper methods
(`SwitchStates`, `AnimButton`, `PlayIntroThenVideo`, `DisposeVideoTexture`,
`RunContinuation`) leave `history` as it was. Calling one of them directly
therefore breaks the link.

Modules: `Scene` (clip ids, camera targets, the routing of hit names),
`Anim` (the animation action's fields), `Machine` (the state and the
handlers as functions), `Properties` (lemmas), `App` (the class).

Two behaviours of the code are worth knowing:

- **Release of the previous clip.** The continuation has a branch that
  releases the previous content clip (app.js:252-254). But every request
  first sets `currentVideo` to the intro (app.js:245). So when the
  continuation runs after a request, `currentVideo` is the intro, and the
  release does not happen. `Properties.DisposalNeverRuns` proves that it
  never happens in any reachable state. This assumes that each end of the
  intro is handled before the next click (see `App.Controller.IntroEnded`
  under "Left out"). Earlier content clips keep playing in the
  background; they loop and are muted. If the continuation does run twice
  without a request in between, it releases the clip it puts on screen
  (`Properties.ContinuationTwiceReleasesShownClip`).
- **Contact overlay.** The contact handler adds a box on every press
  without checking for an existing one (app.js:197-208). A numbered press
  removes only one box (app.js:164). `Properties.TwoContactsThenButton1`
  shows that two contact presses and then `BUTTON_1` leave one box behind.

## Model

| member | source | states |
|---|---|---|
| App.Controller.constructor | app.js:270-274 | Start-up gives a closed panel and the default target (0,1,8). The panel action is not running. The screen shows the intro, which plays, and the continuation targets `video1`. There is no overlay and nothing is released. |
| App.Controller.SwitchStates | app.js:115-140 | While the panel clip runs, nothing changes. From closed: target (1.7,1.8,2.5), clip forward from its start at scale 1, panel open. From open: target (0,1,8), clip from its end at scale -2, panel closed. |
| App.Controller.AnimButton | app.js:103-113 | The button's action becomes one-shot and clamped. It restarts from time 0 at scale 1 only if it was not running; otherwise it is left as it was. Other buttons' actions are untouched. |
| App.Controller.PlayIntroThenVideo | app.js:224-246 | The screen shows the intro, the intro plays, and `currentVideo` is the intro. The pending continuation now targets the requested clip, replacing any earlier one. No other clip starts or stops. |
| App.Controller.RunContinuation | app.js:247-266 | The screen and `currentVideo` become the selected clip. It plays unless it was itself the released clip. The previous clip is released exactly when `currentVideo` was not the intro. |
| App.Controller.DisposeVideoTexture | app.js:58-63 | The clip stops playing and is marked released. Nothing else changes. |
| App.Controller.IntroEnded | app.js:247-255 | If the intro was playing, it stops and the screen and `currentVideo` become the pending target, which plays. In every reachable state, nothing has been released. |
| App.Controller.PanelClipFinished | app.js:77-79 | The one-shot, clamped panel clip stops running at the end it was playing towards. |
| App.Controller.ButtonClipFinished | app.js:105-106 | The button's one-shot clip stops running. |
| App.Controller.OnClick | app.js:150-218 | A miss or an unknown name changes nothing. `BUTTON_k` requests clip k, puts the intro on screen and removes at most one overlay. `BUTTON_CONTACT` requests the contact clip and adds one overlay. `LINK_CONTACT` only records the opened link. The reachable-state invariant is kept. |
| Scene.RouteRequestsContent | app.js:153-217 | Only FLOOR, FRIDGE and SCREEN toggle the panel. Only BUTTON_CONTACT routes to the contact handler, and only LINK_CONTACT opens the link. Each `BUTTON_k` routes to clip k. A name that routes to a content clip is that clip's button, and the clip is never the intro or the contact clip. |
| Properties.StartupInv | app.js:11-35 | The start-up state satisfies the reachable-state invariant. |
| Properties.ReachableInv | app.js:224-266 | After any sequence of events, these hold: the screen shows `currentVideo`; nothing is released; a continuation for a content clip is installed. While `currentVideo` is the intro, the intro plays; otherwise the intro is over and the continuation's target plays. The camera target matches `isClose`. Every action is one-shot and clamped. |
| Properties.DisposalNeverRuns | app.js:245-254 | In every reachable state, the intro can end only while `currentVideo` is the intro. So the continuation never releases a clip. |
| Properties.StepPending | app.js:247 | An event replaces the pending continuation exactly when it requests a clip. |
| Properties.PendingIsLatest | app.js:247-266 | After any history, the pending continuation targets the most recently requested clip. |
| Properties.ShowsLatestRequest | app.js:224-266 | The screen shows either the intro or the most recently requested clip, and the latter whenever the intro is not playing. The intro's end puts the most recent request on screen. |
| Properties.IgnoredClicksChangeNothing | app.js:151-217 | Any sequence of clicks that miss, or that hit an unrouted name, leaves the whole state unchanged. |
| Properties.OverlaysAccumulate | app.js:197-208 | With no numbered press in between, each contact press adds one overlay, with no existence check. |
| Properties.NumberedPressRemovesOne | app.js:161-165 | A numbered press removes one overlay if there is one. It requests its clip and shows the intro. |
| Properties.ContactThenButton1 | app.js:161-208 | From any state without overlay: a contact press leaves one overlay, and `BUTTON_1` then leaves none. When the intro ends, `video1` is on screen. |
| Properties.ContinuationTwiceReleasesShownClip | app.js:247-255 | If the continuation for a content clip runs twice with no request in between, the clip stays on screen and `currentVideo`, but it is stopped and released. |
| Properties.TwoContactsThenButton1 | app.js:164-208 | Two contact presses and then `BUTTON_1` leave one overlay. |
| Properties.LastRequestWins | app.js:224-266 | Requesting `video2` and then `video3` before the intro ends shows `video3`. `video2` is never bound to the screen, started or released. |
| Properties.TogglesRestore | app.js:115-140 | From any reachable state with the panel clip idle, a toggle flips the panel and moves the target. A second toggle after the clip finishes restores both exactly. |
| Properties.ToggleWhileRunning | app.js:116 | A toggle while the panel clip runs changes nothing at all. |
| Properties.CueWhileRunning | app.js:103-113 | In a reachable state, cueing a button whose action is running changes nothing. |

## Left out

- Rendering, scene and renderer set-up, lights and resizing (app.js:5-9, 13, 88-91). These are library calls with no decisions in them.
- Raycasting and pointer normalisation (app.js:143-150). A click is modelled by the name of the nearest struck node, if any. That name is an input: the model does not tie it to the nodes the scene holds, so a click on LINK_CONTACT is accepted even when no box is present.
- The per-frame loop (app.js:277-288): the clock, `mixer.update` and the camera's `lerp` towards the target. These are floating-point, per-frame library time. A clip's end is an environment event instead (`IntroEnded`, `PanelClipFinished`, `ButtonClipFinished`), and the camera is modelled by its target only.
- Playback positions: `currentTime = 0` on the intro and on the selected clip (app.js:227, 249). Without a clock a position cannot be observed, so the model keeps only whether each clip plays. An animation action's `time` is kept only as the clip end it starts from or rests at.
- Model loading and the `traverse` that finds SCREEN (app.js:66-98, 231-238, 258-265). The screen binding is a single field. A model that fails to load is not modelled: the handlers use `mixer` and `remoteAction` without a check.
- DOM video creation and what `disposeVideoTexture` does to the media element (app.js:41-63). Release is modelled as stopping the clip and adding it to a `disposed` set.
- `window.open` (app.js:213) is recorded as an appended address, not performed.
- The state of the media elements before start-up, which the page's HTML decides (for example autoplay). The HTML is not part of this model; no clip is assumed to play before `autoStart`.
- Button actions are keyed by the node's name, whereas the mixer keys them by node object. The two agree because every button node has its own name.
- The `console.log` and `console.error` diagnostics (app.js:72, 96, 152). These are output only and change no state.
- App.Controller.IntroEnded: the intro reaching its end and its `ended` handler running are one atomic event. In a browser, `ended` is dispatched later as a queued task, so a click can be handled in between. If that happens, the handler runs the new request's continuation while the restarted intro plays. The continuation then runs a second time when that intro ends, and releases the clip on screen (see `Properties.ContinuationTwiceReleasesShownClip`). So `Properties.DisposalNeverRuns` and `Properties.ReachableInv` hold only for runs where each end of the intro is handled before the next click.
