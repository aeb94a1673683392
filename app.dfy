/**
 * The application shell (src/App.tsx): the phase the visitor is in, whether
 * the assets have finished loading, and what each phase shows and passes
 * to the player controller.
 */
module App {

  /** The visit goes loading, then the intro walk, then the dialog, then free play. */
  datatype Phase = Loading | IntroMove | Dialog | Play

  /** The overlays and controller props that `App` renders for a phase. */
  datatype View = View(loadingScreen: bool, dialog: bool, intro: bool, disableInput: bool)

  function ViewOf(p: Phase): (v: View)
    ensures v.loadingScreen <==> p == Loading
    ensures v.dialog <==> p == Dialog
    ensures v.intro <==> p == IntroMove
    ensures v.disableInput <==> p != Play
  {
    View(p == Loading, p == Dialog, p == IntroMove, p != Play)
  }

  /** At most one overlay is up, and input is enabled exactly when none is and the intro is over. */
  lemma ViewConsistent(p: Phase)
    ensures !(ViewOf(p).loadingScreen && ViewOf(p).dialog)
    ensures !ViewOf(p).disableInput <==> !ViewOf(p).loadingScreen && !ViewOf(p).dialog && !ViewOf(p).intro
  {
  }

  /** The event that fires each callback. */
  datatype Event = SuspenseDone | LoadingFinished | IntroComplete | DialogClosed

  /** The component's state after one callback: each one sets its value unconditionally. */
  function Step(phase: Phase, loaded: bool, e: Event): (r: (Phase, bool))
    ensures e == SuspenseDone ==> r == (phase, true)
    ensures e == LoadingFinished ==> r == (IntroMove, loaded)
    ensures e == IntroComplete ==> r == (Dialog, loaded)
    ensures e == DialogClosed ==> r == (Play, loaded)
  {
    match e
    case SuspenseDone => (phase, true)
    case LoadingFinished => (IntroMove, loaded)
    case IntroComplete => (Dialog, loaded)
    case DialogClosed => (Play, loaded)
  }

  /** The state after a sequence of callbacks, from the initial one. */
  function Run(events: seq<Event>): (Phase, bool) {
    if events == [] then (Loading, false)
    else
      var s := Run(events[..|events| - 1]);
      Step(s.0, s.1, events[|events| - 1])
  }

  /**
   * Once the assets are reported loaded they stay loaded, and the flag is
   * set exactly when some callback so far was the suspense-done one.
   */
  lemma {:induction false} LoadedIffReported(events: seq<Event>)
    ensures Run(events).1 <==> SuspenseDone in events
  {
    if events != [] {
      var pre := events[..|events| - 1];
      LoadedIffReported(pre);
      assert events == pre + [events[|events| - 1]];
    }
  }

  /**
   * The phase is still loading exactly when no callback but the
   * suspense-done one has fired; none of the phase callbacks looks at the
   * phase it leaves, so it never returns to loading.
   */
  lemma {:induction false} LoadingUntilFirstPhaseEvent(events: seq<Event>)
    ensures Run(events).0 == Loading <==> forall i :: 0 <= i < |events| ==> events[i] == SuspenseDone
  {
    if events != [] {
      var n := |events| - 1;
      var pre := events[..n];
      LoadingUntilFirstPhaseEvent(pre);
      assert forall i :: 0 <= i < n ==> pre[i] == events[i];
    }
  }

  /** `App`'s two pieces of state and its callbacks. */
  class AppState {
    var phase: Phase
    var assetsLoaded: bool

    constructor ()
      ensures phase == Loading && !assetsLoaded
    {
      phase := Loading;
      assetsLoaded := false;
    }

    /** `handleSuspenseDone`: assets loaded; a repeat changes nothing further. */
    method HandleSuspenseDone()
      modifies this`assetsLoaded
      ensures assetsLoaded && (phase, assetsLoaded) == Step(old(phase), old(assetsLoaded), SuspenseDone)
    {
      assetsLoaded := true;
    }

    /**
     * The closure App hands the loading screen as `onFinished`. The loading
     * screen takes no props, so as written nothing invokes it.
     */
    method OnFinished()
      modifies this`phase
      ensures (phase, assetsLoaded) == Step(old(phase), old(assetsLoaded), LoadingFinished)
    {
      phase := IntroMove;
    }

    /**
     * The closure App hands the player controller as `onIntroComplete`. The
     * controller takes no props, so as written nothing invokes it.
     */
    method OnIntroComplete()
      modifies this`phase
      ensures (phase, assetsLoaded) == Step(old(phase), old(assetsLoaded), IntroComplete)
    {
      phase := Dialog;
    }

    /**
     * The closure App hands the dialog as `onClose`. The dialog declares
     * other props, so as written nothing invokes it.
     */
    method OnClose()
      modifies this`phase
      ensures (phase, assetsLoaded) == Step(old(phase), old(assetsLoaded), DialogClosed)
    {
      phase := Play;
    }

    /** What the current phase renders. */
    function View(): View
      reads this
    {
      ViewOf(phase)
    }
  }

  /** The phase a phase callback sets (suspense-done sets none and keeps the phase). */
  function PhaseSetBy(e: Event): Phase {
    match e
    case SuspenseDone => Loading
    case LoadingFinished => IntroMove
    case IntroComplete => Dialog
    case DialogClosed => Play
  }

  /**
   * After any sequence of callbacks whose last phase callback is events[k],
   * the phase is the one that callback sets, whatever came before; the
   * assets count as loaded exactly when suspense-done fired at some point.
   */
  lemma {:induction false} PhaseOfLastPhaseEvent(events: seq<Event>, k: nat)
    requires k < |events| && events[k] != SuspenseDone
    requires forall i :: k < i < |events| ==> events[i] == SuspenseDone
    ensures Run(events).0 == PhaseSetBy(events[k])
    ensures Run(events).1 <==> SuspenseDone in events
  {
    LoadedIffReported(events);
    var n := |events| - 1;
    if k < n {
      var pre := events[..n];
      assert forall i :: k < i < |pre| ==> pre[i] == events[i];
      PhaseOfLastPhaseEvent(pre, k);
    }
  }

  /** Whenever the dialog's close is the last phase callback, the visitor is in free play. */
  lemma ClosedDialogPlays(events: seq<Event>, k: nat)
    requires k < |events| && events[k] == DialogClosed
    requires forall i :: k < i < |events| ==> events[i] == SuspenseDone
    ensures Run(events).0 == Play
    ensures !ViewOf(Run(events).0).disableInput && !ViewOf(Run(events).0).dialog
  {
    PhaseOfLastPhaseEvent(events, k);
  }

  /**
   * The app as written: the only callback any component invokes is
   * suspense-done, so whatever number of times it fires, the phase stays
   * loading, the loading screen stays up and input stays disabled.
   */
  lemma AsWrittenStaysLoading(events: seq<Event>)
    requires forall i :: 0 <= i < |events| ==> events[i] == SuspenseDone
    ensures Run(events).0 == Loading && ViewOf(Run(events).0).loadingScreen && ViewOf(Run(events).0).disableInput
    ensures Run(events).1 <==> |events| > 0
  {
    LoadingUntilFirstPhaseEvent(events);
    LoadedIffReported(events);
    if |events| > 0 {
      assert events[0] == SuspenseDone;
    }
  }

  /** The intended visit: after loading, the intro and the dialog, input is enabled and no overlay is up. */
  lemma IntendedVisit()
    ensures Run([SuspenseDone, LoadingFinished, IntroComplete, DialogClosed]) == (Play, true)
    ensures var v := ViewOf(Play); !v.loadingScreen && !v.dialog && !v.intro && !v.disableInput
  {
    var visit := [SuspenseDone, LoadingFinished, IntroComplete, DialogClosed];
    PhaseOfLastPhaseEvent(visit, 3);
    assert visit[0] == SuspenseDone;
  }
}
