/** The screen-selection state machine of the capture app's root component:
    two state cells (the captured image's uri and the "confirmed" flag), four
    button handlers that update them, and the render rule that picks one of
    three screens from them. */
module RestaurantApp {

  import opened Wrappers

  /** A snapshot of the component's two state cells. */
  datatype State = State(capturedUri: Option<string>, viewConfirmedPic: bool)

  /** The three screens the component can render. */
  datatype Screen = Camera | Preview | Confirmed

  /** A user action: a press of one of the four buttons. `Take` carries what
      the camera call produced: `None` when there is no camera to call, or the
      uri of the photograph it returned. */
  datatype Action = Take(shot: Option<string>) | Retake | Confirm | Back

  /** JavaScript truthiness of a `string | null` value: null and the empty
      string are both falsy. */
  function Truthy(uri: Option<string>): (r: bool)
    ensures r <==> uri != None && uri != Some("")
  {
    uri.Some? && uri.value != ""
  }

  /** The state the component starts in: no image, not confirmed. */
  function Initial(): (s: State)
    ensures s.capturedUri.None? && !s.viewConfirmedPic
    ensures ScreenOf(s) == Camera
  {
    State(None, false)
  }

  /** The render rule: the confirmed screen when the flag is on and an image
      is present, otherwise the preview when an image is present, otherwise
      the live camera. */
  function ScreenOf(s: State): (r: Screen)
    ensures r == Confirmed <==> s.viewConfirmedPic && Truthy(s.capturedUri)
    ensures r == Preview <==> !s.viewConfirmedPic && Truthy(s.capturedUri)
    ensures r == Camera <==> !Truthy(s.capturedUri)
  {
    if s.viewConfirmedPic && Truthy(s.capturedUri) then Confirmed
    else if Truthy(s.capturedUri) then Preview
    else Camera
  }

  /** The image the rendered screen displays, if any. */
  function ImageShown(s: State): (img: Option<string>)
    ensures img.Some? <==> ScreenOf(s) != Camera
    ensures img.Some? ==> img == s.capturedUri && img.value != ""
  {
    if Truthy(s.capturedUri) then s.capturedUri else None
  }

  /** The buttons each screen offers: the shutter on the camera screen,
      Retake and Confirm on the preview, Back on the confirmed screen. */
  function Offers(screen: Screen, a: Action): (r: bool)
    ensures a.Take? ==> (r <==> screen == Camera)
    ensures (a.Retake? || a.Confirm?) ==> (r <==> screen == Preview)
    ensures a.Back? ==> (r <==> screen == Confirmed)
  {
    match screen
    case Camera => a.Take?
    case Preview => a.Retake? || a.Confirm?
    case Confirmed => a.Back?
  }

  predicate Enabled(s: State, a: Action)
  {
    Offers(ScreenOf(s), a)
  }

  /** `takePicture`: with no camera nothing changes; otherwise the returned
      uri is stored and the confirmed flag is left as it was. */
  function TakeStep(s: State, shot: Option<string>): (r: State)
    ensures shot.None? ==> r == s
    ensures shot.Some? ==> r.capturedUri == shot && r.viewConfirmedPic == s.viewConfirmedPic
    ensures Inv(s) && ScreenOf(s) == Camera && Truthy(shot) ==> ScreenOf(r) == Preview
    ensures shot == Some("") ==> ScreenOf(r) == Camera
  {
    match shot
    case None => s
    case Some(uri) => s.(capturedUri := Some(uri))
  }

  /** `retakePicture`: from any state, back to the initial state. */
  function RetakeStep(s: State): (r: State)
    ensures r == Initial()
    ensures ScreenOf(r) == Camera && ImageShown(r).None?
  {
    State(None, false)
  }

  /** `confirmPicture`: sets the flag alone. */
  function ConfirmStep(s: State): (r: State)
    ensures r.capturedUri == s.capturedUri && r.viewConfirmedPic
    ensures ScreenOf(s) == Preview ==> ScreenOf(r) == Confirmed && ImageShown(r) == ImageShown(s)
  {
    s.(viewConfirmedPic := true)
  }

  /** `goBackToCamera`: clears the flag alone. Despite its name it keeps the
      image, so from the confirmed screen it lands on the preview. */
  function BackStep(s: State): (r: State)
    ensures r.capturedUri == s.capturedUri && !r.viewConfirmedPic
    ensures ScreenOf(r) != Confirmed
    ensures ScreenOf(s) == Confirmed ==> ScreenOf(r) == Preview && ImageShown(r) == ImageShown(s)
  {
    s.(viewConfirmedPic := false)
  }

  /** The effect of the handler behind an action. */
  function Step(s: State, a: Action): (r: State)
    ensures a.Retake? ==> r == Initial()
    ensures a.Confirm? || a.Back? ==> r.capturedUri == s.capturedUri
    ensures a.Take? && a.shot.Some? ==> r.capturedUri == a.shot
    ensures !a.Retake? ==> r.viewConfirmedPic == (a.Confirm? || (a.Take? && s.viewConfirmedPic))
  {
    match a
    case Take(shot) => TakeStep(s, shot)
    case Retake => RetakeStep(s)
    case Confirm => ConfirmStep(s)
    case Back => BackStep(s)
  }

  /** Every action of `trace` is offered by the screen it is pressed on. */
  predicate Legal(s: State, trace: seq<Action>)
    decreases |trace|
  {
    trace == [] || (Enabled(s, trace[0]) && Legal(Step(s, trace[0]), trace[1..]))
  }

  /** The state after pressing the buttons of `trace` in order. */
  function After(s: State, trace: seq<Action>): State
    decreases |trace|
  {
    if trace == [] then s else After(Step(s, trace[0]), trace[1..])
  }

  /** A state the user can reach from the initial state by pressing only
      buttons that are on screen. */
  ghost predicate Reachable(s: State)
  {
    exists trace :: Legal(Initial(), trace) && After(Initial(), trace) == s
  }

  /** The invariant: the confirmed flag is on only while an image is held. */
  predicate Inv(s: State)
  {
    s.viewConfirmedPic ==> Truthy(s.capturedUri)
  }

  lemma StepsIdempotent(s: State)
    ensures RetakeStep(RetakeStep(s)) == RetakeStep(s)
    ensures ConfirmStep(ConfirmStep(s)) == ConfirmStep(s)
    ensures BackStep(BackStep(s)) == BackStep(s)
  {
  }

  /** A button that is on screen keeps the invariant. */
  lemma EnabledStepKeepsInv(s: State, a: Action)
    requires Inv(s) && Enabled(s, a)
    ensures Inv(Step(s, a))
  {
  }

  /** Pressing only offered buttons keeps the invariant along a whole trace. */
  lemma {:induction false} LegalTraceKeepsInv(s: State, trace: seq<Action>)
    requires Inv(s) && Legal(s, trace)
    ensures Inv(After(s, trace))
    decreases |trace|
  {
    if trace != [] {
      EnabledStepKeepsInv(s, trace[0]);
      LegalTraceKeepsInv(Step(s, trace[0]), trace[1..]);
    }
  }

  /** The reachable states are exactly those that satisfy the invariant:
      no image and not confirmed, any image and not confirmed, or a non-empty
      image and confirmed. */
  lemma ReachableIffInv(s: State)
    ensures Reachable(s) <==> Inv(s)
    ensures Reachable(s) <==>
              s == Initial()
              || (s.capturedUri.Some? && !s.viewConfirmedPic)
              || (Truthy(s.capturedUri) && s.viewConfirmedPic)
  {
    if Reachable(s) {
      var trace :| Legal(Initial(), trace) && After(Initial(), trace) == s;
      LegalTraceKeepsInv(Initial(), trace);
    }
    if Inv(s) {
      match s.capturedUri
      case None =>
        assert s == Initial();
        assert Legal(Initial(), []) && After(Initial(), []) == s;
      case Some(uri) =>
        var taken := Step(Initial(), Take(Some(uri)));
        assert taken == State(Some(uri), false);
        if s.viewConfirmedPic {
          var trace := [Take(Some(uri)), Confirm];
          assert trace[1..] == [Confirm];
          assert Legal(taken, [Confirm]) && After(taken, [Confirm]) == s;
          assert Legal(Initial(), trace) && After(Initial(), trace) == s;
        } else {
          var trace := [Take(Some(uri))];
          assert Legal(taken, []) && After(taken, []) == s;
          assert Legal(Initial(), trace) && After(Initial(), trace) == s;
        }
    }
  }

  /** From a state that holds a non-empty image, no sequence of offered
      buttons other than Retake replaces or drops that image: the screen stays
      on the preview or the confirmed view, and both display it. */
  lemma {:induction false} SameImageUntilRetake(s: State, trace: seq<Action>)
    requires Truthy(s.capturedUri) && Legal(s, trace) && Retake !in trace
    ensures After(s, trace).capturedUri == s.capturedUri
    ensures ScreenOf(After(s, trace)) != Camera
    ensures ImageShown(After(s, trace)) == s.capturedUri
    decreases |trace|
  {
    if trace != [] {
      assert trace[0] != Retake;
      assert trace[0] == Confirm || trace[0] == Back;
      assert Retake !in trace[1..] by {
        forall i | 0 <= i < |trace[1..]| ensures trace[1..][i] != Retake {
          assert trace[1..][i] == trace[i + 1];
        }
      }
      SameImageUntilRetake(Step(s, trace[0]), trace[1..]);
    }
  }

  /** No state is stuck: from every state the camera screen is reached by
      at most two offered presses (from the confirmed screen that is Back,
      which lands on the preview, then Retake). */
  lemma CameraAlwaysReachable(s: State)
    ensures exists trace :: |trace| <= 2 && Legal(s, trace) && ScreenOf(After(s, trace)) == Camera
  {
    match ScreenOf(s)
    case Camera =>
      assert Legal(s, []) && After(s, []) == s;
    case Preview =>
      var trace := [Retake];
      assert Legal(RetakeStep(s), []) && After(RetakeStep(s), []) == RetakeStep(s);
      assert Legal(s, trace) && ScreenOf(After(s, trace)) == Camera;
    case Confirmed =>
      var back := BackStep(s);
      var trace := [Back, Retake];
      assert trace[1..] == [Retake];
      assert Legal(RetakeStep(back), []) && After(RetakeStep(back), []) == RetakeStep(back);
      assert Legal(back, [Retake]) && After(back, [Retake]) == RetakeStep(back);
      assert Legal(s, trace) && ScreenOf(After(s, trace)) == Camera;
  }

  /** The root component: its two `useState` cells as fields, its handlers as
      methods, and its render decision as a method that changes nothing. */
  class App {
    var capturedUri: Option<string>
    var viewConfirmedPic: bool

    function Snapshot(): State
      reads this
    {
      State(capturedUri, viewConfirmedPic)
    }

    constructor ()
      ensures Snapshot() == Initial()
    {
      capturedUri := None;
      viewConfirmedPic := false;
    }

    /** `shot` stands for the camera call: `None` when there is no camera
        ref, otherwise the uri the camera returned. */
    method TakePicture(shot: Option<string>)
      modifies this
      ensures Snapshot() == TakeStep(old(Snapshot()), shot)
      ensures shot.None? ==> capturedUri == old(capturedUri)
      ensures shot.Some? ==> capturedUri == shot
      ensures viewConfirmedPic == old(viewConfirmedPic)
    {
      if shot.Some? {
        capturedUri := Some(shot.value);
      }
    }

    method RetakePicture()
      modifies this
      ensures Snapshot() == RetakeStep(old(Snapshot()))
      ensures capturedUri == None && !viewConfirmedPic
    {
      capturedUri := None;
      viewConfirmedPic := false;
    }

    method ConfirmPicture()
      modifies this
      ensures Snapshot() == ConfirmStep(old(Snapshot()))
      ensures capturedUri == old(capturedUri) && viewConfirmedPic
    {
      viewConfirmedPic := true;
    }

    method GoBackToCamera()
      modifies this
      ensures Snapshot() == BackStep(old(Snapshot()))
      ensures capturedUri == old(capturedUri) && !viewConfirmedPic
    {
      viewConfirmedPic := false;
    }

    /** What the component renders: the screen and the image on it. */
    method Render() returns (screen: Screen, image: Option<string>)
      ensures screen == ScreenOf(Snapshot()) && image == ImageShown(Snapshot())
      ensures image.Some? ==> image == capturedUri
    {
      if viewConfirmedPic && capturedUri.Some? && capturedUri.value != "" {
        screen, image := Confirmed, capturedUri;
      } else if capturedUri.Some? && capturedUri.value != "" {
        screen, image := Preview, capturedUri;
      } else {
        screen, image := Camera, None;
      }
    }
  }
}
