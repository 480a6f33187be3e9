/**
 * MainActivity.kt: the permission flow that decides when the splash screen
 * gives way to the map.  The permissions the device currently holds and the
 * SDK level are inputs; launching a permission request only raises
 * `isRequestingPermissions`, and the request's answer arrives later as a
 * separate callback.
 */
module Activity {

  const ACCESS_FINE_LOCATION: string := "android.permission.ACCESS_FINE_LOCATION"
  const ACCESS_COARSE_LOCATION: string := "android.permission.ACCESS_COARSE_LOCATION"
  /** `Build.VERSION_CODES.Q`, the first level with a separate background permission. */
  const VERSION_CODES_Q: int := 29

  /** What `checkSelfPermission` reports for the three location permissions right now. */
  datatype Grants = Grants(fine: bool, coarse: bool, background: bool)

  /** `hasMinimumLocationPermissions`: fine or coarse location. */
  predicate HasMinimumLocationPermissions(held: Grants)
    ensures held.fine ==> HasMinimumLocationPermissions(held)
    ensures held.coarse ==> HasMinimumLocationPermissions(held)
    ensures !held.fine && !held.coarse ==> !HasMinimumLocationPermissions(held)
  {
    held.fine || held.coarse
  }

  /** The background permission plays no part in the minimum. */
  lemma MinimumIgnoresBackground(held: Grants, background: bool)
    ensures HasMinimumLocationPermissions(held.(background := background)) == HasMinimumLocationPermissions(held)
  {
  }

  /**
   * `hasRequiredPermissions`: foreground location, plus background location
   * from Q on.  It gates the splash screen's own `onPermissionsGranted`, and is
   * never weaker than the minimum that `onResume` checks: below Q the two
   * coincide, from Q on it is that minimum together with background location.
   */
  predicate HasRequiredPermissions(held: Grants, sdkInt: int)
    ensures HasRequiredPermissions(held, sdkInt) ==> HasMinimumLocationPermissions(held)
    ensures sdkInt < VERSION_CODES_Q ==>
              (HasRequiredPermissions(held, sdkInt) <==> HasMinimumLocationPermissions(held))
    ensures sdkInt >= VERSION_CODES_Q ==>
              (HasRequiredPermissions(held, sdkInt) <==> HasMinimumLocationPermissions(held) && held.background)
  {
    var hasForegroundLocation := held.fine || held.coarse;
    if sdkInt >= VERSION_CODES_Q then hasForegroundLocation && held.background
    else hasForegroundLocation
  }

  /** `permissions[...] == true`: a permission missing from the answer counts as denied. */
  predicate IsGranted(permissions: map<string, bool>, name: string) {
    name in permissions && permissions[name]
  }

  /** The foreground request's answer grants fine or coarse location. */
  predicate ForegroundLocationGranted(permissions: map<string, bool>)
    ensures ForegroundLocationGranted(permissions) <==>
              (ACCESS_FINE_LOCATION in permissions && permissions[ACCESS_FINE_LOCATION])
              || (ACCESS_COARSE_LOCATION in permissions && permissions[ACCESS_COARSE_LOCATION])
  {
    IsGranted(permissions, ACCESS_FINE_LOCATION) || IsGranted(permissions, ACCESS_COARSE_LOCATION)
  }

  /** The two mutable fields of the activity. */
  datatype Gate = Gate(showSplashScreen: bool, isRequestingPermissions: bool)

  /** `mutableStateOf(true)` and `mutableStateOf(false)`. */
  const InitialGate: Gate := Gate(true, false)

  /** The events that assign the two fields. */
  datatype Event =
    | ForegroundRequested
    | ForegroundAnswered(permissions: map<string, bool>, held: Grants)
    | BackgroundAnswered(isGranted: bool)
    | SplashGranted
    | Resumed(held: Grants)

  /** `requestBackgroundLocationPermission`: launches only from Q on. */
  function RequestBackground(sdkInt: int, g: Gate): Gate {
    if sdkInt >= VERSION_CODES_Q then g.(isRequestingPermissions := true) else g
  }

  /** How one event changes the two fields. */
  function Step(sdkInt: int, g: Gate, e: Event): (r: Gate)
    ensures !g.showSplashScreen ==> !r.showSplashScreen
    ensures e.ForegroundRequested? ==> r == g.(isRequestingPermissions := true)
    ensures e.ForegroundAnswered? ==>
              (r.isRequestingPermissions <==>
                 ForegroundLocationGranted(e.permissions) && sdkInt >= VERSION_CODES_Q && !e.held.background)
    ensures e.ForegroundAnswered? && !ForegroundLocationGranted(e.permissions) ==>
              r.showSplashScreen == g.showSplashScreen
    ensures e.ForegroundAnswered? && ForegroundLocationGranted(e.permissions) ==>
              (r.showSplashScreen <==>
                 g.showSplashScreen && sdkInt >= VERSION_CODES_Q && !e.held.background)
    ensures e.BackgroundAnswered? ==> r == Gate(false, false)
    ensures e.SplashGranted? ==> r == g.(showSplashScreen := false)
    ensures e.Resumed? ==>
              r == if HasMinimumLocationPermissions(e.held) then g.(showSplashScreen := false) else g
  {
    match e
    case ForegroundRequested => g.(isRequestingPermissions := true)
    case ForegroundAnswered(permissions, held) =>
      var g1 := g.(isRequestingPermissions := false);
      if ForegroundLocationGranted(permissions) then
        if sdkInt >= VERSION_CODES_Q then
          if !held.background then RequestBackground(sdkInt, g1)
          else g1.(showSplashScreen := false)
        else g1.(showSplashScreen := false)
      else g1
    case BackgroundAnswered(_) => Gate(false, false)
    case SplashGranted => g.(showSplashScreen := false)
    case Resumed(held) =>
      if HasMinimumLocationPermissions(held) then g.(showSplashScreen := false) else g
  }

  /** The fields after a sequence of events. */
  function Run(sdkInt: int, g: Gate, events: seq<Event>): Gate
    decreases |events|
  {
    if events == [] then g else Run(sdkInt, Step(sdkInt, g, events[0]), events[1..])
  }

  /** Once the splash screen is hidden, no sequence of events shows it again. */
  lemma {:induction false} SplashStaysHidden(sdkInt: int, g: Gate, events: seq<Event>)
    requires !g.showSplashScreen
    ensures !Run(sdkInt, g, events).showSplashScreen
    decreases |events|
  {
    if events != [] {
      SplashStaysHidden(sdkInt, Step(sdkInt, g, events[0]), events[1..]);
    }
  }

  /**
   * From any state that shows the splash screen, it is still shown after a
   * run exactly when no event of the run hid it.
   */
  lemma {:induction false} SplashShownUntilHidden(sdkInt: int, g: Gate, events: seq<Event>)
    requires g.showSplashScreen
    ensures Run(sdkInt, g, events).showSplashScreen <==>
              forall k :: 0 <= k < |events| ==> Step(sdkInt, Run(sdkInt, g, events[..k]), events[k]).showSplashScreen
    decreases |events|
  {
    if events != [] {
      var g1 := Step(sdkInt, g, events[0]);
      if g1.showSplashScreen {
        SplashShownUntilHidden(sdkInt, g1, events[1..]);
        forall k | 0 <= k < |events| - 1
          ensures Run(sdkInt, g, events[..k + 1]) == Run(sdkInt, g1, events[1..][..k])
        {
          assert events[..k + 1][1..] == events[1..][..k];
        }
        assert Run(sdkInt, g, events[..0]) == g;
        assert forall k :: 0 <= k < |events| - 1 ==> events[k + 1] == events[1..][k];
        assert (forall k :: 0 <= k < |events| ==> Step(sdkInt, Run(sdkInt, g, events[..k]), events[k]).showSplashScreen)
           <==> (g1.showSplashScreen && forall k :: 0 <= k < |events| - 1 ==>
                   Step(sdkInt, Run(sdkInt, g1, events[1..][..k]), events[1..][k]).showSplashScreen);
      } else {
        SplashStaysHidden(sdkInt, g1, events[1..]);
        assert Run(sdkInt, g, events[..0]) == g;
      }
    }
  }

  class MainActivity {
    /** `Build.VERSION.SDK_INT`. */
    const sdkInt: int
    var showSplashScreen: bool
    var isRequestingPermissions: bool

    ghost function GateState(): Gate
      reads this
    {
      Gate(showSplashScreen, isRequestingPermissions)
    }

    constructor (sdkInt: int)
      ensures this.sdkInt == sdkInt
      ensures GateState() == InitialGate
    {
      this.sdkInt := sdkInt;
      showSplashScreen := true;
      isRequestingPermissions := false;
    }

    /** `onCreate`: asks for the foreground location permissions at once. */
    method OnCreate()
      modifies this
      ensures GateState() == Step(sdkInt, old(GateState()), ForegroundRequested)
    {
      RequestLocationPermissions();
    }

    /** `requestLocationPermissions`: launches the fine/coarse request. */
    method RequestLocationPermissions()
      modifies this
      ensures GateState() == Step(sdkInt, old(GateState()), ForegroundRequested)
    {
      isRequestingPermissions := true;
    }

    /** `requestBackgroundLocationPermission`: launches the background request from Q on. */
    method RequestBackgroundLocationPermission()
      modifies this
      ensures GateState() == RequestBackground(sdkInt, old(GateState()))
    {
      if sdkInt >= VERSION_CODES_Q {
        isRequestingPermissions := true;
      }
    }

    /**
     * The foreground launcher's callback.  `held` is what the device holds when
     * it runs (consulted for the background permission).
     */
    method OnLocationPermissionResult(permissions: map<string, bool>, held: Grants)
      modifies this
      ensures GateState() == Step(sdkInt, old(GateState()), ForegroundAnswered(permissions, held))
    {
      isRequestingPermissions := false;
      var foregroundLocationGranted := ForegroundLocationGranted(permissions);
      if foregroundLocationGranted {
        if sdkInt >= VERSION_CODES_Q {
          if !held.background {
            RequestBackgroundLocationPermission();
          } else {
            showSplashScreen := false;
          }
        } else {
          showSplashScreen := false;
        }
      }
    }

    /** The background launcher's callback: the splash goes, granted or not. */
    method OnBackgroundPermissionResult(isGranted: bool)
      modifies this
      ensures GateState() == Step(sdkInt, old(GateState()), BackgroundAnswered(isGranted))
    {
      isRequestingPermissions := false;
      showSplashScreen := false;
    }

    /** The splash screen's `onPermissionsGranted` callback. */
    method OnSplashPermissionsGranted()
      modifies this
      ensures GateState() == Step(sdkInt, old(GateState()), SplashGranted)
    {
      showSplashScreen := false;
    }

    /** `onResume`: hides the splash when fine or coarse location is held. */
    method OnResume(held: Grants)
      modifies this
      ensures GateState() == Step(sdkInt, old(GateState()), Resumed(held))
    {
      if HasMinimumLocationPermissions(held) {
        showSplashScreen := false;
      }
    }
  }
}
