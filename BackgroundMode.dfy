/** The mode controller of the Android plugin (class BackgroundMode): the enable /
    disable flags, the single permission-callback slot, the guarded start and stop
    of the foreground service, and the events it fires into the web view.

    The device is an input: the SDK level, whether POST_NOTIFICATIONS is granted
    and whether starting the service throws (with the text of the exception's
    message). Everything the plugin does outwards is appended, in order, to `trace`.

    The pure functions below (`StartForegroundSpec`, `EnableModeSpec`, ...) are the
    specification of one call each; the class's methods are proved to change the
    fields exactly as they say, and the lemmas state what the source promises
    about them. */
module BackgroundMode {
  import opened Optional
  import opened Json
  import opened Cordova

  const NOTIFICATION_PERMISSION_REQUEST_CODE: int := 1001
  /** PackageManager.PERMISSION_GRANTED */
  const PERMISSION_GRANTED: int := 0
  /** Build.VERSION_CODES.TIRAMISU, the first SDK that needs POST_NOTIFICATIONS */
  const TIRAMISU: int := 33
  const PERMISSION_DENIED_MESSAGE: string := "Notification permission denied"

  datatype Event = Activate | Deactivate | Failure

  /** event.name().toLowerCase(), the name the web view's fireEvent receives. */
  function EventName(e: Event): (r: string)
    ensures r in {"activate", "deactivate", "failure"}
    ensures r == "activate" <==> e == Activate
    ensures r == "deactivate" <==> e == Deactivate
  {
    match e
    case Activate => "activate"
    case Deactivate => "deactivate"
    case Failure => "failure"
  }

  /** The plugin's outward actions, in the order it performs them. */
  datatype Effect =
    | Reply(callback: CallbackId, result: PluginResult)
    | Fire(event: Event, params: string)  // fireEvent(event, params), params as JS text
    | StartService                        // startForegroundService / startService
    | StopService                         // stopService
    | SendUpdate(settings: Object)        // an update command carrying the new settings
    | AskPermission(requestCode: int)     // the POST_NOTIFICATIONS prompt

  /** What a call observes of the device. `startFailure` is the message of the
      exception starting the service throws, if it throws. */
  datatype Environment = Environment(sdk: int, notificationsGranted: bool, startFailure: Option<string>)

  /** The source asks for the permission on Android 13+ when it is not yet granted. */
  predicate NeedsPermission(env: Environment)
  {
    env.sdk >= TIRAMISU && !env.notificationsGranted
  }

  datatype State = State(
    inBackground: bool,
    isEnabled: bool,
    isEnablePending: bool,
    isForegroundStarted: bool,
    permissionCallback: Option<CallbackId>,
    defaultSettings: Option<Object>,  // the static store; None is a null JSONObject
    trace: seq<Effect>)

  function Initial(settings: Option<Object>): State
  {
    State(false, false, false, false, None, settings, [])
  }

  // ---------------------------------------------------------------------------
  // Observations of the trace

  /** The ACTIVATE / DEACTIVATE events of a trace, in order (FAILURE left out). */
  function Lifecycle(t: seq<Effect>): (r: seq<Event>)
    ensures forall i :: 0 <= i < |r| ==> r[i] != Failure
  {
    if t == [] then []
    else if t[0].Fire? && t[0].event != Failure then [t[0].event] + Lifecycle(t[1..])
    else Lifecycle(t[1..])
  }

  /** The results sent to callback `cb`, in order. */
  function RepliesTo(t: seq<Effect>, cb: CallbackId): seq<PluginResult>
  {
    if t == [] then []
    else if t[0].Reply? && t[0].callback == cb then [t[0].result] + RepliesTo(t[1..], cb)
    else RepliesTo(t[1..], cb)
  }

  lemma RepliesToAppendAll(t: seq<Effect>, u: seq<Effect>)
    ensures forall cb :: RepliesTo(t + u, cb) == RepliesTo(t, cb) + RepliesTo(u, cb)
  {
    forall cb
      ensures RepliesTo(t + u, cb) == RepliesTo(t, cb) + RepliesTo(u, cb)
    {
      RepliesToAppend(t, u, cb);
    }
  }

  lemma RepliesToSingle(e: Effect)
    ensures forall cb :: RepliesTo([e], cb) == if e.Reply? && e.callback == cb then [e.result] else []
  {
    assert [e][1..] == [];
  }

  lemma RepliesToPair(e: Effect, f: Effect)
    ensures forall cb :: RepliesTo([e, f], cb) == RepliesTo([e], cb) + RepliesTo([f], cb)
  {
    assert [e, f] == [e] + [f];
    RepliesToAppendAll([e], [f]);
  }

  lemma {:induction false} LifecycleAppend(t: seq<Effect>, u: seq<Effect>)
    ensures Lifecycle(t + u) == Lifecycle(t) + Lifecycle(u)
  {
    if t == [] {
      assert t + u == u;
    } else {
      assert (t + u)[1..] == t[1..] + u;
      LifecycleAppend(t[1..], u);
    }
  }

  lemma {:induction false} RepliesToAppend(t: seq<Effect>, u: seq<Effect>, cb: CallbackId)
    ensures RepliesTo(t + u, cb) == RepliesTo(t, cb) + RepliesTo(u, cb)
  {
    if t == [] {
      assert t + u == u;
    } else {
      assert (t + u)[1..] == t[1..] + u;
      RepliesToAppend(t[1..], u, cb);
    }
  }

  /** The lifecycle events alternate, starting with ACTIVATE. */
  ghost predicate Alternating(es: seq<Event>)
  {
    forall i :: 0 <= i < |es| ==> es[i] == if i % 2 == 0 then Activate else Deactivate
  }

  /** The invariant every operation keeps: the service is only started while the
      mode is enabled, the fired ACTIVATE/DEACTIVATE events alternate starting
      with ACTIVATE, and the service counts as started exactly when the last of
      them was an ACTIVATE. */
  ghost predicate Inv(s: State)
  {
    && (s.isForegroundStarted ==> s.isEnabled)
    && Alternating(Lifecycle(s.trace))
    && (s.isForegroundStarted <==> |Lifecycle(s.trace)| % 2 == 1)
  }

  // ---------------------------------------------------------------------------
  // One call each (BackgroundMode.java)

  /** startForeground(): returns early when already started or not enabled;
      otherwise starts the service and fires ACTIVATE, or fires FAILURE with the
      quoted exception message when starting throws. */
  function StartForegroundSpec(s: State, failure: Option<string>): (r: State)
    ensures s.isForegroundStarted || !s.isEnabled ==> r == s
    ensures r == s.(isForegroundStarted := r.isForegroundStarted, trace := r.trace)
    ensures r.isForegroundStarted <==> s.isForegroundStarted || (s.isEnabled && failure.None?)
    ensures !s.isForegroundStarted && s.isEnabled && failure.Some? ==>
              r.trace == s.trace + [Fire(Failure, "'" + failure.value + "'")]
    ensures !s.isForegroundStarted && s.isEnabled && failure.None? ==>
              r.trace == s.trace + [StartService, Fire(Activate, "null")]
  {
    if s.isForegroundStarted then s
    else if !s.isEnabled then s
    else
      match failure
      case None => s.(isForegroundStarted := true, trace := s.trace + [StartService, Fire(Activate, "null")])
      case Some(m) => s.(trace := s.trace + [Fire(Failure, "'" + m + "'")])
  }

  /** stopForeground(): returns early when not started or still enabled;
      otherwise stops the service and fires DEACTIVATE. */
  function StopForegroundSpec(s: State): (r: State)
    ensures !s.isForegroundStarted || s.isEnabled ==> r == s
    ensures r == s.(isForegroundStarted := r.isForegroundStarted, trace := r.trace)
    ensures !r.isEnabled ==> !r.isForegroundStarted
    ensures s.isForegroundStarted && !s.isEnabled ==>
              r.trace == s.trace + [StopService, Fire(Deactivate, "null")]
  {
    if !s.isForegroundStarted then s
    else if s.isEnabled then s
    else s.(isForegroundStarted := false, trace := s.trace + [StopService, Fire(Deactivate, "null")])
  }

  /** requestNotificationPermission(callback): immediate success when no
      permission is needed; otherwise the callback takes the slot (overwriting
      whatever was there), is told NO_RESULT with keep-callback, and the prompt
      is issued with request code 1001. */
  function RequestPermissionSpec(s: State, cb: CallbackId, env: Environment): (r: State)
    ensures RepliesTo(r.trace, cb) == RepliesTo(s.trace, cb) + [if NeedsPermission(env) then NoResultKept else Success]
    ensures forall c :: c != cb ==> RepliesTo(r.trace, c) == RepliesTo(s.trace, c)
    ensures r.permissionCallback == if NeedsPermission(env) then Some(cb) else s.permissionCallback
    ensures |s.trace| <= |r.trace| && r.trace[..|s.trace|] == s.trace
    ensures AskPermission(NOTIFICATION_PERMISSION_REQUEST_CODE) in r.trace[|s.trace|..] <==> NeedsPermission(env)
    ensures r.trace == s.trace + if NeedsPermission(env)
                                 then [Reply(cb, NoResultKept), AskPermission(NOTIFICATION_PERMISSION_REQUEST_CODE)]
                                 else [Reply(cb, Success)]
    ensures Lifecycle(r.trace) == Lifecycle(s.trace)
    ensures r.(permissionCallback := s.permissionCallback, trace := s.trace) == s
  {
    var answer := if NeedsPermission(env) then NoResultKept else Success;
    var u := if NeedsPermission(env) then [Reply(cb, answer), AskPermission(NOTIFICATION_PERMISSION_REQUEST_CODE)]
             else [Reply(cb, answer)];
    RepliesToAppendAll(s.trace, u);
    RepliesToSingle(Reply(cb, answer));
    RepliesToPair(Reply(cb, answer), AskPermission(NOTIFICATION_PERMISSION_REQUEST_CODE));
    RepliesToSingle(AskPermission(NOTIFICATION_PERMISSION_REQUEST_CODE));
    QuietAppend(s.trace, u);
    assert (s.trace + u)[..|s.trace|] == s.trace && (s.trace + u)[|s.trace|..] == u;
    if !NeedsPermission(env) then s.(trace := s.trace + u)
    else s.(permissionCallback := Some(cb), trace := s.trace + u)
  }

  /** enableMode(callback). */
  function EnableModeSpec(s: State, cb: CallbackId, env: Environment): (r: State)
    ensures NeedsPermission(env) ==> r == RequestPermissionSpec(s.(isEnablePending := true), cb, env)
    ensures !NeedsPermission(env) ==>
              var t := StartForegroundSpec(s.(isEnabled := true), env.startFailure);
              r == t.(trace := t.trace + [Reply(cb, Success)])
  {
    if NeedsPermission(env) then RequestPermissionSpec(s.(isEnablePending := true), cb, env)
    else
      var t := StartForegroundSpec(s.(isEnabled := true), env.startFailure);
      t.(trace := t.trace + [Reply(cb, Success)])
  }

  /** disableMode(). */
  function DisableModeSpec(s: State): (r: State)
    ensures !r.isEnabled && !r.isForegroundStarted
    ensures r == StopForegroundSpec(s.(isEnabled := false))
  {
    StopForegroundSpec(s.(isEnabled := false))
  }

  /** `granted` in onRequestPermissionResult. */
  function Granted(grantResults: seq<int>): (r: bool)
    ensures r <==> |grantResults| > 0 && grantResults[0] == PERMISSION_GRANTED
  {
    |grantResults| > 0 && grantResults[0] == PERMISSION_GRANTED
  }

  /** How onRequestPermissionResult ends: it ignores the result, delivers it to
      the stored callback, or dereferences the empty slot (a NullPointerException
      before anything changes). */
  datatype PermissionOutcome = Ignored | Delivered | DereferencedNull

  /** onRequestPermissionResult(requestCode, permissions, grantResults).
      The guard is the source's: it only ignores a foreign request code while a
      callback is stored. */
  function PermissionResultSpec(s: State, requestCode: int, grantResults: seq<int>, failure: Option<string>): (r: (State, PermissionOutcome))
    ensures r.1 == Ignored <==> requestCode != NOTIFICATION_PERMISSION_REQUEST_CODE && s.permissionCallback.Some?
    ensures r.1 == DereferencedNull <==> s.permissionCallback.None?
    ensures r.1 != Delivered ==> r.0 == s
    ensures r.1 == Delivered ==> r.0.permissionCallback.None?
  {
    if requestCode != NOTIFICATION_PERMISSION_REQUEST_CODE && s.permissionCallback.Some? then (s, Ignored)
    else if s.permissionCallback.None? then (s, DereferencedNull)
    else
      var granted := Granted(grantResults);
      var answer := if granted then Success else Error(PERMISSION_DENIED_MESSAGE);
      var t := s.(permissionCallback := None, trace := s.trace + [Reply(s.permissionCallback.value, answer)]);
      if t.isEnablePending && granted then
        (StartForegroundSpec(t.(isEnablePending := false, isEnabled := true), failure), Delivered)
      else (t, Delivered)
  }

  /** configure(settings, update). None is returned when the source dereferences
      a null settings object (an update with a non-object argument). */
  function ConfigureSpec(s: State, settings: Option<Object>, update: bool): (r: Option<State>)
    ensures !update ==> r == Some(s.(defaultSettings := settings))
    ensures update && !s.isForegroundStarted ==> r == Some(s)
    ensures update && s.isForegroundStarted && settings.Some? ==>
              r == Some(s.(trace := s.trace + [SendUpdate(settings.value)]))
    ensures r.None? <==> update && s.isForegroundStarted && settings.None?
  {
    if update then
      if !s.isForegroundStarted then Some(s)
      else match settings
        case None => None
        case Some(o) => Some(s.(trace := s.trace + [SendUpdate(o)]))
    else Some(s.(defaultSettings := settings))
  }

  /** onPause(): marks the app as in background and attempts a start, which
      succeeds exactly when the mode is enabled and starting does not throw. */
  function PauseSpec(s: State, failure: Option<string>): (r: State)
    ensures r.inBackground
    ensures r.(isForegroundStarted := s.isForegroundStarted, trace := s.trace) == s.(inBackground := true)
    ensures r.isForegroundStarted <==> s.isForegroundStarted || (s.isEnabled && failure.None?)
  {
    StartForegroundSpec(s.(inBackground := true), failure)
  }

  /** onResume(): marks the app as in foreground and attempts a stop, which is
      refused while the mode is enabled. */
  function ResumeSpec(s: State): (r: State)
    ensures !r.inBackground
    ensures r.(isForegroundStarted := s.isForegroundStarted, trace := s.trace) == s.(inBackground := false)
    ensures s.isEnabled || !s.isForegroundStarted ==> r == s.(inBackground := false)
    ensures !r.isEnabled ==> !r.isForegroundStarted
  {
    StopForegroundSpec(s.(inBackground := false))
  }

  /** onDestroy(): attempts a stop (killing the process below Android 8 is not
      modelled); the service outlives a destroy while the mode is enabled. */
  function DestroySpec(s: State): (r: State)
    ensures r.(isForegroundStarted := s.isForegroundStarted, trace := s.trace) == s
    ensures s.isEnabled || !s.isForegroundStarted ==> r == s
    ensures !r.isEnabled ==> !r.isForegroundStarted
  {
    StopForegroundSpec(s)
  }

  /** How execute ends: it returns its `validAction`, or an exception escapes. */
  datatype ExecuteOutcome = Returned(valid: bool) | ThrewNullPointer

  const ACTIONS: set<string> := {"configure", "enable", "disable", "requestPermissions"}

  /** execute(action, args, callback). */
  function ExecuteSpec(s: State, action: string, args: seq<Element>, cb: CallbackId, env: Environment): (r: (State, ExecuteOutcome))
    ensures r.1 == Returned(false) <==> action !in ACTIONS
    ensures action !in ACTIONS ==> r.0 == s.(trace := s.trace + [Reply(cb, Error("Invalid action: " + action))])
    ensures r.1 == ThrewNullPointer ==> r.0 == s
  {
    if action == "configure" then
      match ConfigureSpec(s, OptObjectAt(args, 0), OptBooleanAt(args, 1))
      case None => (s, ThrewNullPointer)
      case Some(t) => (t.(trace := t.trace + [Reply(cb, Success)]), Returned(true))
    else if action == "enable" then (EnableModeSpec(s, cb, env), Returned(true))
    else if action == "disable" then
      var t := DisableModeSpec(s);
      (t.(trace := t.trace + [Reply(cb, Success)]), Returned(true))
    else if action == "requestPermissions" then (RequestPermissionSpec(s, cb, env), Returned(true))
    else (s.(trace := s.trace + [Reply(cb, Error("Invalid action: " + action))]), Returned(false))
  }

  /** Everything that can happen to the controller. */
  datatype Command =
    | Execute(action: string, args: seq<Element>, cb: CallbackId, env: Environment)
    | PermissionResult(requestCode: int, grantResults: seq<int>, failure: Option<string>)
    | Pause(failure: Option<string>)
    | Resume
    | Destroy

  function Step(s: State, c: Command): State
  {
    match c
    case Execute(action, args, cb, env) => ExecuteSpec(s, action, args, cb, env).0
    case PermissionResult(code, grants, failure) => PermissionResultSpec(s, code, grants, failure).0
    case Pause(failure) => PauseSpec(s, failure)
    case Resume => ResumeSpec(s)
    case Destroy => DestroySpec(s)
  }

  function Run(s: State, cs: seq<Command>): State
    decreases |cs|
  {
    if cs == [] then s else Run(Step(s, cs[0]), cs[1..])
  }

  // ---------------------------------------------------------------------------
  // The invariant is kept by every call

  /** Effects that are not ACTIVATE or DEACTIVATE leave the lifecycle alone. */
  lemma QuietAppend(t: seq<Effect>, u: seq<Effect>)
    requires forall i :: 0 <= i < |u| ==> !(u[i].Fire? && u[i].event != Failure)
    ensures Lifecycle(t + u) == Lifecycle(t)
  {
    LifecycleAppend(t, u);
    QuietIsEmpty(u);
  }

  lemma {:induction false} QuietIsEmpty(u: seq<Effect>)
    requires forall i :: 0 <= i < |u| ==> !(u[i].Fire? && u[i].event != Failure)
    ensures Lifecycle(u) == []
  {
    if u != [] {
      QuietIsEmpty(u[1..]);
    }
  }

  lemma StartKeepsInv(s: State, failure: Option<string>)
    requires Inv(s)
    ensures Inv(StartForegroundSpec(s, failure))
  {
    var r := StartForegroundSpec(s, failure);
    if !s.isForegroundStarted && s.isEnabled {
      if failure.None? {
        LifecycleAppend(s.trace, [StartService, Fire(Activate, "null")]);
        assert Lifecycle([StartService, Fire(Activate, "null")]) == [Activate];
        assert Lifecycle(r.trace) == Lifecycle(s.trace) + [Activate];
      } else {
        QuietAppend(s.trace, [Fire(Failure, "'" + failure.value + "'")]);
      }
    }
  }

  /** Under the invariant a started service implies an enabled mode, so a bare
      stopForeground (onResume, onDestroy) always returns early. */
  lemma StopIsRefused(s: State)
    requires Inv(s)
    ensures StopForegroundSpec(s) == s
  {
  }

  lemma DisableKeepsInv(s: State)
    requires Inv(s)
    ensures Inv(DisableModeSpec(s))
  {
    if s.isForegroundStarted {
      LifecycleAppend(s.trace, [StopService, Fire(Deactivate, "null")]);
      assert Lifecycle([StopService, Fire(Deactivate, "null")]) == [Deactivate];
    }
  }

  lemma ReplyKeepsInv(s: State, cb: CallbackId, result: PluginResult)
    requires Inv(s)
    ensures Inv(s.(trace := s.trace + [Reply(cb, result)]))
  {
    QuietAppend(s.trace, [Reply(cb, result)]);
  }

  lemma ExecuteKeepsInv(s: State, action: string, args: seq<Element>, cb: CallbackId, env: Environment)
    requires Inv(s)
    ensures Inv(ExecuteSpec(s, action, args, cb, env).0)
  {
    if action == "configure" {
      var settings := OptObjectAt(args, 0);
      if OptBooleanAt(args, 1) && s.isForegroundStarted && settings.Some? {
        QuietAppend(s.trace, [SendUpdate(settings.value)]);
      }
      var c := ConfigureSpec(s, settings, OptBooleanAt(args, 1));
      if c.Some? {
        ReplyKeepsInv(c.value, cb, Success);
      }
    } else if action == "enable" {
      if NeedsPermission(env) {
        QuietAppend(s.trace, [Reply(cb, NoResultKept), AskPermission(NOTIFICATION_PERMISSION_REQUEST_CODE)]);
      } else {
        var t := StartForegroundSpec(s.(isEnabled := true), env.startFailure);
        StartKeepsInv(s.(isEnabled := true), env.startFailure);
        ReplyKeepsInv(t, cb, Success);
      }
    } else if action == "disable" {
      DisableKeepsInv(s);
      ReplyKeepsInv(DisableModeSpec(s), cb, Success);
    } else if action == "requestPermissions" {
      if NeedsPermission(env) {
        QuietAppend(s.trace, [Reply(cb, NoResultKept), AskPermission(NOTIFICATION_PERMISSION_REQUEST_CODE)]);
      } else {
        ReplyKeepsInv(s, cb, Success);
      }
    } else {
      ReplyKeepsInv(s, cb, Error("Invalid action: " + action));
    }
  }

  lemma PermissionResultKeepsInv(s: State, code: int, grants: seq<int>, failure: Option<string>)
    requires Inv(s)
    ensures Inv(PermissionResultSpec(s, code, grants, failure).0)
  {
    if PermissionResultSpec(s, code, grants, failure).1 == Delivered {
      var answer := if Granted(grants) then Success else Error(PERMISSION_DENIED_MESSAGE);
      var t := s.(permissionCallback := None, trace := s.trace + [Reply(s.permissionCallback.value, answer)]);
      ReplyKeepsInv(s.(permissionCallback := None), s.permissionCallback.value, answer);
      if t.isEnablePending && Granted(grants) {
        StartKeepsInv(t.(isEnablePending := false, isEnabled := true), failure);
      }
    }
  }

  lemma StepKeepsInv(s: State, c: Command)
    requires Inv(s)
    ensures Inv(Step(s, c))
  {
    match c
    case Execute(action, args, cb, env) => ExecuteKeepsInv(s, action, args, cb, env);
    case PermissionResult(code, grants, failure) => PermissionResultKeepsInv(s, code, grants, failure);
    case Pause(failure) => StartKeepsInv(s.(inBackground := true), failure);
    case Resume => StopIsRefused(s.(inBackground := false));
    case Destroy => StopIsRefused(s);
  }

  /** After any sequence of commands from the initial state: a started service
      implies an enabled mode, and the fired lifecycle events alternate
      ACTIVATE, DEACTIVATE, ... starting with ACTIVATE. */
  lemma {:induction false} RunKeepsInv(s: State, cs: seq<Command>)
    requires Inv(s)
    ensures Inv(Run(s, cs))
    decreases |cs|
  {
    if cs != [] {
      StepKeepsInv(s, cs[0]);
      RunKeepsInv(Step(s, cs[0]), cs[1..]);
    }
  }

  lemma InitialInv(settings: Option<Object>)
    ensures Inv(Initial(settings))
  {
  }

  // ---------------------------------------------------------------------------
  // What the source promises of single calls

  lemma {:induction false} QuietRepliesTo(u: seq<Effect>, cb: CallbackId)
    requires forall i :: 0 <= i < |u| ==> !u[i].Reply?
    ensures RepliesTo(u, cb) == []
  {
    if u != [] {
      QuietRepliesTo(u[1..], cb);
    }
  }

  /** startForeground appends no callback results. */
  lemma StartSendsNoReplies(s: State, failure: Option<string>, cb: CallbackId)
    ensures RepliesTo(StartForegroundSpec(s, failure).trace, cb) == RepliesTo(s.trace, cb)
  {
    var r := StartForegroundSpec(s, failure);
    var u := r.trace[|s.trace|..];
    assert r.trace == s.trace + u;
    RepliesToAppend(s.trace, u, cb);
    QuietRepliesTo(u, cb);
  }

  /** enableMode when no permission is needed (or it is granted): the mode is
      enabled, a start is attempted (it succeeds unless starting throws or the
      service was already started), and the callback gets exactly one result,
      success. */
  lemma EnableWithoutPrompt(s: State, cb: CallbackId, env: Environment)
    requires !NeedsPermission(env)
    ensures var r := EnableModeSpec(s, cb, env);
      && r.isEnabled
      && (r.isForegroundStarted <==> s.isForegroundStarted || env.startFailure.None?)
      && r.permissionCallback == s.permissionCallback
      && RepliesTo(r.trace, cb) == RepliesTo(s.trace, cb) + [Success]
  {
    var t := StartForegroundSpec(s.(isEnabled := true), env.startFailure);
    StartSendsNoReplies(s.(isEnabled := true), env.startFailure, cb);
    RepliesToAppend(t.trace, [Reply(cb, Success)], cb);
  }

  /** enableMode on Android 13+ without the permission: the enable is marked
      pending, the callback takes the slot and is kept with NO_RESULT, and no
      start is attempted. */
  lemma EnableWithPrompt(s: State, cb: CallbackId, env: Environment)
    requires NeedsPermission(env)
    ensures var r := EnableModeSpec(s, cb, env);
      && r.isEnablePending
      && r.permissionCallback == Some(cb)
      && r.isEnabled == s.isEnabled
      && r.isForegroundStarted == s.isForegroundStarted
      && Lifecycle(r.trace) == Lifecycle(s.trace)
      && r.trace == s.trace + [Reply(cb, NoResultKept), AskPermission(NOTIFICATION_PERMISSION_REQUEST_CODE)]
      && RepliesTo(r.trace, cb) == RepliesTo(s.trace, cb) + [NoResultKept]
  {
    var u := [Reply(cb, NoResultKept), AskPermission(NOTIFICATION_PERMISSION_REQUEST_CODE)];
    QuietAppend(s.trace, u);
    RepliesToAppend(s.trace, u, cb);
    assert RepliesTo(u, cb) == [NoResultKept] by {
      assert u[1..] == [AskPermission(NOTIFICATION_PERMISSION_REQUEST_CODE)];
      assert RepliesTo(u[1..], cb) == [] by {
        assert u[1..][1..] == [];
      }
    }
  }

  /** A delivered permission result: the stored callback gets success when the
      first grant result is GRANTED and "Notification permission denied"
      otherwise, exactly once; the slot is cleared; the mode is enabled and a
      start attempted only when an enable was pending and the permission granted.
      A denial leaves the pending flag as it was. */
  lemma PermissionResultDelivered(s: State, code: int, grants: seq<int>, failure: Option<string>)
    requires code == NOTIFICATION_PERMISSION_REQUEST_CODE && s.permissionCallback.Some?
    ensures var (r, outcome) := PermissionResultSpec(s, code, grants, failure);
      var cb := s.permissionCallback.value;
      var granted := |grants| > 0 && grants[0] == PERMISSION_GRANTED;
      && outcome == Delivered
      && r.permissionCallback.None?
      && RepliesTo(r.trace, cb) == RepliesTo(s.trace, cb) + [if granted then Success else Error(PERMISSION_DENIED_MESSAGE)]
      && (s.isEnablePending && granted ==>
            && r.isEnabled && !r.isEnablePending
            && (r.isForegroundStarted <==> s.isForegroundStarted || failure.None?))
      && (!(s.isEnablePending && granted) ==>
            && r.isEnabled == s.isEnabled && r.isEnablePending == s.isEnablePending
            && r.isForegroundStarted == s.isForegroundStarted)
  {
    var cb := s.permissionCallback.value;
    var answer := if Granted(grants) then Success else Error(PERMISSION_DENIED_MESSAGE);
    var t := s.(permissionCallback := None, trace := s.trace + [Reply(cb, answer)]);
    RepliesToAppend(s.trace, [Reply(cb, answer)], cb);
    if t.isEnablePending && Granted(grants) {
      StartSendsNoReplies(t.(isEnablePending := false, isEnabled := true), failure, cb);
    }
  }

  /** A second permission request overwrites the slot without checking it: the
      earlier callback, kept waiting with NO_RESULT, is never answered by the
      permission result that follows; the later one is. */
  lemma OverwrittenCallbackIsNeverAnswered(s: State, first: CallbackId, second: CallbackId, env: Environment,
                                           grants: seq<int>, failure: Option<string>)
    requires s.permissionCallback == Some(first) && first != second && NeedsPermission(env)
    ensures var t := RequestPermissionSpec(s, second, env);
      var (r, outcome) := PermissionResultSpec(t, NOTIFICATION_PERMISSION_REQUEST_CODE, grants, failure);
      && outcome == Delivered
      && r.permissionCallback.None?
      && RepliesTo(r.trace, first) == RepliesTo(s.trace, first)
      && |RepliesTo(r.trace, second)| == |RepliesTo(s.trace, second)| + 2
  {
    var t := RequestPermissionSpec(s, second, env);
    var u := [Reply(second, NoResultKept), AskPermission(NOTIFICATION_PERMISSION_REQUEST_CODE)];
    RepliesToAppend(s.trace, u, first);
    RepliesToAppend(s.trace, u, second);
    assert RepliesTo(u[1..], first) == [] && RepliesTo(u[1..], second) == [] by {
      assert u[1..] == [AskPermission(NOTIFICATION_PERMISSION_REQUEST_CODE)];
      assert u[1..][1..] == [];
    }
    PermissionResultDelivered(t, NOTIFICATION_PERMISSION_REQUEST_CODE, grants, failure);
    var answer := if Granted(grants) then Success else Error(PERMISSION_DENIED_MESSAGE);
    var w := t.(permissionCallback := None, trace := t.trace + [Reply(second, answer)]);
    RepliesToAppend(t.trace, [Reply(second, answer)], first);
    if w.isEnablePending && Granted(grants) {
      StartSendsNoReplies(w.(isEnablePending := false, isEnabled := true), failure, first);
    }
  }

  /** After disable, the mode is off and the service stopped, and the caller
      always gets success. */
  lemma DisableAlwaysSucceeds(s: State, args: seq<Element>, cb: CallbackId, env: Environment)
    ensures var (r, outcome) := ExecuteSpec(s, "disable", args, cb, env);
      && outcome == Returned(true)
      && !r.isEnabled && !r.isForegroundStarted
      && RepliesTo(r.trace, cb) == RepliesTo(s.trace, cb) + [Success]
  {
    var t := DisableModeSpec(s);
    var u := t.trace[|s.trace|..];
    assert t.trace == s.trace + u;
    RepliesToAppend(s.trace, u, cb);
    QuietRepliesTo(u, cb);
    RepliesToAppend(t.trace, [Reply(cb, Success)], cb);
  }

  /** onPause and onResume toggle inBackground and never touch isEnabled; with
      the invariant, onResume changes nothing else at all (its stop is always
      refused because a started service implies an enabled mode). */
  lemma LifecycleSignals(s: State, failure: Option<string>)
    requires Inv(s)
    ensures PauseSpec(s, failure).inBackground && PauseSpec(s, failure).isEnabled == s.isEnabled
    ensures ResumeSpec(s) == s.(inBackground := false)
    ensures DestroySpec(s) == s
  {
  }

  /** configure(update=true) never starts the service. */
  lemma ConfigureNeverStarts(s: State, settings: Option<Object>, update: bool)
    requires ConfigureSpec(s, settings, update).Some?
    ensures ConfigureSpec(s, settings, update).value.isForegroundStarted == s.isForegroundStarted
    ensures Lifecycle(ConfigureSpec(s, settings, update).value.trace) == Lifecycle(s.trace)
  {
    if update && s.isForegroundStarted {
      QuietAppend(s.trace, [SendUpdate(settings.value)]);
    }
  }

  // ---------------------------------------------------------------------------
  // The class

  /** The static `defaultSettings` of BackgroundMode, read by the foreground
      service. None is a null JSONObject (configure with a non-object argument). */
  class SettingsStore {
    var settings: Option<Object>

    constructor ()
      ensures settings == Some(map[])
    {
      settings := Some(map[]);
    }
  }

  class BackgroundMode {
    var inBackground: bool
    var isEnabled: bool
    var isEnablePending: bool
    var isForegroundStarted: bool
    var permissionCallback: Option<CallbackId>
    const store: SettingsStore
    var trace: seq<Effect>

    ghost function Snapshot(): State
      reads this, store
    {
      State(inBackground, isEnabled, isEnablePending, isForegroundStarted,
            permissionCallback, store.settings, trace)
    }

    ghost predicate Valid()
      reads this, store
    {
      Inv(Snapshot())
    }

    constructor (store: SettingsStore)
      ensures this.store == store
      ensures Snapshot() == Initial(store.settings)
      ensures Valid()
    {
      this.store := store;
      inBackground, isEnabled, isEnablePending, isForegroundStarted := false, false, false, false;
      permissionCallback := None;
      trace := [];
    }

    method Execute(action: string, args: seq<Element>, callback: CallbackId, env: Environment)
      returns (outcome: ExecuteOutcome)
      requires Valid()
      modifies this, store
      ensures (Snapshot(), outcome) == ExecuteSpec(old(Snapshot()), action, args, callback, env)
      ensures Valid()
    {
      ExecuteKeepsInv(Snapshot(), action, args, callback, env);
      if action == "configure" {
        var ok := Configure(OptObjectAt(args, 0), OptBooleanAt(args, 1));
        if !ok {
          return ThrewNullPointer;
        }
        trace := trace + [Reply(callback, Success)];
        outcome := Returned(true);
      } else if action == "enable" {
        EnableMode(callback, env);
        outcome := Returned(true);
      } else if action == "disable" {
        DisableMode();
        trace := trace + [Reply(callback, Success)];
        outcome := Returned(true);
      } else if action == "requestPermissions" {
        RequestNotificationPermission(callback, env);
        outcome := Returned(true);
      } else {
        trace := trace + [Reply(callback, Error("Invalid action: " + action))];
        outcome := Returned(false);
      }
    }

    method RequestNotificationPermission(callback: CallbackId, env: Environment)
      modifies this
      ensures Snapshot() == RequestPermissionSpec(old(Snapshot()), callback, env)
    {
      if !NeedsPermission(env) {
        trace := trace + [Reply(callback, Success)];
        return;
      }
      permissionCallback := Some(callback);
      trace := trace + [Reply(callback, NoResultKept)];
      trace := trace + [AskPermission(NOTIFICATION_PERMISSION_REQUEST_CODE)];
    }

    method OnRequestPermissionResult(requestCode: int, grantResults: seq<int>, failure: Option<string>)
      returns (outcome: PermissionOutcome)
      requires Valid()
      modifies this
      ensures (Snapshot(), outcome) == PermissionResultSpec(old(Snapshot()), requestCode, grantResults, failure)
      ensures Valid()
    {
      PermissionResultKeepsInv(Snapshot(), requestCode, grantResults, failure);
      if requestCode != NOTIFICATION_PERMISSION_REQUEST_CODE && permissionCallback.Some? {
        return Ignored;
      }
      var granted := |grantResults| > 0 && grantResults[0] == PERMISSION_GRANTED;
      if permissionCallback.None? {
        return DereferencedNull;
      }
      if granted {
        trace := trace + [Reply(permissionCallback.value, Success)];
      } else {
        trace := trace + [Reply(permissionCallback.value, Error(PERMISSION_DENIED_MESSAGE))];
      }
      permissionCallback := None;
      if isEnablePending && granted {
        isEnablePending := false;
        isEnabled := true;
        StartForeground(failure);
      }
      outcome := Delivered;
    }

    method EnableMode(callback: CallbackId, env: Environment)
      modifies this
      ensures Snapshot() == EnableModeSpec(old(Snapshot()), callback, env)
    {
      if NeedsPermission(env) {
        isEnablePending := true;
        RequestNotificationPermission(callback, env);
        return;
      }
      isEnabled := true;
      StartForeground(env.startFailure);
      trace := trace + [Reply(callback, Success)];
    }

    method DisableMode()
      modifies this
      ensures Snapshot() == DisableModeSpec(old(Snapshot()))
    {
      isEnabled := false;
      StopForeground();
    }

    method OnPause(failure: Option<string>)
      requires Valid()
      modifies this
      ensures Snapshot() == PauseSpec(old(Snapshot()), failure)
      ensures Valid()
    {
      StartKeepsInv(Snapshot().(inBackground := true), failure);
      inBackground := true;
      StartForeground(failure);
    }

    method OnResume()
      requires Valid()
      modifies this
      ensures Snapshot() == ResumeSpec(old(Snapshot()))
      ensures Valid()
    {
      StopIsRefused(Snapshot().(inBackground := false));
      inBackground := false;
      StopForeground();
    }

    method OnDestroy()
      requires Valid()
      modifies this
      ensures Snapshot() == DestroySpec(old(Snapshot()))
      ensures Valid()
    {
      StopIsRefused(Snapshot());
      StopForeground();
    }

    /** Returns false where the source throws (an update with null settings). */
    method Configure(settings: Option<Object>, update: bool) returns (ok: bool)
      modifies this, store
      ensures ok <==> ConfigureSpec(old(Snapshot()), settings, update).Some?
      ensures ok ==> Snapshot() == ConfigureSpec(old(Snapshot()), settings, update).value
      ensures !ok ==> Snapshot() == old(Snapshot())
    {
      if update {
        if !isForegroundStarted {
          return true;
        }
        if settings.None? {
          return false;
        }
        trace := trace + [SendUpdate(settings.value)];
        ok := true;
      } else {
        store.settings := settings;
        ok := true;
      }
    }

    method StartForeground(failure: Option<string>)
      modifies this
      ensures Snapshot() == StartForegroundSpec(old(Snapshot()), failure)
    {
      if isForegroundStarted {
        return;
      }
      if !isEnabled {
        return;
      }
      if failure.None? {
        trace := trace + [StartService];
        isForegroundStarted := true;
        trace := trace + [Fire(Activate, "null")];
      } else {
        trace := trace + [Fire(Failure, "'" + failure.value + "'")];
      }
    }

    method StopForeground()
      modifies this
      ensures Snapshot() == StopForegroundSpec(old(Snapshot()))
    {
      if !isForegroundStarted {
        return;
      }
      if isEnabled {
        return;
      }
      trace := trace + [StopService];
      isForegroundStarted := false;
      trace := trace + [Fire(Deactivate, "null")];
    }
  }
}
