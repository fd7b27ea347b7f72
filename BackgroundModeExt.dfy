/** The extension plugin (class BackgroundModeExt): the `execute` dispatch table,
    the app-start settings flow with its single callback slot, the web-view
    keep-alive and the screen wake lock.

    The device is an input to each call (`Device`), and so are the outcomes of
    foreign calls the model cannot see (`Env`): whether a handler throws, which
    vendor intents resolve, whether launching an activity throws. Timers and
    dialog buttons are separate commands. Everything the plugin does outwards is
    appended, in order, to `trace`.

    As for the mode controller, the pure functions (`ExecuteSpec`, ...) specify
    one call each, the class's methods are proved to change its fields exactly
    as they say, and the lemmas state what the source promises about them. */
module BackgroundModeExt {
  import opened Optional
  import opened Json
  import opened Cordova

  /** Build.VERSION_CODES used by the extension. */
  const KITKAT_WATCH: int := 20
  const LOLLIPOP: int := 21
  const M: int := 23

  /** PowerManager.SCREEN_BRIGHT_WAKE_LOCK | PowerManager.ACQUIRE_CAUSES_WAKEUP */
  const SCREEN_BRIGHT_WAKE_LOCK: int := 0x0000_000a
  const ACQUIRE_CAUSES_WAKEUP: int := 0x1000_0000
  const WAKE_LOCK_LEVEL: int := SCREEN_BRIGHT_WAKE_LOCK + ACQUIRE_CAUSES_WAKEUP
  const WAKE_LOCK_TAG: string := "backgroundmode:wakelock"
  const WAKE_LOCK_TIMEOUT_MS: nat := 3000

  /** forceVisibility(view, 20, 200) from the keep-alive runnable. */
  const VISIBILITY_RETRIES: int := 20
  const VISIBILITY_DELAY_MS: nat := 200

  const DEFAULT_DIALOG_MESSAGE: string :=
    "To ensure the app works properly in background, please adjust the app start settings."

  /** What a call observes of the device. `activity` is whether cordova.getActivity()
      is non-null; the services are only reachable through it. */
  datatype Device = Device(
    sdk: int,
    activity: bool,
    powerService: bool,
    activityService: bool,
    hasAppTasks: bool,
    interactive: bool,         // PowerManager.isInteractive()
    screenOn: bool,            // PowerManager.isScreenOn()
    ignoringBatteryOptimizations: bool,
    hasLaunchIntent: bool)

  predicate PowerManagerAvailable(d: Device)
  {
    d.activity && d.powerService
  }

  /** isDimmed(): false without a PowerManager, else the screen is not interactive
      (not on, before API 20). */
  function IsDimmed(d: Device): (r: bool)
    ensures !PowerManagerAvailable(d) ==> !r
    ensures PowerManagerAvailable(d) && d.sdk >= KITKAT_WATCH ==> (r <==> !d.interactive)
    ensures PowerManagerAvailable(d) && d.sdk < KITKAT_WATCH ==> (r <==> !d.screenOn)
  {
    if !PowerManagerAvailable(d) then false
    else if d.sdk >= KITKAT_WATCH then !d.interactive
    else !d.screenOn
  }

  // ---------------------------------------------------------------------------
  // App-start intent selection

  /** How PackageManager.resolveActivity answers for one vendor intent. */
  datatype Resolution = Resolves | Unresolved | Throws

  /** The intent the settings are opened with: an entry of the vendor table (by
      position), or the app-details settings page. */
  datatype Intent = Vendor(index: nat) | AppDetails

  /** The position of the first vendor intent that resolves; entries that do
      not resolve, or whose resolution throws, are skipped. */
  function FirstResolvable(rs: seq<Resolution>): (r: Option<nat>)
    ensures r.None? <==> forall i :: 0 <= i < |rs| ==> rs[i] != Resolves
    ensures r.Some? ==> && r.value < |rs| && rs[r.value] == Resolves
                        && forall j :: 0 <= j < r.value ==> rs[j] != Resolves
  {
    if rs == [] then None
    else if rs[0] == Resolves then Some(0)
    else
      match FirstResolvable(rs[1..])
      case None => None
      case Some(i) => Some(i + 1)
  }

  /** The intent openAppStart opens: the first resolvable one, else the fallback. */
  function AppStartIntent(rs: seq<Resolution>): (r: Intent)
    ensures r == AppDetails <==> forall i :: 0 <= i < |rs| ==> rs[i] != Resolves
  {
    match FirstResolvable(rs)
    case None => AppDetails
    case Some(i) => Vendor(i)
  }

  /** The loop of openAppStart over the vendor table, with its `break`. */
  method SelectAppStartIntent(rs: seq<Resolution>) returns (intent: Intent)
    ensures intent.Vendor? ==> && intent.index < |rs| && rs[intent.index] == Resolves
                               && forall j :: 0 <= j < intent.index ==> rs[j] != Resolves
    ensures intent == AppDetails <==> forall i :: 0 <= i < |rs| ==> rs[i] != Resolves
    ensures intent == AppStartIntent(rs)
  {
    var found: Option<nat> := None;
    var i := 0;
    while i < |rs|
      invariant 0 <= i <= |rs|
      invariant found.None?
      invariant forall j :: 0 <= j < i ==> rs[j] != Resolves
    {
      if rs[i] == Resolves {
        found := Some(i);
        break;
      }
      // Unresolved and Throws are both skipped
      i := i + 1;
    }
    intent := if found.Some? then Vendor(found.value) else AppDetails;
  }

  // ---------------------------------------------------------------------------
  // The confirmation dialog

  datatype SpanKind = Bold | Larger  // StyleSpan(BOLD), RelativeSizeSpan(1.15f)
  datatype Span = Span(kind: SpanKind, start: nat, end: nat)
  datatype Dialog = Dialog(text: string, spans: seq<Span>)

  /** The title and message showAppStartDialog takes from its spec object. */
  function DialogTitle(spec: Option<Object>): string
  {
    if spec.Some? && "title" in spec.value then OptString(spec.value, "title", "") else ""
  }

  function DialogBody(spec: Option<Object>): (r: string)
    ensures r != ""
    ensures spec.None? || "text" !in spec.value || ToText(spec.value["text"]) == "" ==> r == DEFAULT_DIALOG_MESSAGE
    ensures spec.Some? && "text" in spec.value && ToText(spec.value["text"]) != "" ==> r == ToText(spec.value["text"])
  {
    var m := if spec.Some? && "text" in spec.value then OptString(spec.value, "text", "") else "";
    if m == "" then DEFAULT_DIALOG_MESSAGE else m
  }

  /** The dialog's message: the title, a blank line and the message when there
      is a title, else the message alone; the title is bold and larger. */
  function DialogMessage(spec: Option<Object>): (r: Dialog)
    ensures var title := DialogTitle(spec);
      && (title != "" ==> r.text == title + "\n\n" + DialogBody(spec))
      && (title == "" ==> r.text == DialogBody(spec))
      && (title == "" <==> r.spans == [])
      && forall i :: 0 <= i < |r.spans| ==> r.spans[i].start == 0 && r.spans[i].end == |title|
  {
    var title := DialogTitle(spec);
    var message := DialogBody(spec);
    var text := (if title != "" then title + "\n\n" else "") + message;
    Dialog(text, if title != "" then [Span(Bold, 0, |title|), Span(Larger, 0, |title|)] else [])
  }

  /** The styled range is exactly the title, inside the text, and the text ends
      with the message, which is never empty. */
  lemma DialogSpansCoverTitle(spec: Option<Object>)
    ensures var r := DialogMessage(spec);
      && (forall i :: 0 <= i < |r.spans| ==>
            r.spans[i].end <= |r.text| && r.text[r.spans[i].start..r.spans[i].end] == DialogTitle(spec))
      && |DialogBody(spec)| <= |r.text|
      && r.text[|r.text| - |DialogBody(spec)|..] == DialogBody(spec)
  {
    var r := DialogMessage(spec);
    var title, body := DialogTitle(spec), DialogBody(spec);
    if title != "" {
      var tail := "\n\n" + body;
      assert r.text == title + tail;
      assert r.spans == [Span(Bold, 0, |title|), Span(Larger, 0, |title|)];
      assert r.text[..|title|] == title;
      assert tail[|tail| - |body|..] == body;
      assert r.text[|r.text| - |body|..] == tail[|tail| - |body|..];
    } else {
      assert r.text == body && r.spans == [];
      assert r.text[|r.text| - |body|..] == r.text;
    }
  }

  /** A spec without title and text (or none at all) shows the default sentence unstyled. */
  lemma DialogDefault(spec: Option<Object>)
    requires spec.None? || ("title" !in spec.value && "text" !in spec.value)
    ensures DialogMessage(spec) == Dialog(DEFAULT_DIALOG_MESSAGE, [])
  {
  }

  // ---------------------------------------------------------------------------
  // forceVisibility

  /** Whether the view is attached to its window at the given attempt. */
  function AttachedAt(attached: seq<bool>, attempt: nat): bool
  {
    attempt < |attached| && attached[attempt]
  }

  /** Tries, `retries` being the number of retries left: shown once attached,
      given up when no retries are left. */
  datatype Visibility = Visibility(attempts: nat, shown: bool)

  function ForceVisibility(attached: seq<bool>, retries: int, attempt: nat): (r: Visibility)
    ensures 1 <= r.attempts <= (if retries > 0 then retries else 0) + 1
    ensures forall k :: attempt <= k < attempt + r.attempts - 1 ==> !AttachedAt(attached, k)
    ensures r.shown <==> AttachedAt(attached, attempt + r.attempts - 1)
    ensures !r.shown ==> r.attempts == (if retries > 0 then retries else 0) + 1
    decreases if retries > 0 then retries else 0
  {
    if AttachedAt(attached, attempt) then Visibility(1, true)
    else if retries <= 0 then Visibility(1, false)
    else
      var rest := ForceVisibility(attached, retries - 1, attempt + 1);
      Visibility(rest.attempts + 1, rest.shown)
  }

  /** The attempts stop at the first attachment within the bound, and the view
      is shown exactly when it attaches within retries + 1 attempts. */
  lemma {:induction false} ForceVisibilityShownIff(attached: seq<bool>, retries: int, attempt: nat)
    ensures ForceVisibility(attached, retries, attempt).shown <==>
              exists k :: attempt <= k <= attempt + (if retries > 0 then retries else 0) && AttachedAt(attached, k)
    decreases if retries > 0 then retries else 0
  {
    var r := ForceVisibility(attached, retries, attempt);
    if r.shown {
      assert AttachedAt(attached, attempt + r.attempts - 1);
    } else if !AttachedAt(attached, attempt) && retries > 0 {
      ForceVisibilityShownIff(attached, retries - 1, attempt + 1);
    }
  }

  // ---------------------------------------------------------------------------
  // State, effects and observations

  datatype WakeLock = WakeLock(level: int, tag: string, held: bool)

  datatype Effect =
    | Reply(callback: CallbackId, result: PluginResult)
    | OpenIntent(intent: Intent)              // launchAppStart: startActivity(intent)
    | ShowDialog(dialog: Dialog, intent: Intent)
    | RequestIgnoreBatteryOptimizations
    | GoHome                                  // moveToBackground
    | BringToFront                            // moveToForeground: startActivity(launch intent)
    | ClearKeyguardFlags                      // moveToForeground: clearScreenAndKeyguardFlags
    | ExcludeFromRecents(value: bool)
    | AddKeyguardFlags
    | StartLaunchIntent                       // unlock: startActivity(launch intent)
    | PostKeepAlive                           // the keep-alive runnable is posted
    | ForceVisible(visibility: Visibility)    // forceVisibility ran to its end
    | AcquireLock(level: int, tag: string, timeoutMs: nat)
    | ReleaseLock

  datatype State = State(
    wakeLock: Option<WakeLock>,
    appStartCallback: Option<CallbackId>,
    appStartLaunched: bool,
    keepAliveRequested: bool,
    trace: seq<Effect>)

  function Initial(): State
  {
    State(None, None, false, false, [])
  }

  function Emit(s: State, e: Effect): (r: State)
    ensures r == s.(trace := s.trace + [e])
  {
    s.(trace := s.trace + [e])
  }

  predicate Held(s: State)
  {
    s.wakeLock.Some? && s.wakeLock.value.held
  }

  /** The results sent to callback `cb`, in order. */
  function Replies(t: seq<Effect>, cb: CallbackId): seq<PluginResult>
  {
    if t == [] then []
    else if t[0].Reply? && t[0].callback == cb then [t[0].result] + Replies(t[1..], cb)
    else Replies(t[1..], cb)
  }

  /** How many of the results are final (not a kept NO_RESULT). */
  function Finals(rs: seq<PluginResult>): nat
  {
    if rs == [] then 0 else (if rs[0].IsFinal() then 1 else 0) + Finals(rs[1..])
  }

  datatype LockOp = Acquired | Released

  /** The wake-lock acquisitions and releases of a trace, in order. */
  function LockOps(t: seq<Effect>): seq<LockOp>
  {
    if t == [] then []
    else if t[0].AcquireLock? then [Acquired] + LockOps(t[1..])
    else if t[0].ReleaseLock? then [Released] + LockOps(t[1..])
    else LockOps(t[1..])
  }

  lemma {:induction false} RepliesAppend(t: seq<Effect>, u: seq<Effect>, cb: CallbackId)
    ensures Replies(t + u, cb) == Replies(t, cb) + Replies(u, cb)
  {
    if t == [] {
      assert t + u == u;
    } else {
      assert (t + u)[1..] == t[1..] + u;
      RepliesAppend(t[1..], u, cb);
    }
  }

  lemma {:induction false} FinalsAppend(a: seq<PluginResult>, b: seq<PluginResult>)
    ensures Finals(a + b) == Finals(a) + Finals(b)
  {
    if a == [] {
      assert a + b == b;
    } else {
      assert (a + b)[1..] == a[1..] + b;
      FinalsAppend(a[1..], b);
    }
  }

  lemma {:induction false} LockOpsAppend(t: seq<Effect>, u: seq<Effect>)
    ensures LockOps(t + u) == LockOps(t) + LockOps(u)
  {
    if t == [] {
      assert t + u == u;
    } else {
      assert (t + u)[1..] == t[1..] + u;
      LockOpsAppend(t[1..], u);
    }
  }

  /** What one more effect adds to the observations. */
  lemma EmitFacts(s: State, e: Effect)
    ensures forall cb :: Replies(Emit(s, e).trace, cb) ==
              Replies(s.trace, cb) + (if e.Reply? && e.callback == cb then [e.result] else [])
    ensures forall cb :: Finals(Replies(Emit(s, e).trace, cb)) ==
              Finals(Replies(s.trace, cb)) + (if e.Reply? && e.callback == cb && e.result.IsFinal() then 1 else 0)
    ensures LockOps(Emit(s, e).trace) ==
              LockOps(s.trace) + (if e.AcquireLock? then [Acquired] else if e.ReleaseLock? then [Released] else [])
  {
    assert [e][1..] == [];
    forall cb
      ensures Replies(Emit(s, e).trace, cb) ==
                Replies(s.trace, cb) + (if e.Reply? && e.callback == cb then [e.result] else [])
      ensures Finals(Replies(Emit(s, e).trace, cb)) ==
                Finals(Replies(s.trace, cb)) + (if e.Reply? && e.callback == cb && e.result.IsFinal() then 1 else 0)
    {
      RepliesAppend(s.trace, [e], cb);
      var extra := if e.Reply? && e.callback == cb then [e.result] else [];
      FinalsAppend(Replies(s.trace, cb), extra);
      if extra != [] {
        assert extra[1..] == [];
      }
    }
    LockOpsAppend(s.trace, [e]);
  }

  /** Every release is of a lock acquired just before (no release without a
      preceding acquisition, never two releases in a row). */
  ghost predicate ReleasesFollowAcquires(ops: seq<LockOp>)
  {
    forall i :: 0 <= i < |ops| && ops[i] == Released ==> i > 0 && ops[i - 1] == Acquired
  }

  /** The invariant every call keeps:
      - each callback gets at most one final result;
      - the callback in the app-start slot has had none yet;
      - the wake lock is only released when held, and a held lock was the last
        thing acquired. */
  ghost predicate Inv(s: State)
  {
    && (forall cb :: Finals(Replies(s.trace, cb)) <= 1)
    && (s.appStartCallback.Some? ==> Finals(Replies(s.trace, s.appStartCallback.value)) == 0)
    && ReleasesFollowAcquires(LockOps(s.trace))
    && (Held(s) ==> |LockOps(s.trace)| > 0 && LockOps(s.trace)[|LockOps(s.trace)| - 1] == Acquired)
  }

  /** A change that sends no callback results and performs no wake-lock operations. */
  ghost predicate Quiet(s: State, r: State)
  {
    && (forall cb :: Replies(r.trace, cb) == Replies(s.trace, cb))
    && LockOps(r.trace) == LockOps(s.trace)
  }

  lemma EmitQuiet(s: State, e: Effect)
    requires !e.Reply? && !e.AcquireLock? && !e.ReleaseLock?
    ensures Quiet(s, Emit(s, e))
  {
    EmitFacts(s, e);
  }

  // ---------------------------------------------------------------------------
  // One call each (BackgroundModeExt.java)

  /** releaseWakeLock(): releases and forgets the lock only when it is held; an
      expired lock object stays in the field. */
  function ReleaseWakeLockSpec(s: State): (r: State)
    ensures r.wakeLock.None? <==> s.wakeLock.None? || Held(s)
    ensures r.wakeLock.Some? ==> r.wakeLock == s.wakeLock
    ensures Held(s) ==> r == Emit(s, ReleaseLock).(wakeLock := None)
    ensures !Held(s) ==> r == s
  {
    if Held(s) then Emit(s, ReleaseLock).(wakeLock := None) else s
  }

  /** acquireWakeLock(): nothing without a PowerManager; otherwise the prior
      lock is released first, and a new one is acquired (for 3 seconds) only
      when the screen is dimmed. */
  function AcquireWakeLockSpec(s: State, d: Device): (r: State)
    ensures !PowerManagerAvailable(d) ==> r == s
    ensures PowerManagerAvailable(d) ==>
              LockOps(r.trace) == LockOps(s.trace) + (if Held(s) then [Released] else [])
                                                   + (if IsDimmed(d) then [Acquired] else [])
    ensures PowerManagerAvailable(d) && IsDimmed(d) ==> r.wakeLock == Some(WakeLock(WAKE_LOCK_LEVEL, WAKE_LOCK_TAG, true))
    ensures PowerManagerAvailable(d) && !IsDimmed(d) ==> !Held(r)
    ensures r.(wakeLock := s.wakeLock, trace := s.trace) == s
  {
    if !PowerManagerAvailable(d) then s
    else
      var t := ReleaseWakeLockSpec(s);
      EmitFacts(s, ReleaseLock);
      if !IsDimmed(d) then t
      else
        EmitFacts(t, AcquireLock(WAKE_LOCK_LEVEL, WAKE_LOCK_TAG, WAKE_LOCK_TIMEOUT_MS));
        Emit(t, AcquireLock(WAKE_LOCK_LEVEL, WAKE_LOCK_TAG, WAKE_LOCK_TIMEOUT_MS))
          .(wakeLock := Some(WakeLock(WAKE_LOCK_LEVEL, WAKE_LOCK_TAG, true)))
  }

  /** The 3-second timeout of wakeLock.acquire(3000) runs out: the lock is no
      longer held, but the field keeps it. */
  function WakeLockExpiredSpec(s: State): (r: State)
    ensures !Held(r) && r.wakeLock.Some? == s.wakeLock.Some?
    ensures r.(wakeLock := s.wakeLock) == s
  {
    match s.wakeLock
    case None => s
    case Some(w) => s.(wakeLock := Some(w.(held := false)))
  }

  /** sendAppStartResult(error): delivers to the slot, if there is a callback in
      it, then clears the slot and the launched flag. */
  function SendAppStartResultSpec(s: State, error: Option<string>): (r: State)
    ensures r.appStartCallback.None?
    ensures s.appStartCallback.None? ==> r == s
    ensures s.appStartCallback.Some? ==> !r.appStartLaunched
    ensures forall cb: CallbackId :: Replies(r.trace, cb) == Replies(s.trace, cb) +
              (if s.appStartCallback == Some(cb) then [if error.None? then Success else Error(error.value)] else [])
    ensures LockOps(r.trace) == LockOps(s.trace)
    ensures r.wakeLock == s.wakeLock && r.keepAliveRequested == s.keepAliveRequested
  {
    match s.appStartCallback
    case None => s
    case Some(cb) =>
      var e := Reply(cb, if error.None? then Success else Error(error.value));
      EmitFacts(s, e);
      Emit(s, e).(appStartCallback := None, appStartLaunched := false)
  }

  /** launchAppStart(activity, intent), when startActivity does not throw: the
      settings are opened and the timeout armed. */
  function LaunchAppStartSpec(s: State, intent: Intent): (r: State)
    ensures r.appStartLaunched && r.appStartCallback == s.appStartCallback
    ensures Quiet(s, r) && r.trace == s.trace + [OpenIntent(intent)]
    ensures r.wakeLock == s.wakeLock && r.keepAliveRequested == s.keepAliveRequested
  {
    EmitQuiet(s, OpenIntent(intent));
    Emit(s, OpenIntent(intent)).(appStartLaunched := true)
  }

  /** The app-start timeout: success, but only while the launch is still marked. */
  function AppStartTimeoutSpec(s: State): (r: State)
    ensures !s.appStartLaunched ==> r == s
    ensures s.appStartLaunched ==> r.appStartCallback.None?
    ensures s.appStartLaunched && s.appStartCallback.Some? ==> !r.appStartLaunched
    ensures forall cb: CallbackId :: Replies(r.trace, cb) == Replies(s.trace, cb) +
              (if s.appStartLaunched && s.appStartCallback == Some(cb) then [Success] else [])
    ensures LockOps(r.trace) == LockOps(s.trace)
    ensures r.wakeLock == s.wakeLock && r.keepAliveRequested == s.keepAliveRequested
  {
    if s.appStartLaunched then SendAppStartResultSpec(s, None) else s
  }

  /** The outcomes of foreign calls during one `execute`. `fault` is the
      message of an exception a handler throws; `resolution` answers the vendor
      intents in table order; `launchFails` is whether startActivity throws. */
  datatype Env = Env(fault: Option<string>, resolution: seq<Resolution>, launchFails: bool)

  /** `arg instanceof JSONObject ? (JSONObject) arg : null` */
  function SpecOf(arg: Option<Element>): (r: Option<Object>)
    ensures r.Some? <==> arg.Some? && arg.value.Obj?
  {
    if arg.Some? && arg.value.Obj? then Some(arg.value.fields) else None
  }

  /** openAppStart(callback, arg). */
  function OpenAppStartSpec(s: State, cb: CallbackId, arg: Option<Element>, d: Device, env: Env): (r: State)
    ensures forall c :: c != cb ==> Replies(r.trace, c) == Replies(s.trace, c)
    ensures Replies(r.trace, cb) == Replies(s.trace, cb) +
              (if !d.activity then [Error("No activity")]
               else if arg == Some(Item(Bool(false))) && env.launchFails then [NoResultKept, Error("Failed to open")]
               else [NoResultKept])
    ensures !d.activity ==> r.appStartCallback == s.appStartCallback && r.appStartLaunched == s.appStartLaunched
    ensures d.activity ==>
              r.appStartCallback == if arg == Some(Item(Bool(false))) && env.launchFails then None else Some(cb)
    ensures d.activity ==> (r.appStartLaunched <==> arg == Some(Item(Bool(false))) && !env.launchFails)
    ensures d.activity && arg == Some(Item(Bool(false))) && !env.launchFails ==>
              r.trace[|r.trace| - 1] == OpenIntent(AppStartIntent(env.resolution))
    ensures d.activity && arg != Some(Item(Bool(false))) ==>
              r.trace[|r.trace| - 1] == ShowDialog(DialogMessage(SpecOf(arg)), AppStartIntent(env.resolution))
    ensures LockOps(r.trace) == LockOps(s.trace)
    ensures r.wakeLock == s.wakeLock && r.keepAliveRequested == s.keepAliveRequested
  {
    if !d.activity then
      EmitFacts(s, Reply(cb, Error("No activity")));
      Emit(s, Reply(cb, Error("No activity")))
    else
      var intent := AppStartIntent(env.resolution);
      var s1 := s.(appStartCallback := Some(cb), appStartLaunched := false);
      var t := Emit(s1, Reply(cb, NoResultKept));
      EmitFacts(s1, Reply(cb, NoResultKept));
      if arg == Some(Item(Bool(false))) then
        if env.launchFails then SendAppStartResultSpec(t, Some("Failed to open"))
        else LaunchAppStartSpec(t, intent)
      else
        EmitQuiet(t, ShowDialog(DialogMessage(SpecOf(arg)), intent));
        Emit(t, ShowDialog(DialogMessage(SpecOf(arg)), intent))
  }

  /** The dialog's OK button: launch, or report that opening failed. */
  function DialogConfirmedSpec(s: State, intent: Intent, launchFails: bool): (r: State)
    ensures forall cb: CallbackId :: Replies(r.trace, cb) == Replies(s.trace, cb) +
              (if launchFails && s.appStartCallback == Some(cb) then [Error("Failed to open from dialog")] else [])
    ensures launchFails ==> r.appStartCallback.None?
    ensures !launchFails ==> r.appStartLaunched && r.appStartCallback == s.appStartCallback
                             && r.trace == s.trace + [OpenIntent(intent)]
    ensures LockOps(r.trace) == LockOps(s.trace)
    ensures r.wakeLock == s.wakeLock && r.keepAliveRequested == s.keepAliveRequested
  {
    if launchFails then SendAppStartResultSpec(s, Some("Failed to open from dialog"))
    else LaunchAppStartSpec(s, intent)
  }

  /** ensureKeepAlive(): posts the keep-alive runnable when there is an activity. */
  function EnsureKeepAliveSpec(s: State, d: Device): (r: State)
    ensures r == s || r == Emit(s, PostKeepAlive)
    ensures r != s <==> d.activity
    ensures Quiet(s, r)
  {
    EmitQuiet(s, PostKeepAlive);
    if d.activity then Emit(s, PostKeepAlive) else s
  }

  /** disableWebViewOptimizations(): asks for keep-alive from now on. */
  function DisableWebViewOptimizationsSpec(s: State, d: Device): (r: State)
    ensures r.keepAliveRequested
    ensures r == EnsureKeepAliveSpec(s.(keepAliveRequested := true), d)
  {
    EnsureKeepAliveSpec(s.(keepAliveRequested := true), d)
  }

  /** onPause(multitasking): keep-alive again on every pause once requested. */
  function OnPauseSpec(s: State, d: Device): (r: State)
    ensures r == s || r == Emit(s, PostKeepAlive)
    ensures r != s <==> s.keepAliveRequested && d.activity
    ensures Quiet(s, r)
  {
    if s.keepAliveRequested then EnsureKeepAliveSpec(s, d) else s
  }

  /** The keep-alive runnable: with the web view's view at hand it forces it
      visible (`attached` says when the view is attached to its window);
      without it, it posts itself again while keep-alive is requested. */
  function KeepAliveRunSpec(s: State, view: Option<seq<bool>>): (r: State)
    ensures r.(trace := s.trace) == s && Quiet(s, r)
    ensures view.Some? ==>
              && |r.trace| == |s.trace| + 1 && r.trace[|s.trace|].ForceVisible?
              && var v := r.trace[|s.trace|].visibility;
              && 1 <= v.attempts <= VISIBILITY_RETRIES + 1
              && (v.shown <==> exists k :: 0 <= k <= VISIBILITY_RETRIES && AttachedAt(view.value, k))
    ensures view.None? ==> r == s || r == Emit(s, PostKeepAlive)
    ensures view.None? ==> (r != s <==> s.keepAliveRequested)
  {
    match view
    case Some(attached) =>
      var v := ForceVisibility(attached, VISIBILITY_RETRIES, 0);
      ForceVisibilityShownIff(attached, VISIBILITY_RETRIES, 0);
      EmitQuiet(s, ForceVisible(v));
      Emit(s, ForceVisible(v))
    case None =>
      EmitQuiet(s, PostKeepAlive);
      if s.keepAliveRequested then Emit(s, PostKeepAlive) else s
  }

  /** disableBatteryOptimizations(). */
  function BatterySpec(s: State, d: Device): (r: State)
    ensures r == s || r == Emit(s, RequestIgnoreBatteryOptimizations)
    ensures r != s <==> PowerManagerAvailable(d) && d.sdk >= M && !d.ignoringBatteryOptimizations
    ensures Quiet(s, r)
  {
    EmitQuiet(s, RequestIgnoreBatteryOptimizations);
    if !d.activity || d.sdk < M || !d.powerService || d.ignoringBatteryOptimizations then s
    else Emit(s, RequestIgnoreBatteryOptimizations)
  }

  /** moveToBackground(): the home screen, when there is an activity. */
  function BackgroundSpec(s: State, d: Device): (r: State)
    ensures r == s || r == Emit(s, GoHome)
    ensures r != s <==> d.activity
    ensures Quiet(s, r)
  {
    EmitQuiet(s, GoHome);
    if d.activity then Emit(s, GoHome) else s
  }

  /** moveToForeground(): the launch intent, brought to front, when there is one. */
  function ForegroundSpec(s: State, d: Device): (r: State)
    ensures r == s || r == s.(trace := s.trace + [BringToFront, ClearKeyguardFlags])
    ensures r != s <==> d.activity && d.hasLaunchIntent
    ensures Quiet(s, r)
  {
    var t := Emit(s, BringToFront);
    EmitQuiet(s, BringToFront);
    EmitQuiet(t, ClearKeyguardFlags);
    if d.activity && d.hasLaunchIntent then Emit(t, ClearKeyguardFlags) else s
  }

  /** setExcludeFromRecents(value): on the first app task, from Lollipop on. */
  function TaskListSpec(s: State, d: Device, value: bool): (r: State)
    ensures r == s || r == Emit(s, ExcludeFromRecents(value))
    ensures r != s <==> d.activity && d.activityService && d.sdk >= LOLLIPOP && d.hasAppTasks
    ensures Quiet(s, r)
  {
    EmitQuiet(s, ExcludeFromRecents(value));
    if !(d.activity && d.activityService) || d.sdk < LOLLIPOP then s
    else if d.hasAppTasks then Emit(s, ExcludeFromRecents(value))
    else s
  }

  /** unlock(), after wakeup(): keyguard flags, then the launch intent. */
  function UnlockSpec(s: State, d: Device): (r: State)
    ensures var a := AcquireWakeLockSpec(s, d);
      && r.(trace := a.trace) == a && Quiet(a, r)
      && r.trace == a.trace + (if d.activity then [AddKeyguardFlags] else [])
                            + (if d.activity && d.hasLaunchIntent then [StartLaunchIntent] else [])
      && forall cb :: Replies(r.trace, cb) == Replies(s.trace, cb)
  {
    var t := AcquireWakeLockSpec(s, d);
    AcquireKeepsReplies(s, d);
    EmitQuiet(t, AddKeyguardFlags);
    EmitQuiet(if d.activity then Emit(t, AddKeyguardFlags) else t, StartLaunchIntent);
    var u := if d.activity then Emit(t, AddKeyguardFlags) else t;
    if d.activity && d.hasLaunchIntent then Emit(u, StartLaunchIntent) else u
  }

  const ACTIONS: set<string> := {"battery", "webview", "appstart", "background", "foreground",
                                 "tasklistExclude", "tasklistInclude", "dimmed", "wakeup", "unlock"}

  /** The cases of the `switch` in execute. */
  datatype Action =
    | Battery | WebView | AppStart | Background | Foreground
    | TaskListExclude | TaskListInclude | Dimmed | WakeUp | Unlock

  function ActionName(a: Action): string
  {
    match a
    case Battery => "battery"
    case WebView => "webview"
    case AppStart => "appstart"
    case Background => "background"
    case Foreground => "foreground"
    case TaskListExclude => "tasklistExclude"
    case TaskListInclude => "tasklistInclude"
    case Dimmed => "dimmed"
    case WakeUp => "wakeup"
    case Unlock => "unlock"
  }

  /** The `case` label an action name selects, if any. */
  function ParseAction(name: string): (r: Option<Action>)
    ensures r.Some? <==> name in ACTIONS
    ensures r.Some? ==> ActionName(r.value) == name
  {
    if name == "battery" then Some(Battery)
    else if name == "webview" then Some(WebView)
    else if name == "appstart" then Some(AppStart)
    else if name == "background" then Some(Background)
    else if name == "foreground" then Some(Foreground)
    else if name == "tasklistExclude" then Some(TaskListExclude)
    else if name == "tasklistInclude" then Some(TaskListInclude)
    else if name == "dimmed" then Some(Dimmed)
    else if name == "wakeup" then Some(WakeUp)
    else if name == "unlock" then Some(Unlock)
    else None
  }

  /** Each label is selected by its own name and by no other. */
  lemma ParseActionName(a: Action)
    ensures ParseAction(ActionName(a)) == Some(a)
  {
  }

  /** What the handler of an action other than "appstart" does before the
      callback is answered ("dimmed" only computes its answer). */
  function Handle(s: State, a: Action, d: Device): (r: State)
    ensures r.appStartCallback == s.appStartCallback && r.appStartLaunched == s.appStartLaunched
    ensures forall cb :: Replies(r.trace, cb) == Replies(s.trace, cb)
    ensures a != WakeUp && a != Unlock ==> Quiet(s, r) && r.wakeLock == s.wakeLock
  {
    AcquireKeepsReplies(s, d);
    match a
    case Battery => BatterySpec(s, d)
    case WebView => DisableWebViewOptimizationsSpec(s, d)
    case Background => BackgroundSpec(s, d)
    case Foreground => ForegroundSpec(s, d)
    case TaskListExclude => TaskListSpec(s, d, true)
    case TaskListInclude => TaskListSpec(s, d, false)
    case WakeUp => AcquireWakeLockSpec(s, d)
    case Unlock => UnlockSpec(s, d)
    case AppStart | Dimmed => s
  }

  /** The handler of a known action, followed by `callback.success()` where the
      source sends it ("dimmed" answers with the boolean instead, "appstart"
      answers by itself). */
  function Dispatch(s: State, a: Action, args: seq<Element>, cb: CallbackId, d: Device, env: Env): (r: State)
    ensures forall c :: c != cb ==> Replies(r.trace, c) == Replies(s.trace, c)
    ensures a != AppStart ==>
              Replies(r.trace, cb) == Replies(s.trace, cb) + [if a == Dimmed then SuccessWith(IsDimmed(d)) else Success]
    ensures a != AppStart ==> r.appStartCallback == s.appStartCallback
  {
    match a
    case AppStart => OpenAppStartSpec(s, cb, OptAt(args, 0), d, env)
    case Dimmed =>
      EmitFacts(s, Reply(cb, SuccessWith(IsDimmed(d))));
      Emit(s, Reply(cb, SuccessWith(IsDimmed(d))))
    case _ =>
      EmitFacts(Handle(s, a, d), Reply(cb, Success));
      Emit(Handle(s, a, d), Reply(cb, Success))
  }

  /** execute(action, args, callback): the result is `validAction`. A handler
      that throws is reported as "Error executing <action>: <message>";
      it is taken to throw before it changes anything. */
  function ExecuteSpec(s: State, action: string, args: seq<Element>, cb: CallbackId, d: Device, env: Env): (r: (State, bool))
    ensures r.1 <==> action in ACTIONS && env.fault.None?
    ensures action !in ACTIONS ==> r.0 == Emit(s, Reply(cb, Error("Invalid action: " + action)))
    ensures action in ACTIONS && env.fault.Some? ==>
              r.0 == Emit(s, Reply(cb, Error("Error executing " + action + ": " + env.fault.value)))
  {
    match ParseAction(action)
    case None => (Emit(s, Reply(cb, Error("Invalid action: " + action))), false)
    case Some(a) =>
      if env.fault.Some? then (Emit(s, Reply(cb, Error("Error executing " + action + ": " + env.fault.value))), false)
      else (Dispatch(s, a, args, cb, d, env), true)
  }

  /** Everything that can happen to the extension. */
  datatype Command =
    | Execute(action: string, args: seq<Element>, cb: CallbackId, d: Device, env: Env)
    | AppStartTimeout
    | DialogConfirmed(intent: Intent, launchFails: bool)
    | DialogCanceled
    | DialogFailed
    | Pause(d: Device)
    | KeepAliveRun(view: Option<seq<bool>>)
    | WakeLockExpired

  function Step(s: State, c: Command): State
  {
    match c
    case Execute(action, args, cb, d, env) => ExecuteSpec(s, action, args, cb, d, env).0
    case AppStartTimeout => AppStartTimeoutSpec(s)
    case DialogConfirmed(intent, fails) => DialogConfirmedSpec(s, intent, fails)
    case DialogCanceled => SendAppStartResultSpec(s, Some("Canceled from dialog"))
    case DialogFailed => SendAppStartResultSpec(s, Some("Failed to show dialog"))
    case Pause(d) => OnPauseSpec(s, d)
    case KeepAliveRun(view) => KeepAliveRunSpec(s, view)
    case WakeLockExpired => WakeLockExpiredSpec(s)
  }

  /** Cordova gives every `execute` a callback nobody has answered and that is
      not waiting in the slot. */
  predicate Fresh(s: State, c: Command)
  {
    c.Execute? ==> Replies(s.trace, c.cb) == [] && s.appStartCallback != Some(c.cb)
  }

  ghost predicate FreshRun(s: State, cs: seq<Command>)
    decreases |cs|
  {
    cs == [] || (Fresh(s, cs[0]) && FreshRun(Step(s, cs[0]), cs[1..]))
  }

  function Run(s: State, cs: seq<Command>): State
    decreases |cs|
  {
    if cs == [] then s else Run(Step(s, cs[0]), cs[1..])
  }

  // ---------------------------------------------------------------------------
  // The invariant is kept by every call

  /** An effect that is neither a result nor a lock operation keeps the invariant. */
  lemma QuietKeepsInv(s: State, e: Effect)
    requires Inv(s) && !e.Reply? && !e.AcquireLock? && !e.ReleaseLock?
    ensures Inv(Emit(s, e))
  {
    EmitFacts(s, e);
  }

  /** A result to a callback outside the slot keeps the invariant, if it is not
      a second final one. */
  lemma ReplyKeepsInv(s: State, cb: CallbackId, result: PluginResult)
    requires Inv(s) && s.appStartCallback != Some(cb)
    requires result.IsFinal() ==> Finals(Replies(s.trace, cb)) == 0
    ensures Inv(Emit(s, Reply(cb, result)))
  {
    EmitFacts(s, Reply(cb, result));
  }

  lemma SendResultKeepsInv(s: State, error: Option<string>)
    requires Inv(s)
    ensures Inv(SendAppStartResultSpec(s, error))
  {
    if s.appStartCallback.Some? {
      EmitFacts(s, Reply(s.appStartCallback.value, if error.None? then Success else Error(error.value)));
    }
  }

  lemma LockKeepsInv(s: State, d: Device)
    requires Inv(s)
    ensures Inv(AcquireWakeLockSpec(s, d))
  {
    if PowerManagerAvailable(d) {
      var t := ReleaseWakeLockSpec(s);
      EmitFacts(s, ReleaseLock);
      assert Inv(t);
      if IsDimmed(d) {
        EmitFacts(t, AcquireLock(WAKE_LOCK_LEVEL, WAKE_LOCK_TAG, WAKE_LOCK_TIMEOUT_MS));
      }
    }
  }

  lemma OpenAppStartKeepsInv(s: State, cb: CallbackId, arg: Option<Element>, d: Device, env: Env)
    requires Inv(s) && Replies(s.trace, cb) == [] && s.appStartCallback != Some(cb)
    ensures Inv(OpenAppStartSpec(s, cb, arg, d, env))
  {
    if !d.activity {
      ReplyKeepsInv(s, cb, Error("No activity"));
    } else {
      var s1 := s.(appStartCallback := Some(cb), appStartLaunched := false);
      var t := Emit(s1, Reply(cb, NoResultKept));
      EmitFacts(s1, Reply(cb, NoResultKept));
      assert Inv(t);
      if arg == Some(Item(Bool(false))) {
        if env.launchFails {
          SendResultKeepsInv(t, Some("Failed to open"));
        } else {
          QuietKeepsInv(t, OpenIntent(AppStartIntent(env.resolution)));
        }
      } else {
        QuietKeepsInv(t, ShowDialog(DialogMessage(SpecOf(arg)), AppStartIntent(env.resolution)));
      }
    }
  }

  /** An effect that is neither a result nor a lock operation changes no results. */
  lemma QuietReplies(s: State, e: Effect)
    requires !e.Reply?
    ensures forall cb :: Replies(Emit(s, e).trace, cb) == Replies(s.trace, cb)
  {
    EmitFacts(s, e);
  }

  /** The handlers other than appstart keep the invariant and send no results. */
  lemma HandleKeepsInv(s: State, a: Action, d: Device)
    requires Inv(s)
    ensures var t := Handle(s, a, d);
      && Inv(t) && t.appStartCallback == s.appStartCallback
      && forall cb :: Replies(t.trace, cb) == Replies(s.trace, cb)
  {
    var t := Handle(s, a, d);
    match a
    case Battery =>
      if t != s { QuietKeepsInv(s, RequestIgnoreBatteryOptimizations); QuietReplies(s, RequestIgnoreBatteryOptimizations); }
    case WebView =>
      if d.activity {
        QuietKeepsInv(s.(keepAliveRequested := true), PostKeepAlive);
        QuietReplies(s.(keepAliveRequested := true), PostKeepAlive);
      }
    case Background =>
      if d.activity { QuietKeepsInv(s, GoHome); QuietReplies(s, GoHome); }
    case Foreground =>
      if t != s {
        QuietKeepsInv(s, BringToFront);
        QuietKeepsInv(Emit(s, BringToFront), ClearKeyguardFlags);
      }
    case TaskListExclude =>
      if t != s { QuietKeepsInv(s, ExcludeFromRecents(true)); QuietReplies(s, ExcludeFromRecents(true)); }
    case TaskListInclude =>
      if t != s { QuietKeepsInv(s, ExcludeFromRecents(false)); QuietReplies(s, ExcludeFromRecents(false)); }
    case WakeUp =>
      LockKeepsInv(s, d);
      AcquireKeepsReplies(s, d);
    case Unlock =>
      UnlockKeepsInv(s, d);
    case AppStart | Dimmed =>
  }

  lemma UnlockKeepsInv(s: State, d: Device)
    requires Inv(s)
    ensures var t := UnlockSpec(s, d);
      && Inv(t) && t.appStartCallback == s.appStartCallback
      && forall cb :: Replies(t.trace, cb) == Replies(s.trace, cb)
  {
    var a := AcquireWakeLockSpec(s, d);
    LockKeepsInv(s, d);
    AcquireKeepsReplies(s, d);
    var u := if d.activity then Emit(a, AddKeyguardFlags) else a;
    if d.activity { QuietKeepsInv(a, AddKeyguardFlags); QuietReplies(a, AddKeyguardFlags); }
    if d.activity && d.hasLaunchIntent { QuietKeepsInv(u, StartLaunchIntent); QuietReplies(u, StartLaunchIntent); }
  }

  lemma DispatchKeepsInv(s: State, a: Action, args: seq<Element>, cb: CallbackId, d: Device, env: Env)
    requires Inv(s) && Replies(s.trace, cb) == [] && s.appStartCallback != Some(cb)
    ensures Inv(Dispatch(s, a, args, cb, d, env))
  {
    match a
    case AppStart =>
      OpenAppStartKeepsInv(s, cb, OptAt(args, 0), d, env);
    case Dimmed =>
      ReplyKeepsInv(s, cb, SuccessWith(IsDimmed(d)));
    case _ =>
      HandleKeepsInv(s, a, d);
      var t := Handle(s, a, d);
      assert Replies(t.trace, cb) == [];
      ReplyKeepsInv(t, cb, Success);
  }

  /** acquireWakeLock sends no results. */
  lemma AcquireKeepsReplies(s: State, d: Device)
    ensures forall cb :: Replies(AcquireWakeLockSpec(s, d).trace, cb) == Replies(s.trace, cb)
  {
    if PowerManagerAvailable(d) {
      var t := ReleaseWakeLockSpec(s);
      EmitFacts(s, ReleaseLock);
      EmitFacts(t, AcquireLock(WAKE_LOCK_LEVEL, WAKE_LOCK_TAG, WAKE_LOCK_TIMEOUT_MS));
    }
  }

  lemma ExecuteKeepsInv(s: State, action: string, args: seq<Element>, cb: CallbackId, d: Device, env: Env)
    requires Inv(s) && Replies(s.trace, cb) == [] && s.appStartCallback != Some(cb)
    ensures Inv(ExecuteSpec(s, action, args, cb, d, env).0)
  {
    match ParseAction(action)
    case None =>
      ReplyKeepsInv(s, cb, Error("Invalid action: " + action));
    case Some(a) =>
      if env.fault.Some? {
        ReplyKeepsInv(s, cb, Error("Error executing " + action + ": " + env.fault.value));
      } else {
        DispatchKeepsInv(s, a, args, cb, d, env);
      }
  }

  lemma StepKeepsInv(s: State, c: Command)
    requires Inv(s) && Fresh(s, c)
    ensures Inv(Step(s, c))
  {
    match c
    case Execute(action, args, cb, d, env) => ExecuteKeepsInv(s, action, args, cb, d, env);
    case AppStartTimeout => if s.appStartLaunched { SendResultKeepsInv(s, None); }
    case DialogConfirmed(intent, fails) =>
      if fails { SendResultKeepsInv(s, Some("Failed to open from dialog")); }
      else { QuietKeepsInv(s, OpenIntent(intent)); }
    case DialogCanceled => SendResultKeepsInv(s, Some("Canceled from dialog"));
    case DialogFailed => SendResultKeepsInv(s, Some("Failed to show dialog"));
    case Pause(d) => if s.keepAliveRequested && d.activity { QuietKeepsInv(s, PostKeepAlive); }
    case KeepAliveRun(view) =>
      if view.Some? {
        QuietKeepsInv(s, ForceVisible(ForceVisibility(view.value, VISIBILITY_RETRIES, 0)));
      } else if s.keepAliveRequested {
        QuietKeepsInv(s, PostKeepAlive);
      }
    case WakeLockExpired =>
  }

  /** Over any run in which each execute gets a fresh callback, every callback
      receives at most one final result, the app-start callback in particular,
      and the wake lock is never released unless held. */
  lemma {:induction false} RunKeepsInv(s: State, cs: seq<Command>)
    requires Inv(s) && FreshRun(s, cs)
    ensures Inv(Run(s, cs))
    decreases |cs|
  {
    if cs != [] {
      StepKeepsInv(s, cs[0]);
      RunKeepsInv(Step(s, cs[0]), cs[1..]);
    }
  }

  lemma InitialInv()
    ensures Inv(Initial())
  {
  }

  // ---------------------------------------------------------------------------
  // What the source promises of single calls

  /** Once keep-alive is requested it stays requested, whatever happens next. */
  lemma KeepAliveRequestPersists(s: State, c: Command)
    requires s.keepAliveRequested
    ensures Step(s, c).keepAliveRequested
  {
    match c
    case Execute(action, args, cb, d, env) =>
      if ParseAction(action) == Some(WakeUp) && env.fault.None? {
        assert AcquireWakeLockSpec(s, d).keepAliveRequested;
      }
    case _ =>
  }

  /** Once keep-alive is requested, every pause with an activity posts it again. */
  lemma PauseRetriggersKeepAlive(s: State, d: Device)
    requires s.keepAliveRequested && d.activity
    ensures OnPauseSpec(s, d) == Emit(s, PostKeepAlive)
  {
  }

  /** sendAppStartResult delivers at most once: after it, the slot is empty and
      a second call changes nothing. */
  lemma SendAppStartResultAtMostOnce(s: State, first: Option<string>, second: Option<string>)
    ensures var t := SendAppStartResultSpec(s, first);
      && t.appStartCallback.None? && !(s.appStartCallback.Some? && t.appStartLaunched)
      && SendAppStartResultSpec(t, second) == t
      && AppStartTimeoutSpec(t) == t
  {
  }

  /** The timeout delivers success to the stored callback only after a launch
      that nothing else has answered. */
  lemma TimeoutDeliversOnlyAfterLaunch(s: State, cb: CallbackId)
    requires s.appStartCallback == Some(cb)
    ensures s.appStartLaunched ==>
              AppStartTimeoutSpec(s) == Emit(s, Reply(cb, Success)).(appStartCallback := None, appStartLaunched := false)
    ensures !s.appStartLaunched ==> AppStartTimeoutSpec(s) == s
  {
  }

  /** openAppStart without an activity answers "No activity" and leaves the
      slot alone; with one, the callback takes the slot, is kept with NO_RESULT,
      and is answered later (or at once when launching throws). */
  lemma OpenAppStartSlot(s: State, cb: CallbackId, arg: Option<Element>, d: Device, env: Env)
    requires Replies(s.trace, cb) == []
    ensures var r := OpenAppStartSpec(s, cb, arg, d, env);
      && (!d.activity ==> r.appStartCallback == s.appStartCallback && Replies(r.trace, cb) == [Error("No activity")])
      && (d.activity && !(arg == Some(Item(Bool(false))) && env.launchFails) ==>
            r.appStartCallback == Some(cb) && Replies(r.trace, cb) == [NoResultKept])
      && (d.activity && arg == Some(Item(Bool(false))) && env.launchFails ==>
            r.appStartCallback.None? && Replies(r.trace, cb) == [NoResultKept, Error("Failed to open")])
      && (d.activity && arg == Some(Item(Bool(false))) && !env.launchFails ==> r.appStartLaunched)
      && (d.activity && arg != Some(Item(Bool(false))) ==> !r.appStartLaunched)
  {
    if !d.activity {
      EmitFacts(s, Reply(cb, Error("No activity")));
    } else {
      var s1 := s.(appStartCallback := Some(cb), appStartLaunched := false);
      var t := Emit(s1, Reply(cb, NoResultKept));
      EmitFacts(s1, Reply(cb, NoResultKept));
      assert Replies(t.trace, cb) == [NoResultKept];
      var intent := AppStartIntent(env.resolution);
      if arg == Some(Item(Bool(false))) {
        if env.launchFails {
          EmitFacts(t, Reply(cb, Error("Failed to open")));
        } else {
          EmitFacts(t, OpenIntent(intent));
        }
      } else {
        EmitFacts(t, ShowDialog(DialogMessage(SpecOf(arg)), intent));
      }
    }
  }

  /** releaseWakeLock forgets the lock exactly when it is held, and releases it then. */
  lemma ReleaseOnlyWhenHeld(s: State)
    ensures var r := ReleaseWakeLockSpec(s);
      && (r.wakeLock.None? && s.wakeLock.Some? <==> Held(s))
      && LockOps(r.trace) == LockOps(s.trace) + (if Held(s) then [Released] else [])
  {
    EmitFacts(s, ReleaseLock);
  }

  /** "dimmed" answers its callback with the screen state and changes nothing else. */
  lemma DimmedAnswer(s: State, args: seq<Element>, cb: CallbackId, d: Device, env: Env)
    requires env.fault.None?
    ensures var dimmed := PowerManagerAvailable(d) && (if d.sdk >= KITKAT_WATCH then !d.interactive else !d.screenOn);
      ExecuteSpec(s, "dimmed", args, cb, d, env) == (s.(trace := s.trace + [Reply(cb, SuccessWith(dimmed))]), true)
  {
    assert ParseAction("dimmed") == Some(Dimmed);
  }

  /** An unknown action is reported and rejected; so is a throwing handler. */
  lemma InvalidActionRejected(s: State, action: string, args: seq<Element>, cb: CallbackId, d: Device, env: Env)
    requires action !in ACTIONS || env.fault.Some?
    ensures var (r, valid) := ExecuteSpec(s, action, args, cb, d, env);
      && !valid
      && Replies(r.trace, cb) == Replies(s.trace, cb) +
           [Error(if action !in ACTIONS then "Invalid action: " + action
                  else "Error executing " + action + ": " + env.fault.value)]
      && r.(trace := s.trace) == s
  {
    var msg := if action !in ACTIONS then "Invalid action: " + action
               else "Error executing " + action + ": " + env.fault.value;
    EmitFacts(s, Reply(cb, Error(msg)));
  }

  // ---------------------------------------------------------------------------
  // The class

  class BackgroundModeExt {
    var wakeLock: Option<WakeLock>
    var appStartCallback: Option<CallbackId>
    var appStartLaunched: bool
    var keepAliveRequested: bool
    var trace: seq<Effect>

    ghost function Snapshot(): State
      reads this
    {
      State(wakeLock, appStartCallback, appStartLaunched, keepAliveRequested, trace)
    }

    constructor ()
      ensures Snapshot() == Initial()
    {
      wakeLock, appStartCallback := None, None;
      appStartLaunched, keepAliveRequested := false, false;
      trace := [];
    }

    method Execute(action: string, args: seq<Element>, callback: CallbackId, d: Device, env: Env)
      returns (valid: bool)
      modifies this
      ensures (Snapshot(), valid) == ExecuteSpec(old(Snapshot()), action, args, callback, d, env)
    {
      var a := ParseAction(action);
      if a.None? {
        trace := trace + [Reply(callback, Error("Invalid action: " + action))];
        return false;
      }
      if env.fault.Some? {
        trace := trace + [Reply(callback, Error("Error executing " + action + ": " + env.fault.value))];
        return false;
      }
      valid := true;
      RunAction(a.value, args, callback, d, env);
    }

    /** The `switch` of execute, for an action name it knows. */
    method RunAction(a: Action, args: seq<Element>, callback: CallbackId, d: Device, env: Env)
      modifies this
      ensures Snapshot() == Dispatch(old(Snapshot()), a, args, callback, d, env)
    {
      match a
      case AppStart =>
        OpenAppStart(callback, OptAt(args, 0), d, env);
      case Battery =>
        DisableBatteryOptimizations(d);
        trace := trace + [Reply(callback, Success)];
      case WebView =>
        DisableWebViewOptimizations(d);
        trace := trace + [Reply(callback, Success)];
      case Background =>
        MoveToBackground(d);
        trace := trace + [Reply(callback, Success)];
      case Foreground =>
        MoveToForeground(d);
        trace := trace + [Reply(callback, Success)];
      case TaskListExclude =>
        SetExcludeFromRecents(d, true);
        trace := trace + [Reply(callback, Success)];
      case TaskListInclude =>
        SetExcludeFromRecents(d, false);
        trace := trace + [Reply(callback, Success)];
      case Dimmed =>
        trace := trace + [Reply(callback, SuccessWith(IsDimmed(d)))];
      case WakeUp =>
        AcquireWakeLock(d);
        trace := trace + [Reply(callback, Success)];
      case Unlock =>
        AcquireWakeLock(d);
        this.Unlock(d);
        trace := trace + [Reply(callback, Success)];
    }

    method DisableBatteryOptimizations(d: Device)
      modifies this
      ensures Snapshot() == BatterySpec(old(Snapshot()), d)
    {
      if !d.activity || d.sdk < M || !d.powerService || d.ignoringBatteryOptimizations {
        return;
      }
      trace := trace + [RequestIgnoreBatteryOptimizations];
    }

    method DisableWebViewOptimizations(d: Device)
      modifies this
      ensures Snapshot() == DisableWebViewOptimizationsSpec(old(Snapshot()), d)
    {
      keepAliveRequested := true;
      EnsureKeepAlive(d);
    }

    method OnPause(d: Device)
      modifies this
      ensures Snapshot() == OnPauseSpec(old(Snapshot()), d)
    {
      if keepAliveRequested {
        EnsureKeepAlive(d);
      }
    }

    method EnsureKeepAlive(d: Device)
      modifies this
      ensures Snapshot() == EnsureKeepAliveSpec(old(Snapshot()), d)
    {
      if !d.activity {
        return;
      }
      trace := trace + [PostKeepAlive];
    }

    /** The posted runnable; `view` is the web view's view, if it can be had. */
    method KeepAliveRun(view: Option<seq<bool>>)
      modifies this
      ensures Snapshot() == KeepAliveRunSpec(old(Snapshot()), view)
    {
      if view.Some? {
        trace := trace + [ForceVisible(ForceVisibility(view.value, VISIBILITY_RETRIES, 0))];
      } else if keepAliveRequested {
        trace := trace + [PostKeepAlive];
      }
    }

    method OpenAppStart(callback: CallbackId, arg: Option<Element>, d: Device, env: Env)
      modifies this
      ensures Snapshot() == OpenAppStartSpec(old(Snapshot()), callback, arg, d, env)
    {
      if !d.activity {
        trace := trace + [Reply(callback, Error("No activity"))];
        return;
      }
      var intent := SelectAppStartIntent(env.resolution);
      appStartCallback := Some(callback);
      appStartLaunched := false;
      trace := trace + [Reply(callback, NoResultKept)];
      ghost var t := Snapshot();
      assert t == Emit(old(Snapshot()).(appStartCallback := Some(callback), appStartLaunched := false),
                       Reply(callback, NoResultKept));
      if arg == Some(Item(Bool(false))) {
        if env.launchFails {
          SendAppStartResult(Some("Failed to open"));
          assert Snapshot() == SendAppStartResultSpec(t, Some("Failed to open"));
        } else {
          LaunchAppStart(intent);
          assert Snapshot() == LaunchAppStartSpec(t, intent);
        }
      } else {
        var dialog := DialogMessage(SpecOf(arg));
        trace := trace + [ShowDialog(dialog, intent)];
        assert Snapshot() == Emit(t, ShowDialog(dialog, intent));
      }
    }

    /** The dialog's buttons, or its failure to show. */
    method DialogConfirmed(intent: Intent, launchFails: bool)
      modifies this
      ensures Snapshot() == DialogConfirmedSpec(old(Snapshot()), intent, launchFails)
    {
      if launchFails {
        SendAppStartResult(Some("Failed to open from dialog"));
      } else {
        LaunchAppStart(intent);
      }
    }

    method DialogCanceled()
      modifies this
      ensures Snapshot() == SendAppStartResultSpec(old(Snapshot()), Some("Canceled from dialog"))
    {
      SendAppStartResult(Some("Canceled from dialog"));
    }

    method DialogFailed()
      modifies this
      ensures Snapshot() == SendAppStartResultSpec(old(Snapshot()), Some("Failed to show dialog"))
    {
      SendAppStartResult(Some("Failed to show dialog"));
    }

    method SendAppStartResult(error: Option<string>)
      modifies this
      ensures Snapshot() == SendAppStartResultSpec(old(Snapshot()), error)
    {
      if appStartCallback.None? {
        return;
      }
      if error.None? {
        trace := trace + [Reply(appStartCallback.value, Success)];
      } else {
        trace := trace + [Reply(appStartCallback.value, Error(error.value))];
      }
      appStartCallback := None;
      appStartLaunched := false;
    }

    method LaunchAppStart(intent: Intent)
      modifies this
      ensures Snapshot() == LaunchAppStartSpec(old(Snapshot()), intent)
    {
      trace := trace + [OpenIntent(intent)];
      appStartLaunched := true;
    }

    method AppStartTimeout()
      modifies this
      ensures Snapshot() == AppStartTimeoutSpec(old(Snapshot()))
    {
      if appStartLaunched {
        SendAppStartResult(None);
      }
    }

    method MoveToBackground(d: Device)
      modifies this
      ensures Snapshot() == BackgroundSpec(old(Snapshot()), d)
    {
      if d.activity {
        trace := trace + [GoHome];
      }
    }

    method MoveToForeground(d: Device)
      modifies this
      ensures Snapshot() == ForegroundSpec(old(Snapshot()), d)
    {
      if d.activity && d.hasLaunchIntent {
        trace := trace + [BringToFront];
        trace := trace + [ClearKeyguardFlags];
      }
    }

    method SetExcludeFromRecents(d: Device, value: bool)
      modifies this
      ensures Snapshot() == TaskListSpec(old(Snapshot()), d, value)
    {
      if !(d.activity && d.activityService) || d.sdk < LOLLIPOP {
        return;
      }
      if d.hasAppTasks {
        trace := trace + [ExcludeFromRecents(value)];
      }
    }

    /** unlock() after wakeup(), as the "unlock" action runs them. */
    method Unlock(d: Device)
      modifies this
      ensures Snapshot() == (var u := if d.activity then Emit(old(Snapshot()), AddKeyguardFlags) else old(Snapshot());
                             if d.activity && d.hasLaunchIntent then Emit(u, StartLaunchIntent) else u)
    {
      if d.activity {
        trace := trace + [AddKeyguardFlags];
      }
      if d.activity && d.hasLaunchIntent {
        trace := trace + [StartLaunchIntent];
      }
    }

    method AcquireWakeLock(d: Device)
      modifies this
      ensures Snapshot() == AcquireWakeLockSpec(old(Snapshot()), d)
    {
      if !PowerManagerAvailable(d) {
        return;
      }
      ReleaseWakeLock();
      if !IsDimmed(d) {
        return;
      }
      wakeLock := Some(WakeLock(WAKE_LOCK_LEVEL, WAKE_LOCK_TAG, false));
      trace := trace + [AcquireLock(WAKE_LOCK_LEVEL, WAKE_LOCK_TAG, WAKE_LOCK_TIMEOUT_MS)];
      wakeLock := Some(wakeLock.value.(held := true));
    }

    method ReleaseWakeLock()
      modifies this
      ensures Snapshot() == ReleaseWakeLockSpec(old(Snapshot()))
    {
      if wakeLock.Some? && wakeLock.value.held {
        trace := trace + [ReleaseLock];
        wakeLock := None;
      }
    }

    method WakeLockExpired()
      modifies this
      ensures Snapshot() == WakeLockExpiredSpec(old(Snapshot()))
    {
      if wakeLock.Some? {
        wakeLock := Some(wakeLock.value.(held := false));
      }
    }
  }
}
