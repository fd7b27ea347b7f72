# cordova-plugin-advanced-background-mode, modelled in Dafny

The plugin keeps a Cordova app alive in the background on Android. It has four parts, and each is modelled in its own form:

- **`BackgroundMode`** is the mode controller. Its state is:
  - the `isEnabled`, `isEnablePending`, `isForegroundStarted` and `inBackground` flags;
  - one slot holding the callback of a notification-permission request;
  - a static store of default settings.

  `execute` flips the flags, and the controller starts and stops a foreground service behind early-return guards. It reports `activate`, `deactivate` and `failure` events to the web view.
- **`ForegroundService`** is the service itself:
  - it turns a settings object into a notification: title, text, icon fallback chain, big-text style, priority, colour and tap-to-resume intent;
  - it picks the foreground-service type by SDK level;
  - it handles its partial wake lock on start, update and teardown.
- **`www/background-mode.js`** is the JavaScript `exports` object:
  - its enabled and active flags;
  - the default settings and the runtime settings, with the merges between them;
  - the short-circuiting `enable` and `disable`;
  - the listener registry behind `on`, `off` and `fireEvent`.
- **`BackgroundModeExt`** is the extension plugin:
  - its action dispatch table;
  - the app-start settings flow: pick the first vendor intent that resolves, show a confirmation dialog, and keep one callback slot with a launch timeout;
  - the web-view keep-alive with its bounded `forceVisibility` retries;
  - the screen wake lock.

How the model is written:

- Java classes whose methods change fields are Dafny classes with the same fields.
- The JavaScript `exports` object is a class `Exports`. Plain JS objects are a class `JsObject`, so aliasing behaves as in the source: `configure` keeps the caller's own options object, and `_mergeObjects` can merge an object into itself.
- Each state-changing method of the two Java plugins is proved to change its object exactly as a pure specification function says (`…Spec`). The plugins' promises are proved as lemmas about those functions. Among them is an invariant that every call keeps, and that therefore holds over any run of calls.
- Everything a plugin does outwards (results sent to callbacks, events fired, services started, intents opened, wake-lock operations) is appended, in order, to a `trace` or `log`.
- What a call observes of the device is a parameter: SDK level, permission state, the resources table, which vendor intents resolve, whether a foreign call throws.
- Timers and dialog buttons are separate commands.

The model follows the code as written in these places:

- `onRequestPermissionResult` ignores a foreign request code only while a callback is stored. With an empty slot it dereferences null; this is the outcome `DereferencedNull`, and the state is unchanged.
- A second permission request overwrites the slot without checking it (`OverwrittenCallbackIsNeverAnswered`).
- A denied permission leaves `isEnablePending` set.
- `configure` with `update=true`, a started service and a non-object argument dereferences null (`ThrewNullPointer`).
- The service calls `BackgroundMode.getSettings()`, but the class declares only `getDefaultSettings()`. The model reads the default-settings store, which the controller and the service share (`SettingsStore`).
- An update of a running service sends an update command carrying the new settings (`SendUpdate`). The command's action constant is not defined in the service class, and `onStartCommand` ignores its intent.
- The JS `onSuccess` closures of `enable`/`disable` are not modelled: their `this` is not `exports`.
- `resume` is true in the JS defaults, but the service reads it with a fallback of false. The model follows each where it applies.

Modules:

- `Optional`: the option type.
- `Text`: ASCII case folding, Java's `equalsIgnoreCase` (which also folds U+017F, U+0131, U+0130 and U+212A), character removal, decimal text.
- `Json`: org.json values and the `opt*` accessors, with Android's coercions.
- `Cordova`: callback identities and plugin results.
- `BackgroundMode`, `ForegroundService`, `BackgroundModeJs`, `BackgroundModeExt`: the four parts above.

## Model

| member | source | states |
|---|---|---|
| BackgroundMode.EventName | src/android/BackgroundMode.java:314-320 | the event name sent to the web view is the lower-cased enum name, and distinct events get distinct names |
| BackgroundMode.StartForegroundSpec | src/android/BackgroundMode.java:248-281 | an already started or disabled controller is left exactly as it was; otherwise the service is started and ACTIVATE fired, or, when starting throws, FAILURE is fired with the quoted message and the flag stays false; nothing but the flag and the trace changes |
| BackgroundMode.StopForegroundSpec | src/android/BackgroundMode.java:286-309 | a stop of a service that is not started, or of a still-enabled mode, changes nothing; otherwise the service is stopped and DEACTIVATE fired; afterwards a disabled mode never has the service started |
| BackgroundMode.RequestPermissionSpec | src/android/BackgroundMode.java:105-129 | the callback gets exactly one result, success when no permission is needed and NO_RESULT with keep-callback otherwise, and no other callback gets any; only when the permission is needed does the callback take the slot (overwriting any earlier one) and the permission dialog with request code 1001 get requested; no lifecycle event is fired, and nothing else changes: the new effects are exactly the reply, followed by the request when it is needed |
| BackgroundMode.DisableModeSpec | src/android/BackgroundMode.java:189-193 | afterwards the mode is disabled and the service not started; it is a stop attempt on the disabled state |
| BackgroundMode.PermissionResultSpec | src/android/BackgroundMode.java:134-159 | a foreign request code with a stored callback is ignored; an empty slot is a null dereference; both leave the state unchanged; a delivered result always clears the slot |
| BackgroundMode.ConfigureSpec | src/android/BackgroundMode.java:230-243 | update=false replaces the default settings wholesale; update=true is a no-op while not started, sends an update command while started, and dereferences null exactly when started with a non-object argument |
| BackgroundMode.ExecuteSpec | src/android/BackgroundMode.java:70-100 | an unknown action answers "Invalid action: <action>" and returns false, and is the only way to return false; a thrown null dereference changes nothing |
| BackgroundMode.QuietAppend | src/android/BackgroundMode.java:314-320 | effects other than ACTIVATE/DEACTIVATE events leave the list of lifecycle events unchanged |
| BackgroundMode.StartKeepsInv | src/android/BackgroundMode.java:248-281 | a start attempt keeps the invariant: started implies enabled, lifecycle events alternate starting with ACTIVATE, and started iff an odd number of them |
| BackgroundMode.StopIsRefused | src/android/BackgroundMode.java:286-294 | under the invariant a stop attempt on the unchanged flags is always refused by its guards |
| BackgroundMode.DisableKeepsInv | src/android/BackgroundMode.java:189-193 | disable keeps the invariant |
| BackgroundMode.ReplyKeepsInv | src/android/BackgroundMode.java:70-100 | answering a callback keeps the invariant |
| BackgroundMode.ExecuteKeepsInv | src/android/BackgroundMode.java:70-100 | every execute keeps the invariant |
| BackgroundMode.PermissionResultKeepsInv | src/android/BackgroundMode.java:134-159 | every permission result keeps the invariant |
| BackgroundMode.StepKeepsInv | src/android/BackgroundMode.java:57-65 | every command (execute, permission result, pause, resume, destroy) keeps the invariant |
| BackgroundMode.RunKeepsInv | src/android/BackgroundMode.java:43-100 | over any sequence of commands, started implies enabled and the lifecycle events alternate ACTIVATE/DEACTIVATE starting with ACTIVATE |
| BackgroundMode.InitialInv | src/android/BackgroundMode.java:43-55 | the freshly created controller satisfies the invariant |
| BackgroundMode.StartSendsNoReplies | src/android/BackgroundMode.java:248-281 | a start attempt sends no result to any callback |
| BackgroundMode.EnableWithoutPrompt | src/android/BackgroundMode.java:179-183 | without a needed permission: the mode is enabled, the service is started unless starting throws, the slot is untouched, and the callback gets exactly one result, success |
| BackgroundMode.EnableWithPrompt | src/android/BackgroundMode.java:167-177 | on Android 13+ without the permission: pending is set, the callback takes the slot and gets exactly NO_RESULT, the only new effects are that reply and the permission request, so no start is attempted (the flags and the lifecycle events are unchanged) |
| BackgroundMode.PermissionResultDelivered | src/android/BackgroundMode.java:141-158 | with code 1001 and a stored callback: it gets success if granted, else "Notification permission denied", exactly once; the slot is cleared; enable and start happen only when pending and granted; otherwise the flags, pending included, are as before |
| BackgroundMode.OverwrittenCallbackIsNeverAnswered | src/android/BackgroundMode.java:115-121 | after a second request overwrites the slot, the permission result answers only the second callback; the first gets nothing more |
| BackgroundMode.DisableAlwaysSucceeds | src/android/BackgroundMode.java:84-87 | "disable" returns true, leaves the mode disabled and stopped, and answers success exactly once |
| BackgroundMode.LifecycleSignals | src/android/BackgroundMode.java:207-225 | pause sets inBackground and keeps isEnabled; under the invariant resume only clears inBackground, and destroy changes nothing |
| BackgroundMode.PauseSpec | src/android/BackgroundMode.java:207-215 | afterwards inBackground is set and only the started flag and effects may differ; the service is started afterwards iff it already was, or the mode is enabled and starting does not throw |
| BackgroundMode.ResumeSpec | src/android/BackgroundMode.java:221-225 | afterwards inBackground is clear; an enabled mode or a stopped service is left as it was apart from that flag; a disabled mode is never left started |
| BackgroundMode.DestroySpec | src/android/BackgroundMode.java:57-65 | only the started flag and effects may change; an enabled mode or a stopped service is left exactly as it was; a disabled mode is never left started |
| BackgroundMode.ConfigureNeverStarts | src/android/BackgroundMode.java:230-243 | configure never changes whether the service is started and fires no lifecycle event |
| BackgroundMode.SettingsStore.constructor | src/android/BackgroundMode.java:34 | the default settings start as an empty object |
| BackgroundMode.BackgroundMode.constructor | src/android/BackgroundMode.java:43-55 | all flags false, the slot empty, nothing emitted |
| BackgroundMode.BackgroundMode.Execute | src/android/BackgroundMode.java:70-100 | changes the controller exactly as ExecuteSpec and keeps the invariant |
| BackgroundMode.BackgroundMode.RequestNotificationPermission | src/android/BackgroundMode.java:105-129 | changes the controller exactly as RequestPermissionSpec |
| BackgroundMode.BackgroundMode.OnRequestPermissionResult | src/android/BackgroundMode.java:134-159 | changes the controller exactly as PermissionResultSpec and keeps the invariant |
| BackgroundMode.BackgroundMode.EnableMode | src/android/BackgroundMode.java:164-184 | changes the controller exactly as EnableModeSpec |
| BackgroundMode.BackgroundMode.DisableMode | src/android/BackgroundMode.java:189-193 | changes the controller exactly as DisableModeSpec |
| BackgroundMode.BackgroundMode.OnPause | src/android/BackgroundMode.java:207-215 | sets inBackground, attempts a start, keeps the invariant |
| BackgroundMode.BackgroundMode.OnResume | src/android/BackgroundMode.java:221-225 | clears inBackground, attempts a stop, keeps the invariant |
| BackgroundMode.BackgroundMode.OnDestroy | src/android/BackgroundMode.java:57-65 | attempts a stop, keeps the invariant |
| BackgroundMode.BackgroundMode.Configure | src/android/BackgroundMode.java:230-243 | changes the controller and the store exactly as ConfigureSpec, and fails without change where the source throws |
| BackgroundMode.BackgroundMode.StartForeground | src/android/BackgroundMode.java:248-281 | changes the controller exactly as StartForegroundSpec |
| BackgroundMode.BackgroundMode.StopForeground | src/android/BackgroundMode.java:286-309 | changes the controller exactly as StopForegroundSpec |
| ForegroundService.FindIconResourceId | src/android/ForegroundService.java:224-236 | 0 iff the name is empty or found in neither mipmap nor drawable; a non-zero result is one of the two lookups, and the mipmap wins when it has the name |
| ForegroundService.IconResId | src/android/ForegroundService.java:202-218 | never 0; the named icon when found, else "ic_launcher" when found |
| ForegroundService.FirstNonZero | src/android/ForegroundService.java:202-218 | the result is the fallback or one of the ids, and is non-zero iff the fallback or some id is |
| ForegroundService.IconIsFirstHit | src/android/ForegroundService.java:202-236 | the icon is the first lookup that succeeds in the order named mipmap, named drawable, launcher mipmap, launcher drawable, else the system ic_dialog_info |
| ForegroundService.ColorString | src/android/ForegroundService.java:245 | the parsed text is exactly one leading '#' followed by the colour with every '#' removed |
| ForegroundService.ColorOf | src/android/ForegroundService.java:238-250 | no colour below Lollipop or without "color"; otherwise the parsed colour of the normalised string, and none when parsing fails |
| ForegroundService.ServiceTypes | src/android/ForegroundService.java:93-109 | SDK >= 31: DATA_SYNC or REMOTE_MESSAGING; 29-30: DATA_SYNC; below 29 no type |
| ForegroundService.MakeNotification | src/android/ForegroundService.java:133-181 | title/text/icon default to "App is running in background", "Doing heavy tasks.", "ic_launcher"; big text iff bigText or a newline in the text; minimum priority unless hidden is explicitly false; a resume intent (request code 101) iff a launch intent exists and resume is true (default false); a channel from Android 8; the icon is never 0 |
| ForegroundService.KeepAwakeCalls | src/android/ForegroundService.java:84-117 | a silent start posts no foreground notification; a non-silent one first posts the built notification with id 101 and the SDK's type; the wake lock is acquired iff a PowerManager exists, silent or not |
| ForegroundService.UpdateCalls | src/android/ForegroundService.java:183-193 | a silent update only stops the foreground and removes the notification; any other re-posts the rebuilt notification under id 101 |
| ForegroundService.ForegroundService.constructor | src/android/ForegroundService.java:31-32 | no wake lock, nothing done yet |
| ForegroundService.ForegroundService.OnStartCommand | src/android/ForegroundService.java:58-61 | always START_STICKY |
| ForegroundService.ForegroundService.OnCreate | src/android/ForegroundService.java:45-50 | keepAwake; fails without change where the settings store is null |
| ForegroundService.ForegroundService.KeepAwake | src/android/ForegroundService.java:84-117 | appends KeepAwakeCalls of the stored settings and holds the partial wake lock iff a PowerManager exists |
| ForegroundService.ForegroundService.OnDestroy | src/android/ForegroundService.java:52-56 | sleepWell |
| ForegroundService.ForegroundService.SleepWell | src/android/ForegroundService.java:119-127 | stops the foreground, cancels notification 101, and releases and forgets the wake lock only when it is held |
| ForegroundService.ForegroundService.UpdateNotification | src/android/ForegroundService.java:183-193 | appends UpdateCalls and leaves the wake lock alone |
| BackgroundModeJs.ToJson | www/background-mode.js:119-121 | what reaches the bridge: exactly the scalar properties, with their values |
| BackgroundModeJs.ScopeOf | www/background-mode.js:457 | `scope || window`: window exactly when the scope is falsy, the scope itself otherwise |
| BackgroundModeJs.FalsyValues | www/background-mode.js:226 | JavaScript truthiness as used by `if (enable)` and `scope || window`: falsy exactly for undefined, null, false, 0 and "" |
| BackgroundModeJs.PlatformExamples | www/background-mode.js:37 | concrete platform names: Android, amazon-fireos and "Kindle Amazon" are accepted, iOS and browser rejected |
| BackgroundModeJs.PlatformAccepted | www/background-mode.js:37 | for all strings: /^android|amazon/i accepts any name that starts with "android", and any name with "amazon" anywhere, because the anchor binds only to the first alternative |
| BackgroundModeJs.AndroidOnlyAsPrefix | www/background-mode.js:37 | for all strings: a name that does not start with "a" or "A" and has no "amazon" in it is rejected, so "android" counts only as a prefix |
| BackgroundModeJs.Merged | www/background-mode.js:403-412 | the keys are the union; every key options had keeps its value |
| BackgroundModeJs.MergedTakesMissing | www/background-mode.js:403-412 | a key options lacks takes the value src has |
| BackgroundModeJs.MergedIntoEmpty | www/background-mode.js:45 | merging into {} copies the source |
| BackgroundModeJs.MergedIdempotent | www/background-mode.js:403-412 | merging an object into itself, or merging the same source again, changes nothing |
| BackgroundModeJs.MergedAssociative | www/background-mode.js:142-156 | two merges in a row equal one merge with the sources merged first: explicit options beat runtime settings, which beat the defaults |
| BackgroundModeJs.Overridden | www/background-mode.js:111-118 | the defaults' key set never changes |
| BackgroundModeJs.OverriddenIsRestrictedMerge | www/background-mode.js:111-118 | overriding is the merge of overrides over defaults restricted to the defaults' keys: unknown keys are ignored, overridden keys take the override, the others keep their value |
| BackgroundModeJs.OverriddenNeutral | www/background-mode.js:111-118 | overriding with {} or with the defaults themselves changes nothing |
| BackgroundModeJs.DefaultsAsSent | www/background-mode.js:84-92 | of the defaults only bigText=false and resume=true reach the native side |
| BackgroundModeJs.FirstMatch | www/background-mode.js:470-484 | the first listener whose function is the callback, or none iff no listener matches |
| BackgroundModeJs.RemoveFirst | www/background-mode.js:470-484 | removes at most one listener |
| BackgroundModeJs.RemoveFirstAtFirstMatch | www/background-mode.js:470-484 | off splices out exactly the first match and changes nothing without one |
| BackgroundModeJs.RemoveFirstSplit | www/background-mode.js:470-484 | the listeners before the first match are kept, in order |
| BackgroundModeJs.OffUndoesOn | www/background-mode.js:449-484 | on then off with a function not registered before restores the list |
| BackgroundModeJs.RemoveFirstCounts | www/background-mode.js:470-484 | off removes at most one registration, and every non-matching listener keeps its count |
| BackgroundModeJs.Invocations | www/background-mode.js:424-438 | one call per listener, in registration order, with the listener's scope and the arguments after the event name |
| BackgroundModeJs.LastBuiltin | www/background-mode.js:424-438 | the last of the plugin's own handlers in a list; none iff all listeners are the application's |
| BackgroundModeJs.ActiveAfter | www/background-mode.js:42-51 | `_isActive` after a list of listeners: true when the plugin's last own handler is the activate one, false when it is the deactivate one, and the old value when there is none |
| BackgroundModeJs.UserListenersKeepLastBuiltin | www/background-mode.js:449-460 | listeners the application adds do not change what the plugin's own handlers leave behind |
| BackgroundModeJs.ActiveAfterLastHandler | www/background-mode.js:424-460 | whatever came before, after a plugin handler followed only by application listeners `_isActive` is true exactly when that handler is the activate one |
| BackgroundModeJs.JsObject.constructor | www/background-mode.js:45 | an object holding the given properties |
| BackgroundModeJs.MergeObjects | www/background-mode.js:403-412 | returns the same options object; its properties become Merged(options, src), and an undefined src changes nothing |
| BackgroundModeJs.Exports.constructor | www/background-mode.js:84-92 | flags undefined, settings unset, the defaults as declared, no listeners |
| BackgroundModeJs.Exports.PluginInitialize | www/background-mode.js:35-57 | Android (a name starting with "android" or containing "amazon"): both flags false and the two handlers appended with scope window; browser: both flags true; otherwise both false |
| BackgroundModeJs.Exports.IsEnabled | www/background-mode.js:64-67 | true unless the flag is exactly false |
| BackgroundModeJs.Exports.IsActive | www/background-mode.js:74-77 | true unless the flag is exactly false |
| BackgroundModeJs.Exports.SetDefaults | www/background-mode.js:111-122 | the defaults become Overridden(defaults, overrides), and on Android they are sent with update=false |
| BackgroundModeJs.Exports.GetSettings | www/background-mode.js:129-132 | the runtime settings object itself, or a new {} when unset |
| BackgroundModeJs.Exports.Configure | www/background-mode.js:142-156 | nothing unless on Android and active; otherwise the caller's object gets options over runtime over defaults, becomes the runtime settings, and is sent with update=true |
| BackgroundModeJs.Exports.Enable | www/background-mode.js:168-185 | while enabled: success is called and there is no bridge call; otherwise only the native enable is called |
| BackgroundModeJs.Exports.Disable | www/background-mode.js:196-213 | while disabled: success is called and there is no bridge call; otherwise only the native disable is called |
| BackgroundModeJs.Exports.SetEnabled | www/background-mode.js:224-231 | enable for a truthy argument, disable otherwise, with those short-circuits |
| BackgroundModeJs.Exports.On | www/background-mode.js:449-460 | a non-function is ignored; otherwise [callback, scope \|\| window] is appended to the event's list |
| BackgroundModeJs.Exports.Off | www/background-mode.js:470-484 | the event's list loses its first match (RemoveFirst); an unknown event is a no-op |
| BackgroundModeJs.Exports.CallListener | www/background-mode.js:42-51 | the activate handler sets active and a fresh copy of the defaults; the deactivate handler sets inactive and a fresh {}; an application function is only called |
| BackgroundModeJs.Exports.FireEvent | www/background-mode.js:424-438 | calls the event's listeners in order (Invocations), and the flag and settings are what the last plugin handler among them leaves |
| BackgroundModeJs.Exports.DeviceReady | www/background-mode.js:495-504 | fires 'enable' when enabled, then 'activate' when active after that |
| BackgroundModeExt.IsDimmed | src/android/BackgroundModeExt.java:462-471 | false without a PowerManager; from API 20, dimmed iff not interactive; below API 20, dimmed iff the screen is off |
| BackgroundModeExt.DimmedAnswer | src/android/BackgroundModeExt.java:90-92 | "dimmed" returns true and appends exactly one effect: the callback gets OK with the three-case dimmed value (no PowerManager, API 20+ and interactive, older and screen on) |
| BackgroundModeExt.FirstResolvable | src/android/BackgroundModeExt.java:259-282 | the first entry that resolves, skipping unresolved and throwing ones; none iff nothing resolves |
| BackgroundModeExt.AppStartIntent | src/android/BackgroundModeExt.java:259-286 | the app-details fallback iff no vendor intent resolves |
| BackgroundModeExt.SelectAppStartIntent | src/android/BackgroundModeExt.java:259-286 | the loop with break returns the first resolvable entry, or the app-details settings when none resolves |
| BackgroundModeExt.DialogBody | src/android/BackgroundModeExt.java:325-331 | never empty; the default sentence when there is no spec, no "text" or an empty text, and the text unchanged otherwise |
| BackgroundModeExt.DialogMessage | src/android/BackgroundModeExt.java:320-352 | title + "\n\n" + message with a title, else the message; bold and larger spans iff there is a title, each over [0, title length) |
| BackgroundModeExt.DialogSpansCoverTitle | src/android/BackgroundModeExt.java:336-352 | the styled range is exactly the title and the text ends with the message |
| BackgroundModeExt.DialogDefault | src/android/BackgroundModeExt.java:320-331 | without title and text the default sentence is shown unstyled |
| BackgroundModeExt.ForceVisibility | src/android/BackgroundModeExt.java:207-225 | between 1 and retries+1 attempts; it stops at the first attachment; when shown, the last attempt is the one that found the view attached; a failure used every retry |
| BackgroundModeExt.ForceVisibilityShownIff | src/android/BackgroundModeExt.java:207-225 | the view is shown iff it is attached at one of the first retries+1 attempts |
| BackgroundModeExt.EmitFacts | src/android/BackgroundModeExt.java:50-115 | one more effect adds only its own result and lock operation to the observations |
| BackgroundModeExt.ReleaseWakeLockSpec | src/android/BackgroundModeExt.java:510-519 | the lock is released and forgotten only when it is held; otherwise nothing changes |
| BackgroundModeExt.AcquireWakeLockSpec | src/android/BackgroundModeExt.java:491-508 | nothing without a PowerManager; otherwise a held prior lock is released first, and a new one is acquired (3 s) only when dimmed; nothing else changes |
| BackgroundModeExt.WakeLockExpiredSpec | src/android/BackgroundModeExt.java:505-507 | after the 3 s timeout the lock is no longer held while the field keeps it |
| BackgroundModeExt.SendAppStartResultSpec | src/android/BackgroundModeExt.java:414-426 | afterwards the slot is empty; without a stored callback nothing changes; otherwise exactly that callback gets one result (success, or the error) and the launched flag is cleared; no lock operation, lock and keep-alive untouched |
| BackgroundModeExt.LaunchAppStartSpec | src/android/BackgroundModeExt.java:428-431 | the launch is marked and the slot kept; the only new effect is opening the intent: no results and no lock operations |
| BackgroundModeExt.AppStartTimeoutSpec | src/android/BackgroundModeExt.java:433-437 | nothing unless the launch is marked; then the slot is emptied, and only the stored callback, if any, gets success; no lock operation |
| BackgroundModeExt.SpecOf | src/android/BackgroundModeExt.java:306 | the dialog uses the argument only when it is an object |
| BackgroundModeExt.OpenAppStartSpec | src/android/BackgroundModeExt.java:251-308 | no other callback gets results; this one gets "No activity", or NO_RESULT kept followed by "Failed to open" for a failing direct launch, or only NO_RESULT kept; with an activity it holds the slot unless the direct launch fails, and the launch is marked iff launched directly; the last effect is the opened intent, or the dialog with the message and the selected intent; locks untouched |
| BackgroundModeExt.DialogConfirmedSpec | src/android/BackgroundModeExt.java:356-362 | OK opens the intent and marks the launch with the slot kept and no result sent; a failing launch answers only the stored callback "Failed to open from dialog" and empties the slot; locks untouched |
| BackgroundModeExt.EnsureKeepAliveSpec | src/android/BackgroundModeExt.java:178-184 | either nothing or exactly the keep-alive post; it is posted iff there is an activity; no results, no lock operations |
| BackgroundModeExt.DisableWebViewOptimizationsSpec | src/android/BackgroundModeExt.java:164-167 | keep-alive is requested from now on and posted |
| BackgroundModeExt.OnPauseSpec | src/android/BackgroundModeExt.java:169-176 | either nothing or exactly the keep-alive post; it is posted iff keep-alive was requested and there is an activity; no results, no lock operations |
| BackgroundModeExt.KeepAliveRunSpec | src/android/BackgroundModeExt.java:186-225 | only effects change, never results or locks; with the view, exactly one forceVisibility outcome of 1 to 21 attempts, shown iff the view is attached at one of the first 21; without it, the runnable is re-posted iff keep-alive is requested |
| BackgroundModeExt.BatterySpec | src/android/BackgroundModeExt.java:227-249 | either nothing or exactly the exemption request; it is requested iff there is an activity, SDK >= 23, a PowerManager, and the app is not already exempt; no results, no lock operations |
| BackgroundModeExt.BackgroundSpec | src/android/BackgroundModeExt.java:117-128 | either nothing or exactly the move to the home screen; it happens iff there is an activity; no results, no lock operations |
| BackgroundModeExt.ForegroundSpec | src/android/BackgroundModeExt.java:130-162 | either nothing or exactly bringing the app to front followed by clearing the screen and keyguard flags; it happens iff there is an activity and a launch intent; no results, no lock operations |
| BackgroundModeExt.TaskListSpec | src/android/BackgroundModeExt.java:440-454 | either nothing or exactly setting the first app task's exclusion to the value; it happens iff there is an activity, an activity manager, SDK >= 21 and an app task; no results, no lock operations |
| BackgroundModeExt.ParseAction | src/android/BackgroundModeExt.java:62-103 | a case label is selected iff the name is one of the ten known actions, and the label selected is the one spelled that way |
| BackgroundModeExt.ParseActionName | src/android/BackgroundModeExt.java:62-103 | every case label is selected by its own name |
| BackgroundModeExt.UnlockSpec | src/android/BackgroundModeExt.java:473-488 | wakeup then unlock: the state of acquireWakeLock followed by exactly the keyguard flags (with an activity) and the launch intent (with an activity and a launch intent); no further lock operation, and no callback gets a result |
| BackgroundModeExt.Handle | src/android/BackgroundModeExt.java:62-103 | a case handler sends no results and keeps the app-start slot and launched flag; the handlers other than wakeup and unlock perform no lock operation and keep the lock |
| BackgroundModeExt.Dispatch | src/android/BackgroundModeExt.java:62-103 | only the calling callback gets results; every case other than appstart answers it exactly once, OK with the dimmed value for "dimmed" and success otherwise, and keeps the slot |
| BackgroundModeExt.ExecuteSpec | src/android/BackgroundModeExt.java:57-115 | true iff a known action whose handler does not throw; unknown: "Invalid action: X"; throwing: "Error executing X: msg" |
| BackgroundModeExt.QuietKeepsInv | src/android/BackgroundModeExt.java:57-115 | an effect that is neither a result nor a lock operation keeps the invariant |
| BackgroundModeExt.ReplyKeepsInv | src/android/BackgroundModeExt.java:57-115 | a first final result to a callback outside the slot keeps the invariant |
| BackgroundModeExt.SendResultKeepsInv | src/android/BackgroundModeExt.java:414-426 | delivering the app-start result keeps the invariant |
| BackgroundModeExt.LockKeepsInv | src/android/BackgroundModeExt.java:491-519 | acquireWakeLock keeps the invariant: releases only follow acquisitions, a held lock was the last acquired |
| BackgroundModeExt.OpenAppStartKeepsInv | src/android/BackgroundModeExt.java:251-308 | openAppStart with a fresh callback keeps the invariant |
| BackgroundModeExt.QuietReplies | src/android/BackgroundModeExt.java:57-115 | an effect that is not a result changes no callback's results |
| BackgroundModeExt.HandleKeepsInv | src/android/BackgroundModeExt.java:57-115 | the handlers other than appstart keep the invariant, the slot and every callback's results |
| BackgroundModeExt.UnlockKeepsInv | src/android/BackgroundModeExt.java:473-488 | wakeup then unlock keeps the invariant and sends no results |
| BackgroundModeExt.DispatchKeepsInv | src/android/BackgroundModeExt.java:57-115 | a dispatched action keeps the invariant |
| BackgroundModeExt.AcquireKeepsReplies | src/android/BackgroundModeExt.java:491-508 | acquireWakeLock sends no results |
| BackgroundModeExt.ExecuteKeepsInv | src/android/BackgroundModeExt.java:57-115 | every execute with a fresh callback keeps the invariant |
| BackgroundModeExt.StepKeepsInv | src/android/BackgroundModeExt.java:57-115 | every command (execute, timeout, dialog button, pause, keep-alive run, lock expiry) keeps the invariant |
| BackgroundModeExt.RunKeepsInv | src/android/BackgroundModeExt.java:50-115 | over any run, every callback gets at most one final result, the slot's callback none yet, and the wake lock is only released when held |
| BackgroundModeExt.InitialInv | src/android/BackgroundModeExt.java:50-55 | the initial state satisfies the invariant |
| BackgroundModeExt.KeepAliveRequestPersists | src/android/BackgroundModeExt.java:164-176 | once keep-alive is requested it stays requested after any command |
| BackgroundModeExt.PauseRetriggersKeepAlive | src/android/BackgroundModeExt.java:169-176 | once requested, every pause with an activity posts keep-alive again |
| BackgroundModeExt.SendAppStartResultAtMostOnce | src/android/BackgroundModeExt.java:414-426 | after a delivery the slot is empty, and a second delivery or the timeout changes nothing |
| BackgroundModeExt.TimeoutDeliversOnlyAfterLaunch | src/android/BackgroundModeExt.java:428-438 | the timeout answers the stored callback with success only while the launch is marked |
| BackgroundModeExt.OpenAppStartSlot | src/android/BackgroundModeExt.java:251-308 | no activity: only "No activity", the slot untouched; else the callback is stored with exactly NO_RESULT, or answered "Failed to open" when the direct launch throws |
| BackgroundModeExt.ReleaseOnlyWhenHeld | src/android/BackgroundModeExt.java:510-519 | the field is cleared exactly when the lock is held, and then one release is performed |
| BackgroundModeExt.InvalidActionRejected | src/android/BackgroundModeExt.java:57-115 | an unknown action or a throwing handler returns false, answers the matching error once, and changes nothing else |
| BackgroundModeExt.BackgroundModeExt.constructor | src/android/BackgroundModeExt.java:50-55 | no wake lock, an empty slot, keep-alive not requested |
| BackgroundModeExt.BackgroundModeExt.Execute | src/android/BackgroundModeExt.java:57-115 | changes the plugin exactly as ExecuteSpec |
| BackgroundModeExt.BackgroundModeExt.RunAction | src/android/BackgroundModeExt.java:62-103 | runs the selected case exactly as Dispatch: the handler, then success where the case sends it |
| BackgroundModeExt.BackgroundModeExt.DisableBatteryOptimizations | src/android/BackgroundModeExt.java:227-249 | exactly as BatterySpec |
| BackgroundModeExt.BackgroundModeExt.DisableWebViewOptimizations | src/android/BackgroundModeExt.java:164-167 | exactly as DisableWebViewOptimizationsSpec |
| BackgroundModeExt.BackgroundModeExt.OnPause | src/android/BackgroundModeExt.java:169-176 | exactly as OnPauseSpec |
| BackgroundModeExt.BackgroundModeExt.EnsureKeepAlive | src/android/BackgroundModeExt.java:178-184 | exactly as EnsureKeepAliveSpec |
| BackgroundModeExt.BackgroundModeExt.KeepAliveRun | src/android/BackgroundModeExt.java:186-200 | exactly as KeepAliveRunSpec |
| BackgroundModeExt.BackgroundModeExt.OpenAppStart | src/android/BackgroundModeExt.java:251-308 | exactly as OpenAppStartSpec |
| BackgroundModeExt.BackgroundModeExt.DialogConfirmed | src/android/BackgroundModeExt.java:356-362 | exactly as DialogConfirmedSpec |
| BackgroundModeExt.BackgroundModeExt.DialogCanceled | src/android/BackgroundModeExt.java:363-365 | delivers "Canceled from dialog" |
| BackgroundModeExt.BackgroundModeExt.DialogFailed | src/android/BackgroundModeExt.java:408-410 | delivers "Failed to show dialog" |
| BackgroundModeExt.BackgroundModeExt.SendAppStartResult | src/android/BackgroundModeExt.java:414-426 | exactly as SendAppStartResultSpec |
| BackgroundModeExt.BackgroundModeExt.LaunchAppStart | src/android/BackgroundModeExt.java:428-431 | exactly as LaunchAppStartSpec |
| BackgroundModeExt.BackgroundModeExt.AppStartTimeout | src/android/BackgroundModeExt.java:433-437 | exactly as AppStartTimeoutSpec |
| BackgroundModeExt.BackgroundModeExt.MoveToBackground | src/android/BackgroundModeExt.java:117-128 | exactly as BackgroundSpec |
| BackgroundModeExt.BackgroundModeExt.MoveToForeground | src/android/BackgroundModeExt.java:130-162 | exactly as ForegroundSpec |
| BackgroundModeExt.BackgroundModeExt.SetExcludeFromRecents | src/android/BackgroundModeExt.java:440-454 | exactly as TaskListSpec |
| BackgroundModeExt.BackgroundModeExt.Unlock | src/android/BackgroundModeExt.java:481-488 | keyguard flags when there is an activity, then the launch intent when there is one |
| BackgroundModeExt.BackgroundModeExt.AcquireWakeLock | src/android/BackgroundModeExt.java:491-508 | exactly as AcquireWakeLockSpec |
| BackgroundModeExt.BackgroundModeExt.ReleaseWakeLock | src/android/BackgroundModeExt.java:510-519 | exactly as ReleaseWakeLockSpec |
| BackgroundModeExt.BackgroundModeExt.WakeLockExpired | src/android/BackgroundModeExt.java:505-507 | exactly as WakeLockExpiredSpec |
| Json.ToBoolean | src/android/ForegroundService.java:137 | booleans, and the strings "true"/"false" compared with Java's equalsIgnoreCase, which also folds the long s, the dotless i, the dotted capital I and the Kelvin sign; nothing else coerces |
| Json.ToBooleanExamples | src/android/ForegroundService.java:137 | "TRUE", "False" and "fal\u017Fe" coerce; "yes", "1", the number 1 and null do not |
| Json.ToText | src/android/ForegroundService.java:134-136 | the text optString reads: a string as it is, null as "null", booleans as "true"/"false" |
| Json.OptString | src/android/ForegroundService.java:134-136 | the fallback when absent; else the string itself, "null" for a JSON null, "true"/"false" for a boolean, and the decimal text of a number |
| Json.OptStringOrNull | src/android/ForegroundService.java:239 | null exactly when the key is absent, else the value's text |
| Json.OptStringOrNullAgrees | src/android/ForegroundService.java:239 | with a null fallback optString reads the same text as with any other fallback |
| Json.OptBoolean | src/android/ForegroundService.java:137 | the fallback when absent or not coercible, else the coerced value (a boolean is its own value) |
| Json.OptObjectAt | src/android/BackgroundMode.java:78 | the object argument at an index, or null |
| Json.OptAt | src/android/BackgroundModeExt.java:72 | null exactly when the index is out of range, else the element there |
| Json.OptBooleanAt | src/android/BackgroundMode.java:78 | true iff the index is in range and holds a value that coerces to true |
| Text.RemoveAll | src/android/ForegroundService.java:245 | no removed character remains; the others keep their multiplicity |
| Text.RemoveAllAppend | src/android/ForegroundService.java:245 | removal commutes with concatenation, so the kept characters stay in order |

## Left out

- The Cordova bridge, Android intents, activities, PendingIntents and Notification.Builder are foreign APIs. Calls into them are entries of a trace, and their answers are parameters.
- `webView.loadUrl` script injection is not modelled. `fireEvent` is an event with its parameter text.
- Real time is not modelled. The app-start timeout, the 3-second wake-lock expiry, the dialog buttons and the keep-alive runnable are explicit commands. The 200 ms interval between `forceVisibility` attempts and the 100 ms repost delay are not modelled.
- Threading is not modelled: `runOnUiThread`, `decorView.post` and the `volatile` field. Each command runs to its end before the next starts.
- The UI is not modelled: notification channel creation, IME hiding, AlertDialog construction and the Crosswalk reflection call. Only whether a dialog is shown, and its text and spans, are modelled.
- Window and keyguard flags are not modelled beyond the calls themselves. unlock records `addScreenAndKeyguardFlags` as an effect, and moveToForeground records `clearScreenAndKeyguardFlags`; what those flags do to the window is not modelled, and neither are the `clearKeyguardFlags` calls in BackgroundMode's `onStop` and `onPause`.
- `killProcess` in `onDestroy` below Android 8 is process termination, outside the model.
- The vendor intent table is a ranked list of resolution answers, not its 21 entries. It is data.
- `Color.parseColor`, `PackageManager.resolveActivity`, `Resources.getIdentifier` and `PowerManager` are foreign library calls, modelled as tables or device inputs.
- JSON values are flat scalars; nested objects and arrays inside settings are not modelled. The plugin reads only scalar keys.
- Numbers in settings are integers, written as Java's decimal text; floating-point values are not modelled.
- JS listener functions are opaque identities. What an application's listener does when called is not modelled, and so neither is re-entrancy into the registry.
- JS event names that collide with `Object.prototype` keys, loose-equality coercion in `off`, NaN truthiness, and the TypeErrors the JS raises for non-function callbacks or non-object options are not modelled. `success`/`error` are function references, and options are objects.
- BackgroundModeJs.Exports.Enable: the `onSuccess`/`onError` closures that the native call later invokes are not modelled, because their `this` is not `exports`.
- The thin JS wrappers that forward one action to the extension plugin (`disableWebViewOptimizations`, `disableBatteryOptimizations`, `openAppStartSettings`, `moveToBackground`, `moveToForeground`, `excludeFromTaskList`, `includeToTaskList`, `wakeUp`, `unlock`) are not modelled. Each is a single bridge call guarded by the platform test; the actions they reach are modelled on the native side.
- Four further JS functions are not modelled, because each is a line of glue around code modelled elsewhere:
  - `getDefaults` returns the defaults object itself.
  - `overrideBackButton` makes no bridge call; on Android it registers `moveToBackground` as the DOM `backbutton` listener.
  - `isScreenOff` calls the extension's `dimmed` action on Android; elsewhere it calls its callback with `undefined`.
  - `requestPermissions` calls the `BackgroundMode` plugin's `requestPermissions` action on Android; elsewhere it calls `success` when one is given.
- BackgroundModeExt.ExecuteSpec: a handler that throws is taken to throw before it changes anything. Exceptions caught inside handlers (`startActivity` in battery, `setExcludeFromRecents`) are folded into the handler's no-op branch.
- BackgroundModeExt.BackgroundModeExt.Unlock: the wake-lock acquisition inside `wakeup` is taken not to throw. Its catch branch (release) is not modelled.
- The source as shown does not compile in three places: an undeclared `activity` in `requestNotificationPermission`, `getSettings()` where only `getDefaultSettings()` exists, and `ForegroundService.ACTION_UPDATE`. The model takes the evident meaning of each: the plugin's activity, the default-settings store, and an abstract update command.
- ForegroundService.ForegroundService.KeepAwake: the PowerManager's own acquire bookkeeping is a `held` flag, and the partial lock's tag is fixed.
