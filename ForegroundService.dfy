/** The foreground service (class ForegroundService): the notification it builds
    from the settings, the icon fallback chain, the colour string handling, the
    foreground-service type chosen by SDK level, and the start / update / teardown
    handling of its wake lock.

    Android's Notification.Builder, Resources.getIdentifier, Color.parseColor and
    PowerManager are inputs: a notification is a record, resource lookup is a pair
    of tables, colour parsing is a table of the strings it accepts, and the calls
    the service makes on the system are appended to a log. */
module ForegroundService {
  import opened Optional
  import opened Text
  import opened Json
  import BackgroundMode

  const NOTIFICATION_ID: int := 101
  const CHANNEL_ID: string := "cordova_adv_bg_mode_channel_v1"
  const NOTIFICATION_TITLE: string := "App is running in background"
  const NOTIFICATION_TEXT: string := "Doing heavy tasks."
  const NOTIFICATION_ICON: string := "ic_launcher"
  const WAKE_LOCK_TAG: string := "backgroundmode:wakelock"

  /** android.R.drawable.ic_dialog_info */
  const IC_DIALOG_INFO: nat := 0x0108_0027

  // ServiceInfo foreground-service types (single bits, so `|` of them is `+`)
  const FOREGROUND_SERVICE_TYPE_DATA_SYNC: int := 0x1
  const FOREGROUND_SERVICE_TYPE_REMOTE_MESSAGING: int := 0x200

  // PendingIntent flags (single bits)
  const FLAG_UPDATE_CURRENT: int := 0x0800_0000
  const FLAG_IMMUTABLE: int := 0x0400_0000

  /** Service.START_STICKY */
  const START_STICKY: int := 1
  /** PowerManager.PARTIAL_WAKE_LOCK */
  const PARTIAL_WAKE_LOCK: int := 1

  // Build.VERSION_CODES
  const LOLLIPOP: int := 21
  const M: int := 23
  const O: int := 26
  const Q: int := 29
  const S: int := 31

  /** The app's resources as Resources.getIdentifier sees them, per resource type. */
  datatype Resources = Resources(mipmap: map<string, nat>, drawable: map<string, nat>)

  /** Resources.getIdentifier: 0 when there is no such resource. */
  function GetIdentifier(table: map<string, nat>, name: string): nat
  {
    if name in table then table[name] else 0
  }

  /** What the service observes of the device: the SDK level, the resources,
      whether the package has a launch intent, the strings Color.parseColor
      accepts (with the colour each gives), and whether a PowerManager exists. */
  datatype Device = Device(
    sdk: int,
    resources: Resources,
    hasLaunchIntent: bool,
    colors: map<string, int>,
    hasPowerManager: bool)

  /** The tap action of the notification: PendingIntent.getActivity(context, code, launchIntent, flags). */
  datatype ContentIntent = ContentIntent(requestCode: int, flags: int)

  /** The built notification, as the fields the builder was given. */
  datatype Notification = Notification(
    channel: Option<string>,
    title: string,
    text: string,
    ongoing: bool,
    smallIcon: nat,
    minPriority: bool,
    bigText: Option<string>,
    color: Option<int>,
    contentIntent: Option<ContentIntent>)

  // ---------------------------------------------------------------------------
  // Icon lookup

  /** findIconResourceId: the named icon among the mipmaps, else among the
      drawables; 0 for an empty name or when neither has it. */
  function FindIconResourceId(res: Resources, name: string): (r: nat)
    ensures r == 0 <==> name == "" || (GetIdentifier(res.mipmap, name) == 0 && GetIdentifier(res.drawable, name) == 0)
    ensures r != 0 ==> r == GetIdentifier(res.mipmap, name) || r == GetIdentifier(res.drawable, name)
    ensures name != "" && GetIdentifier(res.mipmap, name) != 0 ==> r == GetIdentifier(res.mipmap, name)
  {
    if name == "" then 0
    else
      var id := GetIdentifier(res.mipmap, name);
      if id == 0 then GetIdentifier(res.drawable, name) else id
  }

  /** getIconResId: the named icon, then "ic_launcher", then the system
      ic_dialog_info; never 0. */
  function IconResId(res: Resources, name: string): (r: nat)
    ensures r != 0
    ensures FindIconResourceId(res, name) != 0 ==> r == FindIconResourceId(res, name)
    ensures FindIconResourceId(res, name) == 0 && FindIconResourceId(res, NOTIFICATION_ICON) != 0 ==>
              r == FindIconResourceId(res, NOTIFICATION_ICON)
  {
    var id := FindIconResourceId(res, name);
    var id' := if id == 0 then FindIconResourceId(res, NOTIFICATION_ICON) else id;
    if id' == 0 then IC_DIALOG_INFO else id'
  }

  /** The lookups in the order the source makes them. */
  function IconCandidates(res: Resources, name: string): seq<nat>
  {
    (if name == "" then [] else [GetIdentifier(res.mipmap, name), GetIdentifier(res.drawable, name)])
    + [GetIdentifier(res.mipmap, NOTIFICATION_ICON), GetIdentifier(res.drawable, NOTIFICATION_ICON)]
  }

  /** The first non-zero id of a list, or the fallback. */
  function FirstNonZero(ids: seq<nat>, fallback: nat): (r: nat)
    ensures r == fallback || r in ids
    ensures r != 0 <==> fallback != 0 || exists i :: 0 <= i < |ids| && ids[i] != 0
  {
    if ids == [] then fallback
    else if ids[0] != 0 then ids[0]
    else FirstNonZero(ids[1..], fallback)
  }

  /** The icon is the first lookup that succeeds, in the order: named mipmap,
      named drawable, launcher mipmap, launcher drawable; else the system icon. */
  lemma IconIsFirstHit(res: Resources, name: string)
    ensures IconResId(res, name) == FirstNonZero(IconCandidates(res, name), IC_DIALOG_INFO)
  {
    var x, y := GetIdentifier(res.mipmap, NOTIFICATION_ICON), GetIdentifier(res.drawable, NOTIFICATION_ICON);
    FirstNonZeroStep([y], IC_DIALOG_INFO);
    FirstNonZeroStep([x, y], IC_DIALOG_INFO);
    if name != "" {
      var a, b := GetIdentifier(res.mipmap, name), GetIdentifier(res.drawable, name);
      assert IconCandidates(res, name) == [a, b, x, y];
      FirstNonZeroStep([b, x, y], IC_DIALOG_INFO);
      FirstNonZeroStep([a, b, x, y], IC_DIALOG_INFO);
    }
  }

  lemma FirstNonZeroStep(ids: seq<nat>, fallback: nat)
    requires ids != []
    ensures FirstNonZero(ids, fallback) == if ids[0] != 0 then ids[0] else FirstNonZero(ids[1..], fallback)
  {
  }

  // ---------------------------------------------------------------------------
  // Colour, priority, service type

  /** The text handed to Color.parseColor: every '#' stripped, then one prepended. */
  function ColorString(hex: string): (r: string)
    ensures |r| > 0 && r[0] == '#' && '#' !in r[1..]
    ensures r[1..] == RemoveAll(hex, '#')
  {
    "#" + RemoveAll(hex, '#')
  }

  /** setColor: no colour below Lollipop or when "color" is absent; otherwise the
      parsed colour, and nothing when parsing fails (the exception is swallowed). */
  function ColorOf(settings: Object, device: Device): (r: Option<int>)
    ensures "color" !in settings || device.sdk < LOLLIPOP ==> r.None?
    ensures r.Some? <==> device.sdk >= LOLLIPOP && "color" in settings &&
                         ColorString(ToText(settings["color"])) in device.colors
    ensures r.Some? ==> r.value == device.colors[ColorString(ToText(settings["color"]))]
  {
    match OptStringOrNull(settings, "color")
    case None => None
    case Some(hex) =>
      if device.sdk < LOLLIPOP then None
      else
        var text := ColorString(hex);
        if text in device.colors then Some(device.colors[text]) else None
  }

  /** The foreground-service type keepAwake passes: data sync and remote
      messaging on Android 12+, data sync only on 10-11, and none (the two-argument
      startForeground) before 10. */
  function ServiceTypes(sdk: int): (r: Option<int>)
    ensures sdk >= S ==> r == Some(FOREGROUND_SERVICE_TYPE_DATA_SYNC + FOREGROUND_SERVICE_TYPE_REMOTE_MESSAGING)
    ensures Q <= sdk < S ==> r == Some(FOREGROUND_SERVICE_TYPE_DATA_SYNC)
    ensures sdk < Q <==> r.None?
  {
    var both := FOREGROUND_SERVICE_TYPE_DATA_SYNC + FOREGROUND_SERVICE_TYPE_REMOTE_MESSAGING;
    if sdk >= 34 then Some(both)
    else if sdk >= S then Some(both)
    else if sdk >= Q then Some(FOREGROUND_SERVICE_TYPE_DATA_SYNC)
    else None
  }

  /** makeNotification(settings). */
  function MakeNotification(settings: Object, device: Device): (r: Notification)
    ensures "title" !in settings ==> r.title == NOTIFICATION_TITLE
    ensures "text" !in settings ==> r.text == NOTIFICATION_TEXT
    ensures "title" in settings && settings["title"].Str? ==> r.title == settings["title"].s
    ensures "text" in settings && settings["text"].Str? ==> r.text == settings["text"].s
    ensures "icon" !in settings ==> r.smallIcon == IconResId(device.resources, NOTIFICATION_ICON)
    ensures r.smallIcon == IconResId(device.resources, OptString(settings, "icon", NOTIFICATION_ICON))
    ensures r.smallIcon != 0 && r.ongoing
    ensures r.channel.Some? <==> device.sdk >= O
    ensures r.bigText.Some? <==> OptBoolean(settings, "bigText", false) || '\n' in r.text
    ensures r.bigText.Some? ==> r.bigText.value == r.text
    ensures r.minPriority <==> !("hidden" in settings && ToBoolean(settings["hidden"]) == Some(false))
    ensures r.contentIntent.Some? <==> device.hasLaunchIntent && OptBoolean(settings, "resume", false)
    ensures r.contentIntent.Some? ==> r.contentIntent.value.requestCode == NOTIFICATION_ID
    ensures r.color == ColorOf(settings, device)
  {
    var title := OptString(settings, "title", NOTIFICATION_TITLE);
    var text := OptString(settings, "text", NOTIFICATION_TEXT);
    var icon := OptString(settings, "icon", NOTIFICATION_ICON);
    var bigText := OptBoolean(settings, "bigText", false);
    var flags := if device.sdk >= M then FLAG_UPDATE_CURRENT + FLAG_IMMUTABLE else FLAG_UPDATE_CURRENT;
    Notification(
      channel := if device.sdk >= O then Some(CHANNEL_ID) else None,
      title := title,
      text := text,
      ongoing := true,
      smallIcon := IconResId(device.resources, icon),
      minPriority := OptBoolean(settings, "hidden", true),
      bigText := if bigText || '\n' in text then Some(text) else None,
      color := ColorOf(settings, device),
      contentIntent :=
        if device.hasLaunchIntent && OptBoolean(settings, "resume", false)
        then Some(ContentIntent(NOTIFICATION_ID, flags)) else None)
  }

  // ---------------------------------------------------------------------------
  // The service

  datatype WakeLock = WakeLock(level: int, tag: string, held: bool)

  /** The calls the service makes on the system, in order. */
  datatype ServiceCall =
    | StartForeground(id: int, notification: Notification, types: Option<int>)
    | StopForeground(removeNotification: bool)
    | Notify(id: int, notification: Notification)
    | Cancel(id: int)
    | AcquireWakeLock(level: int)
    | ReleaseWakeLock

  /** What keepAwake does with a settings object. */
  function KeepAwakeCalls(settings: Object, device: Device): (r: seq<ServiceCall>)
    ensures OptBoolean(settings, "silent", false) ==> forall i :: 0 <= i < |r| ==> !r[i].StartForeground?
    ensures !OptBoolean(settings, "silent", false) ==>
              |r| > 0 && r[0] == StartForeground(NOTIFICATION_ID, MakeNotification(settings, device), ServiceTypes(device.sdk))
    ensures device.hasPowerManager <==> AcquireWakeLock(PARTIAL_WAKE_LOCK) in r
  {
    (if OptBoolean(settings, "silent", false) then []
     else [StartForeground(NOTIFICATION_ID, MakeNotification(settings, device), ServiceTypes(device.sdk))])
    + (if device.hasPowerManager then [AcquireWakeLock(PARTIAL_WAKE_LOCK)] else [])
  }

  /** What updateNotification does with a settings object: a silent update only
      leaves the foreground (removing the notification); any other re-posts the
      rebuilt notification under the fixed id. */
  function UpdateCalls(settings: Object, device: Device): (r: seq<ServiceCall>)
    ensures |r| == 1
    ensures OptBoolean(settings, "silent", false) <==> r[0] == StopForeground(true)
    ensures !OptBoolean(settings, "silent", false) ==> r[0] == Notify(NOTIFICATION_ID, MakeNotification(settings, device))
  {
    if OptBoolean(settings, "silent", false) then [StopForeground(true)]
    else [Notify(NOTIFICATION_ID, MakeNotification(settings, device))]
  }

  class ForegroundService {
    /** BackgroundMode.getDefaultSettings(), the only settings the service reads at start. */
    const store: BackgroundMode.SettingsStore
    var wakeLock: Option<WakeLock>
    var log: seq<ServiceCall>

    constructor (store: BackgroundMode.SettingsStore)
      ensures this.store == store && wakeLock.None? && log == []
    {
      this.store := store;
      wakeLock := None;
      log := [];
    }

    /** onStartCommand ignores its intent and asks to be restarted. */
    method OnStartCommand() returns (r: int)
      ensures r == START_STICKY
    {
      return START_STICKY;
    }

    /** onCreate: keepAwake (channel creation is not modelled). False where the
        source dereferences a null settings store. */
    method OnCreate(device: Device) returns (ok: bool)
      modifies this
      ensures ok <==> store.settings.Some?
      ensures !ok ==> wakeLock == old(wakeLock) && log == old(log)
      ensures ok ==> log == old(log) + KeepAwakeCalls(store.settings.value, device)
      ensures ok && device.hasPowerManager ==> wakeLock == Some(WakeLock(PARTIAL_WAKE_LOCK, WAKE_LOCK_TAG, true))
      ensures ok && !device.hasPowerManager ==> wakeLock == old(wakeLock)
    {
      ok := KeepAwake(device);
    }

    /** keepAwake: a non-silent start posts the notification built from the
        stored settings as a foreground notification; silent or not, the partial
        wake lock is taken when a PowerManager exists. */
    method KeepAwake(device: Device) returns (ok: bool)
      modifies this
      ensures ok <==> store.settings.Some?
      ensures !ok ==> wakeLock == old(wakeLock) && log == old(log)
      ensures ok ==> log == old(log) + KeepAwakeCalls(store.settings.value, device)
      ensures ok && device.hasPowerManager ==> wakeLock == Some(WakeLock(PARTIAL_WAKE_LOCK, WAKE_LOCK_TAG, true))
      ensures ok && !device.hasPowerManager ==> wakeLock == old(wakeLock)
    {
      if store.settings.None? {
        return false;
      }
      var settings := store.settings.value;
      var isSilent := OptBoolean(settings, "silent", false);
      if !isSilent {
        var notification := MakeNotification(settings, device);
        log := log + [StartForeground(NOTIFICATION_ID, notification, ServiceTypes(device.sdk))];
      }
      if device.hasPowerManager {
        wakeLock := Some(WakeLock(PARTIAL_WAKE_LOCK, WAKE_LOCK_TAG, true));
        log := log + [AcquireWakeLock(PARTIAL_WAKE_LOCK)];
      }
      ok := true;
    }

    /** onDestroy: sleepWell. */
    method OnDestroy()
      modifies this
      ensures wakeLock.Some? ==> wakeLock == old(wakeLock) && !wakeLock.value.held
      ensures old(wakeLock).Some? && old(wakeLock).value.held ==> wakeLock.None?
      ensures log == old(log) + [StopForeground(true), Cancel(NOTIFICATION_ID)] +
                    (if old(wakeLock).Some? && old(wakeLock).value.held then [ReleaseWakeLock] else [])
    {
      SleepWell();
    }

    /** sleepWell: leaves the foreground, cancels the notification, and releases
        and forgets the wake lock only if it is held. */
    method SleepWell()
      modifies this
      ensures wakeLock.Some? ==> wakeLock == old(wakeLock) && !wakeLock.value.held
      ensures old(wakeLock).Some? && old(wakeLock).value.held ==> wakeLock.None?
      ensures log == old(log) + [StopForeground(true), Cancel(NOTIFICATION_ID)] +
                    (if old(wakeLock).Some? && old(wakeLock).value.held then [ReleaseWakeLock] else [])
    {
      log := log + [StopForeground(true)];
      log := log + [Cancel(NOTIFICATION_ID)];
      if wakeLock.Some? && wakeLock.value.held {
        log := log + [ReleaseWakeLock];
        wakeLock := None;
      }
    }

    /** updateNotification(settings). */
    method UpdateNotification(settings: Object, device: Device)
      modifies this
      ensures wakeLock == old(wakeLock)
      ensures log == old(log) + UpdateCalls(settings, device)
    {
      var isSilent := OptBoolean(settings, "silent", false);
      if isSilent {
        log := log + [StopForeground(true)];
        return;
      }
      var notification := MakeNotification(settings, device);
      log := log + [Notify(NOTIFICATION_ID, notification)];
    }
  }
}
