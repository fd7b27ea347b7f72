/** The JavaScript control surface (www/background-mode.js): the `exports` object
    with its flags, its default and runtime settings, the listener registry and
    the calls it makes over the Cordova bridge.

    JavaScript objects that the code mutates or aliases are objects here too
    (`JsObject`), so that `configure` storing the caller's own options object,
    or merging an object into itself, behave as in the source. Property values
    are flat: `undefined`, a JSON scalar, or a function. The functions the
    plugin registers itself (the `activate` / `deactivate` handlers) are named;
    every other function is an opaque identity. */
module BackgroundModeJs {
  import opened Optional
  import opened Text
  import opened Json

  /** The two handlers `_pluginInitialize` registers on Android. */
  datatype Handler =
    | ResetSettings  // on 'activate': active, settings become a copy of the defaults
    | ClearSettings  // on 'deactivate': inactive, settings become {}

  /** A function value; two refer to the same function exactly when equal. */
  datatype FnRef = Builtin(handler: Handler) | User(id: nat)

  datatype JsValue = Undefined | Scalar(v: Value) | Function(fn: FnRef)

  /** JavaScript truthiness (NaN is not modelled). */
  predicate Truthy(v: JsValue)
  {
    match v
    case Undefined => false
    case Function(_) => true
    case Scalar(s) =>
      match s
      case Null => false
      case Bool(b) => b
      case Num(n) => n != 0
      case Str(t) => t != ""
  }

  /** The falsy values are exactly undefined, null, false, 0 and the empty string. */
  lemma FalsyValues(v: JsValue)
    ensures !Truthy(v) <==> v == Undefined || v == Scalar(Null) || v == Scalar(Bool(false))
                            || v == Scalar(Num(0)) || v == Scalar(Str(""))
  {
  }

  /** The own properties of an object. */
  type Props = map<string, JsValue>

  /** What JSON.stringify keeps of a flat object when the bridge serialises it:
      properties holding undefined or a function are dropped. */
  function ToJson(p: Props): (r: Object)
    ensures forall k :: k in r <==> k in p && p[k].Scalar?
    ensures forall k :: k in r ==> r[k] == p[k].v
  {
    map k | k in p && p[k].Scalar? :: p[k].v
  }

  /** The `this` of a listener call: `scope || window`. */
  datatype Scope = Window | Given(value: JsValue)

  function ScopeOf(scope: JsValue): (r: Scope)
    ensures r == Window <==> !Truthy(scope)
    ensures r != Window ==> r == Given(scope)
  {
    if Truthy(scope) then Given(scope) else Window
  }

  /** An entry of `_listener[event]`: the pair [callback, scope]. */
  datatype Listener = Listener(fn: FnRef, scope: Scope)

  /** A function invoked by the plugin: fn.apply(thisArg, args). */
  datatype Invocation = Invoke(fn: FnRef, thisArg: Scope, args: seq<JsValue>)

  /** cordova.exec(success, error, service, action, args), with the arguments as
      the bridge serialises them. */
  datatype BridgeCall = Exec(service: string, action: string, args: seq<Element>)

  // ---------------------------------------------------------------------------
  // Platform detection

  /** `platform.match(/^android|amazon/i) !== null`: the alternation binds the
      anchor to "android" only, so the name starts with "android" or contains
      "amazon" anywhere, ignoring case. */
  predicate IsAndroidPlatform(platform: string)
  {
    StartsWithIgnoreCase(platform, "android") || ContainsIgnoreCase(platform, "amazon")
  }

  /** For every platform name: one that starts with "android" is accepted, and
      so is one with "amazon" anywhere in it. */
  lemma PlatformAccepted(p: string, q: string)
    ensures IsAndroidPlatform("android" + q)
    ensures IsAndroidPlatform(p + "amazon" + q)
  {
    assert ("android" + q)[..7] == "android";
    var w := p + "amazon" + q;
    assert w[|p|..|p| + 6] == "amazon";
    assert OccursAt(w, "amazon", |p|);
  }

  /** "android" only counts at the very start: a name that does not start with
      an 'a' and has no "amazon" in it is refused, wherever "android" occurs in it. */
  lemma AndroidOnlyAsPrefix(p: string)
    requires |p| > 0 && Lower(p[0]) != 'a' && !ContainsIgnoreCase(p, "amazon")
    ensures !IsAndroidPlatform(p)
  {
    if |p| >= 7 {
      assert p[..7][0] == p[0];
    }
  }

  lemma PlatformExamples()
    ensures IsAndroidPlatform("Android")
    ensures IsAndroidPlatform("amazon-fireos")
    ensures IsAndroidPlatform("Kindle Amazon")
    ensures !IsAndroidPlatform("iOS")
    ensures !IsAndroidPlatform("browser")
  {
    assert OccursAt("amazon-fireos", "amazon", 0) by {
      assert "amazon-fireos"[0..6] == "amazon";
    }
    assert OccursAt("Kindle Amazon", "amazon", 7) by {
      assert "Kindle Amazon"[7..13] == "Amazon";
    }
    assert "Android"[..7] == "Android";
    forall i | 0 <= i <= |"browser"|
      ensures !OccursAt("browser", "amazon", i)
    {
      if 0 <= i && i + 6 <= 7 {
        assert Lower("browser"[i..i + 6][0]) != Lower("amazon"[0]);
      }
    }
    AndroidOnlyAsPrefix("browser");
  }

  // ---------------------------------------------------------------------------
  // Merging (`_mergeObjects`) and overriding (`setDefaults`)

  /** What `_mergeObjects(options, src)` leaves in `options`: its own keys keep
      their values, the keys only `src` has are copied. */
  function Merged(options: Props, src: Props): (r: Props)
    ensures r.Keys == options.Keys + src.Keys
    ensures forall k :: k in options ==> r[k] == options[k]
  {
    map k | k in options.Keys + src.Keys :: if k in options then options[k] else src[k]
  }

  /** The entries of `m` under the keys `ks`. */
  function Restrict(m: Props, ks: set<string>): (r: Props)
    ensures r.Keys == m.Keys * ks
    ensures forall k :: k in r ==> r[k] == m[k]
  {
    map k | k in m && k in ks :: m[k]
  }

  /** A key missing from `options` takes the value `src` has. */
  lemma MergedTakesMissing(options: Props, src: Props, k: string)
    requires k in src && k !in options
    ensures Merged(options, src)[k] == src[k]
  {
  }

  /** Merging into an empty object copies: the handler of 'activate' gets the defaults. */
  lemma MergedIntoEmpty(src: Props)
    ensures Merged(map[], src) == src
  {
  }

  /** Nothing is added by merging an object into itself, or merging again. */
  lemma MergedIdempotent(options: Props, src: Props)
    ensures Merged(options, options) == options
    ensures Merged(Merged(options, src), src) == Merged(options, src)
  {
  }

  /** Two merges in a row are one merge with the two sources merged first: so
      `configure` gives explicit options precedence over the runtime settings,
      and those over the defaults. */
  lemma MergedAssociative(options: Props, first: Props, second: Props)
    ensures Merged(Merged(options, first), second) == Merged(options, Merged(first, second))
  {
    var l := Merged(Merged(options, first), second);
    var r := Merged(options, Merged(first, second));
    assert l.Keys == r.Keys;
    forall k | k in l
      ensures l[k] == r[k]
    {
      if k !in options && k !in first {
        assert k in second;
        MergedTakesMissing(Merged(options, first), second, k);
        MergedTakesMissing(first, second, k);
        MergedTakesMissing(options, Merged(first, second), k);
      } else if k !in options {
        MergedTakesMissing(options, first, k);
        MergedTakesMissing(options, Merged(first, second), k);
      }
    }
  }

  /** What `setDefaults(overrides)` leaves in the defaults: every existing key
      takes the override's value when the override has one. */
  function Overridden(defaults: Props, overrides: Props): (r: Props)
    ensures r.Keys == defaults.Keys
  {
    map k | k in defaults :: if k in overrides then overrides[k] else defaults[k]
  }

  /** Overriding is merging the other way round and forgetting unknown keys:
      the set of options never grows, the overrides win, and options the
      overrides do not mention keep their values. */
  lemma OverriddenIsRestrictedMerge(defaults: Props, overrides: Props)
    ensures Overridden(defaults, overrides) == Restrict(Merged(overrides, defaults), defaults.Keys)
    ensures forall k :: k in defaults && k !in overrides ==> Overridden(defaults, overrides)[k] == defaults[k]
    ensures forall k :: k in defaults && k in overrides ==> Overridden(defaults, overrides)[k] == overrides[k]
  {
    var l := Overridden(defaults, overrides);
    var r := Restrict(Merged(overrides, defaults), defaults.Keys);
    assert l.Keys == r.Keys;
    forall k | k in l
      ensures l[k] == r[k]
    {
      if k !in overrides {
        MergedTakesMissing(overrides, defaults, k);
      }
    }
  }

  /** Overriding with no overrides, or with the defaults themselves, changes nothing. */
  lemma OverriddenNeutral(defaults: Props)
    ensures Overridden(defaults, map[]) == defaults
    ensures Overridden(defaults, defaults) == defaults
  {
  }

  /** `_defaults` as the module defines it. */
  const DEFAULTS: Props := map[
    "title" := Undefined,
    "text" := Undefined,
    "bigText" := Scalar(Bool(false)),
    "resume" := Scalar(Bool(true)),
    "color" := Undefined,
    "icon" := Undefined]

  /** Of the defaults, only bigText=false and resume=true reach the native side. */
  lemma DefaultsAsSent()
    ensures ToJson(DEFAULTS) == map["bigText" := Bool(false), "resume" := Bool(true)]
  {
    var j := ToJson(DEFAULTS);
    assert "bigText" in j && "resume" in j;
    assert j.Keys == {"bigText", "resume"};
  }

  // ---------------------------------------------------------------------------
  // The listener registry

  /** `_listener[event]`, with a missing entry read as no listeners. */
  function Registered(listener: map<string, seq<Listener>>, event: string): (r: seq<Listener>)
    ensures event !in listener ==> r == []
    ensures event in listener ==> r == listener[event]
  {
    if event in listener then listener[event] else []
  }

  /** `fn == callback` for the function of a listener. */
  predicate Matches(l: Listener, callback: JsValue)
  {
    callback == Function(l.fn)
  }

  /** The position of the first listener whose function is `callback`. */
  function FirstMatch(ls: seq<Listener>, callback: JsValue): (r: Option<nat>)
    ensures r.None? <==> forall i :: 0 <= i < |ls| ==> !Matches(ls[i], callback)
    ensures r.Some? ==> && r.value < |ls| && Matches(ls[r.value], callback)
                        && forall j :: 0 <= j < r.value ==> !Matches(ls[j], callback)
  {
    if ls == [] then None
    else if Matches(ls[0], callback) then Some(0)
    else
      match FirstMatch(ls[1..], callback)
      case None => None
      case Some(i) => Some(i + 1)
  }

  /** The listeners after `off`: the first one whose function is `callback` is
      removed, if there is one. */
  function RemoveFirst(ls: seq<Listener>, callback: JsValue): (r: seq<Listener>)
    ensures |r| <= |ls| <= |r| + 1
  {
    if ls == [] then []
    else if Matches(ls[0], callback) then ls[1..]
    else [ls[0]] + RemoveFirst(ls[1..], callback)
  }

  /** `off` splices out exactly the first match, and changes nothing when
      there is none. */
  lemma {:induction false} RemoveFirstAtFirstMatch(ls: seq<Listener>, callback: JsValue)
    ensures FirstMatch(ls, callback).None? ==> RemoveFirst(ls, callback) == ls
    ensures FirstMatch(ls, callback).Some? ==>
              var i := FirstMatch(ls, callback).value;
              RemoveFirst(ls, callback) == ls[..i] + ls[i + 1..]
  {
    if ls != [] && !Matches(ls[0], callback) {
      RemoveFirstAtFirstMatch(ls[1..], callback);
      match FirstMatch(ls[1..], callback)
      case None =>
      case Some(i) =>
        assert [ls[0]] + (ls[1..][..i] + ls[1..][i + 1..]) == ls[..i + 1] + ls[i + 2..];
    }
  }

  /** Removing the first match splits around it: what precedes it is kept as is. */
  lemma {:induction false} RemoveFirstSplit(ls: seq<Listener>, i: nat, callback: JsValue)
    requires i <= |ls|
    requires forall j :: 0 <= j < i ==> !Matches(ls[j], callback)
    ensures RemoveFirst(ls, callback) == ls[..i] + RemoveFirst(ls[i..], callback)
  {
    if i > 0 {
      assert ls[1..][i - 1..] == ls[i..];
      RemoveFirstSplit(ls[1..], i - 1, callback);
      assert ls[..i] == [ls[0]] + ls[1..][..i - 1];
    }
  }

  /** `on` then `off` with a function not registered before restores the list. */
  lemma {:induction false} OffUndoesOn(ls: seq<Listener>, fn: FnRef, scope: Scope)
    requires forall i :: 0 <= i < |ls| ==> ls[i].fn != fn
    ensures RemoveFirst(ls + [Listener(fn, scope)], Function(fn)) == ls
  {
    if ls != [] {
      assert (ls + [Listener(fn, scope)])[1..] == ls[1..] + [Listener(fn, scope)];
      OffUndoesOn(ls[1..], fn, scope);
    }
  }

  /** `off` removes at most one registration of a function, and no other listener. */
  lemma {:induction false} RemoveFirstCounts(ls: seq<Listener>, callback: JsValue)
    ensures multiset(RemoveFirst(ls, callback)) <= multiset(ls)
    ensures |RemoveFirst(ls, callback)| >= |ls| - 1
    ensures forall l :: !Matches(l, callback) ==> multiset(RemoveFirst(ls, callback))[l] == multiset(ls)[l]
  {
    if ls != [] {
      var rest := RemoveFirst(ls[1..], callback);
      RemoveFirstCounts(ls[1..], callback);
      assert ls == [ls[0]] + ls[1..];
      assert multiset(ls) == multiset{ls[0]} + multiset(ls[1..]);
      if !Matches(ls[0], callback) {
        assert RemoveFirst(ls, callback) == [ls[0]] + rest;
        assert multiset(RemoveFirst(ls, callback)) == multiset{ls[0]} + multiset(rest);
      }
    }
  }

  /** The calls `fireEvent` makes: every listener, in registration order, with
      the arguments after the event name. */
  function Invocations(ls: seq<Listener>, args: seq<JsValue>): (r: seq<Invocation>)
    ensures |r| == |ls|
    ensures forall i :: 0 <= i < |ls| ==> r[i] == Invoke(ls[i].fn, ls[i].scope, args)
  {
    seq(|ls|, i requires 0 <= i < |ls| => Invoke(ls[i].fn, ls[i].scope, args))
  }

  /** The last of the plugin's own handlers in a listener list: it decides the
      flags and settings a `fireEvent` over the list leaves behind. */
  function LastBuiltin(ls: seq<Listener>): (r: Option<Handler>)
    ensures r.Some? ==> exists i :: 0 <= i < |ls| && ls[i].fn == Builtin(r.value)
    ensures r.None? <==> forall i :: 0 <= i < |ls| ==> ls[i].fn.User?
    decreases |ls|
  {
    if ls == [] then None
    else if ls[|ls| - 1].fn.Builtin? then Some(ls[|ls| - 1].fn.handler)
    else
      var r := LastBuiltin(ls[..|ls| - 1]);
      assert forall i :: 0 <= i < |ls| - 1 ==> ls[..|ls| - 1][i] == ls[i];
      r
  }

  /** `_isActive` after running the listeners of a list. */
  function ActiveAfter(ls: seq<Listener>, active: JsValue): (r: JsValue)
    ensures LastBuiltin(ls).None? ==> r == active
    ensures LastBuiltin(ls) == Some(ResetSettings) ==> r == Scalar(Bool(true))
    ensures LastBuiltin(ls) == Some(ClearSettings) ==> r == Scalar(Bool(false))
  {
    match LastBuiltin(ls)
    case None => active
    case Some(ResetSettings) => Scalar(Bool(true))
    case Some(ClearSettings) => Scalar(Bool(false))
  }

  /** Whatever came before, the last plugin handler decides `_isActive`, and
      application listeners after it do not change that. */
  lemma ActiveAfterLastHandler(ls: seq<Listener>, h: Handler, scope: Scope, added: seq<Listener>, active: JsValue)
    requires forall i :: 0 <= i < |added| ==> added[i].fn.User?
    ensures ActiveAfter(ls + [Listener(Builtin(h), scope)] + added, active) == Scalar(Bool(h == ResetSettings))
  {
    var front := ls + [Listener(Builtin(h), scope)];
    assert front[|front| - 1] == Listener(Builtin(h), scope);
    assert LastBuiltin(front) == Some(h);
    UserListenersKeepLastBuiltin(front, added);
  }

  /** Listeners the application adds do not change what the plugin's own
      handlers leave behind. */
  lemma {:induction false} UserListenersKeepLastBuiltin(ls: seq<Listener>, added: seq<Listener>)
    requires forall i :: 0 <= i < |added| ==> added[i].fn.User?
    ensures LastBuiltin(ls + added) == LastBuiltin(ls)
    decreases |added|
  {
    if added != [] {
      var n := |ls + added|;
      var shorter := added[..|added| - 1];
      assert (ls + added)[n - 1] == added[|added| - 1];
      assert (ls + added)[..n - 1] == ls + shorter;
      assert forall i :: 0 <= i < |shorter| ==> shorter[i] == added[i];
      UserListenersKeepLastBuiltin(ls, shorter);
    } else {
      assert ls + added == ls;
    }
  }

  // ---------------------------------------------------------------------------
  // The objects

  /** A plain JavaScript object. */
  class JsObject {
    var props: Props

    constructor (props: Props)
      ensures this.props == props
    {
      this.props := props;
    }
  }

  /** A map with the union of the keys, `options`' values on its keys and the
      source's elsewhere, is the merge. */
  lemma MergedPointwise(options: Props, src: Props, r: Props)
    requires forall k :: k in r <==> k in options || k in src
    requires forall k :: k in options ==> r[k] == options[k]
    requires forall k :: k in src && k !in options ==> r[k] == src[k]
    ensures r == Merged(options, src)
  {
    assert r.Keys == Merged(options, src).Keys;
  }

  /** `_mergeObjects(options, src)`: the for-in loop over `src` copies each key
      `options` lacks and returns `options` itself; `src` may be undefined (null
      here), which enumerates nothing, or `options` itself. */
  method MergeObjects(options: JsObject, src: JsObject?) returns (r: JsObject)
    modifies options
    ensures r == options
    ensures src == null ==> options.props == old(options.props)
    ensures src != null ==> options.props == Merged(old(options.props), old(src.props))
  {
    r := options;
    if src == null {
      return;
    }
    var from := src.props;
    ghost var start := options.props;
    var keys := from.Keys;
    while keys != {}
      invariant forall k :: k in keys ==> k in from
      invariant forall k :: k in options.props <==> k in start || (k in from && k !in keys)
      invariant forall k :: k in start ==> options.props[k] == start[k]
      invariant forall k :: k in from && k !in keys && k !in start ==> options.props[k] == from[k]
      decreases |keys|
    {
      var key :| key in keys;
      if key !in options.props {
        options.props := options.props[key := from[key]];
      }
      keys := keys - {key};
    }
    MergedPointwise(start, from, options.props);
  }

  /** The module's `exports`. Before `_pluginInitialize` the flags are undefined
      and `_settings` is unset (null here). `_isAndroid` counts as false until
      it is set. */
  class Exports {
    var isAndroid: bool
    var enabledFlag: JsValue   // _isEnabled
    var activeFlag: JsValue    // _isActive
    var settings: JsObject?    // _settings
    const defaults: JsObject   // _defaults, the same object throughout
    var listener: map<string, seq<Listener>>
    /** The functions the plugin has called, in order. */
    var calls: seq<Invocation>
    /** The calls over the Cordova bridge, in order. */
    var bridge: seq<BridgeCall>

    constructor ()
      ensures !isAndroid && enabledFlag == Undefined && activeFlag == Undefined
      ensures settings == null && fresh(defaults) && defaults.props == DEFAULTS
      ensures listener == map[] && calls == [] && bridge == []
    {
      isAndroid := false;
      enabledFlag, activeFlag := Undefined, Undefined;
      settings := null;
      defaults := new JsObject(DEFAULTS);
      listener := map[];
      calls, bridge := [], [];
    }

    /** `_pluginInitialize()`, with `device.platform` as input. */
    method PluginInitialize(platform: string)
      modifies this
      ensures isAndroid == IsAndroidPlatform(platform)
      ensures isAndroid ==>
                && enabledFlag == Scalar(Bool(false)) && activeFlag == Scalar(Bool(false))
                && listener == old(listener)
                     ["activate" := Registered(old(listener), "activate") + [Listener(Builtin(ResetSettings), Window)]]
                     ["deactivate" := Registered(old(listener), "deactivate") + [Listener(Builtin(ClearSettings), Window)]]
      ensures !isAndroid && platform == "browser" ==>
                enabledFlag == Scalar(Bool(true)) && activeFlag == Scalar(Bool(true)) && listener == old(listener)
      ensures !isAndroid && platform != "browser" ==>
                enabledFlag == Scalar(Bool(false)) && activeFlag == Scalar(Bool(false)) && listener == old(listener)
      ensures settings == old(settings) && calls == old(calls) && bridge == old(bridge)
    {
      isAndroid := IsAndroidPlatform(platform);
      enabledFlag := Scalar(Bool(false));
      activeFlag := Scalar(Bool(false));
      if isAndroid {
        On("activate", Function(Builtin(ResetSettings)), Undefined);
        On("deactivate", Function(Builtin(ClearSettings)), Undefined);
      } else if platform == "browser" {
        enabledFlag := Scalar(Bool(true));
        activeFlag := Scalar(Bool(true));
      }
    }

    /** `isEnabled()`: anything but exactly `false` counts as enabled. */
    function IsEnabled(): (r: bool)
      reads this
      ensures r <==> enabledFlag != Scalar(Bool(false))
    {
      enabledFlag != Scalar(Bool(false))
    }

    /** `isActive()`: anything but exactly `false` counts as active. */
    function IsActive(): (r: bool)
      reads this
      ensures r <==> activeFlag != Scalar(Bool(false))
    {
      activeFlag != Scalar(Bool(false))
    }

    /** `setDefaults(overrides)`: overrides only the keys the defaults already
      have, then (on Android) sends the new defaults with update=false. */
    method SetDefaults(overrides: JsObject)
      modifies this, defaults
      ensures defaults.props == Overridden(old(defaults.props), old(overrides.props))
      ensures bridge == old(bridge) +
                if isAndroid then [Exec("BackgroundMode", "configure", [Obj(ToJson(defaults.props)), Item(Bool(false))])]
                else []
      ensures isAndroid == old(isAndroid) && enabledFlag == old(enabledFlag) && activeFlag == old(activeFlag)
      ensures settings == old(settings) && listener == old(listener) && calls == old(calls)
    {
      var source := overrides.props;
      ghost var start := defaults.props;
      var keys := defaults.props.Keys;
      while keys != {}
        invariant keys <= start.Keys
        invariant defaults.props.Keys == start.Keys
        invariant forall k :: k in start && k !in keys ==> defaults.props[k] == Overridden(start, source)[k]
        invariant forall k :: k in keys ==> defaults.props[k] == start[k]
        invariant unchanged(this)
        decreases |keys|
      {
        var key :| key in keys;
        if key in source {
          defaults.props := defaults.props[key := source[key]];
        }
        keys := keys - {key};
      }
      assert defaults.props == Overridden(start, source);
      if isAndroid {
        bridge := bridge + [Exec("BackgroundMode", "configure", [Obj(ToJson(defaults.props)), Item(Bool(false))])];
      }
    }

    /** `getSettings()`: the runtime settings, or a new empty object when unset. */
    method GetSettings() returns (r: JsObject)
      ensures settings != null ==> r == settings
      ensures settings == null ==> fresh(r) && r.props == map[]
    {
      if settings != null {
        r := settings;
      } else {
        r := new JsObject(map[]);
      }
    }

    /** `configure(options)`: nothing unless on Android and active; then the
      runtime settings and the defaults are merged into the caller's object,
      which becomes the runtime settings and is sent with update=true. */
    method Configure(options: JsObject)
      modifies this, options
      ensures !(old(isAndroid) && Truthy(old(activeFlag))) ==>
                settings == old(settings) && bridge == old(bridge) && options.props == old(options.props)
      ensures old(isAndroid) && Truthy(old(activeFlag)) ==>
                && settings == options
                && (var runtime := if old(settings) == null then map[] else old(settings.props);
                    options.props == if options == defaults then Merged(old(options.props), runtime)
                                     else Merged(old(options.props), Merged(runtime, old(defaults.props))))
                && bridge == old(bridge) + [Exec("BackgroundMode", "configure", [Obj(ToJson(options.props)), Item(Bool(true))])]
      ensures options != defaults ==> defaults.props == old(defaults.props)
      ensures isAndroid == old(isAndroid) && enabledFlag == old(enabledFlag) && activeFlag == old(activeFlag)
      ensures listener == old(listener) && calls == old(calls)
    {
      if isAndroid {
        if !Truthy(activeFlag) {
          return;
        }
        ghost var given := options.props;
        ghost var runtime := if settings == null then map[] else settings.props;
        ghost var defaultProps := defaults.props;
        var _ := MergeObjects(options, settings);
        assert options.props == Merged(given, runtime);
        var _ := MergeObjects(options, defaults);
        if options == defaults {
          MergedIdempotent(Merged(given, runtime), Merged(given, runtime));
        } else {
          MergedAssociative(given, runtime, defaultProps);
        }
        settings := options;
        bridge := bridge + [Exec("BackgroundMode", "configure", [Obj(ToJson(options.props)), Item(Bool(true))])];
      }
    }

    /** `enable(success, error)`: an enabled mode answers at once; otherwise the
      native `enable` is called (what its success callback does is not part of
      this model). */
    method Enable(success: FnRef, error: FnRef)
      modifies this
      ensures Truthy(old(enabledFlag)) ==>
                calls == old(calls) + [Invoke(success, Window, [])] && bridge == old(bridge)
      ensures !Truthy(old(enabledFlag)) ==>
                calls == old(calls) && bridge == old(bridge) + [Exec("BackgroundMode", "enable", [])]
      ensures isAndroid == old(isAndroid) && enabledFlag == old(enabledFlag) && activeFlag == old(activeFlag)
      ensures settings == old(settings) && listener == old(listener)
    {
      if Truthy(enabledFlag) {
        calls := calls + [Invoke(success, Window, [])];
        return;
      }
      bridge := bridge + [Exec("BackgroundMode", "enable", [])];
    }

    /** `disable(success, error)`: a disabled mode answers at once; otherwise
      the native `disable` is called. */
    method Disable(success: FnRef, error: FnRef)
      modifies this
      ensures !Truthy(old(enabledFlag)) ==>
                calls == old(calls) + [Invoke(success, Window, [])] && bridge == old(bridge)
      ensures Truthy(old(enabledFlag)) ==>
                calls == old(calls) && bridge == old(bridge) + [Exec("BackgroundMode", "disable", [])]
      ensures isAndroid == old(isAndroid) && enabledFlag == old(enabledFlag) && activeFlag == old(activeFlag)
      ensures settings == old(settings) && listener == old(listener)
    {
      if !Truthy(enabledFlag) {
        calls := calls + [Invoke(success, Window, [])];
        return;
      }
      bridge := bridge + [Exec("BackgroundMode", "disable", [])];
    }

    /** `setEnabled(enable, success, error)`: `enable` on a truthy flag, `disable` otherwise. */
    method SetEnabled(enable: JsValue, success: FnRef, error: FnRef)
      modifies this
      ensures Truthy(old(enabledFlag)) == Truthy(enable) ==>
                calls == old(calls) + [Invoke(success, Window, [])] && bridge == old(bridge)
      ensures Truthy(old(enabledFlag)) != Truthy(enable) ==>
                && calls == old(calls)
                && bridge == old(bridge) + [Exec("BackgroundMode", if Truthy(enable) then "enable" else "disable", [])]
      ensures isAndroid == old(isAndroid) && enabledFlag == old(enabledFlag) && activeFlag == old(activeFlag)
      ensures settings == old(settings) && listener == old(listener)
    {
      if Truthy(enable) {
        Enable(success, error);
      } else {
        Disable(success, error);
      }
    }

    /** `on(event, callback, scope)`: a non-function is ignored; otherwise the
      pair [callback, scope || window] is appended to the event's list. */
    method On(event: string, callback: JsValue, scope: JsValue)
      modifies this
      ensures !callback.Function? ==> listener == old(listener)
      ensures callback.Function? ==>
                listener == old(listener)[event := Registered(old(listener), event) + [Listener(callback.fn, ScopeOf(scope))]]
      ensures isAndroid == old(isAndroid) && enabledFlag == old(enabledFlag) && activeFlag == old(activeFlag)
      ensures settings == old(settings) && calls == old(calls) && bridge == old(bridge)
    {
      if !callback.Function? {
        return;
      }
      if event !in listener {
        listener := listener[event := []];
      }
      listener := listener[event := listener[event] + [Listener(callback.fn, ScopeOf(scope))]];
    }

    /** `off(event, callback)`: the loop stops at the first listener whose
      function is `callback` and splices it out. */
    method Off(event: string, callback: JsValue)
      modifies this
      ensures event !in old(listener) ==> listener == old(listener)
      ensures event in old(listener) ==> listener == old(listener)[event := RemoveFirst(old(listener)[event], callback)]
      ensures isAndroid == old(isAndroid) && enabledFlag == old(enabledFlag) && activeFlag == old(activeFlag)
      ensures settings == old(settings) && calls == old(calls) && bridge == old(bridge)
    {
      if event !in listener {
        return;
      }
      var ls := listener[event];
      var i := 0;
      while i < |ls|
        invariant 0 <= i <= |ls|
        invariant forall j :: 0 <= j < i ==> !Matches(ls[j], callback)
        invariant listener == old(listener)
      {
        if Function(ls[i].fn) == callback {
          RemoveFirstSplit(ls, i, callback);
          assert ls[i..][1..] == ls[i + 1..];
          listener := listener[event := ls[..i] + ls[i + 1..]];
          return;
        }
        i := i + 1;
      }
      RemoveFirstAtFirstMatch(ls, callback);
    }

    /** Call one listener. The plugin's own handlers set `_isActive` and replace
      `_settings`; a function of the application's is recorded as called (what
      it does is not part of this model). */
    method CallListener(l: Listener, args: seq<JsValue>)
      modifies this
      ensures calls == old(calls) + [Invoke(l.fn, l.scope, args)]
      ensures l.fn.User? ==> activeFlag == old(activeFlag) && settings == old(settings)
      ensures l.fn == Builtin(ResetSettings) ==>
                activeFlag == Scalar(Bool(true)) && settings != null && fresh(settings) && settings.props == defaults.props
      ensures l.fn == Builtin(ClearSettings) ==>
                activeFlag == Scalar(Bool(false)) && settings != null && fresh(settings) && settings.props == map[]
      ensures isAndroid == old(isAndroid) && enabledFlag == old(enabledFlag)
      ensures listener == old(listener) && bridge == old(bridge)
    {
      calls := calls + [Invoke(l.fn, l.scope, args)];
      match l.fn
      case Builtin(ResetSettings) =>
        activeFlag := Scalar(Bool(true));
        var target := new JsObject(map[]);
        var copy := MergeObjects(target, defaults);
        MergedIntoEmpty(defaults.props);
        settings := copy;
      case Builtin(ClearSettings) =>
        activeFlag := Scalar(Bool(false));
        settings := new JsObject(map[]);
      case User(_) =>
    }

    /** `fireEvent(event, ...args)`: every listener of the event in registration
      order; an event nobody listens to does nothing. */
    method FireEvent(event: string, args: seq<JsValue>)
      modifies this
      ensures calls == old(calls) + Invocations(Registered(old(listener), event), args)
      ensures activeFlag == ActiveAfter(Registered(old(listener), event), old(activeFlag))
      ensures LastBuiltin(Registered(old(listener), event)).None? ==> settings == old(settings)
      ensures LastBuiltin(Registered(old(listener), event)) == Some(ResetSettings) ==>
                settings != null && fresh(settings) && settings.props == defaults.props
      ensures LastBuiltin(Registered(old(listener), event)) == Some(ClearSettings) ==>
                settings != null && fresh(settings) && settings.props == map[]
      ensures isAndroid == old(isAndroid) && enabledFlag == old(enabledFlag)
      ensures listener == old(listener) && bridge == old(bridge)
    {
      var ls := Registered(listener, event);
      var i := 0;
      while i < |ls|
        invariant 0 <= i <= |ls|
        invariant calls == old(calls) + Invocations(ls[..i], args)
        invariant activeFlag == ActiveAfter(ls[..i], old(activeFlag))
        invariant LastBuiltin(ls[..i]).None? ==> settings == old(settings)
        invariant LastBuiltin(ls[..i]) == Some(ResetSettings) ==>
                    settings != null && fresh(settings) && settings.props == defaults.props
        invariant LastBuiltin(ls[..i]) == Some(ClearSettings) ==>
                    settings != null && fresh(settings) && settings.props == map[]
        invariant isAndroid == old(isAndroid) && enabledFlag == old(enabledFlag)
        invariant listener == old(listener) && bridge == old(bridge)
      {
        CallListener(ls[i], args);
        assert ls[..i + 1][..i] == ls[..i];
        i := i + 1;
      }
      assert ls[..i] == ls;
    }

    /** The `deviceready` subscriber: fires 'enable' if `_isEnabled` is truthy,
      then 'activate' if `_isActive` is truthy. */
    method DeviceReady()
      modifies this
      ensures var fired := if Truthy(old(enabledFlag)) then Registered(old(listener), "enable") else [];
              var active := ActiveAfter(fired, old(activeFlag));
              calls == old(calls) + Invocations(fired, [])
                         + (if Truthy(active) then Invocations(Registered(old(listener), "activate"), []) else [])
      ensures !Truthy(old(enabledFlag)) && !Truthy(old(activeFlag)) ==>
                calls == old(calls) && settings == old(settings) && activeFlag == old(activeFlag)
      ensures isAndroid == old(isAndroid) && enabledFlag == old(enabledFlag)
      ensures listener == old(listener) && bridge == old(bridge)
    {
      if Truthy(enabledFlag) {
        FireEvent("enable", []);
      }
      if Truthy(activeFlag) {
        FireEvent("activate", []);
      }
    }
  }
}
