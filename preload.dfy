/**
 * The bridge the preload script gives the renderer: window commands and
 * the maximized flag with its listeners, the platform the main process
 * reports, the theme with its listeners, and settings kept in
 * `localStorage`.
 */
module Preload {
  import opened Wrappers
  import opened JsValues
  import opened WebStorage

  /** What the main process reports about the platform. */
  datatype PlatformInfo = PlatformInfo(platform: string, arch: string, version: string, appName: string)

  /** A message to the main process. */
  datatype Request =
    | CloseWindow
    | MinimizeWindow
    | MaximizeWindow
    | SetTheme(theme: string)
    | SaveConfig(entries: seq<(string, Value)>)
    | Logout

  /** A listener called with a value, listeners being known by identity. */
  datatype Call = MaximizeCalled(listener: nat, isMaximized: bool) | ThemeCalled(listener: nat, theme: string)

  const THEME_KEY := "theme"
  const DEFAULT_THEME := "system"
  const UNKNOWN_PLATFORM := "unknown"

  /** `array.indexOf(x)`: the first position of `x`, or -1. */
  function IndexOf(s: seq<nat>, x: nat): (r: int)
    ensures r == -1 <==> x !in s
    ensures r >= 0 ==> r < |s| && s[r] == x && x !in s[..r]
  {
    if s == [] then -1
    else if s[0] == x then 0
    else
      var r := IndexOf(s[1..], x);
      assert r >= 0 ==> s[..r + 1] == [s[0]] + s[1..][..r];
      if r < 0 then -1 else r + 1
  }

  /** The list without the first occurrence of `x`, as `indexOf` then `splice(index, 1)` leave it. */
  function RemoveFirst(s: seq<nat>, x: nat): (r: seq<nat>)
    ensures x !in s ==> r == s
    ensures x in s ==> r == s[..IndexOf(s, x)] + s[IndexOf(s, x) + 1..]
    ensures multiset(r) == multiset(s) - multiset{x}
  {
    var i := IndexOf(s, x);
    if i == -1 then s
    else
      assert s == s[..i] + [x] + s[i + 1..];
      s[..i] + s[i + 1..]
  }

  /** Adding a listener and removing it again gives back the list it was added to, when it was not already there. */
  lemma AddThenRemove(s: seq<nat>, x: nat)
    requires x !in s
    ensures RemoveFirst(s + [x], x) == s
  {
    assert IndexOf(s + [x], x) == |s| by {
      assert (s + [x])[..|s|] == s;
    }
  }

  /** Adding and removing always restores the listeners as a collection, even when `x` was there. */
  lemma AddThenRemoveMultiset(s: seq<nat>, x: nat)
    ensures multiset(RemoveFirst(s + [x], x)) == multiset(s)
  {
  }

  function MaximizeCalls(listeners: seq<nat>, isMaximized: bool): (r: seq<Call>)
    ensures |r| == |listeners|
    ensures forall i :: 0 <= i < |listeners| ==> r[i] == MaximizeCalled(listeners[i], isMaximized)
  {
    seq(|listeners|, i requires 0 <= i < |listeners| => MaximizeCalled(listeners[i], isMaximized))
  }

  function ThemeCalls(listeners: seq<nat>, theme: string): (r: seq<Call>)
    ensures |r| == |listeners|
    ensures forall i :: 0 <= i < |listeners| ==> r[i] == ThemeCalled(listeners[i], theme)
  {
    seq(|listeners|, i requires 0 <= i < |listeners| => ThemeCalled(listeners[i], theme))
  }

  class Api {
    var isMaximized: bool
    var maximizeListeners: seq<nat>
    var platformInfo: Option<PlatformInfo>
    var currentTheme: string
    var themeListeners: seq<nat>
    /** Listener calls made, oldest first. */
    var calls: seq<Call>
    /** Messages sent to the main process, oldest first. */
    var sent: seq<Request>
    const store: Store

    /** The bridge as the script builds it: the theme is the stored one, or "system". */
    constructor(store: Store)
      ensures this.store == store
      ensures !isMaximized && maximizeListeners == [] && themeListeners == [] && platformInfo.None?
      ensures calls == [] && sent == []
      ensures THEME_KEY !in store.items || store.items[THEME_KEY] == "" ==> currentTheme == DEFAULT_THEME
      ensures THEME_KEY in store.items && store.items[THEME_KEY] != "" ==> currentTheme == store.items[THEME_KEY]
    {
      this.store := store;
      isMaximized := false;
      maximizeListeners := [];
      platformInfo := None;
      var stored := store.GetItem(THEME_KEY);
      currentTheme := if stored.Some? && stored.value != "" then stored.value else DEFAULT_THEME;
      themeListeners := [];
      calls := [];
      sent := [];
    }

    method Close()
      modifies this`sent
      ensures sent == old(sent) + [CloseWindow]
    {
      sent := sent + [CloseWindow];
    }

    method Minimize()
      modifies this`sent
      ensures sent == old(sent) + [MinimizeWindow]
    {
      sent := sent + [MinimizeWindow];
    }

    method Maximize()
      modifies this`sent
      ensures sent == old(sent) + [MaximizeWindow]
    {
      sent := sent + [MaximizeWindow];
    }

    method Logout()
      modifies this`sent
      ensures sent == old(sent) + [Request.Logout]
    {
      sent := sent + [Request.Logout];
    }

    /** `config.save`: the settings go to the main process to be written. */
    method SaveConfig(entries: seq<(string, Value)>)
      modifies this`sent
      ensures sent == old(sent) + [Request.SaveConfig(entries)]
    {
      sent := sent + [Request.SaveConfig(entries)];
    }

    /** `onMaximizeChange`: the listener goes at the end. */
    method OnMaximizeChange(listener: nat)
      modifies this`maximizeListeners
      ensures maximizeListeners == old(maximizeListeners) + [listener]
    {
      maximizeListeners := maximizeListeners + [listener];
    }

    /** `removeMaximizeChangeListener`: its first registration goes, if any. */
    method RemoveMaximizeChangeListener(listener: nat)
      modifies this`maximizeListeners
      ensures maximizeListeners == RemoveFirst(old(maximizeListeners), listener)
    {
      var index := IndexOf(maximizeListeners, listener);
      if index != -1 {
        maximizeListeners := maximizeListeners[..index] + maximizeListeners[index + 1..];
      }
    }

    /** `onThemeChange`. */
    method OnThemeChange(listener: nat)
      modifies this`themeListeners
      ensures themeListeners == old(themeListeners) + [listener]
    {
      themeListeners := themeListeners + [listener];
    }

    /** `removeThemeChangeListener`. */
    method RemoveThemeChangeListener(listener: nat)
      modifies this`themeListeners
      ensures themeListeners == RemoveFirst(old(themeListeners), listener)
    {
      var index := IndexOf(themeListeners, listener);
      if index != -1 {
        themeListeners := themeListeners[..index] + themeListeners[index + 1..];
      }
    }

    /** Calls every theme listener once, in registration order. */
    method NotifyTheme(theme: string)
      modifies this`calls
      ensures calls == old(calls) + ThemeCalls(themeListeners, theme)
    {
      var i := 0;
      while i < |themeListeners|
        invariant 0 <= i <= |themeListeners|
        invariant calls == old(calls) + ThemeCalls(themeListeners[..i], theme)
      {
        assert ThemeCalls(themeListeners[..i + 1], theme) == ThemeCalls(themeListeners[..i], theme) + [ThemeCalled(themeListeners[i], theme)];
        calls := calls + [ThemeCalled(themeListeners[i], theme)];
        i := i + 1;
      }
      assert themeListeners[..|themeListeners|] == themeListeners;
    }

    /** `theme.set`: stores the theme, tells the main process, makes it current and calls the listeners. */
    method SetTheme(theme: string)
      modifies this`sent, this`currentTheme, this`calls, store
      ensures store.items == old(store.items)[THEME_KEY := theme]
      ensures sent == old(sent) + [Request.SetTheme(theme)]
      ensures currentTheme == theme
      ensures calls == old(calls) + ThemeCalls(themeListeners, theme)
    {
      store.SetItem(THEME_KEY, theme);
      sent := sent + [Request.SetTheme(theme)];
      currentTheme := theme;
      NotifyTheme(theme);
    }

    /** A `theme-changed` message: the theme becomes current and the listeners hear it. */
    method OnThemeChanged(theme: string)
      modifies this`currentTheme, this`calls
      ensures currentTheme == theme
      ensures calls == old(calls) + ThemeCalls(themeListeners, theme)
    {
      currentTheme := theme;
      NotifyTheme(theme);
    }

    /** A `maximize-change` message: the flag takes the value and every listener hears it once, in order. */
    method OnMaximizeChangeMessage(value: bool)
      modifies this`isMaximized, this`calls
      ensures isMaximized == value
      ensures calls == old(calls) + MaximizeCalls(maximizeListeners, value)
    {
      isMaximized := value;
      var i := 0;
      while i < |maximizeListeners|
        invariant 0 <= i <= |maximizeListeners|
        invariant isMaximized == value
        invariant calls == old(calls) + MaximizeCalls(maximizeListeners[..i], value)
      {
        assert MaximizeCalls(maximizeListeners[..i + 1], value) == MaximizeCalls(maximizeListeners[..i], value) + [MaximizeCalled(maximizeListeners[i], value)];
        calls := calls + [MaximizeCalled(maximizeListeners[i], value)];
        i := i + 1;
      }
      assert maximizeListeners[..|maximizeListeners|] == maximizeListeners;
    }

    /** A `platform-info` message. */
    method OnPlatformInfo(info: PlatformInfo)
      modifies this`platformInfo
      ensures platformInfo == Some(info)
    {
      platformInfo := Some(info);
    }

    predicate IsMac()
      reads this
    {
      platformInfo.Some? && platformInfo.value.platform == "darwin"
    }

    predicate IsWindows()
      reads this
    {
      platformInfo.Some? && platformInfo.value.platform == "win32"
    }

    predicate IsLinux()
      reads this
    {
      platformInfo.Some? && platformInfo.value.platform == "linux"
    }

    /** `getName`: the reported platform, or "unknown" before one is reported or when it is empty. */
    function GetName(): (r: string)
      reads this
      ensures platformInfo.None? || platformInfo.value.platform == "" ==> r == UNKNOWN_PLATFORM
      ensures platformInfo.Some? && platformInfo.value.platform != "" ==> r == platformInfo.value.platform
      ensures r != ""
    {
      if platformInfo.Some? && platformInfo.value.platform != "" then platformInfo.value.platform else UNKNOWN_PLATFORM
    }
  }

  /** Before a non-empty platform is reported no platform test holds and the name is "unknown"; afterwards at most one does, and it agrees with the name. */
  lemma PlatformTests(api: Api)
    ensures api.platformInfo.None? ==> !api.IsMac() && !api.IsWindows() && !api.IsLinux() && api.GetName() == UNKNOWN_PLATFORM
    ensures api.platformInfo.Some? && api.platformInfo.value.platform == "" ==>
              !api.IsMac() && !api.IsWindows() && !api.IsLinux() && api.GetName() == UNKNOWN_PLATFORM
    ensures (if api.IsMac() then 1 else 0) + (if api.IsWindows() then 1 else 0) + (if api.IsLinux() then 1 else 0) <= 1
    ensures api.IsMac() ==> api.GetName() == "darwin"
    ensures api.IsWindows() ==> api.GetName() == "win32"
    ensures api.IsLinux() ==> api.GetName() == "linux"
  {
  }

  /**
   * `config.get`: the default for a missing key, the parsed value when the
   * stored text is JSON, and the text itself otherwise.
   */
  function ConfigGet(store: Store, c: Codec, key: string, default: Value): (r: Value)
    reads store
    ensures key !in store.items ==> r == default
    ensures key in store.items && c.parse(store.items[key]).Some? ==> r == c.parse(store.items[key]).value
    ensures key in store.items && c.parse(store.items[key]).None? ==> r == Str(store.items[key])
  {
    match store.GetItem(key)
    case None => default
    case Some(text) =>
      match c.parse(text)
      case Some(v) => v
      case None => Str(text)
  }

  /** `config.set`: objects (and `null`) as JSON, anything else as its own text. */
  method ConfigSet(store: Store, c: Codec, key: string, value: Value)
    requires Faithful(c)
    modifies store
    ensures IsObject(value) ==> store.items == old(store.items)[key := StoredText(c, value)]
    ensures !IsObject(value) ==> store.items == old(store.items)[key := ToText(value)]
  {
    if IsObject(value) {
      store.SetItem(key, StoredText(c, value));
    } else {
      store.SetItem(key, ToText(value));
    }
  }

  /** `config.remove`. */
  method ConfigRemove(store: Store, key: string)
    modifies store
    ensures store.items == old(store.items) - {key}
  {
    store.RemoveItem(key);
  }

  /** `config.clear`. */
  method ConfigClear(store: Store)
    modifies store
    ensures store.items == map[]
  {
    store.Clear();
  }

  /**
   * Setting and getting a key gives back a JSON value that is not a
   * string; a string comes back as itself only when it is not JSON text.
   */
  method ConfigRoundTrip(store: Store, c: Codec, key: string, value: Value, default: Value) returns (r: Value)
    requires Faithful(c) && IsJson(value)
    modifies store
    ensures !value.Str? ==> r == value
    ensures value.Str? && c.parse(value.s).None? ==> r == value
    ensures value.Str? && c.parse(value.s).Some? ==> r == c.parse(value.s).value
  {
    ConfigSet(store, c, key, value);
    if !IsObject(value) && !value.Str? {
      ToTextParses(c, value);
    }
    r := ConfigGet(store, c, key, default);
  }
}
