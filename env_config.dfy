/**
 * The renderer's settings module: the `.env` file read into a record, the
 * built-in defaults it overrides, the settings chosen for development or
 * production, and the run-time override and save of those settings.
 */
module EnvConfig {
  import opened Wrappers
  import opened Strings
  import opened EnvFormat

  /**
   * `loadEnvFile`: the variables the file assigns, a later line for the same
   * key winning; an empty record when there is no readable file.
   */
  method LoadEnvFile(file: Option<string>) returns (vars: map<string, string>)
    ensures file.None? ==> vars == map[]
    ensures file.Some? ==> vars == ApplyLines(map[], Split(file.value, '\n'))
  {
    vars := map[];
    if file.Some? {
      vars := CollectVars(Split(file.value, '\n'));
    }
  }

  /** The `forEach` over the lines of the file, filling the record. */
  method CollectVars(lines: seq<string>) returns (vars: map<string, string>)
    ensures vars == ApplyLines(map[], lines)
  {
    vars := map[];
    var i := 0;
    while i < |lines|
      invariant 0 <= i <= |lines|
      invariant vars == ApplyLines(map[], lines[..i])
    {
      assert lines[..i + 1][..i] == lines[..i];
      var assignment := ConfigAssignment(lines[i]);
      ConfigLineApplies(vars, lines[i]);
      if assignment.Some? {
        vars := vars[assignment.value.0 := assignment.value.1];
      }
      i := i + 1;
    }
    assert lines[..|lines|] == lines;
  }

  /** A line the settings module reads changes the variables as the main process's reading does. */
  lemma ConfigLineApplies(env: map<string, string>, line: string)
    ensures ApplyLine(env, line) == match ConfigAssignment(line)
                                     case Some((key, value)) => env[key := value]
                                     case None => env
  {
    FiltersAgree(line);
  }

  const DEV_API_URL := "DEV_API_URL"
  const DEV_AUTH_URL := "DEV_AUTH_URL"
  const DEV_WORKER_URL := "DEV_WORKER_URL"
  const DEV_SIP_WS_URL := "DEV_SIP_WS_URL"
  const PROD_API_URL := "PROD_API_URL"
  const PROD_AUTH_URL := "PROD_AUTH_URL"
  const PROD_WORKER_URL := "PROD_WORKER_URL"
  const PROD_SIP_WS_URL := "PROD_SIP_WS_URL"

  /** The built-in addresses for both environments. */
  const DEFAULT_ENV: map<string, string> := map[
    DEV_API_URL := "http://localhost:3012/api",
    DEV_AUTH_URL := "http://localhost:3014/auth",
    DEV_WORKER_URL := "http://localhost:3015/worker",
    DEV_SIP_WS_URL := "ws://103.27.238.195:8088/ws",
    PROD_API_URL := "https://onestar.finstar.vn/api",
    PROD_AUTH_URL := "https://onestar.finstar.vn/auth",
    PROD_WORKER_URL := "https://onestar.finstar.vn/worker",
    PROD_SIP_WS_URL := "wss://sip.socket.onestar.vn/ws"
  ]

  /** `{ ...defaultEnv, ...envVars }`: every default, overridden by the file. */
  function CombinedEnv(fileVars: map<string, string>): (r: map<string, string>)
    ensures r.Keys == DEFAULT_ENV.Keys + fileVars.Keys
    ensures forall k :: k in fileVars ==> r[k] == fileVars[k]
    ensures forall k :: k in DEFAULT_ENV && k !in fileVars ==> r[k] == DEFAULT_ENV[k]
  {
    DEFAULT_ENV + fileVars
  }

  const API_URL := "API_URL"
  const AUTH_URL := "AUTH_URL"
  const WORKER_URL := "WORKER_URL"
  const SIP_WS_URL := "SIP_WS_URL"
  const APP_VERSION := "APP_VERSION"
  const APP_NAME := "APP_NAME"
  const ENV := "ENV"

  /** The address for development or production. */
  function Pick(isDevelopment: bool, combined: map<string, string>, dev: string, prod: string): string
    requires dev in combined && prod in combined
  {
    if isDevelopment then combined[dev] else combined[prod]
  }

  /**
   * The `config` record, in its key order: the four addresses of the
   * current environment, the application's version and name, and the
   * environment's name.
   */
  function InitialConfig(isDevelopment: bool, fileVars: map<string, string>, appVersion: string, appName: string)
    : (r: seq<(string, string)>)
    ensures |r| == 7
    ensures r[0].0 == API_URL && r[1].0 == AUTH_URL && r[2].0 == WORKER_URL && r[3].0 == SIP_WS_URL
    ensures r[4] == (APP_VERSION, appVersion) && r[5] == (APP_NAME, appName)
    ensures r[6] == (ENV, if isDevelopment then "development" else "production")
    ensures isDevelopment ==> r[0].1 == CombinedEnv(fileVars)[DEV_API_URL] && r[1].1 == CombinedEnv(fileVars)[DEV_AUTH_URL]
                              && r[2].1 == CombinedEnv(fileVars)[DEV_WORKER_URL] && r[3].1 == CombinedEnv(fileVars)[DEV_SIP_WS_URL]
    ensures !isDevelopment ==> r[0].1 == CombinedEnv(fileVars)[PROD_API_URL] && r[1].1 == CombinedEnv(fileVars)[PROD_AUTH_URL]
                               && r[2].1 == CombinedEnv(fileVars)[PROD_WORKER_URL] && r[3].1 == CombinedEnv(fileVars)[PROD_SIP_WS_URL]
    ensures DistinctKeys(r)
  {
    var c := CombinedEnv(fileVars);
    AddressesCombined(fileVars);
    var r := [(API_URL, Pick(isDevelopment, c, DEV_API_URL, PROD_API_URL)),
              (AUTH_URL, Pick(isDevelopment, c, DEV_AUTH_URL, PROD_AUTH_URL)),
              (WORKER_URL, Pick(isDevelopment, c, DEV_WORKER_URL, PROD_WORKER_URL)),
              (SIP_WS_URL, Pick(isDevelopment, c, DEV_SIP_WS_URL, PROD_SIP_WS_URL)),
              (APP_VERSION, appVersion),
              (APP_NAME, appName),
              (ENV, if isDevelopment then "development" else "production")];
    ConfigKeysDistinct(r);
    r
  }

  /** Both environments' addresses are always among the combined variables. */
  lemma AddressesCombined(fileVars: map<string, string>)
    ensures DEV_API_URL in CombinedEnv(fileVars) && PROD_API_URL in CombinedEnv(fileVars)
    ensures DEV_AUTH_URL in CombinedEnv(fileVars) && PROD_AUTH_URL in CombinedEnv(fileVars)
    ensures DEV_WORKER_URL in CombinedEnv(fileVars) && PROD_WORKER_URL in CombinedEnv(fileVars)
    ensures DEV_SIP_WS_URL in CombinedEnv(fileVars) && PROD_SIP_WS_URL in CombinedEnv(fileVars)
  {
  }

  /** The seven keys of the record, in its order, are pairwise different. */
  lemma ConfigKeysDistinct(r: seq<(string, string)>)
    requires |r| == 7
    requires r[0].0 == API_URL && r[1].0 == AUTH_URL && r[2].0 == WORKER_URL && r[3].0 == SIP_WS_URL
    requires r[4].0 == APP_VERSION && r[5].0 == APP_NAME && r[6].0 == ENV
    ensures DistinctKeys(r)
  {
  }

  /** No key appears twice, as in a record. */
  predicate DistinctKeys(entries: seq<(string, string)>)
  {
    forall i, j :: 0 <= i < j < |entries| ==> entries[i].0 != entries[j].0
  }

  /** The position of a key, or -1. */
  function KeyIndex(entries: seq<(string, string)>, key: string): (r: int)
    ensures -1 <= r < |entries|
    ensures r == -1 <==> forall i :: 0 <= i < |entries| ==> entries[i].0 != key
    ensures r >= 0 ==> entries[r].0 == key
  {
    if entries == [] then -1
    else if entries[0].0 == key then 0
    else
      var r := KeyIndex(entries[1..], key);
      if r < 0 then -1 else r + 1
  }

  /** The settings record; its entries are in the record's key order. */
  class Config {
    var entries: seq<(string, string)>
    /** The `.env` file next to the program: its text, or None. */
    var envFile: Option<string>

    ghost predicate Valid()
      reads this
    {
      DistinctKeys(entries)
    }

    constructor(isDevelopment: bool, envFile: Option<string>, appVersion: string, appName: string)
      ensures Valid()
      ensures this.envFile == envFile
      ensures envFile.None? ==> entries == InitialConfig(isDevelopment, map[], appVersion, appName)
      ensures envFile.Some? ==> entries == InitialConfig(isDevelopment, ApplyLines(map[], Split(envFile.value, '\n')), appVersion, appName)
    {
      var fileVars := LoadEnvFile(envFile);
      entries := InitialConfig(isDevelopment, fileVars, appVersion, appName);
      this.envFile := envFile;
    }

    /** The value of a key, if the record has it. */
    function Get(key: string): (r: Option<string>)
      reads this
      ensures r.None? <==> forall i :: 0 <= i < |entries| ==> entries[i].0 != key
      ensures r.Some? ==> exists i :: 0 <= i < |entries| && entries[i] == (key, r.value)
    {
      var i := KeyIndex(entries, key);
      if i < 0 then None else Some(entries[i].1)
    }

    /**
     * `overrideConfig`: the key takes the value, in place when the record
     * has it and at the end otherwise; every other key keeps its value.
     */
    method OverrideConfig(key: string, value: string)
      requires Valid()
      modifies this`entries
      ensures Valid()
      ensures Get(key) == Some(value)
      ensures forall k :: k != key ==> Get(k) == old(Get(k))
      ensures |entries| == |old(entries)| + (if old(Get(key)).None? then 1 else 0)
    {
      var i := KeyIndex(entries, key);
      if i < 0 {
        entries := entries + [(key, value)];
        i := |entries| - 1;
      } else {
        entries := entries[i := (key, value)];
      }
      assert DistinctKeys(entries);
      assert entries[i] == (key, value) && KeyIndex(entries, key) == i;
      forall k | k != key
        ensures Get(k) == old(Get(k))
      {
        OtherKeyUnchanged(old(entries), entries, key, k);
      }
    }

    /**
     * `saveConfig`: one `key='value'` line per setting, in order, replaces
     * the file; the result says whether writing succeeded.
     */
    method SaveConfig(writeFails: bool) returns (ok: bool)
      modifies this`envFile
      ensures ok == !writeFails
      ensures ok ==> envFile == Some(SavedSettings(entries))
      ensures !ok ==> envFile == old(envFile)
    {
      var content := "";
      var i := 0;
      assert EntryLines(entries[..0]) == [];
      while i < |entries|
        invariant 0 <= i <= |entries|
        invariant content == Lines(EntryLines(entries[..i]))
        invariant envFile == old(envFile)
      {
        var (key, value) := entries[i];
        LinesAppend(EntryLines(entries[..i]), EntryLine(key, value));
        assert EntryLines(entries[..i + 1]) == EntryLines(entries[..i]) + [EntryLine(key, value)];
        content := content + EntryLine(key, value) + "\n";
        i := i + 1;
      }
      assert entries[..|entries|] == entries;
      if writeFails {
        return false;
      }
      envFile := Some(content);
      return true;
    }
  }

  /** Setting one key leaves the value of every other key as it was. */
  lemma OtherKeyUnchanged(before: seq<(string, string)>, after: seq<(string, string)>, key: string, k: string)
    requires k != key && DistinctKeys(before) && DistinctKeys(after)
    requires |after| >= |before|
    requires forall i :: 0 <= i < |before| && before[i].0 != key ==> after[i] == before[i]
    requires forall i :: 0 <= i < |after| && (i >= |before| || before[i].0 == key) ==> after[i].0 == key
    ensures KeyIndex(after, k) == -1 <==> KeyIndex(before, k) == -1
    ensures KeyIndex(after, k) >= 0 ==> after[KeyIndex(after, k)] == before[KeyIndex(before, k)]
  {
    var a := KeyIndex(after, k);
    var b := KeyIndex(before, k);
    if b >= 0 {
      assert after[b] == before[b];
    }
    if a >= 0 {
      assert a < |before| && before[a].0 != key;
    }
  }

  /** The keys of the entries. */
  function KeysOf(entries: seq<(string, string)>): (r: set<string>)
    ensures forall i :: 0 <= i < |entries| ==> entries[i].0 in r
    ensures forall k :: k in r ==> exists i :: 0 <= i < |entries| && entries[i].0 == k
  {
    set i | 0 <= i < |entries| :: entries[i].0
  }

  /** The entries set exactly their own keys. */
  lemma {:induction false} EntriesMapKeys(entries: seq<(string, string)>)
    ensures EntriesMap(map[], entries).Keys == KeysOf(entries)
    decreases |entries|
  {
    if entries != [] {
      var n := |entries|;
      var init := entries[..n - 1];
      EntriesMapKeys(init);
      assert KeysOf(entries) == KeysOf(init) + {entries[n - 1].0} by {
        assert forall i :: 0 <= i < n - 1 ==> init[i] == entries[i];
      }
    }
  }

  /** With distinct keys, each key holds the value its entry gives. */
  lemma {:induction false} EntriesMapValues(entries: seq<(string, string)>)
    requires DistinctKeys(entries)
    ensures forall i :: 0 <= i < |entries| ==>
              entries[i].0 in EntriesMap(map[], entries) && EntriesMap(map[], entries)[entries[i].0] == entries[i].1
    decreases |entries|
  {
    if entries != [] {
      var n := |entries|;
      var init := entries[..n - 1];
      EntriesMapValues(init);
      forall i | 0 <= i < n - 1
        ensures EntriesMap(map[], entries)[entries[i].0] == entries[i].1
      {
        assert init[i] == entries[i];
      }
    }
  }

  /**
   * The file `saveConfig` writes reads back, at the next start, as exactly
   * the saved settings, when keys and values are safe to write.
   */
  lemma SavedSettingsReload(entries: seq<(string, string)>)
    requires DistinctKeys(entries) && SafeEntries(entries)
    ensures ApplyLines(map[], Split(SavedSettings(entries), '\n')).Keys == KeysOf(entries)
    ensures forall i :: 0 <= i < |entries| ==> ApplyLines(map[], Split(SavedSettings(entries), '\n'))[entries[i].0] == entries[i].1
  {
    SavedSettingsRoundTrip(map[], entries);
    EntriesMapKeys(entries);
    EntriesMapValues(entries);
  }

  /**
   * Only the development and production addresses of the file reach the
   * record: a variable under any other name, such as a saved `API_URL`,
   * leaves the record as it was.
   */
  lemma OtherVariablesIgnored(isDevelopment: bool, fileVars: map<string, string>, key: string, value: string,
                              appVersion: string, appName: string)
    requires key !in DEFAULT_ENV
    ensures InitialConfig(isDevelopment, fileVars[key := value], appVersion, appName)
            == InitialConfig(isDevelopment, fileVars, appVersion, appName)
  {
    assert DEV_API_URL in DEFAULT_ENV && PROD_API_URL in DEFAULT_ENV;
    assert DEV_AUTH_URL in DEFAULT_ENV && PROD_AUTH_URL in DEFAULT_ENV;
    assert DEV_WORKER_URL in DEFAULT_ENV && PROD_WORKER_URL in DEFAULT_ENV;
    assert DEV_SIP_WS_URL in DEFAULT_ENV && PROD_SIP_WS_URL in DEFAULT_ENV;
    CombinedUnchangedAt(fileVars, key, value, DEV_API_URL);
    CombinedUnchangedAt(fileVars, key, value, PROD_API_URL);
    CombinedUnchangedAt(fileVars, key, value, DEV_AUTH_URL);
    CombinedUnchangedAt(fileVars, key, value, PROD_AUTH_URL);
    CombinedUnchangedAt(fileVars, key, value, DEV_WORKER_URL);
    CombinedUnchangedAt(fileVars, key, value, PROD_WORKER_URL);
    CombinedUnchangedAt(fileVars, key, value, DEV_SIP_WS_URL);
    CombinedUnchangedAt(fileVars, key, value, PROD_SIP_WS_URL);
  }

  /** Setting one file variable leaves the combined value of every other default name alone. */
  lemma CombinedUnchangedAt(fileVars: map<string, string>, key: string, value: string, k: string)
    requires k in DEFAULT_ENV && k != key
    ensures k in CombinedEnv(fileVars) && k in CombinedEnv(fileVars[key := value])
    ensures CombinedEnv(fileVars[key := value])[k] == CombinedEnv(fileVars)[k]
  {
  }
}
