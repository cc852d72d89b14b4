/**
 * The Electron main process: reading the `.env` file into the process
 * environment at start-up, the `save-config` request that writes it, and
 * the window's maximized flag with the messages it sends to the renderer.
 */
module MainIndex {
  import opened Wrappers
  import opened Strings
  import opened EnvFormat

  /** A message sent to a renderer window. */
  datatype Message =
    | MaximizeChange(maximized: bool)
    | ThemeChanged(window: nat, theme: string)

  /** The reply to `save-config`. */
  datatype SaveResult = Saved | SaveFailed(error: string)

  class MainProcess {
    /** `process.env`. */
    var env: map<string, string>
    /** The `.env` file: its text, or None when there is none. */
    var envFile: Option<string>
    /** Whether the main window exists. */
    var windowOpen: bool
    var isMaximized: bool
    /** Messages sent to the renderer, oldest first. */
    var sent: seq<Message>

    constructor(env: map<string, string>, envFile: Option<string>)
      ensures this.env == env && this.envFile == envFile
      ensures !windowOpen && !isMaximized && sent == []
    {
      this.env := env;
      this.envFile := envFile;
      windowOpen := false;
      isMaximized := false;
      sent := [];
    }

    /** The window is created; its handlers are attached to it. */
    method CreateWindow()
      modifies this`windowOpen
      ensures windowOpen
    {
      windowOpen := true;
    }

    /**
     * `loadEnv`: every assignment line of the file, in order, sets its
     * variable; nothing happens without a file.
     */
    method LoadEnv()
      modifies this`env
      ensures envFile.None? ==> env == old(env)
      ensures envFile.Some? ==> env == ApplyLines(old(env), Split(envFile.value, '\n'))
    {
      if envFile.Some? {
        var lines := Split(envFile.value, '\n');
        var i := 0;
        while i < |lines|
          invariant 0 <= i <= |lines|
          invariant env == ApplyLines(old(env), lines[..i])
        {
          assert lines[..i + 1][..i] == lines[..i];
          var assignment := Assignment(lines[i]);
          if assignment.Some? {
            env := env[assignment.value.0 := assignment.value.1];
          }
          i := i + 1;
        }
        assert lines[..|lines|] == lines;
      }
    }

    /**
     * `save-config`: the header, then one `key='value'` line per setting in
     * order; the file is replaced unless writing fails.
     */
    method SaveConfig(entries: seq<(string, string)>, writeError: Option<string>) returns (r: SaveResult)
      modifies this`envFile
      ensures writeError.None? ==> r == Saved && envFile == Some(SavedFile(entries))
      ensures writeError.Some? ==> r == SaveFailed(writeError.value) && envFile == old(envFile)
    {
      var content := Lines(HEADER_LINES);
      var i := 0;
      assert HEADER_LINES + EntryLines(entries[..0]) == HEADER_LINES;
      while i < |entries|
        invariant 0 <= i <= |entries|
        invariant content == Lines(HEADER_LINES + EntryLines(entries[..i]))
        invariant envFile == old(envFile)
      {
        var (key, value) := entries[i];
        LinesAppend(HEADER_LINES + EntryLines(entries[..i]), EntryLine(key, value));
        assert HEADER_LINES + EntryLines(entries[..i + 1]) == HEADER_LINES + EntryLines(entries[..i]) + [EntryLine(key, value)];
        content := content + EntryLine(key, value) + "\n";
        i := i + 1;
      }
      assert entries[..|entries|] == entries;
      if writeError.Some? {
        return SaveFailed(writeError.value);
      }
      envFile := Some(content);
      return Saved;
    }

    /** `maximize-window`: flips the flag and reports it, when there is a window. */
    method ToggleMaximize()
      modifies this`isMaximized, this`sent
      ensures !windowOpen ==> isMaximized == old(isMaximized) && sent == old(sent)
      ensures windowOpen ==> isMaximized == !old(isMaximized) && sent == old(sent) + [MaximizeChange(isMaximized)]
    {
      if !windowOpen {
        return;
      }
      isMaximized := !isMaximized;
      sent := sent + [MaximizeChange(isMaximized)];
    }

    /** The window's own `maximize` (true) or `unmaximize` (false) event. */
    method OnMaximizeEvent(maximized: bool)
      modifies this`isMaximized, this`sent
      ensures isMaximized == maximized
      ensures sent == old(sent) + (if windowOpen then [MaximizeChange(maximized)] else [])
    {
      isMaximized := maximized;
      if windowOpen {
        sent := sent + [MaximizeChange(maximized)];
      }
    }

    /** `set-theme`: the theme goes to every open window, in order. */
    method SetTheme(theme: string, windows: seq<nat>)
      modifies this`sent
      ensures !windowOpen ==> sent == old(sent)
      ensures windowOpen ==> sent == old(sent) + ThemeMessages(windows, theme)
    {
      if windowOpen {
        var i := 0;
        while i < |windows|
          invariant 0 <= i <= |windows|
          invariant sent == old(sent) + ThemeMessages(windows[..i], theme)
        {
          assert ThemeMessages(windows[..i + 1], theme) == ThemeMessages(windows[..i], theme) + [ThemeChanged(windows[i], theme)];
          sent := sent + [ThemeChanged(windows[i], theme)];
          i := i + 1;
        }
        assert windows[..|windows|] == windows;
      }
    }
  }

  /** One `theme-changed` message per window. */
  function ThemeMessages(windows: seq<nat>, theme: string): (r: seq<Message>)
    ensures |r| == |windows|
    ensures forall i :: 0 <= i < |windows| ==> r[i] == ThemeChanged(windows[i], theme)
  {
    seq(|windows|, i requires 0 <= i < |windows| => ThemeChanged(windows[i], theme))
  }

  /** Saving settings and reading the file back at the next start gives the settings back. */
  method SaveThenLoad(entries: seq<(string, string)>) returns (env: map<string, string>)
    requires SafeEntries(entries)
    ensures env == EntriesMap(map[], entries)
  {
    var p := new MainProcess(map[], None);
    var r := p.SaveConfig(entries, None);
    p.LoadEnv();
    SavedFileRoundTrip(map[], entries);
    env := p.env;
  }

  /** Toggling twice restores the flag and reports both changes. */
  method ToggleTwice(p: MainProcess)
    requires p.windowOpen
    modifies p
    ensures p.isMaximized == old(p.isMaximized)
    ensures p.sent == old(p.sent) + [MaximizeChange(!old(p.isMaximized)), MaximizeChange(old(p.isMaximized))]
  {
    p.ToggleMaximize();
    p.ToggleMaximize();
  }
}
