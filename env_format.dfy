/**
 * The `.env` format the application reads and writes: one `KEY=value`
 * assignment per line, comments starting with '#', optional quotes around
 * the value, and the `KEY='value'` lines the settings are saved as.
 */
module EnvFormat {
  import opened Wrappers
  import opened Strings

  /** No character that `.` in a regular expression refuses. */
  predicate NoLineTerminator(s: string)
  {
    forall i :: 0 <= i < |s| ==> !IsLineTerminator(s[i])
  }

  /**
   * `line.match(/^([^=]+)=(.*)$/)`: the text before the first '=' (at least
   * one character) and everything after it, provided the rest holds no line
   * terminator (such as the '\r' a CRLF file leaves at the end of each line).
   */
  function MatchAssignment(line: string): (r: Option<(string, string)>)
    ensures r.Some? ==> line == r.value.0 + "=" + r.value.1 && r.value.0 != ""
                        && '=' !in r.value.0 && NoLineTerminator(r.value.1)
    ensures r.None? ==> forall j :: 1 <= j < |line| && line[j] == '=' && '=' !in line[..j] ==>
                          !NoLineTerminator(line[j + 1..])
  {
    var i := IndexOf(line, '=');
    if i < 1 then None
    else
      var rest := line[i + 1..];
      assert line == line[..i] + "=" + rest;
      if NoLineTerminator(rest) then Some((line[..i], rest)) else None
  }

  /** The value without one pair of matching double or single quotes around it. */
  function Unquote(value: string): (r: string)
    ensures |value| >= 2 && (value[0] == value[|value| - 1] == '"' || value[0] == value[|value| - 1] == '\'') ==>
              r == value[1..|value| - 1]
    ensures |value| < 2 ==> r == value
    ensures |value| >= 2 && !(value[0] == value[|value| - 1] == '"' || value[0] == value[|value| - 1] == '\'') ==>
              r == value
  {
    if (StartsWith(value, "\"") && EndsWith(value, "\"")) || (StartsWith(value, "'") && EndsWith(value, "'")) then
      Substring(value, 1, |value| - 1)
    else value
  }

  /** The key and value an assignment line sets: both trimmed, the value unquoted. */
  function ParseLine(line: string): (r: Option<(string, string)>)
    ensures r.Some? <==> MatchAssignment(line).Some?
    ensures r.Some? ==> IsTrimmed(r.value.0) && r.value.0 == Trim(MatchAssignment(line).value.0)
  {
    match MatchAssignment(line)
    case Some((key, value)) => Some((Trim(key), Unquote(Trim(value))))
    case None => None
  }

  /** The main process keeps non-empty lines that do not start with '#'. */
  predicate MainKeeps(line: string)
  {
    line != "" && !StartsWith(line, "#")
  }

  /** The settings module keeps lines with non-blank text that do not start with '#'. */
  predicate ConfigKeeps(line: string)
  {
    Trim(line) != "" && !StartsWith(line, "#")
  }

  /** What a line assigns under the main process's filter. */
  function Assignment(line: string): Option<(string, string)>
  {
    if MainKeeps(line) then ParseLine(line) else None
  }

  /** What a line assigns under the settings module's filter. */
  function ConfigAssignment(line: string): Option<(string, string)>
  {
    if ConfigKeeps(line) then ParseLine(line) else None
  }

  /** The two filters differ only on blank lines, which never match an assignment, so both readers agree. */
  lemma FiltersAgree(line: string)
    ensures ConfigAssignment(line) == Assignment(line)
  {
    var m := MatchAssignment(line);
    if m.Some? {
      var eq := |m.value.0|;
      assert line[eq] == '=';
      assert !AllSpace(line);
      TrimEmptyIffAllSpace(line);
    }
  }

  /** One line applied to the variables read so far. */
  function ApplyLine(env: map<string, string>, line: string): map<string, string>
  {
    match Assignment(line)
    case Some((key, value)) => env[key := value]
    case None => env
  }

  /** The lines applied in order, so a later assignment of a key wins. */
  function ApplyLines(env: map<string, string>, lines: seq<string>): map<string, string>
  {
    if lines == [] then env else ApplyLine(ApplyLines(env, lines[..|lines| - 1]), lines[|lines| - 1])
  }

  lemma {:induction false} ApplyLinesAppend(env: map<string, string>, a: seq<string>, b: seq<string>)
    ensures ApplyLines(env, a + b) == ApplyLines(ApplyLines(env, a), b)
    decreases |b|
  {
    if b == [] {
      assert a + b == a;
    } else {
      assert (a + b)[..|a + b| - 1] == a + b[..|b| - 1];
      ApplyLinesAppend(env, a, b[..|b| - 1]);
    }
  }

  // ---------------------------------------------------------------------
  // Writing
  // ---------------------------------------------------------------------

  /** Each line followed by a newline. */
  function Lines(ls: seq<string>): string
  {
    if ls == [] then "" else ls[0] + "\n" + Lines(ls[1..])
  }

  /** The header of the file the main process saves. */
  const HEADER_LINES: seq<string> := ["# SIP App Configuration", "# Auto-generated file", ""]

  /** The value between single quotes. */
  function Quoted(value: string): string
  {
    "'" + value + "'"
  }

  /** `${key}='${value}'`. */
  function EntryLine(key: string, value: string): string
  {
    key + "=" + Quoted(value)
  }

  function EntryLines(entries: seq<(string, string)>): (r: seq<string>)
    ensures |r| == |entries|
    ensures forall i :: 0 <= i < |entries| ==> r[i] == EntryLine(entries[i].0, entries[i].1)
  {
    seq(|entries|, i requires 0 <= i < |entries| => EntryLine(entries[i].0, entries[i].1))
  }

  /** The `save-config` file: the header, then one line per setting. */
  function SavedFile(entries: seq<(string, string)>): string
  {
    Lines(HEADER_LINES + EntryLines(entries))
  }

  /** The settings module's saved file: one line per setting, no header. */
  function SavedSettings(entries: seq<(string, string)>): string
  {
    Lines(EntryLines(entries))
  }

  /** The variables the entries set, in order. */
  function EntriesMap(env: map<string, string>, entries: seq<(string, string)>): map<string, string>
  {
    if entries == [] then env
    else EntriesMap(env, entries[..|entries| - 1])[entries[|entries| - 1].0 := entries[|entries| - 1].1]
  }

  /** A key that reads back: non-empty, trimmed, with no '=' or newline, not starting with '#'. */
  predicate SafeKey(key: string)
  {
    key != "" && IsTrimmed(key) && '=' !in key && '\n' !in key && key[0] != '#'
  }

  /** A value that reads back: no line terminator. */
  predicate SafeValue(value: string)
  {
    NoLineTerminator(value)
  }

  predicate SafeEntries(entries: seq<(string, string)>)
  {
    forall i :: 0 <= i < |entries| ==> SafeKey(entries[i].0) && SafeValue(entries[i].1)
  }

  /** The lines written one after the other are the lines joined by newlines, with one more empty piece. */
  lemma {:induction false} LinesJoin(ls: seq<string>)
    ensures Lines(ls) == Join(ls + [""], '\n')
    decreases |ls|
  {
    if ls == [] {
      assert ls + [""] == [""];
    } else {
      assert (ls + [""])[1..] == ls[1..] + [""];
      LinesJoin(ls[1..]);
    }
  }

  /** Appending one more line to what has been written. */
  lemma {:induction false} LinesAppend(ls: seq<string>, line: string)
    ensures Lines(ls + [line]) == Lines(ls) + line + "\n"
    decreases |ls|
  {
    if ls == [] {
      assert ls + [line] == [line];
    } else {
      assert (ls + [line])[1..] == ls[1..] + [line];
      LinesAppend(ls[1..], line);
    }
  }

  /** Reading back what was written line by line. */
  lemma SplitLines(ls: seq<string>)
    requires forall i :: 0 <= i < |ls| ==> '\n' !in ls[i]
    ensures Split(Lines(ls), '\n') == ls + [""]
  {
    LinesJoin(ls);
    SplitJoin(ls + [""], '\n');
  }

  /** The regular expression splits a line at its first '='. */
  lemma MatchAt(key: string, rest: string)
    requires key != "" && '=' !in key && NoLineTerminator(rest)
    ensures MatchAssignment(key + "=" + rest) == Some((key, rest))
  {
    var line := key + "=" + rest;
    assert line[|key|] == '=';
    assert line[..|key|] == key;
    assert line[|key| + 1..] == rest;
  }

  lemma QuotedIsTrimmed(value: string)
    ensures Trim(Quoted(value)) == Quoted(value)
  {
    var q := Quoted(value);
    assert q[0] == '\'' && q[|q| - 1] == '\'';
    TrimOfTrimmed(q);
  }

  lemma UnquoteQuoted(value: string)
    ensures Unquote(Quoted(value)) == value
  {
    var q := Quoted(value);
    var n := |q|;
    assert q[0] == '\'' && q[n - 1] == '\'';
    assert q[1..n - 1] == value;
  }

  lemma QuotedHasNoLineTerminator(value: string)
    requires SafeValue(value)
    ensures NoLineTerminator(Quoted(value))
  {
    var q := Quoted(value);
    assert forall i :: 1 <= i < |q| - 1 ==> q[i] == value[i - 1];
  }

  lemma EntryLineParses(key: string, value: string)
    requires SafeKey(key) && SafeValue(value)
    ensures ParseLine(EntryLine(key, value)) == Some((key, value))
  {
    QuotedHasNoLineTerminator(value);
    MatchAt(key, Quoted(value));
    QuotedIsTrimmed(value);
    UnquoteQuoted(value);
    TrimOfTrimmed(key);
  }

  lemma EntryLineKept(key: string, value: string)
    requires key != "" && key[0] != '#'
    ensures MainKeeps(EntryLine(key, value))
  {
    var line := EntryLine(key, value);
    assert line[0] == key[0];
    assert line[..1][0] == line[0];
  }

  /** A saved setting line reads back as its key and value. */
  lemma EntryLineReadsBack(key: string, value: string)
    requires SafeKey(key) && SafeValue(value)
    ensures Assignment(EntryLine(key, value)) == Some((key, value))
  {
    EntryLineParses(key, value);
    EntryLineKept(key, value);
  }

  lemma ApplyEntryLine(env: map<string, string>, key: string, value: string)
    requires SafeKey(key) && SafeValue(value)
    ensures ApplyLine(env, EntryLine(key, value)) == env[key := value]
  {
    EntryLineReadsBack(key, value);
  }

  lemma {:induction false} EntryLinesApply(env: map<string, string>, entries: seq<(string, string)>)
    requires SafeEntries(entries)
    ensures ApplyLines(env, EntryLines(entries)) == EntriesMap(env, entries)
    decreases |entries|
  {
    if entries != [] {
      var n := |entries|;
      var init := entries[..n - 1];
      var lines := EntryLines(entries);
      assert lines[..n - 1] == EntryLines(init);
      EntryLinesApply(env, init);
      ApplyEntryLine(ApplyLines(env, EntryLines(init)), entries[n - 1].0, entries[n - 1].1);
    }
  }

  lemma EntryLineHasNoNewline(key: string, value: string)
    requires SafeKey(key) && SafeValue(value)
    ensures '\n' !in EntryLine(key, value)
  {
    QuotedHasNoLineTerminator(value);
    var q := Quoted(value);
    assert '\n' !in q by {
      assert IsLineTerminator('\n');
    }
    assert EntryLine(key, value) == key + "=" + q;
  }

  lemma EntryLinesHaveNoNewline(entries: seq<(string, string)>)
    requires SafeEntries(entries)
    ensures forall i :: 0 <= i < |entries| ==> '\n' !in EntryLines(entries)[i]
  {
    forall i | 0 <= i < |entries|
      ensures '\n' !in EntryLines(entries)[i]
    {
      EntryLineHasNoNewline(entries[i].0, entries[i].1);
    }
  }

  /** The header lines assign nothing. */
  lemma HeaderAssignsNothing(env: map<string, string>)
    ensures ApplyLines(env, HEADER_LINES) == env
  {
    var h := HEADER_LINES;
    assert h[0][..1] == "#" && h[1][..1] == "#";
    assert Assignment(h[0]) == None && Assignment(h[1]) == None && Assignment(h[2]) == None;
    assert h[..1][..0] == [] && h[..2][..1] == h[..1] && h[..3][..2] == h[..2] && h[..3] == h;
    assert ApplyLines(env, h[..1]) == env;
    assert ApplyLines(env, h[..2]) == env;
  }

  /**
   * Reading the file `save-config` writes gives back exactly the settings
   * saved, whenever the keys and values are safe.
   */
  lemma SavedFileRoundTrip(env: map<string, string>, entries: seq<(string, string)>)
    requires SafeEntries(entries)
    ensures ApplyLines(env, Split(SavedFile(entries), '\n')) == EntriesMap(env, entries)
  {
    var ls := HEADER_LINES + EntryLines(entries);
    EntryLinesHaveNoNewline(entries);
    forall i | 0 <= i < |ls|
      ensures '\n' !in ls[i]
    {
      if i >= 3 {
        assert ls[i] == EntryLines(entries)[i - 3];
      }
    }
    SplitLines(ls);
    assert ls + [""] == HEADER_LINES + (EntryLines(entries) + [""]);
    ApplyLinesAppend(env, HEADER_LINES, EntryLines(entries) + [""]);
    HeaderAssignsNothing(env);
    ApplyLinesAppend(env, EntryLines(entries), [""]);
    EntryLinesApply(env, entries);
  }

  /** The same for the header-less file the settings module writes. */
  lemma SavedSettingsRoundTrip(env: map<string, string>, entries: seq<(string, string)>)
    requires SafeEntries(entries)
    ensures ApplyLines(env, Split(SavedSettings(entries), '\n')) == EntriesMap(env, entries)
  {
    EntryLinesHaveNoNewline(entries);
    SplitLines(EntryLines(entries));
    ApplyLinesAppend(env, EntryLines(entries), [""]);
    EntryLinesApply(env, entries);
  }
}
