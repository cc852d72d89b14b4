/**
 * Formatting helpers of the updater interface: remaining-time text, version
 * comparison, update file URLs, file names of paths and release notes as HTML.
 */
module Utils {
  import opened Strings

  // ---------------------------------------------------------------------
  // Remaining time
  // ---------------------------------------------------------------------

  const LESS_THAN_SECOND: string := "ít hơn 1 giây"
  const HOURS: string := "giờ"
  const MINUTES: string := "phút"
  const SECONDS: string := "giây"

  /** How `formatTimeRemaining` breaks a duration down before rendering it. */
  datatype Remaining =
    | UnderASecond
    | HoursMinutes(hours: nat, minutes: nat)
    | MinutesSeconds(minutes: nat, seconds: nat)
    | SecondsOnly(seconds: nat)

  /**
   * The largest non-zero unit and the one below it: whole hours and minutes,
   * or whole minutes and seconds, or whole seconds.
   */
  function RemainingOf(ms: int): (r: Remaining)
    ensures r.UnderASecond? <==> ms < 1000
    ensures r.HoursMinutes? ==> r.hours > 0 && r.minutes < 60 && 60 * r.hours + r.minutes == ms / 60000
    ensures r.MinutesSeconds? ==> 0 < r.minutes < 60 && r.seconds < 60
                                  && 60 * r.minutes + r.seconds == ms / 1000
    ensures r.SecondsOnly? ==> 0 < r.seconds < 60 && r.seconds == ms / 1000
  {
    if ms < 1000 then UnderASecond
    else
      var seconds := (ms / 1000) % 60;
      var minutes := (ms / 60000) % 60;
      var hours := ms / 3600000;
      assert ms / 60000 == (ms / 1000) / 60;
      assert ms / 3600000 == (ms / 60000) / 60;
      if hours > 0 then HoursMinutes(hours, minutes)
      else if minutes > 0 then MinutesSeconds(minutes, seconds)
      else SecondsOnly(seconds)
  }

  /** The text of a breakdown: each number followed by its unit. */
  function RenderRemaining(r: Remaining): string
  {
    match r
    case UnderASecond => LESS_THAN_SECOND
    case HoursMinutes(h, m) => Join([NatToString(h), HOURS, NatToString(m), MINUTES], ' ')
    case MinutesSeconds(m, s) => Join([NatToString(m), MINUTES, NatToString(s), SECONDS], ' ')
    case SecondsOnly(s) => Join([NatToString(s), SECONDS], ' ')
  }

  /** `formatTimeRemaining` for a whole number of milliseconds. */
  function FormatTimeRemaining(ms: int): (r: string)
    ensures ms < 1000 ==> r == LESS_THAN_SECOND
    ensures ms >= 1000 ==> |r| > 0 && IsDigit(r[0])
  {
    RenderRemaining(RemainingOf(ms))
  }

  lemma DigitsHaveNoSpace(n: nat)
    ensures ' ' !in NatToString(n)
  {
    var s := NatToString(n);
    assert forall i :: 0 <= i < |s| ==> IsDigit(s[i]);
  }

  /**
   * Every text of at least a second reads back, word by word, as the
   * numbers and units of the breakdown, so the text names the duration.
   */
  lemma RenderRemainingReadsBack(r: Remaining)
    requires !r.UnderASecond?
    ensures Split(RenderRemaining(r), ' ') == RemainingWords(r)
  {
    var words := RemainingWords(r);
    forall i | 0 <= i < |words|
      ensures ' ' !in words[i]
    {
      match r
      case HoursMinutes(h, m) =>
        DigitsHaveNoSpace(h);
        DigitsHaveNoSpace(m);
      case MinutesSeconds(m, s) =>
        DigitsHaveNoSpace(m);
        DigitsHaveNoSpace(s);
      case SecondsOnly(s) =>
        DigitsHaveNoSpace(s);
    }
    SplitJoin(words, ' ');
  }

  /** The words of a breakdown's text: each number followed by its unit. */
  function RemainingWords(r: Remaining): (words: seq<string>)
    requires !r.UnderASecond?
    ensures RenderRemaining(r) == Join(words, ' ')
  {
    match r
    case HoursMinutes(h, m) => [NatToString(h), HOURS, NatToString(m), MINUTES]
    case MinutesSeconds(m, s) => [NatToString(m), MINUTES, NatToString(s), SECONDS]
    case SecondsOnly(s) => [NatToString(s), SECONDS]
  }

  // ---------------------------------------------------------------------
  // Versions
  // ---------------------------------------------------------------------

  /** A JavaScript number as `Number(part)` produces it: a value or NaN. */
  datatype JsNumber = Num(value: int) | NaN

  /** `Number(s)` for decimal digits around optional whitespace; every other text is NaN. */
  function ToNumber(s: string): (r: JsNumber)
    ensures AllSpace(s) ==> r == Num(0)
    ensures r.Num? ==> r.value >= 0
  {
    var t := Trim(s);
    TrimEmptyIffAllSpace(s);
    if t == "" then Num(0)
    else if AllDigits(t) then Num(DigitsValue(t))
    else NaN
  }

  /** `>` on numbers: false whenever NaN takes part. */
  predicate Greater(a: JsNumber, b: JsNumber)
  {
    a.Num? && b.Num? && a.value > b.value
  }

  /** `parts.map(Number)`. */
  function ToNumbers(parts: seq<string>): (r: seq<JsNumber>)
    ensures |r| == |parts|
    ensures forall i :: 0 <= i < |parts| ==> r[i] == ToNumber(parts[i])
  {
    seq(|parts|, i requires 0 <= i < |parts| => ToNumber(parts[i]))
  }

  /** `version.split('.').map(Number)`. */
  function ParseVersion(v: string): (p: seq<JsNumber>)
    ensures |p| >= 1
  {
    ToNumbers(Split(v, '.'))
  }

  /** The component at `i`, a missing one counting as 0. */
  function Component(p: seq<JsNumber>, i: nat): JsNumber
  {
    if i < |p| then p[i] else Num(0)
  }

  /** The order of two component lists from position `i` on: the first component that differs decides. */
  function CompareFrom(p: seq<JsNumber>, q: seq<JsNumber>, i: nat): (r: int)
    ensures r in {-1, 0, 1}
    decreases if |p| > |q| then |p| - i else |q| - i
  {
    if i >= |p| && i >= |q| then 0
    else if Greater(Component(p, i), Component(q, i)) then 1
    else if Greater(Component(q, i), Component(p, i)) then -1
    else CompareFrom(p, q, i + 1)
  }

  function VersionOrder(v1: string, v2: string): (r: int)
    ensures r in {-1, 0, 1}
  {
    CompareFrom(ParseVersion(v1), ParseVersion(v2), 0)
  }

  /** The comparison loop of `compareVersions` over the parsed components. */
  method CompareParts(parts1: seq<JsNumber>, parts2: seq<JsNumber>) returns (r: int)
    ensures r == CompareFrom(parts1, parts2, 0)
  {
    var n := if |parts1| > |parts2| then |parts1| else |parts2|;
    var i := 0;
    while i < n
      invariant 0 <= i <= n
      invariant CompareFrom(parts1, parts2, 0) == CompareFrom(parts1, parts2, i)
    {
      var part1 := if i < |parts1| then parts1[i] else Num(0);
      var part2 := if i < |parts2| then parts2[i] else Num(0);
      if Greater(part1, part2) {
        return 1;
      }
      if Greater(part2, part1) {
        return -1;
      }
      i := i + 1;
    }
    return 0;
  }

  /** `compareVersions`: 1, -1 or 0 as `v1` is newer, older or the same as `v2`. */
  method CompareVersions(v1: string, v2: string) returns (r: int)
    ensures r == VersionOrder(v1, v2)
    ensures r in {-1, 0, 1}
  {
    var parts1 := ParseVersion(v1);
    var parts2 := ParseVersion(v2);
    r := CompareParts(parts1, parts2);
  }

  /** Every version equals itself. */
  lemma {:induction false} CompareFromReflexive(p: seq<JsNumber>, i: nat)
    ensures CompareFrom(p, p, i) == 0
    decreases |p| - i
  {
    if i < |p| {
      CompareFromReflexive(p, i + 1);
    }
  }

  /** Swapping the operands negates the result. */
  lemma {:induction false} CompareFromAntisymmetric(p: seq<JsNumber>, q: seq<JsNumber>, i: nat)
    ensures CompareFrom(p, q, i) == -CompareFrom(q, p, i)
    decreases if |p| > |q| then |p| - i else |q| - i
  {
    if !(i >= |p| && i >= |q|) {
      CompareFromAntisymmetric(p, q, i + 1);
    }
  }

  lemma VersionOrderProperties(v1: string, v2: string)
    ensures VersionOrder(v1, v1) == 0
    ensures VersionOrder(v1, v2) == -VersionOrder(v2, v1)
  {
    CompareFromReflexive(ParseVersion(v1), 0);
    CompareFromAntisymmetric(ParseVersion(v1), ParseVersion(v2), 0);
  }

  function Max(a: int, b: int): int { if a > b then a else b }

  /** Two lists that agree component by component, a missing one counting as 0, compare alike. */
  lemma {:induction false} CompareFromComponentwise(p: seq<JsNumber>, p': seq<JsNumber>, q: seq<JsNumber>, i: nat)
    requires forall j: nat :: Component(p, j) == Component(p', j)
    ensures CompareFrom(p, q, i) == CompareFrom(p', q, i)
    decreases Max(Max(|p|, |p'|), |q|) - i
  {
    var stopP := i >= |p| && i >= |q|;
    var stopP' := i >= |p'| && i >= |q|;
    if stopP && stopP' {
    } else if stopP {
      assert Component(p', i) == Num(0) && Component(q, i) == Num(0);
      CompareFromComponentwise(p, p', q, i + 1);
    } else if stopP' {
      assert Component(p, i) == Num(0) && Component(q, i) == Num(0);
      CompareFromComponentwise(p, p', q, i + 1);
    } else {
      CompareFromComponentwise(p, p', q, i + 1);
    }
  }

  /** Splitting off a last piece that is free of the separator. */
  lemma SplitBeforeLastPiece(a: string, sep: char, b: string)
    requires sep !in b
    ensures Split(a + [sep] + b, sep) == Split(a, sep) + [b]
  {
    var parts := Split(a, sep);
    JoinSnoc(parts, b, sep);
    SplitJoin(parts + [b], sep);
  }

  lemma ZeroIsZero()
    ensures ToNumber("0") == Num(0)
  {
    var z := "0";
    assert IsTrimmed(z);
    TrimOfTrimmed(z);
    assert AllDigits(z);
    assert DigitsValue(z) == DigitsValue(z[..0]) * 10 + DigitOf(z[0]);
  }

  lemma ToNumbersAppend(parts: seq<string>, last: string)
    ensures ToNumbers(parts + [last]) == ToNumbers(parts) + [ToNumber(last)]
  {
    var l := ToNumbers(parts + [last]);
    var r := ToNumbers(parts) + [ToNumber(last)];
    assert |l| == |r|;
    forall i | 0 <= i < |l|
      ensures l[i] == r[i]
    {
      assert (parts + [last])[i] == if i < |parts| then parts[i] else last;
    }
  }

  /** Appending ".0" to a version appends a zero component. */
  lemma ParseVersionZeroSuffix(v: string)
    ensures ParseVersion(v + ".0") == ParseVersion(v) + [Num(0)]
  {
    var zero := "0";
    assert '.' !in zero;
    assert v + ".0" == v + ['.'] + zero;
    SplitBeforeLastPiece(v, '.', zero);
    ToNumbersAppend(Split(v, '.'), zero);
    ZeroIsZero();
  }

  lemma ZeroPaddingAgrees(p: seq<JsNumber>)
    ensures forall j: nat :: Component(p, j) == Component(p + [Num(0)], j)
  {
    forall j: nat
      ensures Component(p, j) == Component(p + [Num(0)], j)
    {
      if j < |p| {
        assert (p + [Num(0)])[j] == p[j];
      }
    }
  }

  /** A trailing ".0" never changes a comparison: "1.2" and "1.2.0" are the same version. */
  lemma TrailingZeroIgnored(v: string, w: string)
    ensures VersionOrder(v + ".0", w) == VersionOrder(v, w)
  {
    var p := ParseVersion(v);
    var p' := ParseVersion(v + ".0");
    ParseVersionZeroSuffix(v);
    ZeroPaddingAgrees(p);
    CompareFromComponentwise(p, p', ParseVersion(w), 0);
  }

  /** `isMajorUpdate`: the new version's first component is greater than the current one's. */
  predicate IsMajorUpdate(currentVersion: string, newVersion: string)
  {
    Greater(ParseVersion(newVersion)[0], ParseVersion(currentVersion)[0])
  }

  /** A major update is always a newer version. */
  lemma MajorUpdateIsNewer(currentVersion: string, newVersion: string)
    requires IsMajorUpdate(currentVersion, newVersion)
    ensures VersionOrder(newVersion, currentVersion) == 1
  {
  }

  // ---------------------------------------------------------------------
  // Paths and URLs
  // ---------------------------------------------------------------------

  /** `getUpdateFileUrl`: the base, with exactly the one slash it may lack, then platform and file. */
  function GetUpdateFileUrl(baseUrl: string, platform: string, fileName: string): (r: string)
    ensures EndsWith(baseUrl, "/") ==> r == baseUrl + platform + "/" + fileName
    ensures !EndsWith(baseUrl, "/") ==> r == baseUrl + "/" + platform + "/" + fileName
  {
    var normalized := if EndsWith(baseUrl, "/") then baseUrl else baseUrl + "/";
    normalized + platform + "/" + fileName
  }

  /** A base with its slash and the same base without one give the same URL. */
  lemma UpdateFileUrlSlashInsensitive(baseUrl: string, platform: string, fileName: string)
    requires !EndsWith(baseUrl, "/")
    ensures GetUpdateFileUrl(baseUrl + "/", platform, fileName) == GetUpdateFileUrl(baseUrl, platform, fileName)
  {
    assert EndsWith(baseUrl + "/", "/");
  }

  predicate IsPathSeparator(c: char)
  {
    c == '/' || c == '\\'
  }

  predicate NoSeparator(s: string)
  {
    forall i :: 0 <= i < |s| ==> !IsPathSeparator(s[i])
  }

  /** The run of non-separators at the end of `s`. */
  function TrailingName(s: string): (r: string)
    ensures |r| <= |s| && r == s[|s| - |r|..] && NoSeparator(r)
    ensures |r| < |s| ==> IsPathSeparator(s[|s| - |r| - 1])
  {
    if s == [] || IsPathSeparator(s[|s| - 1]) then ""
    else TrailingName(s[..|s| - 1]) + [s[|s| - 1]]
  }

  /** `s` without its trailing separators. */
  function DropTrailingSeparators(s: string): (r: string)
    ensures |r| <= |s| && r == s[..|r|]
    ensures forall i :: |r| <= i < |s| ==> IsPathSeparator(s[i])
    ensures r == [] || !IsPathSeparator(r[|r| - 1])
  {
    if s != [] && IsPathSeparator(s[|s| - 1]) then DropTrailingSeparators(s[..|s| - 1]) else s
  }

  /** `s.split(/[/\\]/)`: the pieces between separators, empty ones included. */
  function PathPieces(s: string): (r: seq<string>)
    ensures |r| >= 1 && r[|r| - 1] == TrailingName(s)
  {
    if s == [] then [""]
    else
      var init := PathPieces(s[..|s| - 1]);
      if IsPathSeparator(s[|s| - 1]) then init + [""]
      else init[..|init| - 1] + [init[|init| - 1] + [s[|s| - 1]]]
  }

  /** `.filter(Boolean)` on strings: the non-empty ones. */
  function NonEmpty(parts: seq<string>): seq<string>
  {
    if parts == [] then []
    else NonEmpty(parts[..|parts| - 1]) + if parts[|parts| - 1] == "" then [] else [parts[|parts| - 1]]
  }

  /** `extractFileName`: the last non-empty piece, or "" when there is none. */
  function ExtractFileName(filePath: string): (r: string)
  {
    var parts := NonEmpty(PathPieces(filePath));
    if parts == [] then "" else parts[|parts| - 1]
  }

  lemma NonEmptyDropsEmptyLast(parts: seq<string>)
    requires parts != [] && parts[|parts| - 1] == ""
    ensures NonEmpty(parts) == NonEmpty(parts[..|parts| - 1])
  {
  }

  lemma NonEmptyKeepsLast(parts: seq<string>)
    requires parts != [] && parts[|parts| - 1] != ""
    ensures NonEmpty(parts) != [] && NonEmpty(parts)[|NonEmpty(parts)| - 1] == parts[|parts| - 1]
  {
  }

  lemma ExtractFileNameStep(s: string)
    requires s != []
    ensures ExtractFileName(s) == if IsPathSeparator(s[|s| - 1]) then ExtractFileName(s[..|s| - 1])
                                  else TrailingName(s)
  {
    var pieces := PathPieces(s);
    if IsPathSeparator(s[|s| - 1]) {
      assert pieces == PathPieces(s[..|s| - 1]) + [""];
      assert pieces[..|pieces| - 1] == PathPieces(s[..|s| - 1]);
      NonEmptyDropsEmptyLast(pieces);
    } else {
      assert TrailingName(s) == TrailingName(s[..|s| - 1]) + [s[|s| - 1]];
      NonEmptyKeepsLast(pieces);
    }
  }

  /**
   * The file name is the last run of non-separators of the path once its
   * trailing separators are dropped: empty exactly when the path holds only
   * separators, and never containing one.
   */
  lemma {:induction false} ExtractFileNameIsLastName(filePath: string)
    ensures ExtractFileName(filePath) == TrailingName(DropTrailingSeparators(filePath))
    decreases |filePath|
  {
    if filePath != [] {
      ExtractFileNameStep(filePath);
      if IsPathSeparator(filePath[|filePath| - 1]) {
        ExtractFileNameIsLastName(filePath[..|filePath| - 1]);
      }
    }
  }

  lemma ExtractFileNameEmptyIffOnlySeparators(filePath: string)
    ensures ExtractFileName(filePath) == "" <==> forall i :: 0 <= i < |filePath| ==> IsPathSeparator(filePath[i])
  {
    ExtractFileNameIsLastName(filePath);
    var d := DropTrailingSeparators(filePath);
    if d != [] {
      assert TrailingName(d) != "";
      assert !IsPathSeparator(filePath[|d| - 1]);
    }
  }

  // ---------------------------------------------------------------------
  // Release notes
  // ---------------------------------------------------------------------

  /** The release notes an update carries: none, Markdown-like text, or a list of entries. */
  datatype ReleaseNotes = NoNotes | Text(text: string) | Entries(entries: seq<string>)

  function ReadyParagraph(version: string): string
  {
    "<p>Phiên bản <strong>" + version + "</strong> đã sẵn sàng để cài đặt.</p>"
  }

  function NotesHeader(version: string): string
  {
    "<p>Phiên bản <strong>" + version + "</strong> với các cập nhật sau:</p>"
  }

  /** One line of text notes: a bullet, a heading, nothing for a blank line, or a paragraph. */
  function NoteLine(line: string): string
  {
    LineMarkup(Trim(line), line)
  }

  /** The markup of a line given its trimmed text. */
  function LineMarkup(t: string, line: string): string
  {
    if StartsWith(t, "- ") then "<li>" + Substring(t, 2, |t|) + "</li>"
    else if StartsWith(t, "### ") then "<h4>" + Substring(t, 4, |t|) + "</h4>"
    else if t == "" then ""
    else "<p>" + line + "</p>"
  }

  function NoteLines(lines: seq<string>): string
  {
    if lines == [] then "" else NoteLines(lines[..|lines| - 1]) + NoteLine(lines[|lines| - 1])
  }

  function EntryItems(entries: seq<string>): string
  {
    if entries == [] then "" else EntryItems(entries[..|entries| - 1]) + "<li>" + entries[|entries| - 1] + "</li>"
  }

  /** What `formatReleaseNotes` produces. */
  function ReleaseNotesHtml(notes: ReleaseNotes, version: string): (r: string)
    ensures notes.NoNotes? || notes == Text("") ==> r == ReadyParagraph(version)
    ensures notes.Text? && notes.text != "" ==> r == NotesHeader(version) + NoteLines(Split(notes.text, '\n'))
    ensures notes.Entries? ==> r == NotesHeader(version) + "<ul>" + EntryItems(notes.entries) + "</ul>"
  {
    match notes
    case NoNotes => ReadyParagraph(version)
    case Text(text) =>
      if text == "" then ReadyParagraph(version) else NotesHeader(version) + NoteLines(Split(text, '\n'))
    case Entries(entries) => NotesHeader(version) + "<ul>" + EntryItems(entries) + "</ul>"
  }

  /** `formatReleaseNotes`, appending the list entries one by one. */
  method FormatReleaseNotes(notes: ReleaseNotes, version: string) returns (content: string)
    ensures content == ReleaseNotesHtml(notes, version)
  {
    if notes.NoNotes? || notes == Text("") {
      return ReadyParagraph(version);
    }
    content := NotesHeader(version);
    if notes.Text? {
      content := content + NoteLines(Split(notes.text, '\n'));
    } else {
      content := content + "<ul>";
      var i := 0;
      while i < |notes.entries|
        invariant 0 <= i <= |notes.entries|
        invariant content == NotesHeader(version) + "<ul>" + EntryItems(notes.entries[..i])
      {
        assert notes.entries[..i + 1][..i] == notes.entries[..i];
        content := content + "<li>" + notes.entries[i] + "</li>";
        i := i + 1;
      }
      assert notes.entries[..i] == notes.entries;
      content := content + "</ul>";
    }
  }

  /** A line whose trimmed text starts with "- ", indented or not, becomes a list item holding the rest of that text. */
  lemma BulletLineIsListItem(line: string)
    requires StartsWith(Trim(line), "- ")
    ensures NoteLine(line) == "<li>" + Trim(line)[2..] + "</li>"
  {
    BulletMarkup(Trim(line), line);
  }

  lemma BulletMarkup(t: string, line: string)
    requires StartsWith(t, "- ")
    ensures LineMarkup(t, line) == "<li>" + t[2..] + "</li>"
  {
  }

  /** A line whose trimmed text is a `### ` heading becomes an `<h4>` holding the rest of that text. */
  lemma HeadingLineIsH4(line: string)
    requires StartsWith(Trim(line), "### ")
    ensures NoteLine(line) == "<h4>" + Trim(line)[4..] + "</h4>"
  {
    HeadingMarkup(Trim(line), line);
  }

  lemma HeadingMarkup(t: string, line: string)
    requires StartsWith(t, "### ")
    ensures LineMarkup(t, line) == "<h4>" + t[4..] + "</h4>"
  {
    assert t[0] == '#';
    assert !StartsWith(t, "- ");
  }

  /** A line of blanks contributes nothing. */
  lemma BlankLineIsEmpty(line: string)
    requires AllSpace(line)
    ensures NoteLine(line) == ""
  {
    TrimEmptyIffAllSpace(line);
  }

  /** Any other non-blank line becomes a paragraph of the line as written, untrimmed. */
  lemma OtherLineIsParagraph(line: string)
    requires !AllSpace(line)
    requires !StartsWith(Trim(line), "- ") && !StartsWith(Trim(line), "### ")
    ensures NoteLine(line) == "<p>" + line + "</p>"
  {
    TrimEmptyIffAllSpace(line);
  }

  /** Each list entry becomes one item: the entries' items follow each other in order. */
  lemma {:induction false} EntryItemsAppend(a: seq<string>, b: seq<string>)
    ensures EntryItems(a + b) == EntryItems(a) + EntryItems(b)
    decreases |b|
  {
    if b != [] {
      assert (a + b)[..|a + b| - 1] == a + b[..|b| - 1];
      EntryItemsAppend(a, b[..|b| - 1]);
    } else {
      assert a + b == a;
    }
  }
}
