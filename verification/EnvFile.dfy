/**
 * The allowlisted env-file parser and the resolution of the seed secrets. A file is
 * its content; an unreadable file is the empty one.
 */
module EnvFile {
  import opened Base
  import opened Text

  type Entries = map<string, string>

  // ---- one line ----

  const EXPORT: string := "export "

  function Unquote(v: string): string {
    if |v| >= 2 && ((v[0] == '"' && v[|v| - 1] == '"') || (v[0] == '\'' && v[|v| - 1] == '\''))
    then v[1..|v| - 1] else v
  }

  /** The assignment a line makes, if it is one of an allowlisted key to a non-blank value. */
  function ParseLine(raw: string, allow: set<string>): Option<(string, string)> {
    var trimmed := Trim(raw);
    if trimmed == "" || trimmed[0] == '#' then None
    else
      var line := if StartsWith(trimmed, EXPORT) then Trim(trimmed[|EXPORT|..]) else trimmed;
      var eq := IndexOf(line, '=');
      if eq < 0 then None
      else
        var key := Trim(line[..eq]);
        if key !in allow then None
        else
          var value := Unquote(Trim(line[eq + 1..]));
          if Trim(value) == "" then None else Some((key, value))
  }

  // ---- the whole file ----

  /** content.split("\n"). */
  function Lines(content: string): (r: seq<string>)
    ensures |r| >= 1
  {
    if content == "" then [""]
    else if content[0] == '\n' then [""] + Lines(content[1..])
    else var rest := Lines(content[1..]); [[content[0]] + rest[0]] + rest[1..]
  }

  function ParseLines(lines: seq<string>, allow: set<string>): Entries {
    if lines == [] then map[]
    else
      var before := ParseLines(lines[..|lines| - 1], allow);
      var last := ParseLine(lines[|lines| - 1], allow);
      if last.Some? then before[last.value.0 := last.value.1] else before
  }

  /** The body of the parser's loop: every `continue` leaves without an entry. */
  method ReadLine(raw: string, allow: set<string>) returns (entry: Option<(string, string)>)
    ensures entry == ParseLine(raw, allow)
    ensures entry.Some? ==> entry.value.0 in allow && !Blank(entry.value.1)
  {
    var trimmed := Trim(raw);
    if trimmed == "" || trimmed[0] == '#' {
      return None;
    }
    var line := trimmed;
    if StartsWith(trimmed, EXPORT) {
      line := Trim(trimmed[|EXPORT|..]);
    }
    var eq := IndexOf(line, '=');
    if eq < 0 {
      return None;
    }
    var key := Trim(line[..eq]);
    if key !in allow {
      return None;
    }
    var value := Unquote(Trim(line[eq + 1..]));
    TrimBlank(value);
    if Trim(value) == "" {
      return None;
    }
    entry := Some((key, value));
  }

  /** parseAllowlistedEnvFile: a loop over the lines that fills one map. */
  method ParseFile(content: string, allow: set<string>) returns (out: Entries)
    ensures out == ParseLines(Lines(content), allow)
    ensures out.Keys <= allow
    ensures forall k :: k in out ==> !Blank(out[k])
  {
    var lines := Lines(content);
    out := map[];
    for i := 0 to |lines|
      invariant out == ParseLines(lines[..i], allow)
      invariant out.Keys <= allow
      invariant forall k :: k in out ==> !Blank(out[k])
    {
      assert lines[..i + 1][..i] == lines[..i];
      var entry := ReadLine(lines[i], allow);
      if entry.Some? {
        out := out[entry.value.0 := entry.value.1];
      }
    }
    assert lines[..|lines|] == lines;
  }

  // ---- the last assignment wins; other lines do not matter ----

  ghost predicate LastAssignment(lines: seq<string>, allow: set<string>, key: string, i: int) {
    && 0 <= i < |lines|
    && ParseLine(lines[i], allow).Some? && ParseLine(lines[i], allow).value.0 == key
    && forall j :: i < j < |lines| ==> !AssignsTo(lines[j], allow, key)
  }

  predicate AssignsTo(line: string, allow: set<string>, key: string) {
    ParseLine(line, allow).Some? && ParseLine(line, allow).value.0 == key
  }

  lemma LastAssignmentSnoc(lines: seq<string>, last: string, allow: set<string>, key: string, i: int)
    requires !AssignsTo(last, allow, key)
    ensures LastAssignment(lines + [last], allow, key, i) <==> LastAssignment(lines, allow, key, i)
  {
    var all := lines + [last];
    assert forall j :: 0 <= j < |lines| ==> all[j] == lines[j];
    assert all[|lines|] == last;
  }

  /** A key's value is that of the last line assigning it. */
  lemma {:induction false} LastAssignmentWins(lines: seq<string>, allow: set<string>, key: string, i: int)
    requires LastAssignment(lines, allow, key, i)
    ensures key in ParseLines(lines, allow) && ParseLines(lines, allow)[key] == ParseLine(lines[i], allow).value.1
  {
    var n := |lines| - 1;
    if i < n {
      assert !AssignsTo(lines[n], allow, key);
      assert lines == lines[..n] + [lines[n]];
      LastAssignmentSnoc(lines[..n], lines[n], allow, key, i);
      LastAssignmentWins(lines[..n], allow, key, i);
    }
  }

  /** A key is present exactly when some line assigns it. */
  lemma {:induction false} AssignedIsPresent(lines: seq<string>, allow: set<string>, key: string)
    ensures key in ParseLines(lines, allow) <==> exists i :: LastAssignment(lines, allow, key, i)
  {
    if lines != [] {
      var n := |lines| - 1;
      AssignedIsPresent(lines[..n], allow, key);
      assert lines == lines[..n] + [lines[n]];
      if AssignsTo(lines[n], allow, key) {
        assert LastAssignment(lines, allow, key, n);
      } else {
        forall i: int ensures LastAssignment(lines, allow, key, i) <==> LastAssignment(lines[..n], allow, key, i) {
          LastAssignmentSnoc(lines[..n], lines[n], allow, key, i);
        }
      }
    }
  }

  /** Lines that assign no allowlisted key may be inserted anywhere without changing the result. */
  lemma {:induction false} OtherLinesDoNotMatter(before: seq<string>, others: seq<string>, after: seq<string>,
      allow: set<string>)
    requires forall l :: l in others ==> ParseLine(l, allow).None?
    ensures ParseLines(before + others + after, allow) == ParseLines(before + after, allow)
    decreases |others| + |after|
  {
    if after != [] {
      var n := |after| - 1;
      var a, b := before + others + after, before + after;
      assert a[..|a| - 1] == before + others + after[..n];
      assert b[..|b| - 1] == before + after[..n];
      OtherLinesDoNotMatter(before, others, after[..n], allow);
    } else if others != [] {
      var n := |others| - 1;
      var a := before + others + [];
      assert a[..|a| - 1] == before + others[..n] + [];
      assert a[|a| - 1] == others[n];
      OtherLinesDoNotMatter(before, others[..n], [], allow);
    } else {
      assert before + [] + [] == before + [];
    }
  }

  // ---- the round trip ----

  function PrintLine(key: string, value: string): string {
    key + "=\"" + value + "\""
  }

  /** Keys that survive a line of the file: no `=`, no outer space, not a comment, not an `export`. */
  predicate PlainKey(key: string) {
    '=' !in key && Trimmed(key) && !(key != "" && key[0] == '#') && !StartsWith(key, EXPORT)
  }

  lemma PrintedLineIsTrimmed(key: string, value: string)
    requires Trimmed(key)
    ensures Trimmed(PrintLine(key, value)) && Trim(PrintLine(key, value)) == PrintLine(key, value)
  {
    TrimIdentity(PrintLine(key, value));
  }

  lemma PrintedValue(value: string)
    ensures Trim("\"" + value + "\"") == "\"" + value + "\"" && Unquote("\"" + value + "\"") == value
  {
    var q := "\"" + value + "\"";
    TrimIdentity(q);
    assert q[1..|q| - 1] == value;
  }

  /** What remains after the leading `export ` handling still splits at the printed `=`. */
  lemma PrintedLineSplits(key: string, value: string)
    requires '=' !in key
    ensures IndexOf(PrintLine(key, value), '=') == |key|
    ensures PrintLine(key, value)[..|key|] == key
    ensures PrintLine(key, value)[|key| + 1..] == "\"" + value + "\""
  {
    IndexOfIs(PrintLine(key, value), '=', |key|);
  }

  lemma PlainKeyIsNotExport(key: string, value: string)
    requires PlainKey(key)
    ensures !StartsWith(PrintLine(key, value), EXPORT)
  {
    var line := PrintLine(key, value);
    if |key| < |EXPORT| {
      assert line[|key|] == '=';
      assert EXPORT[|key|] != '=';
    } else {
      assert line[..|EXPORT|] == key[..|EXPORT|];
    }
  }

  lemma PlainLineRoundTrip(key: string, value: string, allow: set<string>)
    requires PlainKey(key) && key in allow
    ensures ParseLine(PrintLine(key, value), allow) == if Blank(value) then None else Some((key, value))
  {
    PrintedLineIsTrimmed(key, value);
    PrintedLineSplits(key, value);
    PrintedValue(value);
    TrimIdentity(key);
    TrimBlank(value);
    PlainKeyIsNotExport(key, value);
    assert PrintLine(key, value)[0] != '#';
  }

  /** A key read from a line has no `=` in it and no outer space. */
  lemma ReadKeyIsTrimmed(raw: string, allow: set<string>)
    requires ParseLine(raw, allow).Some?
    ensures Trimmed(ParseLine(raw, allow).value.0) && '=' !in ParseLine(raw, allow).value.0
  {
    var trimmed := Trim(raw);
    var line := if StartsWith(trimmed, EXPORT) then Trim(trimmed[|EXPORT|..]) else trimmed;
    var eq := IndexOf(line, '=');
    var l, r := TrimParts(line[..eq]);
    assert forall i :: 0 <= i < |Trim(line[..eq])| ==> Trim(line[..eq])[i] == line[..eq][|l| + i];
  }

  lemma FoundInTheMiddle(left: string, s: string, right: string, c: char, i: nat)
    requires i < |left + s + right| && (left + s + right)[i] == c && c !in left && c !in right
    ensures |left| <= i < |left| + |s| && s[i - |left|] == c
  {
    var all := left + s + right;
    assert forall j :: 0 <= j < |left| ==> all[j] == left[j];
    assert all[|left| + |s|..] == right;
    assert forall j :: |left| + |s| <= j < |all| ==> all[j] == all[|left| + |s|..][j - |left| - |s|];
  }

  /** After `export `, the key that is read is shorter than the printed one. */
  lemma ExportKeyIsShortened(key: string, value: string, allow: set<string>)
    requires StartsWith(key, EXPORT) && Trimmed(key) && '=' !in key
    ensures ParseLine(PrintLine(key, value), allow).Some? ==> |ParseLine(PrintLine(key, value), allow).value.0| < |key|
  {
    var whole := PrintLine(key, value);
    PrintedLineIsTrimmed(key, value);
    PrintedLineSplits(key, value);
    assert whole[..|EXPORT|] == key[..|EXPORT|];
    var rest := whole[|EXPORT|..];
    var l, r := TrimParts(rest);
    var line := Trim(rest);
    var e := |key| - |EXPORT|;
    assert rest[e] == '=';
    FoundInTheMiddle(l, line, r, '=', e);
    var eq := IndexOf(line, '=');
    assert forall j :: 0 <= j < eq ==> line[..eq][j] == line[j];
    var l2, r2 := TrimParts(line[..eq]);
  }

  /** A printed entry is read back if and only if its key is plain and its value is not blank. */
  lemma LineRoundTrip(key: string, value: string, allow: set<string>)
    requires key in allow
    ensures ParseLine(PrintLine(key, value), allow) == Some((key, value)) <==> PlainKey(key) && !Blank(value)
  {
    var got := ParseLine(PrintLine(key, value), allow);
    if PlainKey(key) {
      PlainLineRoundTrip(key, value, allow);
    } else if Trimmed(key) && '=' !in key {
      PrintedLineIsTrimmed(key, value);
      if StartsWith(key, EXPORT) {
        ExportKeyIsShortened(key, value, allow);
      } else {
        assert PrintLine(key, value)[0] == '#' && got.None?;
      }
    } else if got.Some? {
      ReadKeyIsTrimmed(PrintLine(key, value), allow);
    }
  }

  // ---- every form of an assignment ----

  /** A value in either quotes loses them, once; any other text stands for itself. */
  lemma UnquoteExactly(v: string, q: char, text: string)
    ensures q == '"' || q == '\'' ==> Unquote([q] + v + [q]) == v
    ensures (text == "" || text[0] !in {'"', '\''} || |text| == 1 || text[|text| - 1] != text[0]) ==>
              Unquote(text) == text
  {
    assert ([q] + v + [q])[1..|v| + 1] == v;
  }

  /** The text of an assignment: white space where the parser allows it, and `export ` in front if wanted. */
  function Assignment(left: string, exported: Option<string>, key: string, a: string, b: string, text: string,
      right: string): string
  {
    left + (if exported.Some? then EXPORT + exported.value else "") + (key + a + "=" + (b + text)) + right
  }

  /** From the key on, without the outer space. */
  lemma CoreReads(key: string, a: string, b: string, text: string)
    requires key != "" && Trimmed(key) && '=' !in key && Blank(a) && Blank(b) && Trimmed(text)
    ensures var core := key + a + "=" + (b + text);
            && IndexOf(core, '=') == |key| + |a|
            && Trim(core[..|key| + |a|]) == key && Trim(core[|key| + |a| + 1..]) == text
  {
    var core := key + a + "=" + (b + text);
    var n := |key| + |a|;
    assert core[..n] == key + a && core[n + 1..] == b + text;
    assert '=' !in core[..n] by {
      forall i | 0 <= i < n ensures core[i] != '=' {
        assert i < |key| ==> core[i] == key[i];
        assert i >= |key| ==> core[i] == a[i - |key|];
      }
    }
    IndexOfIs(core, '=', n);
    TrimOfPadded("", key, a);
    assert "" + key + a == key + a;
    TrimOfPadded(b, text, "");
    assert b + text + "" == b + text;
  }

  /** The same, with the outer space taken off as the parser does. */
  lemma CoreTrims(left: string, front: string, key: string, a: string, b: string, text: string, right: string)
    requires key != "" && Trimmed(key) && Blank(b) && Trimmed(text) && Blank(left) && Blank(right)
    requires front == "" || !IsSpace(front[0])
    ensures Trim(left + front + (key + a + "=" + (b + text)) + right)
         == front + (key + a + "=" + ((if text == "" then "" else b) + text))
  {
    if text == "" {
      var core := front + (key + a + "=" + ("" + text));
      assert core[|core| - 1] == '=' && core[0] == if front == "" then key[0] else front[0];
      TrimOfPadded(left, core, b + right);
      assert left + front + (key + a + "=" + (b + text)) + right == left + core + (b + right);
    } else {
      var core := front + (key + a + "=" + (b + text));
      assert core[|core| - 1] == text[|text| - 1] && core[0] == if front == "" then key[0] else front[0];
      TrimOfPadded(left, core, right);
      assert left + front + (key + a + "=" + (b + text)) + right == left + core + right;
    }
  }

  /**
   * However a line is spaced, and with or without a leading `export `: it assigns to the
   * key the text behind the first `=`, without outer space and without one pair of
   * quotes, unless nothing but space is left.
   */
  lemma AssignmentReads(left: string, exported: Option<string>, key: string, a: string, b: string, text: string,
      right: string, allow: set<string>)
    requires Blank(left) && Blank(a) && Blank(b) && Blank(right) && (exported.Some? ==> Blank(exported.value))
    requires key != "" && PlainKey(key) && key in allow && Trimmed(text)
    requires exported.None? ==> !StartsWith(key + a, EXPORT)
    ensures ParseLine(Assignment(left, exported, key, a, b, text, right), allow)
         == if Blank(Unquote(text)) then None else Some((key, Unquote(text)))
  {
    if exported.Some? {
      ExportedReads(left, exported.value, key, a, b, text, right, allow);
    } else {
      PlainReads(left, key, a, b, text, right, allow);
    }
  }

  lemma ExportedReads(left: string, space: string, key: string, a: string, b: string, text: string, right: string,
      allow: set<string>)
    requires Blank(left) && Blank(space) && Blank(a) && Blank(b) && Blank(right)
    requires key != "" && Trimmed(key) && '=' !in key && key in allow && Trimmed(text)
    ensures ParseLine(left + (EXPORT + space) + (key + a + "=" + (b + text)) + right, allow)
         == if Blank(Unquote(text)) then None else Some((key, Unquote(text)))
  {
    var b' := if text == "" then "" else b;
    var core := key + a + "=" + (b' + text);
    CoreTrims(left, EXPORT + space, key, a, b, text, right);
    ExportedCore(space, key, a, b', text);
    CoreReads(key, a, b', text);
    ReadsFrom(left + (EXPORT + space) + (key + a + "=" + (b + text)) + right, core, key, text, |key| + |a|, allow);
  }

  lemma PlainReads(left: string, key: string, a: string, b: string, text: string, right: string, allow: set<string>)
    requires Blank(left) && Blank(a) && Blank(b) && Blank(right)
    requires key != "" && PlainKey(key) && key in allow && Trimmed(text) && !StartsWith(key + a, EXPORT)
    ensures ParseLine(left + "" + (key + a + "=" + (b + text)) + right, allow)
         == if Blank(Unquote(text)) then None else Some((key, Unquote(text)))
  {
    var b' := if text == "" then "" else b;
    CoreTrims(left, "", key, a, b, text, right);
    PlainCore(key, a, b', text);
    CoreReads(key, a, b', text);
    ReadsFrom(left + "" + (key + a + "=" + (b + text)) + right, key + a + "=" + (b' + text), key, text, |key| + |a|,
              allow);
  }

  /** What the parser makes of a line once it is trimmed and split. */
  lemma ReadsFrom(raw: string, line: string, key: string, text: string, n: nat, allow: set<string>)
    requires Trim(raw) != "" && Trim(raw)[0] != '#' && key in allow
    requires line == if StartsWith(Trim(raw), EXPORT) then Trim(Trim(raw)[|EXPORT|..]) else Trim(raw)
    requires IndexOf(line, '=') == n && n < |line| && Trim(line[..n]) == key && Trim(line[n + 1..]) == text
    ensures ParseLine(raw, allow) == if Blank(Unquote(text)) then None else Some((key, Unquote(text)))
  {
    TrimBlank(Unquote(text));
  }

  lemma PlainCore(key: string, a: string, b: string, text: string)
    requires key != "" && PlainKey(key) && !StartsWith(key + a, EXPORT)
    ensures var core := "" + (key + a + "=" + (b + text));
            core == key + a + "=" + (b + text) && core[0] != '#' && !StartsWith(core, EXPORT)
  {
    var core := key + a + "=" + (b + text);
    assert "" + core == core && core[0] == key[0];
    NoExport(key, a, b + text);
  }

  lemma ExportedCore(space: string, key: string, a: string, b: string, text: string)
    requires key != "" && Trimmed(key) && Blank(b) && Trimmed(text) && Blank(space) && (text == "" ==> b == "")
    ensures var core := key + a + "=" + (b + text);
            var trimmed := EXPORT + space + core;
            trimmed[0] != '#' && StartsWith(trimmed, EXPORT) && Trim(trimmed[|EXPORT|..]) == core
  {
    var core := key + a + "=" + (b + text);
    var trimmed := EXPORT + space + core;
    assert trimmed[..|EXPORT|] == EXPORT && trimmed[|EXPORT|..] == space + core;
    CoreTrims(space, "", key, a, b, text, "");
    assert space + "" + core + "" == space + core && "" + core == core;
  }

  lemma NoExport(key: string, a: string, rest: string)
    requires !StartsWith(key + a, EXPORT)
    ensures !StartsWith(key + a + "=" + rest, EXPORT)
  {
    var line, n := key + a + "=" + rest, |key + a|;
    assert line[n] == '=' && forall i :: 0 <= i < |EXPORT| ==> EXPORT[i] != '=';
    assert n < |EXPORT| <= |line| ==> line[..|EXPORT|][n] != EXPORT[n];
    assert n >= |EXPORT| ==> line[..|EXPORT|] == (key + a)[..|EXPORT|];
  }

  lemma TrimAddsNothing(s: string, c: char)
    requires c !in s
    ensures c !in Trim(s)
  {
    var l, r := TrimParts(s);
    assert forall i :: 0 <= i < |Trim(s)| ==> Trim(s)[i] == s[|l| + i];
  }

  lemma NoEqualsNothing(raw: string, allow: set<string>)
    requires '=' !in raw
    ensures ParseLine(raw, allow).None?
  {
    var trimmed := Trim(raw);
    TrimAddsNothing(raw, '=');
    if StartsWith(trimmed, EXPORT) {
      assert forall i :: 0 <= i < |trimmed| - |EXPORT| ==> trimmed[|EXPORT|..][i] == trimmed[|EXPORT| + i];
      TrimAddsNothing(trimmed[|EXPORT|..], '=');
    }
  }

  /** Blank lines, comments and lines without `=` assign nothing, and no line assigns an unlisted key. */
  lemma OtherwiseNothing(raw: string, allow: set<string>)
    ensures Blank(raw) || (Trim(raw) != "" && Trim(raw)[0] == '#') || '=' !in raw ==> ParseLine(raw, allow).None?
    ensures ParseLine(raw, allow).Some? ==>
              ParseLine(raw, allow).value.0 in allow && !Blank(ParseLine(raw, allow).value.1)
  {
    TrimBlank(raw);
    if '=' !in raw { NoEqualsNothing(raw, allow); }
    if ParseLine(raw, allow).Some? { TrimBlank(ParseLine(raw, allow).value.1); }
  }

  // ---- whole files ----

  function Join(lines: seq<string>): string {
    if lines == [] then "" else if |lines| == 1 then lines[0] else lines[0] + "\n" + Join(lines[1..])
  }

  lemma {:induction false} LinesOfFirst(line: string, rest: string)
    requires '\n' !in line
    ensures Lines(line + "\n" + rest) == [line] + Lines(rest)
  {
    if line == "" {
      assert line + "\n" + rest == "\n" + rest;
      assert ("\n" + rest)[1..] == rest;
    } else {
      assert (line + "\n" + rest)[1..] == line[1..] + "\n" + rest;
      LinesOfFirst(line[1..], rest);
      assert [line[0]] + line[1..] == line;
    }
  }

  lemma {:induction false} LinesOfOne(line: string)
    requires '\n' !in line
    ensures Lines(line) == [line]
  {
    if line != "" {
      LinesOfOne(line[1..]);
      assert [line[0]] + line[1..] == line;
    }
  }

  /** Splitting undoes joining. */
  lemma {:induction false} LinesOfJoin(lines: seq<string>)
    requires lines != [] && forall l :: l in lines ==> '\n' !in l
    ensures Lines(Join(lines)) == lines
  {
    if |lines| == 1 {
      LinesOfOne(lines[0]);
    } else {
      LinesOfJoin(lines[1..]);
      LinesOfFirst(lines[0], Join(lines[1..]));
    }
  }

  function Print(entries: seq<(string, string)>): seq<string> {
    if entries == [] then []
    else
      var n := |entries| - 1;
      Print(entries[..n]) + [PrintLine(entries[n].0, entries[n].1)]
  }

  /** The map of a list of entries, later entries winning. */
  function AsMap(entries: seq<(string, string)>): Entries {
    if entries == [] then map[]
    else AsMap(entries[..|entries| - 1])[entries[|entries| - 1].0 := entries[|entries| - 1].1]
  }

  predicate Printable(e: (string, string), allow: set<string>) {
    e.0 in allow && PlainKey(e.0) && '\n' !in e.0 && '\n' !in e.1 && !Blank(e.1)
  }

  lemma ParseLinesSnoc(lines: seq<string>, line: string, allow: set<string>)
    ensures ParseLines(lines + [line], allow)
         == var before := ParseLines(lines, allow);
            var last := ParseLine(line, allow);
            if last.Some? then before[last.value.0 := last.value.1] else before
  {
    assert (lines + [line])[..|lines|] == lines;
  }

  /** A printed entry is one line, and it reads back. */
  lemma PrintedEntryParses(e: (string, string), allow: set<string>)
    requires Printable(e, allow)
    ensures ParseLine(PrintLine(e.0, e.1), allow) == Some(e) && '\n' !in PrintLine(e.0, e.1)
  {
    LineRoundTrip(e.0, e.1, allow);
  }

  lemma {:induction false} PrintedLinesParse(entries: seq<(string, string)>, allow: set<string>)
    requires forall e :: e in entries ==> Printable(e, allow)
    ensures ParseLines(Print(entries), allow) == AsMap(entries)
  {
    if entries != [] {
      var n := |entries| - 1;
      PrintedLinesParse(entries[..n], allow);
      PrintedEntryParses(entries[n], allow);
      ParseLinesSnoc(Print(entries[..n]), PrintLine(entries[n].0, entries[n].1), allow);
    }
  }

  lemma {:induction false} PrintedLinesAreLines(entries: seq<(string, string)>, allow: set<string>)
    requires forall e :: e in entries ==> Printable(e, allow)
    ensures |Print(entries)| == |entries| && forall l :: l in Print(entries) ==> '\n' !in l
  {
    if entries != [] {
      PrintedLinesAreLines(entries[..|entries| - 1], allow);
      PrintedEntryParses(entries[|entries| - 1], allow);
    }
  }

  /**
   * Printing entries as KEY="value" lines and parsing the file gives their map back,
   * whatever quotes, `=`, `#` or outer spaces the values contain.
   */
  lemma FileRoundTrip(entries: seq<(string, string)>, allow: set<string>)
    requires forall e :: e in entries ==> Printable(e, allow)
    ensures ParseLines(Lines(Join(Print(entries))), allow) == AsMap(entries)
  {
    PrintedLinesParse(entries, allow);
    PrintedLinesAreLines(entries, allow);
    if entries == [] {
      assert ParseLine("", allow).None?;
      assert [""][..0] == [];
    } else {
      LinesOfJoin(Print(entries));
    }
  }

  /** Every map is the map of a list of its entries, so FileRoundTrip covers every map. */
  lemma {:induction false} EveryMapIsAList(m: Entries) returns (entries: seq<(string, string)>)
    ensures AsMap(entries) == m && forall e :: e in entries ==> e.0 in m && m[e.0] == e.1
    decreases m.Keys
  {
    if m == map[] {
      entries := [];
    } else {
      var k :| k in m;
      var rest := EveryMapIsAList(m - {k});
      entries := rest + [(k, m[k])];
      assert entries[..|entries| - 1] == rest;
    }
  }

  // ---- resolution and seeding ----

  /** The source has the key with a value that is not blank. */
  predicate Gives(source: Entries, key: string) {
    key in source && !Blank(source[key])
  }

  /** The trimmed value of the environment if that gives the key; else the env-file's; else the local file's. */
  ghost predicate Chosen(env: Entries, envFile: Entries, local: Entries, key: string, value: Option<string>) {
    && (Gives(env, key) ==> value == Some(Trim(env[key])))
    && (!Gives(env, key) && Gives(envFile, key) ==> value == Some(Trim(envFile[key])))
    && (!Gives(env, key) && !Gives(envFile, key) && Gives(local, key) ==> value == Some(Trim(local[key])))
    && (!Gives(env, key) && !Gives(envFile, key) && !Gives(local, key) ==> value == None)
  }

  function Value(m: Entries, key: string): Option<string> {
    if key in m then Some(m[key]) else None
  }

  /** One turn of the loop over the allowlist. */
  method ResolveKey(env: Entries, envFile: Entries, local: Entries, key: string) returns (value: Option<string>)
    ensures Chosen(env, envFile, local, key, value)
    ensures value.Some? ==> Trimmed(value.value) && value.value != ""
  {
    TrimOfGiven(env, key);
    TrimOfGiven(envFile, key);
    TrimOfGiven(local, key);
    if key in env && Trim(env[key]) != "" {
      return Some(Trim(env[key]));
    }
    if key in envFile && Trim(envFile[key]) != "" {
      return Some(Trim(envFile[key]));
    }
    if key in local && Trim(local[key]) != "" {
      return Some(Trim(local[key]));
    }
    value := None;
  }

  method ResolveSeedSecrets(env: Entries, allowlist: seq<string>, envFile: Entries, local: Entries)
    returns (resolved: Entries)
    ensures forall k :: k in resolved ==> k in allowlist && Trimmed(resolved[k]) && resolved[k] != ""
    ensures forall k :: k in allowlist ==> Chosen(env, envFile, local, k, Value(resolved, k))
  {
    resolved := map[];
    for i := 0 to |allowlist|
      invariant forall k :: k in resolved ==> k in allowlist[..i] && Trimmed(resolved[k]) && resolved[k] != ""
      invariant forall k :: k in allowlist[..i] ==> Chosen(env, envFile, local, k, Value(resolved, k))
    {
      var key := allowlist[i];
      assert allowlist[..i + 1] == allowlist[..i] + [key];
      var value := ResolveKey(env, envFile, local, key);
      if key in allowlist[..i] {
        ChosenOnce(env, envFile, local, key, value, Value(resolved, key));
      }
      if value.Some? {
        resolved := resolved[key := value.value];
      }
    }
    assert allowlist[..|allowlist|] == allowlist;
  }

  lemma ChosenOnce(env: Entries, envFile: Entries, local: Entries, key: string, a: Option<string>, b: Option<string>)
    requires Chosen(env, envFile, local, key, a) && Chosen(env, envFile, local, key, b)
    ensures a == b
  {
  }

  lemma TrimOfGiven(source: Entries, key: string)
    ensures key in source ==> Trimmed(Trim(source[key])) && (Trim(source[key]) != "" <==> Gives(source, key))
  {
    if key in source {
      TrimBlank(source[key]);
      var l, r := TrimParts(source[key]);
    }
  }

  /** What a higher source gives stands whatever the lower ones hold. */
  lemma HigherSourceStands(env: Entries, envFile: Entries, local: Entries, envFile': Entries, local': Entries,
      key: string, a: Option<string>, b: Option<string>)
    requires Chosen(env, envFile, local, key, a) && Chosen(env, envFile', local', key, b)
    ensures Gives(env, key) ==> a == b
    ensures envFile' == envFile && Gives(envFile, key) ==> a == b
  {
    if !Gives(env, key) && Gives(envFile, key) && envFile' == envFile {
      assert a == Some(Trim(envFile[key]));
    }
  }

  datatype Ref = Ref(ref: string, env: string)

  datatype Seeding = Seeded(written: seq<string>) | MissingSecret(key: string) | PutFailed(written: seq<string>)

  /** The store after putting the first n refs. */
  function Puts(store: Entries, refs: seq<Ref>, secrets: Entries, n: nat): Entries
    requires n <= |refs| && forall r :: r in refs ==> r.env in secrets
  {
    if n == 0 then store else Puts(store, refs, secrets, n - 1)[refs[n - 1].ref := secrets[refs[n - 1].env]]
  }

  /**
   * seedPlatformCredentials: every value is looked up before the first put, so a
   * missing secret leaves the store alone; only a failing put (number `failing`)
   * can leave a proper prefix written.
   */
  method SeedPlatform(store: Entries, refs: seq<Ref>, secrets: Entries, failing: nat)
    returns (after: Entries, out: Seeding)
    ensures out.MissingSecret? <==> exists r :: r in refs && r.env !in secrets
    ensures out.MissingSecret? ==> after == store && out.key !in secrets
    ensures !out.MissingSecret? ==>
              && (forall r :: r in refs ==> r.env in secrets)
              && |out.written| == (if out.Seeded? then |refs| else failing) <= |refs|
              && out.written == RefNames(refs)[..|out.written|]
              && after == Puts(store, refs, secrets, |out.written|)
              && (out.PutFailed? <==> failing < |refs|)
  {
    after := store;
    var values: seq<string> := [];
    for i := 0 to |refs|
      invariant |values| == i && forall j :: 0 <= j < i ==> refs[j].env in secrets && values[j] == secrets[refs[j].env]
    {
      if refs[i].env !in secrets {
        return store, MissingSecret(refs[i].env);
      }
      values := values + [secrets[refs[i].env]];
    }
    var written: seq<string> := [];
    for i := 0 to |refs|
      invariant forall r :: r in refs ==> r.env in secrets
      invariant written == RefNames(refs)[..i] && i <= failing
      invariant after == Puts(store, refs, secrets, i)
    {
      if i == failing {
        return after, PutFailed(written);
      }
      after := after[refs[i].ref := values[i]];
      written := written + [refs[i].ref];
    }
    out := Seeded(written);
  }

  function RefNames(refs: seq<Ref>): (r: seq<string>)
    ensures |r| == |refs|
  {
    seq(|refs|, i requires 0 <= i < |refs| => refs[i].ref)
  }

  /** A put decides what its ref holds whatever the store held before; other refs keep their value. */
  lemma {:induction false} PutsWhere(store: Entries, other: Entries, refs: seq<Ref>, secrets: Entries, n: nat,
      ref: string)
    requires n <= |refs| && forall r :: r in refs ==> r.env in secrets
    ensures var a, b := Puts(store, refs, secrets, n), Puts(other, refs, secrets, n);
            if ref in RefNames(refs)[..n] then ref in a && ref in b && a[ref] == b[ref]
            else (ref in a <==> ref in store) && (ref in store ==> a[ref] == store[ref])
  {
    if n > 0 {
      PutsWhere(store, other, refs, secrets, n - 1, ref);
      assert RefNames(refs)[..n] == RefNames(refs)[..n - 1] + [refs[n - 1].ref];
    }
  }

  /** Seeding again, also after a failed put, gives the store one full seeding gives. */
  lemma SeedingIsIdempotent(store: Entries, refs: seq<Ref>, secrets: Entries, n: nat)
    requires n <= |refs| && forall r :: r in refs ==> r.env in secrets
    ensures Puts(Puts(store, refs, secrets, n), refs, secrets, |refs|) == Puts(store, refs, secrets, |refs|)
  {
    var part := Puts(store, refs, secrets, n);
    var once, twice := Puts(store, refs, secrets, |refs|), Puts(part, refs, secrets, |refs|);
    assert RefNames(refs)[..|refs|] == RefNames(refs);
    forall ref: string
      ensures ref in once <==> ref in twice
      ensures ref in once ==> once[ref] == twice[ref]
    {
      PutsWhere(store, part, refs, secrets, |refs|, ref);
      PutsWhere(part, store, refs, secrets, |refs|, ref);
      PutsWhere(store, part, refs, secrets, n, ref);
      assert ref in RefNames(refs)[..n] ==> ref in RefNames(refs);
    }
  }
}
