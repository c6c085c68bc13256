/** The captured environment file: its parser, its canonical text, and why both agree. */
module Config {
  import opened Outcomes
  import opened Ordering

  // ----- Lines -----

  /** The characters at which Python's `splitlines` ends a line. */
  predicate Break(c: char) {
    c == '\n' || c == '\r' || c == '\U{000B}' || c == '\U{000C}' || c == '\U{001C}' || c == '\U{001D}'
    || c == '\U{001E}' || c == '\U{0085}' || c == '\U{2028}' || c == '\U{2029}'
  }

  predicate OneLine(s: string) {
    forall i :: 0 <= i < |s| ==> !Break(s[i])
  }

  function BreakAt(s: string): (n: nat)
    ensures n <= |s| && OneLine(s[..n]) && (n < |s| ==> Break(s[n]))
  {
    if s == [] || Break(s[0]) then 0
    else
      assert forall i :: 0 <= i < 1 + BreakAt(s[1..]) ==> s[i] == if i == 0 then s[0] else s[1..][i - 1];
      1 + BreakAt(s[1..])
  }

  /** `splitlines`; a carriage return takes a following newline with it. */
  function SplitLines(s: string): (lines: seq<string>)
    ensures forall i :: 0 <= i < |lines| ==> OneLine(lines[i])
    decreases |s|
  {
    if s == [] then []
    else
      var n := BreakAt(s);
      if n == |s| then [s]
      else
        var m := if s[n] == '\r' && n + 1 < |s| && s[n + 1] == '\n' then n + 2 else n + 1;
        [s[..n]] + SplitLines(s[m..])
  }

  lemma {:induction false} BreakAtEnd(line: string, rest: string)
    requires OneLine(line)
    ensures BreakAt(line + "\n" + rest) == |line|
    decreases |line|
  {
    var s := line + "\n" + rest;
    if line != [] {
      assert s[1..] == line[1..] + "\n" + rest;
      assert s[0] == line[0];
      BreakAtEnd(line[1..], rest);
    }
  }

  lemma SplitFirst(line: string, rest: string)
    requires OneLine(line)
    ensures SplitLines(line + "\n" + rest) == [line] + SplitLines(rest)
  {
    var s := line + "\n" + rest;
    BreakAtEnd(line, rest);
    assert s[..|line|] == line && s[|line|] == '\n' && s[|line| + 1..] == rest;
  }

  // ----- Entries -----

  predicate Upper(c: char) {
    'A' <= c <= 'Z'
  }

  /** A key as the file demands it: `[A-Z][A-Z0-9_]*`. */
  predicate ValidKey(key: string) {
    key != [] && Upper(key[0]) && forall i :: 0 <= i < |key| ==> Upper(key[i]) || '0' <= key[i] <= '9' || key[i] == '_'
  }

  predicate ValidValue(value: string) {
    '\0' !in value
  }

  /** The position of the first `=`, or the length. */
  function Separator(line: string): (n: nat)
    ensures n <= |line| && (n < |line| ==> line[n] == '=') && '=' !in line[..n]
  {
    if line == [] || line[0] == '=' then 0
    else
      assert forall i :: 0 <= i < 1 + Separator(line[1..]) ==> line[i] == if i == 0 then line[0] else line[1..][i - 1];
      1 + Separator(line[1..])
  }

  predicate Skipped(line: string) {
    line == "" || line[0] == '#'
  }

  function Key(line: string): string {
    line[..Separator(line)]
  }

  function Value(line: string): string {
    if Separator(line) < |line| then line[Separator(line) + 1..] else ""
  }

  datatype Entry = Entry(key: string, value: string)
  {
    predicate Valid() {
      ValidKey(key) && ValidValue(value)
    }
  }

  /** The entry of a significant line, if it is well-formed. */
  function Parse(line: string): (r: Option<Entry>)
    ensures r.Some? ==> r.value.Valid() && Line(r.value.key, r.value.value) == line
  {
    if Separator(line) < |line| && ValidKey(Key(line)) && ValidValue(Value(line)) then
      LineOfParts(line);
      Some(Entry(Key(line), Value(line)))
    else None
  }

  function Line(key: string, value: string): string {
    key + "=" + value
  }

  lemma {:induction false} SeparatorOfLine(key: string, value: string)
    requires '=' !in key
    ensures Separator(Line(key, value)) == |key|
    decreases |key|
  {
    var line := Line(key, value);
    if key != [] {
      assert line[0] == key[0] && line[1..] == Line(key[1..], value);
      SeparatorOfLine(key[1..], value);
    }
  }

  lemma ParseLine(e: Entry)
    requires e.Valid()
    ensures !Skipped(Line(e.key, e.value)) && Parse(Line(e.key, e.value)) == Some(e)
  {
    var line := Line(e.key, e.value);
    SeparatorOfLine(e.key, e.value);
    assert line[0] == e.key[0];
    assert line[..|e.key|] == e.key;
    assert line[|e.key| + 1..] == e.value;
  }

  lemma Rejoin(line: string, n: nat)
    requires n < |line| && line[n] == '='
    ensures line[..n] + "=" + line[n + 1..] == line
  {
  }

  lemma LineOfParts(line: string)
    requires Separator(line) < |line|
    ensures Line(Key(line), Value(line)) == line
  {
    Rejoin(line, Separator(line));
  }

  // ----- The file as a map -----

  /** The entries of a file, in order; None stands for a line that is malformed. */
  function Entries(lines: seq<string>): seq<Option<Entry>> {
    if lines == [] then []
    else (if Skipped(lines[0]) then [] else [Parse(lines[0])]) + Entries(lines[1..])
  }

  /** Every line is well-formed and no key occurs twice. */
  ghost predicate Clean(entries: seq<Option<Entry>>) {
    && (forall i :: 0 <= i < |entries| ==> entries[i].Some?)
    && (forall i, j :: 0 <= i < j < |entries| ==> entries[i].value.key != entries[j].value.key)
  }

  ghost predicate Accepted(lines: seq<string>) {
    Entries(lines) != [] && Clean(Entries(lines))
  }

  /** `values` is what clean entries say. */
  ghost predicate Says(entries: seq<Option<Entry>>, values: map<string, string>) {
    forall k, v :: (k in values && values[k] == v) <==> Some(Entry(k, v)) in entries
  }

  lemma {:induction false} EntriesAppend(lines: seq<string>, line: string)
    ensures Entries(lines + [line]) == Entries(lines) + if Skipped(line) then [] else [Parse(line)]
  {
    if lines != [] {
      assert (lines + [line])[1..] == lines[1..] + [line];
      EntriesAppend(lines[1..], line);
    } else {
      assert (lines + [line])[1..] == [];
    }
  }

  lemma {:induction false} EntriesPrefix(lines: seq<string>, n: nat)
    requires n <= |lines|
    ensures Entries(lines[..n]) <= Entries(lines)
    decreases |lines| - n
  {
    if n < |lines| {
      assert lines[..n + 1] == lines[..n] + [lines[n]];
      EntriesAppend(lines[..n], lines[n]);
      EntriesPrefix(lines, n + 1);
    } else {
      assert lines[..n] == lines;
    }
  }

  lemma SaysMore(entries: seq<Option<Entry>>, values: map<string, string>, e: Entry)
    requires Clean(entries) && Says(entries, values) && e.key !in values
    ensures Clean(entries + [Some(e)]) && Says(entries + [Some(e)], values[e.key := e.value])
  {
    var more := entries + [Some(e)];
    forall i | 0 <= i < |entries| ensures entries[i].value.key != e.key {
      assert Some(Entry(entries[i].value.key, entries[i].value.value)) in entries;
    }
    assert forall x :: x in more <==> x in entries || x == Some(e);
  }

  /** A line that is malformed, or repeats a key, is fatal wherever it stands. */
  lemma BadLine(lines: seq<string>, n: nat, values: map<string, string>)
    requires n < |lines| && !Skipped(lines[n]) && Says(Entries(lines[..n]), values)
    requires Parse(lines[n]).None? || Parse(lines[n]).value.key in values
    ensures !Accepted(lines)
  {
    var before, all, e := Entries(lines[..n]), Entries(lines), Parse(lines[n]);
    assert lines[..n + 1] == lines[..n] + [lines[n]];
    EntriesAppend(lines[..n], lines[n]);
    EntriesPrefix(lines, n + 1);
    assert before + [e] <= all;
    assert all[|before|] == e;
    if e.Some? {
      var k := e.value.key;
      assert Some(Entry(k, values[k])) in before;
      var i :| 0 <= i < |before| && before[i] == Some(Entry(k, values[k]));
      assert all[i] == before[i];
    }
  }

  /** `_read_env`. */
  method ReadEnv(text: string) returns (r: Outcome<map<string, string>>)
    ensures r.Done? || r.Defect?
    ensures r.Done? <==> Accepted(SplitLines(text))
    ensures r.Done? ==> Says(Entries(SplitLines(text)), r.value)
  {
    var lines := SplitLines(text);
    var values: map<string, string> := map[];
    for n := 0 to |lines|
      invariant Clean(Entries(lines[..n])) && Says(Entries(lines[..n]), values)
    {
      var line := lines[n];
      assert lines[..n + 1] == lines[..n] + [line];
      EntriesAppend(lines[..n], line);
      if !Skipped(line) {
        var entry := Parse(line);
        if entry.None? || entry.value.key in values {
          BadLine(lines, n, values);
          return Defect;
        }
        SaysMore(Entries(lines[..n]), values, entry.value);
        values := values[entry.value.key := entry.value.value];
      }
    }
    assert lines[..|lines|] == lines;
    NothingSaid(Entries(lines), values);
    if values == map[] {
      return Defect;
    }
    r := Done(values);
  }

  lemma NothingSaid(entries: seq<Option<Entry>>, values: map<string, string>)
    requires Clean(entries) && Says(entries, values)
    ensures entries == [] <==> values == map[]
  {
    if entries != [] {
      assert Some(Entry(entries[0].value.key, entries[0].value.value)) in entries;
    }
    if values != map[] {
      var k :| k in values;
      assert Some(Entry(k, values[k])) in entries;
    }
  }

  // ----- The canonical text -----

  /** `publish_config`: the entries in the order of their keys. */
  method CanonicalText(values: map<string, string>) returns (text: string)
    ensures text == Text(Sorted(values.Keys), values)
  {
    var keys := Sorted(values.Keys);
    text := "";
    for n := |keys| downto 0
      invariant text == Text(keys[n..], values)
    {
      text := Line(keys[n], values[keys[n]]) + "\n" + text;
    }
  }

  function Text(keys: seq<string>, values: map<string, string>): string
    requires forall i :: 0 <= i < |keys| ==> keys[i] in values
  {
    if keys == [] then "" else Line(keys[0], values[keys[0]]) + "\n" + Text(keys[1..], values)
  }

  /** The entries of the canonical text. */
  function EntriesOf(keys: seq<string>, values: map<string, string>): (entries: seq<Option<Entry>>)
    requires forall i :: 0 <= i < |keys| ==> keys[i] in values
  {
    if keys == [] then [] else [Some(Entry(keys[0], values[keys[0]]))] + EntriesOf(keys[1..], values)
  }

  /** What a file can be accepted with. */
  ghost predicate ValidValues(values: map<string, string>) {
    values != map[] && forall k :: k in values ==> ValidKey(k) && ValidValue(values[k]) && OneLine(values[k])
  }

  lemma ValidLine(key: string, value: string)
    requires ValidKey(key) && OneLine(value)
    ensures OneLine(Line(key, value))
  {
  }

  lemma {:induction false} EntriesOfText(keys: seq<string>, values: map<string, string>)
    requires ValidValues(values) && forall i :: 0 <= i < |keys| ==> keys[i] in values
    ensures Entries(SplitLines(Text(keys, values))) == EntriesOf(keys, values)
  {
    if keys == [] {
    } else {
      var e := Entry(keys[0], values[keys[0]]);
      ValidLine(e.key, e.value);
      SplitFirst(Line(e.key, e.value), Text(keys[1..], values));
      ParseLine(e);
      EntriesOfText(keys[1..], values);
    }
  }

  lemma {:induction false} EntriesOfKeys(keys: seq<string>, values: map<string, string>)
    requires forall i :: 0 <= i < |keys| ==> keys[i] in values
    ensures |EntriesOf(keys, values)| == |keys|
    ensures forall i :: 0 <= i < |keys| ==> EntriesOf(keys, values)[i] == Some(Entry(keys[i], values[keys[i]]))
  {
    if keys == [] {
    } else {
      EntriesOfKeys(keys[1..], values);
    }
  }

  lemma EntriesAreClean(keys: seq<string>, values: map<string, string>)
    requires Ascending(keys) && forall i :: 0 <= i < |keys| ==> keys[i] in values
    ensures Clean(EntriesOf(keys, values))
  {
    EntriesOfKeys(keys, values);
    forall i, j | 0 <= i < j < |keys| ensures keys[i] != keys[j] {
      LessTotal(keys[i], keys[j]);
    }
  }

  lemma EntriesSayValues(keys: seq<string>, values: map<string, string>)
    requires forall k :: k in keys <==> k in values
    ensures Says(EntriesOf(keys, values), values)
  {
    var entries := EntriesOf(keys, values);
    EntriesOfKeys(keys, values);
    forall k, v | k in values && values[k] == v ensures Some(Entry(k, v)) in entries {
      var i :| 0 <= i < |keys| && keys[i] == k;
      assert entries[i] == Some(Entry(k, v));
    }
  }

  lemma SaysOneMap(entries: seq<Option<Entry>>, a: map<string, string>, b: map<string, string>)
    requires Says(entries, a) && Says(entries, b)
    ensures a == b
  {
    assert forall k :: k in a ==> Some(Entry(k, a[k])) in entries;
    assert forall k :: k in b ==> Some(Entry(k, b[k])) in entries;
  }

  /** The result of a parse, as a predicate. */
  ghost predicate Reads(text: string, values: map<string, string>) {
    Accepted(SplitLines(text)) && Says(Entries(SplitLines(text)), values)
  }

  function Canonical(values: map<string, string>): string {
    Text(Sorted(values.Keys), values)
  }

  /** The canonical text of a map reads as that map and as no other. */
  lemma RoundTrip(values: map<string, string>, other: map<string, string>)
    requires ValidValues(values)
    ensures Reads(Canonical(values), other) <==> other == values
  {
    EntriesOfText(Sorted(values.Keys), values);
    EntriesAreClean(Sorted(values.Keys), values);
    EntriesSayValues(Sorted(values.Keys), values);
    NothingSaid(EntriesOf(Sorted(values.Keys), values), values);
    if Reads(Canonical(values), other) {
      SaysOneMap(EntriesOf(Sorted(values.Keys), values), other, values);
    }
  }

  lemma {:induction false} EntriesFitLines(lines: seq<string>, e: Entry)
    requires Some(e) in Entries(lines) && forall i :: 0 <= i < |lines| ==> OneLine(lines[i])
    ensures e.Valid() && OneLine(e.value)
  {
    if !Skipped(lines[0]) && Some(e) == Parse(lines[0]) {
      var line := Line(e.key, e.value);
      assert forall i :: 0 <= i < |e.value| ==> e.value[i] == line[|e.key| + 1 + i];
    } else {
      EntriesFitLines(lines[1..], e);
    }
  }

  lemma ReadsValid(text: string, values: map<string, string>)
    requires Reads(text, values)
    ensures ValidValues(values)
  {
    var lines := SplitLines(text);
    forall k | k in values ensures ValidKey(k) && ValidValue(values[k]) && OneLine(values[k]) {
      EntriesFitLines(lines, Entry(k, values[k]));
    }
    var e := Entries(lines)[0].value;
    assert Some(Entry(e.key, e.value)) in Entries(lines);
  }

  /** For every accepted file, canonicalising is idempotent and keeps the values. */
  lemma CanonicalFixedPoint(text: string, values: map<string, string>, again: map<string, string>)
    requires Reads(text, values)
    ensures Reads(Canonical(values), values)
    ensures Reads(Canonical(values), again) ==> Canonical(again) == Canonical(values)
  {
    ReadsValid(text, values);
    RoundTrip(values, values);
    RoundTrip(values, again);
  }

  /** Two accepted files have the same canonical text exactly if they have the same entries, in whatever order and with
      whatever comments and blank lines between them. */
  lemma CanonicalIgnoresOrder(s: string, t: string, a: map<string, string>, b: map<string, string>)
    requires Reads(s, a) && Reads(t, b)
    ensures Canonical(a) == Canonical(b) <==> forall e :: e in Entries(SplitLines(s)) <==> e in Entries(SplitLines(t))
  {
    var es, et := Entries(SplitLines(s)), Entries(SplitLines(t));
    if forall e :: e in es <==> e in et {
      SaysOneMap(es, a, b);
    }
    if Canonical(a) == Canonical(b) {
      ReadsValid(s, a);
      ReadsValid(t, b);
      RoundTrip(a, b);
      RoundTrip(b, b);
      SameEntries(es, et, a);
    }
  }

  lemma SameEntries(es: seq<Option<Entry>>, et: seq<Option<Entry>>, values: map<string, string>)
    requires Clean(es) && Clean(et) && Says(es, values) && Says(et, values)
    ensures forall e :: e in es <==> e in et
  {
    forall e ensures e in es <==> e in et {
      if e in es { assert e == Some(Entry(e.value.key, e.value.value)); }
      if e in et { assert e == Some(Entry(e.value.key, e.value.value)); }
    }
  }
}
