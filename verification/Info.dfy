/** Reading Redis INFO replies. */
module Info {
  import opened Text
  import opened Wrappers

  type Entry = (string, string)

  /** What one line contributes: nothing if it is blank, a comment, or has no
      colon; otherwise the trimmed texts before and after the first colon. */
  function LineEntry(raw: string): Option<Entry> {
    var line := TrimSpace(raw);
    if line == "" || line[0] == '#' then None
    else
      match IndexOf(line, ':')
      case None => None
      case Some(colon) => Some((TrimSpace(line[..colon]), TrimSpace(TrimCarriageReturn(line[colon + 1..]))))
  }

  function ParseLines(lines: seq<string>): map<string, string> {
    if lines == [] then map[]
    else
      var data := ParseLines(lines[..|lines| - 1]);
      match LineEntry(lines[|lines| - 1])
      case None => data
      case Some((key, value)) => data[key := value]
  }

  function ParseInfo(info: string): map<string, string> {
    ParseLines(Split(info, '\n'))
  }

  lemma ParseNextLine(lines: seq<string>, i: nat)
    requires i < |lines|
    ensures ParseLines(lines[..i + 1]) ==
              match LineEntry(lines[i])
              case None => ParseLines(lines[..i])
              case Some((key, value)) => ParseLines(lines[..i])[key := value]
  {
    assert lines[..i + 1][..i] == lines[..i];
  }

  method ParseInfoToMap(info: string) returns (data: map<string, string>)
    ensures data == ParseInfo(info)
  {
    data := map[];
    var lines := Split(info, '\n');
    for i := 0 to |lines|
      invariant data == ParseLines(lines[..i])
    {
      ParseNextLine(lines, i);
      var line := TrimSpace(lines[i]);
      if line == "" || line[0] == '#' {
        continue;
      }
      var colon := IndexOf(line, ':');
      if colon.None? {
        continue;
      }
      var key := TrimSpace(line[..colon.value]);
      var value := TrimSpace(TrimCarriageReturn(line[colon.value + 1..]));
      data := data[key := value];
    }
    assert lines[..|lines|] == lines;
  }

  // ---- Printing

  /** An entry that INFO can carry unchanged. */
  predicate Printable(e: Entry) {
    && e.0 != "" && Trimmed(e.0) && ':' !in e.0 && '\n' !in e.0 && e.0[0] != '#'
    && Trimmed(e.1) && '\n' !in e.1
  }

  function PrintEntry(e: Entry): string {
    e.0 + ":" + e.1 + "\r"
  }

  /** The entries as `key:value` lines, each ended by CRLF. */
  function Print(entries: seq<Entry>): string {
    if entries == [] then "" else PrintEntry(entries[0]) + "\n" + Print(entries[1..])
  }

  /** The entries as a map, a later one overwriting an earlier one. */
  function Collect(entries: seq<Entry>): map<string, string> {
    if entries == [] then map[]
    else
      var last := entries[|entries| - 1];
      Collect(entries[..|entries| - 1])[last.0 := last.1]
  }

  // ---- Laws of trimming

  lemma {:induction false} TrimRightKeeps(s: string)
    requires s != "" && !IsSpace(s[|s| - 1])
    ensures TrimRight(s) == s && TrimRight(s + "\r") == s
  {
    assert (s + "\r")[..|s + "\r"| - 1] == s;
  }

  /** A printed line is read back as the entry it was printed from. */
  lemma PrintedLine(e: Entry)
    requires Printable(e)
    ensures LineEntry(PrintEntry(e)) == Some(e)
  {
    var key, value := e.0, e.1;
    var line := key + ":" + value;
    PrintedTrimmed(key, value);
    FirstColon(key, value);
    assert line[0] == key[0] && line[..|key|] == key && line[|key| + 1..] == value;
    TrimmedUnchanged(key);
    TrimmedUnchanged(value);
    assert IsSpace('\r');
  }

  /** Trimming takes off the carriage return and nothing else. */
  lemma PrintedTrimmed(key: string, value: string)
    requires key != "" && Trimmed(key) && Trimmed(value)
    ensures TrimSpace(key + ":" + value + "\r") == key + ":" + value
  {
    var line := key + ":" + value;
    assert !IsSpace(':');
    assert line[|line| - 1] == if value == "" then ':' else value[|value| - 1];
    TrimRightKeeps(line);
    assert line[0] == key[0] && (line + "\r")[0] == key[0];
  }

  /** A key without a colon ends at the first one. */
  lemma FirstColon(key: string, value: string)
    requires ':' !in key
    ensures IndexOf(key + ":" + value, ':') == Some(|key|)
  {
    var line := key + ":" + value;
    assert line[|key|] == ':' && line[..|key|] == key;
    assert forall i | 0 <= i < |key| :: line[i] == key[i];
    assert forall i | |key| < i <= |line| :: line[..i][|key|] == ':';
  }

  lemma TrimmedUnchanged(s: string)
    requires Trimmed(s)
    ensures TrimSpace(s) == s
  {
    if s != "" {
      TrimRightKeeps(s);
    }
  }

  // ---- White space within a line

  predicate Blank(s: string) {
    forall c | c in s :: IsSpace(c)
  }

  lemma {:induction false} TrimLeftAdds(s: string)
    ensures forall c | c in TrimLeft(s) :: c in s
  {
    if s != "" && IsSpace(s[0]) {
      TrimLeftAdds(s[1..]);
    }
  }

  lemma {:induction false} TrimRightAdds(s: string)
    ensures forall c | c in TrimRight(s) :: c in s
  {
    if s != "" && IsSpace(s[|s| - 1]) {
      TrimRightAdds(s[..|s| - 1]);
    }
  }

  lemma TrimmingAddsNothing(s: string)
    ensures forall c | c in TrimSpace(s) :: c in s
  {
    TrimLeftAdds(s);
    TrimRightAdds(TrimLeft(s));
  }

  lemma {:induction false} TrimLeftDrops(pad: string, s: string)
    requires Blank(pad)
    ensures TrimLeft(pad + s) == TrimLeft(s)
  {
    if pad == "" {
      assert pad + s == s;
    } else {
      var whole := pad + s;
      assert whole[0] == pad[0] && pad[0] in pad && whole[1..] == pad[1..] + s;
      TrimLeftDrops(pad[1..], s);
    }
  }

  lemma {:induction false} TrimRightDrops(s: string, pad: string)
    requires Blank(pad)
    ensures TrimRight(s + pad) == TrimRight(s)
  {
    if pad == "" {
      assert s + pad == s;
    } else {
      var front := pad[..|pad| - 1];
      TrimRightDrops(s, front);
      assert (s + pad)[..|s + pad| - 1] == s + front && (s + pad)[|s + pad| - 1] == pad[|pad| - 1];
    }
  }

  /** White space around a text is what trimming takes off. */
  lemma PaddingDrops(left: string, s: string, right: string)
    requires Blank(left) && Blank(right) && Trimmed(s)
    ensures TrimSpace(left + s + right) == s
  {
    assert left + s + right == left + (s + right);
    TrimLeftDrops(left, s + right);
    if s == "" {
      TrimLeftDrops(right, "");
      assert right + "" == right && s + right == right;
    } else {
      assert (s + right)[0] == s[0];
      TrimRightDrops(s, right);
      TrimRightKeeps(s);
    }
  }

  /** The value's own padding, where it does not belong to the end of the line. */
  function ValuePadding(r: string, value: string): string {
    if value == "" then "" else r
  }

  lemma PaddedColon(key: string, q: string, rest: string)
    requires ':' !in key && Blank(q)
    ensures IndexOf(key + q + ":" + rest, ':') == Some(|key + q|)
  {
    assert !IsSpace(':');
    assert forall i | 0 <= i < |q| :: q[i] in q;
    FirstColon(key + q, rest);
  }

  lemma PaddedValue(r: string, value: string)
    requires Blank(r) && Trimmed(value)
    ensures TrimSpace(TrimCarriageReturn(ValuePadding(r, value) + value)) == value
  {
    assert IsSpace('\r');
    if value != "" {
      assert (r + value)[|r + value| - 1] == value[|value| - 1];
      PaddingDrops(r, value, "");
      assert r + value + "" == r + value;
    }
  }

  /** The line that is left of a padded one. */
  lemma PaddedTrimmed(key: string, value: string, p: string, q: string, r: string, t: string)
    requires key != "" && Trimmed(key) && Trimmed(value) && Blank(p) && Blank(q) && Blank(r) && Blank(t)
    ensures TrimSpace(p + (key + q + ":" + r + value) + t) == key + q + ":" + (ValuePadding(r, value) + value)
  {
    var line := key + q + ":" + (ValuePadding(r, value) + value);
    assert !IsSpace(':');
    assert line[0] == key[0] && line[|line| - 1] == if value == "" then ':' else value[|value| - 1];
    if value == "" {
      assert p + (key + q + ":" + r + value) + t == p + line + (r + t);
      PaddingDrops(p, line, r + t);
    } else {
      assert key + q + ":" + r + value == line;
      PaddingDrops(p, line, t);
    }
  }

  /** White space around the key and around the value is not part of them. */
  lemma PaddedLine(e: Entry, p: string, q: string, r: string, t: string)
    requires Printable(e) && Blank(p) && Blank(q) && Blank(r) && Blank(t)
    ensures LineEntry(p + (e.0 + q + ":" + r + e.1) + t) == Some(e)
  {
    var key, rest := e.0, ValuePadding(r, e.1) + e.1;
    var line := key + q + ":" + rest;
    PaddedTrimmed(key, e.1, p, q, r, t);
    PaddedColon(key, q, rest);
    assert line[0] == key[0] && line[..|key + q|] == key + q && line[|key + q| + 1..] == rest;
    PaddingDrops("", key, q);
    assert "" + key + q == key + q;
    PaddedValue(r, e.1);
  }

  // ---- Laws of parsing

  /** Lines are read one after another. */
  lemma {:induction false} ParseAppend(a: seq<string>, b: seq<string>)
    ensures ParseLines(a + b) == ParseLines(a) + ParseLines(b)
  {
    if b == [] {
      assert a + b == a;
    } else {
      assert (a + b)[..|a + b| - 1] == a + b[..|b| - 1];
      ParseAppend(a, b[..|b| - 1]);
    }
  }

  lemma {:induction false} CollectAppend(a: seq<Entry>, b: seq<Entry>)
    ensures Collect(a + b) == Collect(a) + Collect(b)
  {
    if b == [] {
      assert a + b == a;
    } else {
      assert (a + b)[..|a + b| - 1] == a + b[..|b| - 1];
      CollectAppend(a, b[..|b| - 1]);
    }
  }

  /** Parsing splits at any line end. */
  lemma ParseSplits(a: string, b: string)
    ensures ParseInfo(a + "\n" + b) == ParseInfo(a) + ParseInfo(b)
  {
    SplitAppend(a, b, '\n');
    assert a + "\n" + b == a + ("\n" + b);
    ParseAppend(Split(a, '\n'), Split(b, '\n'));
  }

  lemma ParseOneLine(line: string)
    requires '\n' !in line
    ensures ParseInfo(line) == match LineEntry(line) case None => map[] case Some(e) => map[e.0 := e.1]
  {
    SplitNone(line, '\n');
    assert [line][..0] == [];
  }

  /** Entries printed with CRLF line ends are read back, a later entry for a key
      overwriting an earlier one. */
  lemma {:induction false} ReadsBackEntries(entries: seq<Entry>)
    requires forall e | e in entries :: Printable(e)
    ensures ParseInfo(Print(entries)) == Collect(entries)
  {
    if entries == [] {
      ParseOneLine("");
    } else {
      var e, rest := entries[0], entries[1..];
      assert e in entries;
      ReadsBackEntries(rest);
      ParseSplits(PrintEntry(e), Print(rest));
      PrintedLine(e);
      ParseOneLine(PrintEntry(e));
      assert [e][..0] == [];
      CollectAppend([e], rest);
      assert [e] + rest == entries;
    }
  }

  /** The last line for a key decides its value. */
  lemma {:induction false} LastLineWins(entries: seq<Entry>, key: string)
    requires forall e | e in entries :: Printable(e)
    ensures key in ParseInfo(Print(entries)) <==> exists i | 0 <= i < |entries| :: entries[i].0 == key
    ensures forall i | && 0 <= i < |entries| && entries[i].0 == key
                       && (forall j | i < j < |entries| :: entries[j].0 != key) ::
              ParseInfo(Print(entries))[key] == entries[i].1
  {
    ReadsBackEntries(entries);
    CollectLast(entries, key);
  }

  lemma {:induction false} CollectLast(entries: seq<Entry>, key: string)
    ensures key in Collect(entries) <==> exists i | 0 <= i < |entries| :: entries[i].0 == key
    ensures forall i | && 0 <= i < |entries| && entries[i].0 == key
                       && (forall j | i < j < |entries| :: entries[j].0 != key) ::
              key in Collect(entries) && Collect(entries)[key] == entries[i].1
  {
    if entries != [] {
      var k := |entries| - 1;
      var front := entries[..k];
      CollectLast(front, key);
      assert forall i | 0 <= i < k :: front[i] == entries[i];
    }
  }

  /** Printing a map, in any order, and reading it gives the map back. */
  lemma InfoRoundTrip(data: map<string, string>, entries: seq<Entry>)
    requires forall e | e in entries :: e.0 in data && data[e.0] == e.1 && Printable(e)
    requires forall key | key in data :: (key, data[key]) in entries
    ensures ParseInfo(Print(entries)) == data
  {
    ReadsBackEntries(entries);
    CollectListing(data, entries);
    forall key | key in data ensures key in Collect(entries) {
      var i :| 0 <= i < |entries| && entries[i] == (key, data[key]);
      CollectLast(entries, key);
    }
  }

  lemma {:induction false} CollectListing(data: map<string, string>, entries: seq<Entry>)
    requires forall e | e in entries :: e.0 in data && data[e.0] == e.1
    ensures forall key | key in Collect(entries) :: key in data && Collect(entries)[key] == data[key]
  {
    if entries != [] {
      assert entries[|entries| - 1] in entries;
      CollectListing(data, entries[..|entries| - 1]);
    }
  }

  /** A blank line, a comment, or a line without a colon, put between any two
      lines of any text, changes nothing. */
  lemma NoiseIgnored(before: string, noise: string, after: string)
    requires '\n' !in noise
    requires TrimSpace(noise) == "" || TrimSpace(noise)[0] == '#' || ':' !in noise
    ensures ParseInfo(before + "\n" + noise + "\n" + after) == ParseInfo(before + "\n" + after)
  {
    ParseSplits(before + "\n" + noise, after);
    ParseSplits(before, noise);
    ParseSplits(before, after);
    ParseOneLine(noise);
    TrimmingAddsNothing(noise);
    assert ParseInfo(before) + map[] == ParseInfo(before);
  }
}
