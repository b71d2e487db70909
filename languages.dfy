/** The language list offered for the language capability (index.js): CSV
    text turned into `{name, key}` entries. Reading the file is not modelled;
    the parser takes its content as a string. */
module Languages {
  import opened Wrappers
  import opened JsString

  datatype Language = Language(name: string, key: Option<string>)

  /** The lines that pass the `l.length` half of the filter, in order. */
  function NonEmpty(lines: seq<string>): (r: seq<string>)
    ensures |r| <= |lines|
    ensures forall i :: 0 <= i < |r| ==> r[i] != ""
    ensures forall l :: l in r <==> l in lines && l != ""
  {
    if |lines| == 0 then []
    else (if lines[0] == "" then [] else [lines[0]]) + NonEmpty(lines[1..])
  }

  /** Filtering keeps the order of the lines it keeps. */
  lemma {:induction false} NonEmptyAppend(a: seq<string>, b: seq<string>)
    ensures NonEmpty(a + b) == NonEmpty(a) + NonEmpty(b)
  {
    if |a| > 0 {
      assert (a + b)[1..] == a[1..] + b;
      NonEmptyAppend(a[1..], b);
    } else {
      assert a + b == b;
    }
  }

  /** The lines that survive `filter((l, i) => l.length && i >= 1)`: the
      header (line 0) never does, nor does an empty line. */
  function SurvivingLines(csv: string): (r: seq<string>)
    ensures |r| <= |Split(csv, '\n')| - 1
  {
    NonEmpty(Split(csv, '\n')[1..])
  }

  /** The first field of a split runs up to the first separator, or is
      the whole string when there is none. */
  lemma FirstField(s: string, sep: char)
    ensures var j := IndexOfFrom(s, sep, 0);
            && (j == -1 ==> Split(s, sep)[0] == s)
            && (j != -1 ==> Split(s, sep)[0] == s[..j] && |Split(s, sep)| >= 2
                            && Split(s, sep)[1] == Split(s[j + 1..], sep)[0])
  {
  }

  /** The key as the source reads it, `l.split(',')[1]`: the text after
      the first comma of the whole trimmed line, up to the next comma or the
      end, even when the name is quoted; none when the line has no comma. */
  function KeyAsWritten(line: string): (key: Option<string>)
    ensures key.None? <==> ',' !in line
    ensures key.Some? ==>
              var i := IndexOfFrom(line, ',', 0);
              && i != -1 && ',' !in key.value && OccursAt(line, key.value, i + 1)
              && (i + 1 + |key.value| == |line| || line[i + 1 + |key.value|] == ',')
  {
    var fields := Split(line, ',');
    FirstField(line, ',');
    var i := IndexOfFrom(line, ',', 0);
    if i != -1 then
      var rest := line[i + 1..];
      FirstField(rest, ',');
      var j := IndexOfFrom(rest, ',', 0);
      assert j != -1 ==> rest[..j] == line[i + 1..i + 1 + j];
      Some(fields[1])
    else
      None
  }

  /** One trimmed line as the source parses it: a line starting with `"`
      is named by the text up to the next `"` (with no closing quote,
      `substring(1, -1)` is the opening quote itself); any other line by the
      text before its first comma. The key is always `KeyAsWritten`. */
  function ParseEntryAsWritten(line: string): (lang: Language)
    ensures lang.key == KeyAsWritten(line)
    ensures StartsWith(line, "\"") ==>
              var close := IndexOfFrom(line, '"', 1);
              && (close != -1 ==> lang.name == line[1..close] && '"' !in lang.name)
              && (close == -1 ==> lang.name == "\"")
    ensures !StartsWith(line, "\"") ==>
              && StartsWith(line, lang.name) && ',' !in lang.name
              && (lang.name == line || line[|lang.name|] == ',')
  {
    if StartsWith(line, "\"") then
      Language(Substring(line, 1, IndexOfFrom(line, '"', 1)), KeyAsWritten(line))
    else
      FirstField(line, ',');
      Language(Split(line, ',')[0], KeyAsWritten(line))
  }

  function ParseAll(lines: seq<string>): (r: seq<Language>)
    ensures |r| == |lines|
    ensures forall k :: 0 <= k < |r| ==> r[k] == ParseEntryAsWritten(Trim(lines[k]))
  {
    if |lines| == 0 then [] else [ParseEntryAsWritten(Trim(lines[0]))] + ParseAll(lines[1..])
  }

  /** The `languages` list: split into lines, drop the header and empty
      lines, trim, parse. Every entry's key is the second comma-separated
      field of its trimmed line, quoted name or not. */
  function ParseLanguages(csv: string): (r: seq<Language>)
    ensures |r| == |SurvivingLines(csv)| <= |Split(csv, '\n')| - 1
    ensures forall k :: 0 <= k < |r| ==> r[k] == ParseEntryAsWritten(Trim(SurvivingLines(csv)[k]))
    ensures forall k :: 0 <= k < |r| ==> r[k].key == KeyAsWritten(Trim(SurvivingLines(csv)[k]))
  {
    ParseAll(SurvivingLines(csv))
  }

  /** The corrected entry parser: the key of a properly quoted name is read
      from the text after the closing quote. Every other line parses as the
      source has it. */
  function ParseEntryCorrected(line: string): (lang: Language)
    ensures lang.name == ParseEntryAsWritten(line).name
    ensures !StartsWith(line, "\"") || IndexOfFrom(line, '"', 1) == -1 ==> lang == ParseEntryAsWritten(line)
  {
    var close := IndexOfFrom(line, '"', 1);
    if StartsWith(line, "\"") && close != -1 then
      Language(line[1..close], KeyAsWritten(line[close + 1..]))
    else
      ParseEntryAsWritten(line)
  }

  /** The language list with the corrected entry parser: the same entries
      in the same order with the same names; only keys of quoted names can
      differ from the source's. */
  function ParseLanguagesCorrected(csv: string): (r: seq<Language>)
    ensures |r| == |ParseLanguages(csv)|
    ensures forall k :: 0 <= k < |r| ==> r[k].name == ParseLanguages(csv)[k].name
    ensures forall k :: 0 <= k < |r| && !StartsWith(Trim(SurvivingLines(csv)[k]), "\"") ==>
              r[k] == ParseLanguages(csv)[k]
  {
    var lines := SurvivingLines(csv);
    seq(|lines|, k requires 0 <= k < |lines| => ParseEntryCorrected(Trim(lines[k])))
  }

  lemma {:induction false} SplitAtFirstSeparator(head: string, rest: string, sep: char)
    requires sep !in head
    ensures Split(head + [sep] + rest, sep) == [head] + Split(rest, sep)
  {
    var s := head + [sep] + rest;
    assert s[|head|] == sep;
    assert forall k :: 0 <= k < |head| ==> s[k] == head[k];
    assert IndexOfFrom(s, sep, 0) == |head|;
    assert s[..|head|] == head;
    assert s[|head| + 1..] == rest;
  }

  /** Whatever the header says, it is dropped: only the lines after the
      first line break count. */
  lemma HeaderIsIgnored(header1: string, header2: string, body: string)
    requires '\n' !in header1 && '\n' !in header2
    ensures ParseLanguages(header1 + "\n" + body) == ParseLanguages(header2 + "\n" + body)
  {
    SplitAtFirstSeparator(header1, body, '\n');
    SplitAtFirstSeparator(header2, body, '\n');
    assert Split(header1 + "\n" + body, '\n')[1..] == Split(body, '\n');
    assert Split(header2 + "\n" + body, '\n')[1..] == Split(body, '\n');
  }

  /** Empty lines are dropped before trimming, so a line of blanks survives
      and becomes an entry with an empty name and no key. */
  lemma BlankLineBecomesEmptyEntry(header: string, blanks: string)
    requires '\n' !in header && '\n' !in blanks
    requires blanks != "" && forall i :: 0 <= i < |blanks| ==> IsWhitespace(blanks[i])
    ensures ParseLanguages(header + "\n" + blanks) == [Language("", None)]
  {
    SplitAtFirstSeparator(header, blanks, '\n');
    assert Split(blanks, '\n') == [blanks];
    assert Split(header + "\n" + blanks, '\n')[1..] == [blanks];
    assert NonEmpty([blanks]) == [blanks] by {
      assert [blanks][1..] == [];
    }
    assert Trim(blanks) == "";
    assert Split("", ',') == [""];
  }

  /** A quoted CSV row as the language file writes it. */
  function QuotedRow(name: string, key: string): string {
    "\"" + name + "\"," + key
  }

  /** The first `c` at or after `from` is at `at` when `s[at]` is one and
      nothing between holds one. */
  lemma FirstOccurrence(s: string, c: char, from: nat, at: nat)
    requires from <= at < |s| && s[at] == c
    requires forall i :: from <= i < at ==> s[i] != c
    ensures IndexOfFrom(s, c, from) == at
  {
  }

  /** Trimming leaves alone a string that neither starts nor ends with
      whitespace. */
  lemma TrimUnchanged(s: string)
    requires s != "" && !IsWhitespace(s[0]) && !IsWhitespace(s[|s| - 1])
    ensures Trim(s) == s
  {
    assert TrimStart(s) == s;
    assert TrimEnd(s) == s;
  }

  /** The key the source reads is the second comma-separated field of the
      whole line, so a comma inside a quoted name shifts it: for the row
      `"a,b",key` the source's key is `b"` where `key` is meant. */
  lemma QuotedCommaShiftsKey(a: string, b: string, key: string)
    requires ',' !in a && ',' !in b && ',' !in key
    ensures ParseEntryAsWritten(QuotedRow(a + "," + b, key)).key == Some(b + "\"")
  {
    var row := QuotedRow(a + "," + b, key);
    var first, second := "\"" + a, b + "\"";
    var tail := second + [','] + key;
    assert row == first + [','] + tail;
    assert ',' !in first && ',' !in second;
    SplitAtFirstSeparator(first, tail, ',');
    SplitAtFirstSeparator(second, key, ',');
    assert Split(key, ',') == [key];
    assert Split(row, ',') == [first, second, key];
    assert KeyAsWritten(row) == Some(second);
  }

  /** The corrected parser reads a quoted row back into its name and key. */
  lemma ParseQuotedRow(name: string, key: string)
    requires '"' !in name && ',' !in key
    ensures ParseEntryCorrected(QuotedRow(name, key)) == Language(name, Some(key))
  {
    var row := QuotedRow(name, key);
    var close := |name| + 1;
    assert row == "\"" + name + "\"" + [','] + key;
    assert StartsWith(row, "\"");
    FirstOccurrence(row, '"', 1, close);
    assert row[1..close] == name;
    var rest := row[close + 1..];
    assert rest == "" + [','] + key;
    assert KeyAsWritten(rest) == Some(key) by {
      SplitAtFirstSeparator("", key, ',');
      assert Split(key, ',') == [key];
    }
  }

  /** The corrected parser, after trimming, gives back a quoted row's name
      and key, whatever commas the name holds, as long as the name has no
      quote, the key no comma, and the row does not end in whitespace that
      trimming would remove. */
  lemma QuotedRowRoundTrip(name: string, key: string)
    requires '"' !in name && ',' !in key
    requires key == "" || !IsWhitespace(key[|key| - 1])
    ensures ParseEntryCorrected(Trim(QuotedRow(name, key))) == Language(name, Some(key))
  {
    var row := QuotedRow(name, key);
    assert row[0] == '"';
    assert row[|row| - 1] == if key == "" then ',' else key[|key| - 1];
    TrimUnchanged(row);
    ParseQuotedRow(name, key);
  }
}
