/** eval/report.py: the metrics table, and the splice that replaces it in a Markdown document. */
module Report {
  import opened Common

  const MARKER := "## Phase 6 evaluation metrics"
  const HEADING := "\n## "
  const HEADER := MARKER + TABLE_HEAD
  const TABLE_HEAD := "\n\n| Metric | Value |\n|---|---:|"

  type Metrics = seq<(string, string)>

  // ----- Text -----

  /** `find`: the first position at which `part` occurs. */
  function Find(s: string, part: string, from: nat := 0): (r: Option<nat>)
    requires from <= |s|
    ensures r.Some? ==> from <= r.value && OccursAt(s, part, r.value)
    ensures r.Some? ==> forall i: nat | from <= i < r.value :: !OccursAt(s, part, i)
    ensures r.None? ==> forall i: nat | from <= i :: !OccursAt(s, part, i)
    decreases |s| - from
  {
    if OccursAt(s, part, from) then Some(from)
    else if from == |s| then None
    else Find(s, part, from + 1)
  }

  /** `rstrip`. */
  function Stripped(s: string): (r: string)
    ensures r <= s && Blank(s[|r|..])
    ensures r != "" ==> !IsSpace(r[|r| - 1])
  {
    if s != "" && IsSpace(s[|s| - 1]) then Stripped(s[..|s| - 1]) else s
  }

  /** The stripped text is determined by what it promises. */
  lemma {:induction false} StrippedIsUnique(s: string, r: string)
    requires r <= s && Blank(s[|r|..]) && (r != "" ==> !IsSpace(r[|r| - 1]))
    ensures Stripped(s) == r
  {
    if |r| < |s| {
      assert IsSpace(s[|s| - 1]) by { assert s[|r|..][|s| - |r| - 1] == s[|s| - 1]; }
      var rest := s[..|s| - 1][|r|..];
      assert forall i | 0 <= i < |rest| :: rest[i] == s[|r|..][i];
      StrippedIsUnique(s[..|s| - 1], r);
    } else if s != "" {
      assert r == s;
    }
  }

  // ----- render_report -----

  function Rows(metrics: Metrics): string {
    if metrics == [] then ""
    else Rows(metrics[..|metrics| - 1]) + "\n| " + metrics[|metrics| - 1].0 + " | " + metrics[|metrics| - 1].1 + " |"
  }

  function Rendered(metrics: Metrics): string {
    HEADER + Rows(metrics) + "\n"
  }

  function Join(lines: seq<string>): string {
    if lines == [] then ""
    else if |lines| == 1 then lines[0]
    else Join(lines[..|lines| - 1]) + "\n" + lines[|lines| - 1]
  }

  lemma JoinAppends(lines: seq<string>, line: string)
    requires lines != []
    ensures Join(lines + [line]) == Join(lines) + "\n" + line
  {
    assert (lines + [line])[..|lines|] == lines;
  }

  lemma HeaderJoins()
    ensures Join([MARKER, "", "| Metric | Value |", "|---|---:|"]) == HEADER
  {
    var two, three := [MARKER, ""], [MARKER, "", "| Metric | Value |"];
    assert two == [MARKER] + [""] && three == two + ["| Metric | Value |"];
    JoinAppends([MARKER], "");
    JoinAppends(two, "| Metric | Value |");
    JoinAppends(three, "|---|---:|");
    assert three + ["|---|---:|"] == [MARKER, "", "| Metric | Value |", "|---|---:|"];
  }

  method RenderReport(metrics: Metrics) returns (text: string)
    ensures text == Rendered(metrics)
  {
    hide Join;
    var lines := [MARKER, "", "| Metric | Value |", "|---|---:|"];
    ghost var header := HEADER;
    HeaderJoins();
    for i := 0 to |metrics|
      invariant lines != [] && Join(lines) == header + Rows(metrics[..i])
    {
      JoinAppends(lines, "| " + metrics[i].0 + " | " + metrics[i].1 + " |");
      lines := lines + ["| " + metrics[i].0 + " | " + metrics[i].1 + " |"];
      assert metrics[..i + 1][..i] == metrics[..i];
    }
    assert metrics[..|metrics|] == metrics;
    text := Join(lines) + "\n";
  }

  /** Each metric has its row, a line of its own, and the rows are in the order of the metrics. */
  lemma {:induction false} RowAppears(metrics: Metrics, i: nat) returns (before: string, after: string)
    requires i < |metrics|
    ensures Rendered(metrics) == before + "\n| " + metrics[i].0 + " | " + metrics[i].1 + " |\n" + after
    ensures before == HEADER + Rows(metrics[..i])
  {
    var tail := RowsAfter(metrics, i);
    before := HEADER + Rows(metrics[..i]);
    after := if tail == "" then "" else tail[1..] + "\n";
  }

  lemma {:induction false} RowsAfter(metrics: Metrics, i: nat) returns (tail: string)
    requires i < |metrics|
    ensures Rows(metrics) == Rows(metrics[..i]) + "\n| " + metrics[i].0 + " | " + metrics[i].1 + " |" + tail
    ensures tail != "" ==> tail[0] == '\n'
  {
    if i == |metrics| - 1 {
      tail := "";
    } else {
      var shorter := metrics[..|metrics| - 1];
      assert shorter[..i] == metrics[..i];
      var earlier := RowsAfter(shorter, i);
      tail := earlier + "\n| " + metrics[|metrics| - 1].0 + " | " + metrics[|metrics| - 1].1 + " |";
    }
  }

  // ----- write_report -----

  /** The document around the section that starts with `marker`: what precedes it, and what
      follows from the next second-level heading on. */
  function Around(existing: string, marker: string): (string, string) {
    match Find(existing, marker)
    case None => (existing, "")
    case Some(i) =>
      var remainder := existing[i + |marker|..];
      (existing[..i], match Find(remainder, HEADING) case None => "" case Some(j) => remainder[j..])
  }

  /** What `write_report` writes. */
  function Written(existing: string, marker: string, report: string): string {
    var (prefix, suffix) := Around(existing, marker);
    Stripped(prefix) + "\n\n" + report + suffix
  }

  // ----- The splice is idempotent -----

  /** No line after the first starts with '#'. */
  predicate NoHeadings(s: string) {
    forall i | 0 <= i < |s| - 1 && s[i] == '\n' :: s[i + 1] != '#'
  }

  predicate OneLine(s: string) {
    '\n' !in s
  }

  /** Metric names and values are single lines. */
  predicate Plain(metrics: Metrics) {
    forall i | 0 <= i < |metrics| :: OneLine(metrics[i].0) && OneLine(metrics[i].1)
  }

  lemma NoHeadingsAppends(a: string, b: string)
    requires NoHeadings(a) && NoHeadings(b) && (b != "" ==> b[0] != '#')
    ensures NoHeadings(a + b)
  {
  }

  lemma {:induction false} RowsHaveNoHeadings(metrics: Metrics)
    requires Plain(metrics)
    ensures NoHeadings(Rows(metrics)) && (Rows(metrics) != "" ==> Rows(metrics)[0] == '\n')
  {
    if metrics != [] {
      var (name, value) := metrics[|metrics| - 1];
      RowsHaveNoHeadings(metrics[..|metrics| - 1]);
      var row := "\n| " + name + " | " + value + " |";
      assert forall i | 1 <= i < |row| :: row[i] != '\n';
      assert row[1] == '|';
      NoHeadingsAppends(Rows(metrics[..|metrics| - 1]), row);
      assert Rows(metrics) == Rows(metrics[..|metrics| - 1]) + row;
    }
  }

  /** The part of a report after its marker. */
  lemma ReportShape(metrics: Metrics) returns (body: string)
    requires Plain(metrics)
    ensures Rendered(metrics) == MARKER + body
    ensures NoHeadings(body) && body != "" && body[|body| - 1] == '\n'
  {
    RowsHaveNoHeadings(metrics);
    NoHeadingsAppends(TABLE_HEAD, Rows(metrics));
    NoHeadingsAppends(TABLE_HEAD + Rows(metrics), "\n");
    body := TABLE_HEAD + Rows(metrics) + "\n";
  }

  lemma FindIs(s: string, part: string, i: nat)
    requires OccursAt(s, part, i) && forall k: nat | k < i :: !OccursAt(s, part, k)
    ensures Find(s, part) == Some(i)
  {
  }

  /** The section's end is found right after the report's own text. */
  lemma SectionEnds(body: string, suffix: string)
    requires NoHeadings(body) && body != "" && body[|body| - 1] == '\n'
    requires suffix == "" || OccursAt(suffix, HEADING, 0)
    ensures Find(body + suffix, HEADING) == if suffix == "" then None else Some(|body|)
  {
    var s := body + suffix;
    forall k: nat | k < |body| ensures !OccursAt(s, HEADING, k) {
      OccurrenceReads(s, HEADING, k);
      assert HEADING[0] == '\n' && HEADING[1] == '#';
      assert k < |body| - 1 ==> s[k + 0] == body[k] && s[k + 1] == body[k + 1];
    }
    if suffix != "" {
      assert s[|body|..|body| + 4] == suffix[0..4];
      FindIs(s, HEADING, |body|);
    }
  }

  /** The section's start is found right after the text before it. */
  lemma SectionStarts(before: string, marker: string, rest: string)
    requires OneLine(marker) && marker != ""
    requires forall k: nat :: !OccursAt(before, marker, k)
    ensures Find(before + "\n\n" + marker + rest, marker) == Some(|before| + 2)
  {
    var s := before + "\n\n" + marker + rest;
    var i := |before| + 2;
    assert s[i..i + |marker|] == marker;
    forall k: nat | k < i ensures !OccursAt(s, marker, k) {
      if k + |marker| <= |before| {
        assert before[k..k + |marker|] == s[k..k + |marker|];
        assert !OccursAt(before, marker, k);
      } else {
        OccurrenceReads(s, marker, k);
        var n := Max(k, |before|);
        assert s[k + (n - k)] == '\n';
      }
    }
    FindIs(s, marker, i);
  }

  lemma Regroup(a: string, b: string, c: string, d: string, e: string)
    ensures a + b + (c + d) + e == (a + b) + c + (d + e)
  {
  }

  lemma Cuts(a: string, b: string, c: string)
    ensures (a + b + c)[..|a|] == a && (a + b + c)[|a| + |b|..] == c && (a + c)[|a|..] == c
  {
  }

  lemma AroundSplits(prefix: string, marker: string, body: string, suffix: string)
    requires Find(prefix + marker + (body + suffix), marker) == Some(|prefix|)
    requires Find(body + suffix, HEADING) == if suffix == "" then None else Some(|body|)
    ensures Around(prefix + marker + (body + suffix), marker) == (prefix, suffix)
  {
    Cuts(prefix, marker, body + suffix);
    Cuts(body, "", suffix);
    hide Find;
  }

  /** A text that does not contain the marker has no prefix that does. */
  lemma PrefixLacks(s: string, n: nat, marker: string, k: nat)
    requires n <= |s| && k + |marker| <= n
    ensures OccursAt(s[..n], marker, k) <==> OccursAt(s, marker, k)
  {
    assert s[..n][k..k + |marker|] == s[k..k + |marker|];
  }

  lemma NothingBefore(existing: string, marker: string)
    requires marker != ""
    ensures forall k: nat :: !OccursAt(Stripped(Around(existing, marker).0), marker, k)
  {
    var prefix := Around(existing, marker).0;
    var before := Stripped(prefix);
    assert prefix == existing[..|prefix|];
    forall k: nat | k + |marker| <= |prefix| ensures !OccursAt(existing, marker, k) {
      assert Find(existing, marker).Some? ==> k < Find(existing, marker).value;
    }
    hide Around, Find, Stripped;
    forall k: nat ensures !OccursAt(before, marker, k) {
      if k + |marker| <= |before| {
        assert before == prefix[..|before|];
        PrefixLacks(prefix, |before|, marker, k);
        PrefixLacks(existing, |prefix|, marker, k);
      }
    }
  }

  /** A document with the section: what precedes the marker is kept without trailing white space,
      and what follows from the next second-level heading on is kept as it is. */
  lemma SectionIsReplaced(before: string, marker: string, body: string, suffix: string, report: string)
    requires forall k: nat | k < |before| :: !OccursAt(before + marker + (body + suffix), marker, k)
    requires suffix == "" || HEADING <= suffix
    requires forall k: nat | k < |body| :: !OccursAt(body + suffix, HEADING, k)
    ensures Written(before + marker + (body + suffix), marker, report) == Stripped(before) + "\n\n" + report + suffix
  {
    hide Find, Stripped, Around, OccursAt;
    MarkerIsFound(before, marker, body + suffix);
    HeadingIsFound(body, suffix);
    AroundSplits(before, marker, body, suffix);
  }

  lemma MarkerIsFound(before: string, marker: string, tail: string)
    requires forall k: nat | k < |before| :: !OccursAt(before + marker + tail, marker, k)
    ensures Find(before + marker + tail, marker) == Some(|before|)
  {
    var whole := before + marker + tail;
    assert whole[|before|..|before| + |marker|] == marker;
    FindIs(whole, marker, |before|);
    hide Find;
  }

  lemma HeadingIsFound(body: string, suffix: string)
    requires suffix == "" || HEADING <= suffix
    requires forall k: nat | k < |body| :: !OccursAt(body + suffix, HEADING, k)
    ensures Find(body + suffix, HEADING) == if suffix == "" then None else Some(|body|)
  {
    if suffix != "" {
      assert (body + suffix)[|body|..|body| + 4] == suffix[..4];
      FindIs(body + suffix, HEADING, |body|);
    } else {
      NotFound(body + suffix, HEADING);
    }
    hide Find;
  }

  lemma NotFound(s: string, part: string)
    requires part != "" && forall k: nat | k < |s| :: !OccursAt(s, part, k)
    ensures Find(s, part) == None
  {
  }

  /** A document without the section gets it at the end. */
  lemma SectionIsAppended(existing: string, marker: string, report: string)
    requires marker != "" && forall k: nat :: !OccursAt(existing, marker, k)
    ensures Written(existing, marker, report) == Stripped(existing) + "\n\n" + report
  {
    NotFound(existing, marker);
    hide Find, Stripped;
  }

  /** Writing a report keeps what is around the section, up to trailing white space before it. */
  lemma SurroundingsStay(existing: string, marker: string, body: string)
    requires OneLine(marker) && marker != ""
    requires NoHeadings(body) && body != "" && body[|body| - 1] == '\n'
    ensures var (prefix, suffix) := Around(existing, marker);
            Around(Written(existing, marker, marker + body), marker) == (Stripped(prefix) + "\n\n", suffix)
  {
    var (prefix, suffix) := Around(existing, marker);
    var before := Stripped(prefix);
    NothingBefore(existing, marker);
    SectionStarts(before, marker, body + suffix);
    SectionEnds(body, suffix);
    Regroup(before, "\n\n", marker, body, suffix);
    AroundSplits(before + "\n\n", marker, body, suffix);
    hide Find, Stripped, Around, NoHeadings, OneLine;
  }

  /** Writing one report after another is writing the second alone. */
  lemma LastReportWins(existing: string, first: Metrics, second: string)
    requires Plain(first)
    ensures Written(Written(existing, MARKER, Rendered(first)), MARKER, second) == Written(existing, MARKER, second)
  {
    var body := ReportShape(first);
    SurroundingsStay(existing, MARKER, body);
    var before := Stripped(Around(existing, MARKER).0);
    var longer := before + "\n\n";
    assert longer[|before|..] == "\n\n";
    StrippedIsUnique(longer, before);
  }
}
