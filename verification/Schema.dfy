/** The generator that prints table definitions as a Mermaid diagram and splices it into a README. */
module Schema {
  import opened Text
  import opened Domain

  // ---- substrings ----

  predicate At(s: string, p: string, i: nat) {
    i + |p| <= |s| && s[i..i + |p|] == p
  }

  /** The first occurrence at or after i. */
  function IndexFrom(s: string, p: string, i: nat): (r: Option<nat>)
    requires i <= |s|
    ensures r.Some? ==> i <= r.value && At(s, p, r.value) && forall j :: i <= j < r.value ==> !At(s, p, j)
    ensures r.None? ==> forall j :: i <= j ==> !At(s, p, j)
    decreases |s| - i
  {
    if At(s, p, i) then Some(i) else if i == |s| then None else IndexFrom(s, p, i + 1)
  }

  function Index(s: string, p: string): (r: Option<nat>)
    ensures r.Some? ==> At(s, p, r.value) && forall j :: 0 <= j < r.value ==> !At(s, p, j)
    ensures r.None? ==> forall j :: 0 <= j ==> !At(s, p, j)
  {
    IndexFrom(s, p, 0)
  }

  lemma IndexIs(s: string, p: string, i: nat)
    requires At(s, p, i) && forall j :: 0 <= j < i ==> !At(s, p, j)
    ensures Index(s, p) == Some(i)
  {
  }

  // ---- the splice ----

  const START := "<!-- schema:start -->"
  const END := "<!-- schema:end -->"

  function Splice(src: string, content: string, start: string, end: string): Option<string> {
    match (Index(src, start), Index(src, end))
    case (Some(si), Some(ei)) =>
      if si < ei then Some(src[..si + |start|] + "\n" + content + "\n" + src[ei..]) else None
    case _ => None
  }

  function Patched(src: string, content: string): Option<string> {
    Splice(src, content, START, END)
  }

  predicate Marker(p: string) {
    |p| > 0 && p[0] == '<' && forall k :: 0 <= k < |p| ==> (p[k] == '<' ==> k == 0) && p[k] != '\n'
  }

  /** A start and an end marker that cannot overlap each other or reach over a line break. */
  predicate Markers(start: string, end: string) {
    Marker(start) && Marker(end) && |end| <= |start|
  }

  lemma MarkerAt(s: string, p: string, i: nat, k: nat)
    requires At(s, p, i) && k < |p|
    ensures s[i + k] == p[k]
  {
    assert s[i..i + |p|][k] == s[i + k];
  }

  lemma AtInPrefix(a: string, b: string, p: string, i: nat)
    requires i + |p| <= |a|
    ensures At(a + b, p, i) <==> At(a, p, i)
  {
    assert (a + b)[i..i + |p|] == a[i..i + |p|];
  }

  lemma AtInSuffix(a: string, b: string, p: string, i: nat)
    ensures At(a + b, p, |a| + i) <==> At(b, p, i)
  {
    if i + |p| <= |b| { assert (a + b)[|a| + i..|a| + i + |p|] == b[i..i + |p|]; }
  }

  /** No marker begins inside another. */
  lemma MarkersApart(s: string, start: string, end: string, si: nat, i: nat)
    requires Markers(start, end) && At(s, start, si) && At(s, end, i) && si < i
    ensures si + |start| <= i
  {
    MarkerAt(s, end, i, 0);
    if i < si + |start| {
      MarkerAt(s, start, si, i - si);
    }
  }

  /** The content on lines of its own, and what follows it. */
  function OnLines(c: string, post: string): string {
    "\n" + c + "\n" + post
  }

  /** In a content between two line breaks a marker is found only where the content has it. */
  lemma EndInBody(c: string, post: string, end: string, i: nat)
    requires Marker(end) && At(OnLines(c, post), end, i) && i < |c| + 2
    ensures i > 0 && At(c, end, i - 1)
  {
    var s := OnLines(c, post);
    assert s[0] == '\n' && s[1 + |c|] == '\n';
    if i == 0 || |c| + 1 < i + |end| {
      MarkerAt(s, end, i, if i == 0 then 0 else |c| + 1 - i);
    } else {
      assert s == ("\n" + c) + ("\n" + post);
      AtInPrefix("\n" + c, "\n" + post, end, i);
      AtInSuffix("\n", c, end, i - 1);
    }
  }

  /** The first end marker after the line break: the content's own, if it has one, hides the real one. */
  lemma EndAfterBreak(c: string, post: string, end: string)
    requires Marker(end) && At(post, end, 0)
    ensures Index(OnLines(c, post), end) == Some(1 + if Index(c, end).Some? then Index(c, end).value else |c| + 1)
  {
    var s := OnLines(c, post);
    forall j: nat | j < |c| + 2 && At(s, end, j) ensures j > 0 && At(c, end, j - 1) {
      EndInBody(c, post, end, j);
    }
    if Index(c, end).Some? {
      var i := Index(c, end).value;
      AtInSuffix("\n", c, end, i);
      assert s == ("\n" + c) + ("\n" + post);
      AtInPrefix("\n" + c, "\n" + post, end, i + 1);
      IndexIs(s, end, i + 1);
    } else {
      AtInSuffix("\n" + c + "\n", post, end, 0);
      IndexIs(s, end, |c| + 2);
    }
  }

  lemma FirstInPrefix(a: string, b: string, p: string)
    requires Index(a, p).Some?
    ensures Index(a + b, p) == Index(a, p)
  {
    var i := Index(a, p).value;
    AtInPrefix(a, b, p, i);
    forall j: nat | j < i ensures !At(a + b, p, j) { AtInPrefix(a, b, p, j); }
    IndexIs(a + b, p, i);
  }

  lemma FirstInSuffix(a: string, b: string, p: string)
    requires Index(b, p).Some? && forall j :: 0 <= j < |a| ==> !At(a + b, p, j)
    ensures Index(a + b, p) == Some(|a| + Index(b, p).value)
  {
    var e := Index(b, p).value;
    AtInSuffix(a, b, p, e);
    forall j: nat | j < |a| + e ensures !At(a + b, p, j) {
      if j >= |a| { AtInSuffix(a, b, p, j - |a|); }
    }
    IndexIs(a + b, p, |a| + e);
  }

  /** A text that ends with its first start marker keeps it, and finds the end marker in what follows. */
  lemma MarkersAfter(pre: string, rest: string, start: string, end: string)
    requires Markers(start, end) && Index(pre, start) == Some(|pre| - |start|) && Index(pre, end).None?
    requires Index(rest, end).Some?
    ensures Index(pre + rest, start) == Index(pre, start)
    ensures Index(pre + rest, end) == Some(|pre| + Index(rest, end).value)
  {
    var si := |pre| - |start|;
    FirstInPrefix(pre, rest, start);
    forall j: nat | j < |pre| ensures !At(pre + rest, end, j) {
      if j <= si {
        AtInPrefix(pre, rest, end, j);
      } else if At(pre + rest, end, j) {
        MarkersApart(pre + rest, start, end, si, j);
      }
    }
    FirstInSuffix(pre, rest, end);
  }

  /** The text up to and with the start marker, and the text from the end marker on. */
  function Before(src: string, start: string): string
    requires Index(src, start).Some?
  {
    src[..Index(src, start).value + |start|]
  }

  function Behind(src: string, end: string): string
    requires Index(src, end).Some?
  {
    src[Index(src, end).value..]
  }

  lemma BehindStarts(src: string, end: string)
    requires Index(src, end).Some?
    ensures At(Behind(src, end), end, 0)
  {
    var ei := Index(src, end).value;
    assert src == src[..ei] + Behind(src, end);
    AtInSuffix(src[..ei], Behind(src, end), end, 0);
  }

  lemma BeforeEnds(src: string, start: string, end: string)
    requires Markers(start, end) && Splice(src, "", start, end).Some?
    ensures Index(Before(src, start), start) == Index(src, start) && Index(Before(src, start), end).None?
  {
    var si := Index(src, start).value;
    var pre := Before(src, start);
    assert src == pre + src[|pre|..];
    AtInPrefix(pre, src[|pre|..], start, si);
    forall j: nat | j < si ensures !At(pre, start, j) { AtInPrefix(pre, src[|pre|..], start, j); }
    IndexIs(pre, start, si);
    if Index(pre, end).Some? {
      var j := Index(pre, end).value;
      AtInPrefix(pre, src[|pre|..], end, j);
      MarkersApart(pre, start, end, si, j);
    }
  }

  lemma SpliceIs(src: string, c: string, start: string, end: string)
    requires Splice(src, c, start, end).Some?
    ensures Splice(src, c, start, end).value == Before(src, start) + OnLines(c, Behind(src, end))
  {
    var pre, post := Before(src, start), Behind(src, end);
    assert pre + "\n" + c + "\n" + post == pre + OnLines(c, post);
  }

  lemma MarkersAround(pre: string, c: string, post: string, start: string, end: string)
    requires Markers(start, end) && Index(pre, start) == Some(|pre| - |start|) && Index(pre, end).None? && At(post, end, 0)
    ensures Index(pre + OnLines(c, post), start) == Some(|pre| - |start|)
    ensures Index(pre + OnLines(c, post), end)
      == Some(|pre| + 1 + if Index(c, end).Some? then Index(c, end).value else |c| + 1)
  {
    EndAfterBreak(c, post, end);
    MarkersAfter(pre, OnLines(c, post), start, end);
  }

  /** Where the markers of a patched text are. */
  lemma SplicedMarkers(src: string, c: string, start: string, end: string)
    requires Markers(start, end) && Splice(src, c, start, end).Some?
    ensures var p := Splice(src, c, start, end).value;
      && Index(p, start) == Index(src, start)
      && Index(p, end) == Some(|Before(src, start)| + 1 + if Index(c, end).Some? then Index(c, end).value else |c| + 1)
  {
    SpliceIs(src, c, start, end);
    BehindStarts(src, end);
    BeforeEnds(src, start, end);
    MarkersAround(Before(src, start), c, Behind(src, end), start, end);
  }

  lemma CutAround(pre: string, c: string, post: string)
    ensures (pre + OnLines(c, post))[..|pre|] == pre && (pre + OnLines(c, post))[|pre| + |c| + 2..] == post
  {
    var head := pre + "\n" + c + "\n";
    assert pre + OnLines(c, post) == head + post && |head| == |pre| + |c| + 2;
  }

  /** Outside the markers nothing changes, between them is the content on lines of its own. */
  lemma SpliceKeepsOutside(src: string, c: string, start: string, end: string)
    requires Markers(start, end) && Splice(src, c, start, end).Some? && Index(c, end).None?
    ensures var p := Splice(src, c, start, end).value;
      && Splice(p, "", start, end).Some?
      && Before(p, start) == Before(src, start) && Behind(p, end) == Behind(src, end)
      && p == Before(src, start) + OnLines(c, Behind(src, end))
  {
    SplicedMarkers(src, c, start, end);
    SpliceIs(src, c, start, end);
    CutAround(Before(src, start), c, Behind(src, end));
  }

  /** The last splice wins exactly when the earlier content does not hold the end marker. */
  lemma LastSpliceWinsIff(src: string, c1: string, c2: string, start: string, end: string)
    requires Markers(start, end) && Splice(src, c1, start, end).Some?
    ensures var p := Splice(src, c1, start, end).value;
      && Splice(p, c2, start, end).Some?
      && (Splice(p, c2, start, end) == Splice(src, c2, start, end) <==> Index(c1, end).None?)
  {
    SplicedMarkers(src, c1, start, end);
    SpliceIs(src, c1, start, end);
    var p := Splice(src, c1, start, end).value;
    SpliceIs(src, c2, start, end);
    SpliceIs(p, c2, start, end);
    if Index(c1, end).None? {
      SpliceKeepsOutside(src, c1, start, end);
    } else {
      assert |Behind(p, end)| > |Behind(src, end)|;
    }
  }

  lemma RealMarkers()
    ensures Markers(START, END)
  {
  }

  lemma LastWriteWinsIff(src: string, c1: string, c2: string)
    requires Patched(src, c1).Some?
    ensures var p := Patched(src, c1).value;
      && Patched(p, c2).Some?
      && (Patched(p, c2) == Patched(src, c2) <==> Index(c1, END).None?)
  {
    RealMarkers();
    LastSpliceWinsIff(src, c1, c2, START, END);
  }

  // ---- the diagram ----

  datatype Column = Column(name: string, typ: string, pk: bool, fk: bool, uk: bool)

  datatype ForeignKey = ForeignKey(srcCol: string, dstTable: string)

  datatype Table = Table(name: string, cols: seq<Column>, fks: seq<ForeignKey>)

  predicate Token(s: string) {
    ' ' !in s && '\n' !in s
  }

  /** Every name and type is a token; referencing columns are words, which Go quotes as they stand. */
  ghost predicate Printable(t: Table) {
    && Token(t.name)
    && (forall c :: c in t.cols ==> Token(c.name) && Token(c.typ))
    && (forall k :: k in t.fks ==> Token(k.dstTable) && IsWord(k.srcCol))
  }

  predicate IsWord(s: string) {
    forall i :: 0 <= i < |s| ==> 'a' <= s[i] <= 'z' || 'A' <= s[i] <= 'Z' || '0' <= s[i] <= '9' || s[i] == '_'
  }

  function Joined(parts: seq<string>, sep: char): string {
    if parts == [] then "" else if |parts| == 1 then parts[0] else parts[0] + [sep] + Joined(parts[1..], sep)
  }

  function Mark(c: Column): string {
    if c.pk && c.fk then "PK,FK" else if c.pk then "PK" else if c.fk then "FK" else if c.uk then "UK" else ""
  }

  /** What the diagram shows of a column. */
  datatype Shown = Shown(typ: string, name: string, mark: string)

  datatype Arrow = Arrow(dst: string, table: string, src: string)

  const INDENT := ["", "", "", ""]
  const OPENING := [["```mermaid"], ["erDiagram"]]
  const CLOSE := INDENT + ["}"]
  const CLOSING := ["```"]

  function HeadLine(name: string): seq<string> { INDENT + [name, "{"] }

  function ColumnLine(c: Shown): seq<string> {
    INDENT + INDENT + [c.typ, c.name] + if c.mark == "" then [] else [c.mark]
  }

  function ArrowLine(a: Arrow): seq<string> { INDENT + [a.dst, "||--o{", a.table, ":", "\"" + a.src + "\""] }

  function ShownColumns(cs: seq<Column>): seq<Shown> {
    seq(|cs|, i requires 0 <= i < |cs| => Shown(cs[i].typ, cs[i].name, Mark(cs[i])))
  }

  function ShownTables(ts: seq<Table>): seq<(string, seq<Shown>)> {
    seq(|ts|, i requires 0 <= i < |ts| => (ts[i].name, ShownColumns(ts[i].cols)))
  }

  function ArrowsOf(t: Table): seq<Arrow> {
    seq(|t.fks|, i requires 0 <= i < |t.fks| => Arrow(t.fks[i].dstTable, t.name, t.fks[i].srcCol))
  }

  function Arrows(ts: seq<Table>): seq<Arrow> {
    if ts == [] then [] else Arrows(ts[..|ts| - 1]) + ArrowsOf(ts[|ts| - 1])
  }

  function ColumnLines(cs: seq<Shown>): seq<seq<string>> {
    seq(|cs|, i requires 0 <= i < |cs| => ColumnLine(cs[i]))
  }

  function ArrowLines(as': seq<Arrow>): seq<seq<string>> {
    seq(|as'|, i requires 0 <= i < |as'| => ArrowLine(as'[i]))
  }

  function TableLines(t: (string, seq<Shown>)): seq<seq<string>> {
    [HeadLine(t.0)] + ColumnLines(t.1) + [CLOSE]
  }

  function Body(ts: seq<(string, seq<Shown>)>): seq<seq<string>> {
    if ts == [] then [] else TableLines(ts[0]) + Body(ts[1..])
  }

  /** The diagram, line by line and word by word. */
  function DiagramLines(ts: seq<Table>): seq<seq<string>> {
    OPENING + Body(ShownTables(ts)) + ArrowLines(Arrows(ts)) + [CLOSING]
  }

  function LinesText(lines: seq<seq<string>>): seq<string> {
    seq(|lines|, i requires 0 <= i < |lines| => Joined(lines[i], ' '))
  }

  function Diagram(ts: seq<Table>): string {
    Joined(LinesText(DiagramLines(ts)), '\n')
  }

  // ---- the printer ----

  /** Adds one line's text, with its line break, to what has been printed. */
  lemma {:induction false} JoinedSnoc(parts: seq<string>, last: string, sep: char)
    requires parts != []
    ensures Joined(parts + [last], sep) == Joined(parts, sep) + [sep] + last
  {
    if |parts| > 1 {
      assert (parts + [last])[1..] == parts[1..] + [last];
      JoinedSnoc(parts[1..], last, sep);
    }
  }

  /** What has been printed after some whole lines. */
  function Printed(lines: seq<seq<string>>): string {
    if lines == [] then "" else Printed(lines[..|lines| - 1]) + Joined(lines[|lines| - 1], ' ') + "\n"
  }

  lemma PrintedSnoc(lines: seq<seq<string>>, line: seq<string>)
    ensures Printed(lines + [line]) == Printed(lines) + (Joined(line, ' ') + "\n")
  {
    assert (lines + [line])[..|lines|] == lines;
  }

  lemma {:induction false} PrintedIsJoined(lines: seq<seq<string>>, last: seq<string>)
    ensures Joined(LinesText(lines + [last]), '\n') == Printed(lines) + Joined(last, ' ')
    decreases |lines|
  {
    var text := LinesText(lines);
    assert LinesText(lines + [last]) == text + [Joined(last, ' ')];
    if lines != [] {
      var init, l := lines[..|lines| - 1], lines[|lines| - 1];
      assert lines == init + [l];
      PrintedIsJoined(init, l);
      JoinedSnoc(text, Joined(last, ' '), '\n');
    }
  }

  lemma {:induction false} Indented(words: seq<string>)
    requires words != []
    ensures Joined(INDENT + words, ' ') == "    " + Joined(words, ' ')
  {
    assert INDENT + words == [""] + ([""] + ([""] + ([""] + words)));
    Pushed("", [""] + ([""] + ([""] + words)));
    Pushed("", [""] + ([""] + words));
    Pushed("", [""] + words);
    Pushed("", words);
  }

  lemma Pushed(w: string, words: seq<string>)
    requires words != []
    ensures Joined([w] + words, ' ') == w + " " + Joined(words, ' ')
  {
    assert ([w] + words)[1..] == words;
  }

  // The formats the printer uses, one row each.

  function HeadRow(name: string): string { "    " + name + " {\n" }

  function ColumnRow(typ: string, name: string, attr: string): string { "        " + typ + " " + name + attr + "\n" }

  function CloseRow(): string { "    }\n" }

  function ArrowRow(a: Arrow): string { "    " + a.dst + " ||--o{ " + a.table + " : \"" + a.src + "\"\n" }

  function Attribute(mark: string): string { if mark == "" then "" else " " + mark }

  lemma HeadText(name: string)
    ensures Joined(HeadLine(name), ' ') + "\n" == HeadRow(name)
  {
    Indented([name, "{"]);
    Pushed(name, ["{"]);
    assert [name, "{"] == [name] + ["{"];
  }

  lemma CloseText()
    ensures Joined(CLOSE, ' ') + "\n" == CloseRow()
  {
    Indented(["}"]);
  }

  lemma ColumnText(c: Shown)
    ensures Joined(ColumnLine(c), ' ') + "\n" == ColumnRow(c.typ, c.name, Attribute(c.mark))
  {
    var rest := [c.name] + if c.mark == "" then [] else [c.mark];
    var words := [c.typ] + rest;
    assert ColumnLine(c) == INDENT + (INDENT + words);
    Indented(INDENT + words);
    Indented(words);
    Pushed(c.typ, rest);
    if c.mark != "" { Pushed(c.name, [c.mark]); }
  }

  lemma FiveWords(a: string, b: string, c: string, d: string, e: string)
    ensures Joined([a, b, c, d, e], ' ') == a + (" " + b + " ") + c + (" " + d + " ") + e
  {
    assert [a, b, c, d, e] == [a] + ([b] + ([c] + ([d] + [e])));
    Pushed(a, [b] + ([c] + ([d] + [e])));
    Pushed(b, [c] + ([d] + [e]));
    Pushed(c, [d] + [e]);
    Pushed(d, [e]);
    assert Joined([e], ' ') == e;
  }

  lemma ArrowText(a: Arrow)
    ensures Joined(ArrowLine(a), ' ') + "\n" == ArrowRow(a)
  {
    var q := "\"" + a.src + "\"";
    Indented([a.dst, "||--o{", a.table, ":", q]);
    FiveWords(a.dst, "||--o{", a.table, ":", q);
    assert " " + "||--o{" + " " == " ||--o{ ";
    assert " " + ":" + " " == " : ";
    assert " : \"" == " : " + "\"";
    assert "\"\n" == "\"" + "\n";
  }

  lemma {:induction false} BodySnoc(ts: seq<(string, seq<Shown>)>, t: (string, seq<Shown>))
    ensures Body(ts + [t]) == Body(ts) + TableLines(t)
  {
    if ts == [] {
      assert Body([t]) == TableLines(t) + Body([]);
    } else {
      assert (ts + [t])[1..] == ts[1..] + [t];
      BodySnoc(ts[1..], t);
    }
  }

  lemma OpeningPrints()
    ensures Printed(OPENING) == "```mermaid\nerDiagram\n"
  {
    PrintedSnoc([], ["```mermaid"]);
    PrintedSnoc([["```mermaid"]], ["erDiagram"]);
    assert OPENING == [["```mermaid"]] + [["erDiagram"]];
    assert [] + [["```mermaid"]] == [["```mermaid"]];
  }

  lemma HeadPrints(lines: seq<seq<string>>, name: string)
    ensures Printed(lines + [HeadLine(name)]) == Printed(lines) + HeadRow(name)
  {
    PrintedSnoc(lines, HeadLine(name));
    HeadText(name);
  }

  lemma ColumnPrints(lines: seq<seq<string>>, cs: seq<Shown>, j: nat)
    requires j < |cs|
    ensures Printed(lines + ColumnLines(cs[..j + 1]))
      == Printed(lines + ColumnLines(cs[..j])) + ColumnRow(cs[j].typ, cs[j].name, Attribute(cs[j].mark))
  {
    var done := lines + ColumnLines(cs[..j]);
    assert lines + ColumnLines(cs[..j + 1]) == done + [ColumnLine(cs[j])];
    PrintedSnoc(done, ColumnLine(cs[j]));
    ColumnText(cs[j]);
  }

  lemma ClosePrints(ts: seq<Table>, i: nat, done: seq<seq<string>>)
    requires i < |ts|
    requires done == OPENING + Body(ShownTables(ts[..i])) + [HeadLine(ts[i].name)] + ColumnLines(ShownColumns(ts[i].cols))
    ensures Printed(OPENING + Body(ShownTables(ts[..i + 1]))) == Printed(done) + CloseRow()
  {
    var shown := (ts[i].name, ShownColumns(ts[i].cols));
    assert ShownTables(ts[..i + 1]) == ShownTables(ts[..i]) + [shown];
    BodySnoc(ShownTables(ts[..i]), shown);
    assert OPENING + Body(ShownTables(ts[..i + 1])) == done + [CLOSE];
    PrintedSnoc(done, CLOSE);
    CloseText();
  }

  lemma ArrowPrints(lines: seq<seq<string>>, before: seq<Arrow>, as': seq<Arrow>, j: nat)
    requires j < |as'|
    ensures Printed(lines + ArrowLines(before + as'[..j + 1])) == Printed(lines + ArrowLines(before + as'[..j])) + ArrowRow(as'[j])
  {
    var done := lines + ArrowLines(before + as'[..j]);
    assert lines + ArrowLines(before + as'[..j + 1]) == done + [ArrowLine(as'[j])];
    PrintedSnoc(done, ArrowLine(as'[j]));
    ArrowText(as'[j]);
  }

  method PrintColumns(text: string, cols: seq<Column>, ghost lines: seq<seq<string>>) returns (sb: string)
    requires text == Printed(lines)
    ensures sb == Printed(lines + ColumnLines(ShownColumns(cols)))
  {
    sb := text;
    ghost var shown := ShownColumns(cols);
    ghost var done := lines;
    assert lines + ColumnLines(shown[..0]) == lines;
    for j := 0 to |cols|
      invariant done == lines + ColumnLines(shown[..j]) && sb == Printed(done)
    {
      var row := ColumnRow(cols[j].typ, cols[j].name, Attribute(Mark(cols[j])));
      ColumnPrints(lines, shown, j);
      sb := sb + row;
      done := lines + ColumnLines(shown[..j + 1]);
    }
    assert shown[..|cols|] == shown;
  }

  method PrintArrows(text: string, t: Table, ghost lines: seq<seq<string>>, ghost before: seq<Arrow>) returns (sb: string)
    requires text == Printed(lines + ArrowLines(before))
    ensures sb == Printed(lines + ArrowLines(before + ArrowsOf(t)))
  {
    sb := text;
    ghost var as' := ArrowsOf(t);
    assert before + as'[..0] == before;
    for j := 0 to |t.fks|
      invariant sb == Printed(lines + ArrowLines(before + as'[..j]))
    {
      var a := Arrow(t.fks[j].dstTable, t.name, t.fks[j].srcCol);
      ArrowPrints(lines, before, as', j);
      sb := sb + ArrowRow(a);
    }
    assert as'[..|t.fks|] == as';
  }

  /** The text the printer builds is the diagram. */
  method MermaidERD(tables: seq<Table>) returns (sb: string)
    ensures sb == Diagram(tables)
  {
    sb := "```mermaid\nerDiagram\n";
    OpeningPrints();
    ghost var lines := OPENING;
    assert lines == OPENING + Body(ShownTables(tables[..0]));
    for i := 0 to |tables|
      invariant lines == OPENING + Body(ShownTables(tables[..i]))
      invariant sb == Printed(lines)
    {
      HeadPrints(lines, tables[i].name);
      sb := sb + HeadRow(tables[i].name);
      sb := PrintColumns(sb, tables[i].cols, lines + [HeadLine(tables[i].name)]);
      ClosePrints(tables, i, lines + [HeadLine(tables[i].name)] + ColumnLines(ShownColumns(tables[i].cols)));
      sb := sb + CloseRow();
      lines := OPENING + Body(ShownTables(tables[..i + 1]));
    }
    assert tables[..|tables|] == tables;
    assert lines + ArrowLines(Arrows(tables[..0])) == lines;
    for i := 0 to |tables|
      invariant sb == Printed(lines + ArrowLines(Arrows(tables[..i])))
    {
      sb := PrintArrows(sb, tables[i], lines, Arrows(tables[..i]));
      assert tables[..i + 1][..i] == tables[..i];
    }
    PrintedIsJoined(lines + ArrowLines(Arrows(tables)), CLOSING);
    sb := sb + "```";
  }

  // ---- no marker in a diagram ----

  /** A comment of one word, such as both markers are. */
  function Comment(w: string): string {
    "<!--" + (" " + (w + (" " + "-->")))
  }

  lemma MarkersAreComments()
    ensures START == Comment("schema:start") && END == Comment("schema:end")
  {
  }

  lemma JoinedCons(parts: seq<string>, sep: char)
    requires |parts| > 1
    ensures Joined(parts, sep) == parts[0] + ([sep] + Joined(parts[1..], sep))
  {
  }

  /** A text without separators that occurs in joined parts occurs in one of them. */
  lemma {:induction false} InOnePart(parts: seq<string>, sep: char, p: string, i: nat) returns (k: nat, j: nat)
    requires parts != [] && sep !in p && At(Joined(parts, sep), p, i)
    ensures k < |parts| && At(parts[k], p, j)
    decreases |parts|
  {
    if |parts| == 1 { return 0, i; }
    var head, rest := parts[0], Joined(parts[1..], sep);
    JoinedCons(parts, sep);
    if i + |p| <= |head| {
      AtInPrefix(head, [sep] + rest, p, i);
      return 0, i;
    }
    if i <= |head| {
      var s := head + ([sep] + rest);
      MarkerAt(s, p, i, |head| - i);
      assert false;
    }
    assert head + ([sep] + rest) == (head + [sep]) + rest;
    AtInSuffix(head + [sep], rest, p, i - |head| - 1);
    k, j := InOnePart(parts[1..], sep, p, i - |head| - 1);
    k := k + 1;
  }

  lemma SeparatorIn(a: string, x: string, b: string, y: string, sep: char)
    requires |a| < |b| && a + ([sep] + x) == b + y
    ensures sep in b
  {
    assert b[|a|] == (b + y)[|a|];
  }

  lemma SplitOnce(a: string, x: string, b: string, y: string, sep: char)
    requires sep !in a && sep !in b && a + ([sep] + x) == b + ([sep] + y)
    ensures a == b && x == y
  {
    if |a| < |b| { SeparatorIn(a, x, b, [sep] + y, sep); }
    if |b| < |a| { SeparatorIn(b, y, a, [sep] + x, sep); }
    var s := a + ([sep] + x);
    assert a == s[..|a|] && b == s[..|b|];
    assert x == s[|a| + 1..] && y == s[|b| + 1..];
  }

  lemma SplitAt(s: string, u: string, v: string)
    requires At(s, u + (" " + v), 0)
    ensures |u| < |s| && s == u + ([' '] + s[|u| + 1..]) && At(s[|u| + 1..], v, 0)
  {
    var p := u + (" " + v);
    var rest := s[|u| + 1..];
    assert s[..|p|] == p;
    assert s == p + s[|p|..];
    assert rest == v + s[|p|..];
    assert rest[..|v|] == v;
  }

  /** Joined words that begin with u and a space have u as their first word. */
  lemma FirstWordIs(words: seq<string>, u: string, v: string)
    requires words != [] && ' ' !in words[0] && ' ' !in u
    requires At(Joined(words, ' '), u + (" " + v), 0)
    ensures |words| > 1 && words[0] == u && At(Joined(words[1..], ' '), v, 0)
  {
    var s := Joined(words, ' ');
    SplitAt(s, u, v);
    assert s[|u|] == ' ';
    if |words| > 1 {
      JoinedCons(words, ' ');
      SplitOnce(words[0], Joined(words[1..], ' '), u, s[|u| + 1..], ' ');
    }
  }

  lemma FirstWordBegins(words: seq<string>, v: string)
    requires words != [] && ' ' !in v && At(Joined(words, ' '), v, 0)
    ensures At(words[0], v, 0)
  {
    if |words| > 1 {
      JoinedCons(words, ' ');
      var rest := [' '] + Joined(words[1..], ' ');
      if |words[0]| < |v| { MarkerAt(words[0] + rest, v, 0, |words[0]|); }
      AtInPrefix(words[0], rest, v, 0);
    }
  }

  predicate EndsWith(s: string, p: string) {
    |p| <= |s| && s[|s| - |p|..] == p
  }

  /** The words around a comment's word. */
  predicate Framed(words: seq<string>, w: string, k: int) {
    0 < k < |words| - 1 && words[k] == w && EndsWith(words[k - 1], "<!--") && At(words[k + 1], "-->", 0)
  }

  lemma {:induction false} CommentInWords(words: seq<string>, w: string, i: nat) returns (k: nat)
    requires words != [] && ' ' !in w && (forall x :: x in words ==> ' ' !in x)
    requires At(Joined(words, ' '), Comment(w), i)
    ensures Framed(words, w, k)
    decreases |words|
  {
    var c := Comment(w);
    var s := Joined(words, ' ');
    if i <= |words[0]| {
      var tail := [words[0][i..]] + words[1..];
      CutFirst(words, i);
      assert words[0] in words && (forall x :: x in words[1..] ==> x in words);
      assert s == s[..i] + s[i..];
      AtInSuffix(s[..i], s[i..], c, 0);
      FirstWordIs(tail, "<!--", w + (" " + "-->"));
      assert tail[1..] == words[1..];
      FirstWordIs(words[1..], w, "-->");
      assert words[1..][1..] == words[2..];
      FirstWordBegins(words[2..], "-->");
      return 1;
    }
    JoinedCons(words, ' ');
    var head, rest := words[0] + [' '], Joined(words[1..], ' ');
    assert s == head + rest;
    AtInSuffix(head, rest, c, i - |head|);
    k := CommentInWords(words[1..], w, i - |head|);
    assert words[1..][k - 1] == words[k] && words[1..][k + 1] == words[k + 2];
    k := k + 1;
  }

  lemma CutFirst(words: seq<string>, i: nat)
    requires words != [] && i <= |words[0]|
    ensures |Joined(words, ' ')| >= i && Joined([words[0][i..]] + words[1..], ' ') == Joined(words, ' ')[i..]
  {
    if |words| > 1 {
      var tail := [words[0][i..]] + words[1..];
      JoinedCons(words, ' ');
      JoinedCons(tail, ' ');
      assert tail[1..] == words[1..];
    }
  }

  /** A line of tokens in which no comment of the word w can stand. */
  ghost predicate Harmless(line: seq<string>, w: string) {
    line != [] && (forall x :: x in line ==> Token(x)) && forall k :: !Framed(line, w, k)
  }

  lemma WordIsToken(s: string)
    requires IsWord(s)
    ensures Token(s)
  {
  }

  lemma HeadHarmless(name: string, w: string)
    requires Token(name)
    ensures Harmless(HeadLine(name), w)
  {
    var line := HeadLine(name);
    forall k ensures !Framed(line, w, k) {
      if 0 < k < 5 { assert line[k - 1] == ""; }
    }
  }

  lemma CloseHarmless(w: string)
    ensures Harmless(CLOSE, w)
  {
    forall k ensures !Framed(CLOSE, w, k) {
      if 0 < k < 5 { assert CLOSE[k - 1] == ""; }
    }
  }

  lemma ColumnHarmless(c: Column, w: string)
    requires Token(c.name) && Token(c.typ)
    ensures Harmless(ColumnLine(Shown(c.typ, c.name, Mark(c))), w)
  {
    var line := ColumnLine(Shown(c.typ, c.name, Mark(c)));
    forall k ensures !Framed(line, w, k) {
      if 0 < k < 9 { assert line[k - 1] == ""; }
      if k == 9 && |line| == 11 && At(line[10], "-->", 0) { MarkerAt(line[10], "-->", 0, 0); }
    }
  }

  lemma ArrowHarmless(a: Arrow, w: string)
    requires Token(a.dst) && Token(a.table) && IsWord(a.src) && w != "||--o{"
    ensures Harmless(ArrowLine(a), w)
  {
    var line := ArrowLine(a);
    WordIsToken(a.src);
    forall k ensures !Framed(line, w, k) {
      if 0 < k < 5 { assert line[k - 1] == ""; }
      if k == 6 { assert line[5][2..][3] == '{'; }
      if k == 7 && At(line[8], "-->", 0) { MarkerAt(line[8], "-->", 0, 0); }
    }
  }

  lemma {:induction false} BodyHarmless(ts: seq<Table>, w: string, line: seq<string>)
    requires forall t :: t in ts ==> Printable(t)
    requires line in Body(ShownTables(ts))
    ensures Harmless(line, w)
    decreases |ts|
  {
    var t := ts[0];
    assert t in ts;
    assert ShownTables(ts)[1..] == ShownTables(ts[1..]);
    if line == HeadLine(t.name) {
      HeadHarmless(t.name, w);
    } else if line == CLOSE {
      CloseHarmless(w);
    } else if line in ColumnLines(ShownColumns(t.cols)) {
      var j :| 0 <= j < |t.cols| && line == ColumnLines(ShownColumns(t.cols))[j];
      ColumnHarmless(t.cols[j], w);
    } else {
      BodyHarmless(ts[1..], w, line);
    }
  }

  lemma {:induction false} ArrowsPrintable(ts: seq<Table>, a: Arrow)
    requires (forall t :: t in ts ==> Printable(t)) && a in Arrows(ts)
    ensures Token(a.dst) && Token(a.table) && IsWord(a.src)
    decreases |ts|
  {
    var t := ts[|ts| - 1];
    assert t in ts;
    if a in ArrowsOf(t) {
      var j :| 0 <= j < |t.fks| && a == ArrowsOf(t)[j];
      assert t.fks[j] in t.fks;
    } else {
      ArrowsPrintable(ts[..|ts| - 1], a);
    }
  }

  lemma LineHarmless(ts: seq<Table>, w: string, line: seq<string>)
    requires (forall t :: t in ts ==> Printable(t)) && line in DiagramLines(ts) && w != "||--o{"
    ensures Harmless(line, w)
  {
    if line in Body(ShownTables(ts)) {
      BodyHarmless(ts, w, line);
    } else if line in ArrowLines(Arrows(ts)) {
      var j :| 0 <= j < |Arrows(ts)| && line == ArrowLine(Arrows(ts)[j]);
      ArrowsPrintable(ts, Arrows(ts)[j]);
      ArrowHarmless(Arrows(ts)[j], w);
    }
  }

  /** No diagram holds a one-word comment, in particular neither marker. */
  lemma DiagramHasNoComment(ts: seq<Table>, w: string)
    requires (forall t :: t in ts ==> Printable(t)) && Token(w) && w != "||--o{"
    ensures Index(Diagram(ts), Comment(w)).None?
  {
    var found := Index(Diagram(ts), Comment(w));
    if found.Some? {
      var lines := DiagramLines(ts);
      var k, j := InOnePart(LinesText(lines), '\n', Comment(w), found.value);
      LineHarmless(ts, w, lines[k]);
      var m := CommentInWords(lines[k], w, j);
      assert false;
    }
  }

  /** So running the generator again on its own output gives what one run on the original gives. */
  lemma GeneratorIsRepeatable(src: string, a: seq<Table>, b: seq<Table>)
    requires Patched(src, Diagram(a)).Some? && forall t :: t in a ==> Printable(t)
    ensures Patched(Patched(src, Diagram(a)).value, Diagram(b)) == Patched(src, Diagram(b))
  {
    MarkersAreComments();
    DiagramHasNoComment(a, "schema:end");
    LastWriteWinsIff(src, Diagram(a), Diagram(b));
  }

  // ---- a diagram can be read back ----

  lemma SeveralPartsIff(parts: seq<string>, sep: char)
    requires parts != [] && sep !in parts[0]
    ensures sep in Joined(parts, sep) <==> |parts| > 1
  {
    if |parts| > 1 {
      JoinedCons(parts, sep);
      assert Joined(parts, sep)[|parts[0]|] == sep;
    }
  }

  lemma {:induction false} JoinedInjective(a: seq<string>, b: seq<string>, sep: char)
    requires a != [] && b != [] && Joined(a, sep) == Joined(b, sep)
    requires (forall x :: x in a ==> sep !in x) && (forall x :: x in b ==> sep !in x)
    ensures a == b
    decreases |a|
  {
    assert a[0] in a && b[0] in b;
    SeveralPartsIff(a, sep);
    SeveralPartsIff(b, sep);
    assert a == [a[0]] + a[1..] && b == [b[0]] + b[1..];
    if |a| > 1 {
      JoinedCons(a, sep);
      JoinedCons(b, sep);
      SplitOnce(a[0], Joined(a[1..], sep), b[0], Joined(b[1..], sep), sep);
      JoinedInjective(a[1..], b[1..], sep);
    }
  }

  lemma {:induction false} JoinedAvoids(parts: seq<string>, sep: char, c: char)
    requires c != sep && forall x :: x in parts ==> c !in x
    ensures c !in Joined(parts, sep)
    decreases |parts|
  {
    if |parts| > 1 {
      JoinedCons(parts, sep);
      JoinedAvoids(parts[1..], sep, c);
    }
  }

  lemma LinesTextInjective(a: seq<seq<string>>, b: seq<seq<string>>, w: string)
    requires a != [] && b != [] && Joined(LinesText(a), '\n') == Joined(LinesText(b), '\n')
    requires (forall l :: l in a ==> Harmless(l, w)) && (forall l :: l in b ==> Harmless(l, w))
    ensures a == b
  {
    forall lines, x | (lines == a || lines == b) && x in LinesText(lines) ensures '\n' !in x {
      var i :| 0 <= i < |lines| && x == Joined(lines[i], ' ');
      assert lines[i] in lines;
      JoinedAvoids(lines[i], ' ', '\n');
    }
    JoinedInjective(LinesText(a), LinesText(b), '\n');
    forall i | 0 <= i < |a| ensures |b| == |a| && a[i] == b[i] {
      assert LinesText(a)[i] == LinesText(b)[i];
      assert a[i] in a && b[i] in b;
      JoinedInjective(a[i], b[i], ' ');
    }
  }

  lemma ColumnLineInjective(c: Shown, d: Shown)
    requires ColumnLine(c) == ColumnLine(d)
    ensures c == d
  {
    var l, m := ColumnLine(c), ColumnLine(d);
    assert l[8] == c.typ && l[9] == c.name && m[8] == d.typ && m[9] == d.name;
    if c.mark != "" { assert l[10] == c.mark && m[10] == d.mark; }
  }

  lemma {:induction false} ColumnLinesUnique(c: seq<Shown>, d: seq<Shown>, x: seq<seq<string>>, y: seq<seq<string>>)
    requires ColumnLines(c) + ([CLOSE] + x) == ColumnLines(d) + ([CLOSE] + y)
    ensures c == d && x == y
    decreases |c|
  {
    var l, m := ColumnLines(c) + ([CLOSE] + x), ColumnLines(d) + ([CLOSE] + y);
    assert |l[0]| == |m[0]|;
    assert c != [] ==> l[0] == ColumnLine(c[0]) && |l[0]| > 5;
    assert d != [] ==> m[0] == ColumnLine(d[0]) && |m[0]| > 5;
    if c == [] {
      assert l[1..] == x && m[1..] == y;
    } else {
      assert l[1..] == ColumnLines(c[1..]) + ([CLOSE] + x) && m[1..] == ColumnLines(d[1..]) + ([CLOSE] + y);
      ColumnLinesUnique(c[1..], d[1..], x, y);
      ColumnLineInjective(c[0], d[0]);
      assert c == [c[0]] + c[1..] && d == [d[0]] + d[1..];
    }
  }

  lemma TableLinesThen(t: (string, seq<Shown>), rest: seq<seq<string>>)
    ensures TableLines(t) + rest == [HeadLine(t.0)] + (ColumnLines(t.1) + ([CLOSE] + rest))
  {
  }

  lemma {:induction false} BodyUnique(a: seq<(string, seq<Shown>)>, b: seq<(string, seq<Shown>)>, x: seq<seq<string>>, y: seq<seq<string>>)
    requires x != [] && y != [] && |x[0]| != 6 && |y[0]| != 6
    requires Body(a) + x == Body(b) + y
    ensures a == b && x == y
    decreases |a|
  {
    var l, m := Body(a) + x, Body(b) + y;
    if a != [] {
      assert l == TableLines(a[0]) + (Body(a[1..]) + x);
      TableLinesThen(a[0], Body(a[1..]) + x);
      assert l[0] == HeadLine(a[0].0);
    }
    if b != [] {
      assert m == TableLines(b[0]) + (Body(b[1..]) + y);
      TableLinesThen(b[0], Body(b[1..]) + y);
      assert m[0] == HeadLine(b[0].0);
    }
    assert (a == []) == (b == []);
    if a == [] {
      assert l == x && m == y;
    } else {
      assert HeadLine(a[0].0)[4] == a[0].0 && HeadLine(b[0].0)[4] == b[0].0;
      assert l[1..] == ColumnLines(a[0].1) + ([CLOSE] + (Body(a[1..]) + x));
      assert m[1..] == ColumnLines(b[0].1) + ([CLOSE] + (Body(b[1..]) + y));
      ColumnLinesUnique(a[0].1, b[0].1, Body(a[1..]) + x, Body(b[1..]) + y);
      BodyUnique(a[1..], b[1..], x, y);
      assert a == [a[0]] + a[1..] && b == [b[0]] + b[1..];
    }
  }

  lemma ArrowLinesUnique(a: seq<Arrow>, b: seq<Arrow>)
    requires ArrowLines(a) + [CLOSING] == ArrowLines(b) + [CLOSING]
    ensures a == b
  {
    assert ArrowLines(a) == (ArrowLines(a) + [CLOSING])[..|a|];
    assert ArrowLines(b) == (ArrowLines(b) + [CLOSING])[..|b|];
    forall i | 0 <= i < |a| ensures a[i] == b[i] {
      var l, m := ArrowLine(a[i]), ArrowLine(b[i]);
      assert ArrowLines(a)[i] == ArrowLines(b)[i];
      assert l[4] == m[4] && l[6] == m[6] && l[8] == m[8];
      assert l[8][1..|l[8]| - 1] == a[i].src && m[8][1..|m[8]| - 1] == b[i].src;
    }
  }

  lemma CutPrefix<T>(p: seq<T>, q: seq<T>, r: seq<T>, z: seq<T>)
    ensures (p + q + r + z)[|p|..] == q + (r + z)
  {
  }

  lemma DiagramLinesUnique(a: seq<Table>, b: seq<Table>)
    requires DiagramLines(a) == DiagramLines(b)
    ensures ShownTables(a) == ShownTables(b) && Arrows(a) == Arrows(b)
  {
    var x, y := ArrowLines(Arrows(a)) + [CLOSING], ArrowLines(Arrows(b)) + [CLOSING];
    CutPrefix(OPENING, Body(ShownTables(a)), ArrowLines(Arrows(a)), [CLOSING]);
    CutPrefix(OPENING, Body(ShownTables(b)), ArrowLines(Arrows(b)), [CLOSING]);
    assert Body(ShownTables(a)) + x == Body(ShownTables(b)) + y;
    assert |CLOSING| == 1 && forall r :: |ArrowLine(r)| == 9;
    BodyUnique(ShownTables(a), ShownTables(b), x, y);
    ArrowLinesUnique(Arrows(a), Arrows(b));
  }

  /**
   * The text of a diagram determines every table, column, type, mark and reference in order, so it loses
   * only what the marks leave out: uniqueness of a column that is also a key.
   */
  lemma DiagramDetermines(a: seq<Table>, b: seq<Table>)
    requires (forall t :: t in a ==> Printable(t)) && (forall t :: t in b ==> Printable(t))
    ensures Diagram(a) == Diagram(b) <==> ShownTables(a) == ShownTables(b) && Arrows(a) == Arrows(b)
  {
    if Diagram(a) == Diagram(b) {
      forall l | l in DiagramLines(a) ensures Harmless(l, "") { LineHarmless(a, "", l); }
      forall l | l in DiagramLines(b) ensures Harmless(l, "") { LineHarmless(b, "", l); }
      LinesTextInjective(DiagramLines(a), DiagramLines(b), "");
      DiagramLinesUnique(a, b);
    }
  }

  // ---- reading the lines of one table ----

  /** What a line inside CREATE TABLE was recognised as. */
  datatype Line =
    | PrimaryKey(names: seq<string>)
    | UniqueKey(name: string)
    | Reference(src: string, dst: string)
    | ColumnDef(name: string, typ: string)
    | Skipped

  class TableReader {
    const name: string
    var cols: seq<Column>
    var fks: seq<ForeignKey>

    constructor (name: string)
      ensures this.name == name && cols == [] && fks == []
    {
      this.name, cols, fks := name, [], [];
    }

    method MarkPKColumns(names: seq<string>)
      modifies this`cols
      ensures cols == seq(|old(cols)|, i requires 0 <= i < |old(cols)| => old(cols)[i].(pk := old(cols)[i].pk || old(cols)[i].name in names))
    {
      for k := 0 to |names|
        invariant cols == seq(|old(cols)|, i requires 0 <= i < |old(cols)| => old(cols)[i].(pk := old(cols)[i].pk || old(cols)[i].name in names[..k]))
      {
        ghost var before := cols;
        for i := 0 to |cols|
          invariant |cols| == |before|
          invariant forall j :: 0 <= j < |cols| ==> cols[j] == if j < i && before[j].name == names[k] then before[j].(pk := true) else before[j]
        {
          if cols[i].name == names[k] { cols := cols[i := cols[i].(pk := true)]; }
        }
        assert names[..k + 1] == names[..k] + [names[k]];
      }
      assert names[..|names|] == names;
    }

    method MarkUKColumn(name: string)
      modifies this`cols
      ensures cols == seq(|old(cols)|, i requires 0 <= i < |old(cols)| => old(cols)[i].(uk := old(cols)[i].uk || old(cols)[i].name == name))
    {
      for i := 0 to |cols|
        invariant |cols| == |old(cols)|
        invariant forall j :: 0 <= j < |cols| ==> cols[j] == if j < i && old(cols)[j].name == name then old(cols)[j].(uk := true) else old(cols)[j]
      {
        if cols[i].name == name { cols := cols[i := cols[i].(uk := true)]; }
      }
    }

    method AddFK(src: string, dst: string)
      modifies this
      ensures fks == old(fks) + [ForeignKey(src, dst)]
      ensures cols == seq(|old(cols)|, i requires 0 <= i < |old(cols)| => old(cols)[i].(fk := old(cols)[i].fk || old(cols)[i].name == src))
    {
      fks := fks + [ForeignKey(src, dst)];
      for i := 0 to |cols|
        invariant fks == old(fks) + [ForeignKey(src, dst)] && |cols| == |old(cols)|
        invariant forall j :: 0 <= j < |cols| ==> cols[j] == if j < i && old(cols)[j].name == src then old(cols)[j].(fk := true) else old(cols)[j]
      {
        if cols[i].name == src { cols := cols[i := cols[i].(fk := true)]; }
      }
    }

    method ProcessTableLine(l: Line)
      modifies this
      ensures cols == NextColumns(old(cols), l) && fks == NextKeys(old(fks), l)
    {
      match l {
        case PrimaryKey(names) => MarkPKColumns(names);
        case UniqueKey(n) => MarkUKColumn(n);
        case Reference(src, dst) => AddFK(src, dst);
        case ColumnDef(n, typ) => cols := cols + [Column(n, typ, false, false, false)];
        case Skipped =>
      }
    }

    /** Reads the lines of a table that has none yet. */
    method ReadLines(ls: seq<Line>)
      requires cols == [] && fks == []
      modifies this
      ensures cols == ColumnsOf(ls) && fks == KeysOf(ls)
    {
      for i := 0 to |ls|
        invariant cols == ColumnsOf(ls[..i]) && fks == KeysOf(ls[..i])
      {
        assert ls[..i + 1][..i] == ls[..i];
        ProcessTableLine(ls[i]);
      }
      assert ls[..|ls|] == ls;
    }
  }

  predicate NamesPK(l: Line, name: string) { l.PrimaryKey? && name in l.names }
  predicate NamesUK(l: Line, name: string) { l.UniqueKey? && l.name == name }
  predicate NamesFK(l: Line, name: string) { l.Reference? && l.src == name }

  function NextColumn(c: Column, l: Line): Column {
    Column(c.name, c.typ, c.pk || NamesPK(l, c.name), c.fk || NamesFK(l, c.name), c.uk || NamesUK(l, c.name))
  }

  function NextColumns(cols: seq<Column>, l: Line): seq<Column> {
    seq(|cols|, i requires 0 <= i < |cols| => NextColumn(cols[i], l))
    + if l.ColumnDef? then [Column(l.name, l.typ, false, false, false)] else []
  }

  function NextKeys(fks: seq<ForeignKey>, l: Line): seq<ForeignKey> {
    fks + if l.Reference? then [ForeignKey(l.src, l.dst)] else []
  }

  function ColumnsOf(ls: seq<Line>): seq<Column> {
    if ls == [] then [] else NextColumns(ColumnsOf(ls[..|ls| - 1]), ls[|ls| - 1])
  }

  function KeysOf(ls: seq<Line>): seq<ForeignKey> {
    if ls == [] then [] else NextKeys(KeysOf(ls[..|ls| - 1]), ls[|ls| - 1])
  }

  /** Where the columns are defined. */
  function Definitions(ls: seq<Line>): (ps: seq<nat>)
    ensures forall p :: p in ps <==> 0 <= p < |ls| && ls[p].ColumnDef?
  {
    if ls == [] then [] else
      Definitions(ls[..|ls| - 1]) + if ls[|ls| - 1].ColumnDef? then [|ls| - 1] else []
  }

  /** The column of the definition at p: each mark comes from a later line that names it. */
  ghost predicate Explains(ls: seq<Line>, p: nat, c: Column) {
    && p < |ls| && ls[p] == ColumnDef(c.name, c.typ)
    && (c.pk <==> exists q :: p < q < |ls| && NamesPK(ls[q], c.name))
    && (c.fk <==> exists q :: p < q < |ls| && NamesFK(ls[q], c.name))
    && (c.uk <==> exists q :: p < q < |ls| && NamesUK(ls[q], c.name))
  }

  lemma ExplainsOneMore(ls: seq<Line>, p: nat, c: Column)
    requires ls != [] && Explains(ls[..|ls| - 1], p, c)
    ensures Explains(ls, p, NextColumn(c, ls[|ls| - 1]))
  {
    var init := ls[..|ls| - 1];
    assert forall q :: 0 <= q < |init| ==> init[q] == ls[q];
  }

  lemma {:induction false} ColumnCount(ls: seq<Line>)
    ensures |ColumnsOf(ls)| == |Definitions(ls)|
    decreases |ls|
  {
    if ls != [] { ColumnCount(ls[..|ls| - 1]); }
  }

  /** Each column comes from its own definition line, with the marks of the later lines that name it. */
  lemma {:induction false} MarksExplained(ls: seq<Line>, j: nat)
    requires j < |ColumnsOf(ls)|
    ensures |ColumnsOf(ls)| == |Definitions(ls)| && Explains(ls, Definitions(ls)[j], ColumnsOf(ls)[j])
    decreases |ls|
  {
    var init := ls[..|ls| - 1];
    ColumnCount(ls);
    ColumnCount(init);
    if j < |ColumnsOf(init)| {
      MarksExplained(init, j);
      ExplainsOneMore(ls, Definitions(init)[j], ColumnsOf(init)[j]);
    }
  }

  ghost predicate Named(ls: seq<Line>, name: string, lo: nat, hi: nat) {
    exists q :: lo <= q < hi <= |ls| && NamesPK(ls[q], name)
  }

  /** The mark of a primary key column is lost exactly if all key lines naming it stand before its definition. */
  lemma KeyIsLostIff(ls: seq<Line>, j: nat)
    requires j < |ColumnsOf(ls)|
    ensures |ColumnsOf(ls)| == |Definitions(ls)|
    ensures var (c, p) := (ColumnsOf(ls)[j], Definitions(ls)[j]);
      c.pk != Named(ls, c.name, 0, |ls|) <==> Named(ls, c.name, 0, p) && !Named(ls, c.name, p, |ls|)
  {
    MarksExplained(ls, j);
  }

  // ---- what stands in the diagram of a table that was read ----

  lemma {:induction false} LineAppears(lines: seq<string>, n: nat) returns (k: nat)
    requires 0 < n < |lines| - 1
    ensures At(Joined(lines, '\n'), "\n" + lines[n] + "\n", k)
    decreases n
  {
    JoinedCons(lines, '\n');
    var head, rest := lines[0], Joined(lines[1..], '\n');
    if n == 1 {
      JoinedCons(lines[1..], '\n');
      var p := "\n" + lines[1] + "\n";
      assert Joined(lines, '\n') == head + (p + Joined(lines[2..], '\n'));
      AtInPrefix(p, Joined(lines[2..], '\n'), p, 0);
      AtInSuffix(head, p + Joined(lines[2..], '\n'), p, 0);
      return |head|;
    }
    k := LineAppears(lines[1..], n - 1);
    assert Joined(lines, '\n') == (head + "\n") + rest;
    AtInSuffix(head + "\n", rest, "\n" + lines[n] + "\n", k);
    k := |head + "\n"| + k;
  }

  /** Every line between the first and the last one stands in the text between two line breaks. */
  lemma PrintedLine(ts: seq<Table>, line: seq<string>) returns (k: nat)
    requires line in Body(ShownTables(ts)) + ArrowLines(Arrows(ts))
    ensures At(Diagram(ts), "\n" + Joined(line, ' ') + "\n", k)
  {
    var inner := Body(ShownTables(ts)) + ArrowLines(Arrows(ts));
    var m :| 0 <= m < |inner| && inner[m] == line;
    var lines := DiagramLines(ts);
    assert lines == OPENING + inner + [CLOSING];
    assert lines[m + 2] == line;
    k := LineAppears(LinesText(lines), m + 2);
  }

  lemma {:induction false} TableInBody(ts: seq<(string, seq<Shown>)>, i: nat, line: seq<string>)
    requires i < |ts| && line in TableLines(ts[i])
    ensures line in Body(ts)
  {
    if i > 0 { TableInBody(ts[1..], i - 1, line); }
  }

  lemma {:induction false} ArrowsOfTable(ts: seq<Table>, i: nat, a: Arrow)
    requires i < |ts| && a in ArrowsOf(ts[i])
    ensures a in Arrows(ts)
    decreases |ts|
  {
    if i < |ts| - 1 { ArrowsOfTable(ts[..|ts| - 1], i, a); }
  }

  /** A line after the definition at p that makes its column a primary key, a reference, or unique. */
  ghost predicate PrimaryLater(ls: seq<Line>, p: nat, name: string) {
    exists q :: p < q < |ls| && ls[q].PrimaryKey? && name in ls[q].names
  }

  ghost predicate ReferenceLater(ls: seq<Line>, p: nat, name: string) {
    exists q :: p < q < |ls| && ls[q].Reference? && ls[q].src == name
  }

  ghost predicate UniqueLater(ls: seq<Line>, p: nat, name: string) {
    exists q :: p < q < |ls| && ls[q].UniqueKey? && ls[q].name == name
  }

  /** The column read from the definition at p, with the marks that later lines give it. */
  lemma ColumnRead(ls: seq<Line>, p: nat) returns (j: nat)
    requires p < |ls| && ls[p].ColumnDef?
    ensures j < |ColumnsOf(ls)|
    ensures var (c, name) := (ColumnsOf(ls)[j], ls[p].name);
      && c.name == name && c.typ == ls[p].typ
      && (c.pk <==> PrimaryLater(ls, p, name)) && (c.fk <==> ReferenceLater(ls, p, name)) && (c.uk <==> UniqueLater(ls, p, name))
  {
    assert p in Definitions(ls);
    j :| 0 <= j < |Definitions(ls)| && Definitions(ls)[j] == p;
    ColumnCount(ls);
    MarksExplained(ls, j);
    assert Explains(ls, p, ColumnsOf(ls)[j]);
  }

  lemma ColumnRowText(c: Column)
    ensures Joined(ColumnLine(Shown(c.typ, c.name, Mark(c))), ' ') == "        " + c.typ + " " + c.name
      + (if c.pk && c.fk then " PK,FK" else if c.pk then " PK" else if c.fk then " FK" else if c.uk then " UK" else "")
  {
    var suffix := if c.pk && c.fk then " PK,FK" else if c.pk then " PK" else if c.fk then " FK" else if c.uk then " UK" else "";
    ColumnText(Shown(c.typ, c.name, Mark(c)));
    assert Attribute(Mark(c)) == suffix;
    CutInjective(Joined(ColumnLine(Shown(c.typ, c.name, Mark(c))), ' '), "\n", "        " + c.typ + " " + c.name + suffix, "\n");
  }

  /**
   * For each column definition of a table the diagram has a row: its type, its name, and "PK,FK", "PK", "FK", "UK"
   * or nothing, by which later lines of the table name the column.
   */
  lemma ColumnIsPrinted(ts: seq<Table>, i: nat, ls: seq<Line>, p: nat) returns (k: nat)
    requires i < |ts| && ts[i].cols == ColumnsOf(ls) && p < |ls| && ls[p].ColumnDef?
    ensures var name := ls[p].name;
      var suffix := if PrimaryLater(ls, p, name) && ReferenceLater(ls, p, name) then " PK,FK"
                    else if PrimaryLater(ls, p, name) then " PK"
                    else if ReferenceLater(ls, p, name) then " FK"
                    else if UniqueLater(ls, p, name) then " UK" else "";
      At(Diagram(ts), "\n" + ("        " + ls[p].typ + " " + name + suffix) + "\n", k)
  {
    var j := ColumnRead(ls, p);
    var c := ts[i].cols[j];
    var line := ColumnLine(Shown(c.typ, c.name, Mark(c)));
    assert ShownTables(ts)[i].1[j] == Shown(c.typ, c.name, Mark(c));
    assert ColumnLines(ShownTables(ts)[i].1)[j] == line;
    TableInBody(ShownTables(ts), i, line);
    ColumnRowText(c);
    k := PrintedLine(ts, line);
  }

  /** Each table has its opening row. */
  lemma TableIsPrinted(ts: seq<Table>, i: nat) returns (k: nat)
    requires i < |ts|
    ensures At(Diagram(ts), "\n" + ("    " + ts[i].name + " {") + "\n", k)
  {
    var line := HeadLine(ts[i].name);
    assert ShownTables(ts)[i].0 == ts[i].name;
    TableInBody(ShownTables(ts), i, line);
    HeadText(ts[i].name);
    CutInjective(Joined(line, ' '), "\n", "    " + ts[i].name + " {", "\n");
    k := PrintedLine(ts, line);
  }

  lemma {:induction false} KeyRead(ls: seq<Line>, q: nat) returns (j: nat)
    requires q < |ls| && ls[q].Reference?
    ensures j < |KeysOf(ls)| && KeysOf(ls)[j] == ForeignKey(ls[q].src, ls[q].dst)
    decreases |ls|
  {
    var n := |ls| - 1;
    j := if q == n then |KeysOf(ls[..n])| else 0;
    if q < n { j := KeyRead(ls[..n], q); }
  }

  lemma ArrowRowText(a: Arrow)
    ensures Joined(ArrowLine(a), ' ') == "    " + a.dst + " ||--o{ " + a.table + " : \"" + a.src + "\""
  {
    var row := "    " + a.dst + " ||--o{ " + a.table + " : \"" + a.src + "\"";
    ArrowText(a);
    assert "\"\n" == "\"" + "\n";
    assert ArrowRow(a) == row + "\n";
    CutInjective(Joined(ArrowLine(a), ' '), "\n", row, "\n");
  }

  /** For each reference of a table the diagram has a row from the referenced table to this one, naming the column. */
  lemma ReferenceIsPrinted(ts: seq<Table>, i: nat, ls: seq<Line>, q: nat) returns (k: nat)
    requires i < |ts| && ts[i].fks == KeysOf(ls) && q < |ls| && ls[q].Reference?
    ensures At(Diagram(ts), "\n" + ("    " + ls[q].dst + " ||--o{ " + ts[i].name + " : \"" + ls[q].src + "\"") + "\n", k)
  {
    var j := KeyRead(ls, q);
    var a := Arrow(ls[q].dst, ts[i].name, ls[q].src);
    assert ArrowsOf(ts[i])[j] == a;
    ArrowsOfTable(ts, i, a);
    var m :| 0 <= m < |Arrows(ts)| && Arrows(ts)[m] == a;
    assert ArrowLines(Arrows(ts))[m] == ArrowLine(a);
    ArrowRowText(a);
    k := PrintedLine(ts, ArrowLine(a));
  }

  /** The diagram is one fenced block. */
  lemma DiagramIsFenced(ts: seq<Table>)
    ensures var d := Diagram(ts);
      At(d, "```mermaid\nerDiagram\n", 0) && EndsWith(d, "\n```")
  {
    var inner := Body(ShownTables(ts)) + ArrowLines(Arrows(ts));
    assert DiagramLines(ts) == OPENING + inner + [CLOSING];
    PrintedIsJoined(OPENING + inner, CLOSING);
    OpeningPrints();
    PrintedAfter(OPENING, inner);
    assert Joined(CLOSING, ' ') == "```";
    var p := Printed(OPENING + inner);
    assert p[|p| - 1] == '\n';
    AtInPrefix(p, "```", "```mermaid\nerDiagram\n", 0);
    assert (p + "```")[|p| - 1..] == "\n```";
  }

  lemma {:induction false} PrintedAfter(a: seq<seq<string>>, b: seq<seq<string>>)
    requires a != []
    ensures At(Printed(a + b), Printed(a), 0)
    ensures Printed(a + b) != "" && Printed(a + b)[|Printed(a + b)| - 1] == '\n'
    decreases |b|
  {
    if b == [] {
      assert a + b == a;
    } else {
      var n := |b| - 1;
      assert a + b == (a + b[..n]) + [b[n]];
      PrintedAfter(a, b[..n]);
      PrintedSnoc(a + b[..n], b[n]);
      AtInPrefix(Printed(a + b[..n]), Joined(b[n], ' ') + "\n", Printed(a), 0);
    }
  }
}
