/** The evidence prompt: the template's text, line by line, and a reader that gets every field back. */
module Evidence {
  import opened Options
  import opened Contracts
  import opened Texts
  import opened Json

  // ---------- The template ----------

  function SourceName(source: EvidenceSource): string {
    match source
    case BuenPickInternalApi => "buenpick_internal_api"
    case Conversation => "conversation"
    case Policy => "policy"
  }

  function OutcomeName(outcome: ActionOutcome): string {
    match outcome
    case Succeeded => "succeeded"
    case Failed => "failed"
    case Skipped => "skipped"
  }

  function ModeName(mode: ResponseMode): string {
    match mode
    case Deterministic => "deterministic"
    case Jinja => "jinja"
    case JinjaLlm => "jinja_llm"
    case NonCommercialLlm => "non_commercial_llm"
  }

  /** A template's truth test: an empty text counts as none. */
  predicate Present(text: Option<string>) {
    text.Some? && text.value != ""
  }

  function Origin(item: EvidenceItem): string {
    " (fuente=" + (Quote(SourceName(item.source))
    + (if Present(item.reference) then ", referencia=" + (Quote(item.reference.value) + ")") else ")"))
  }

  function ItemLine(item: EvidenceItem): string {
    "- " + (Quote(item.caption) + (": " + (Quote(item.value) + Origin(item))))
  }

  function TextLine(text: string): string {
    "- " + Quote(text)
  }

  function ActionReference(action: PerformedAction): string {
    if Present(action.reference) then " (referencia=" + (Quote(action.reference.value) + ")") else ""
  }

  function ActionLine(action: PerformedAction): string {
    "- " + (Quote(action.name) + (": " + (Quote(OutcomeName(action.outcome)) + ActionReference(action))))
  }

  const NO_ITEM := "- Ninguno."
  const NO_ACTION := "- Ninguna."
  const NO_RULE := "- Aplicar únicamente el system prompt."

  function Loop<T>(items: seq<T>, line: T -> string): string {
    if items == [] then "" else Row(line(items[0])) + Loop(items[1..], line)
  }

  /** `{% for %} … {% else %} … {% endfor %}`. */
  function Block<T>(items: seq<T>, line: T -> string, none: string): string {
    if items == [] then Row(none) else Loop(items, line)
  }

  /** A line of the template. */
  function Row(text: string): string {
    text + "\n"
  }

  function HeadText(p: ContextPacket): string {
    Row("TAREA") + Row(Quote(p.task)) + Row("") + Row("CONSULTA") + Row(Quote(p.query)) + Row("")
  }

  function PickText(p: ContextPacket): string {
    if Present(p.activePickId) then Quote(p.activePickId.value) else "null"
  }

  function ControlText(p: ContextPacket): string {
    Row("CONTROL") + Row("- modo=" + Quote(ModeName(p.mode))) + Row("- active_pick_id=" + PickText(p))
    + Row("- trace_id=" + Quote(p.traceId))
  }

  function Template(p: ContextPacket): string {
    HeadText(p)
    + ((Row("DATOS CONFIRMADOS") + Block(p.confirmed, ItemLine, NO_ITEM))
    + ((Row("DATOS NO DISPONIBLES") + Block(p.unavailable, TextLine, NO_ITEM))
    + ((Row("ACCIONES REALIZADAS") + Block(p.actions, ActionLine, NO_ACTION))
    + ((Row("REGLAS DE REDACCIÓN") + Block(p.rules, TextLine, NO_RULE))
    + ControlText(p)))))
  }

  /** `render_evidence`. */
  function Render(u: CharTable, p: ContextPacket): string {
    Strip(u, Template(p))
  }

  // ---------- The template as lines ----------

  function Bullets<T>(items: seq<T>, line: T -> string, none: string): (r: seq<string>)
    ensures |r| > 0
  {
    if items == [] then [none] else seq(|items|, i requires 0 <= i < |items| => line(items[i]))
  }

  function Head(p: ContextPacket): seq<string> {
    ["TAREA", Quote(p.task), "", "CONSULTA", Quote(p.query), ""]
  }

  function Section<T>(heading: string, items: seq<T>, line: T -> string, none: string): seq<string> {
    [heading] + Bullets(items, line, none)
  }

  function Control(p: ContextPacket): seq<string> {
    ["CONTROL", "- modo=" + Quote(ModeName(p.mode)), "- active_pick_id=" + PickText(p),
        "- trace_id=" + Quote(p.traceId)]
  }

  function Lines(p: ContextPacket): (r: seq<string>)
    ensures |r| > 0
  {
    Head(p)
    + (Section("DATOS CONFIRMADOS", p.confirmed, ItemLine, NO_ITEM)
    + (Section("DATOS NO DISPONIBLES", p.unavailable, TextLine, NO_ITEM)
    + (Section("ACCIONES REALIZADAS", p.actions, ActionLine, NO_ACTION)
    + (Section("REGLAS DE REDACCIÓN", p.rules, TextLine, NO_RULE)
    + Control(p)))))
  }

  /** Lines, each with its newline. */
  function Terminated(lines: seq<string>): string {
    if lines == [] then "" else Row(lines[0]) + Terminated(lines[1..])
  }

  lemma {:induction false} TerminatedConcat(a: seq<string>, b: seq<string>)
    ensures Terminated(a + b) == Terminated(a) + Terminated(b)
  {
    if a == [] {
      assert a + b == b;
    } else {
      assert (a + b)[1..] == a[1..] + b;
      TerminatedConcat(a[1..], b);
    }
  }

  lemma {:induction false} TerminatedIsJoin(lines: seq<string>)
    requires lines != []
    ensures Terminated(lines) == Row(Join("\n", lines))
  {
    if |lines| > 1 {
      TerminatedIsJoin(lines[1..]);
    }
  }

  lemma {:induction false} LoopIsLines<T>(items: seq<T>, line: T -> string)
    ensures Loop(items, line) == Terminated(seq(|items|, i requires 0 <= i < |items| => line(items[i])))
  {
    var lines := seq(|items|, i requires 0 <= i < |items| => line(items[i]));
    if items != [] {
      var rest := seq(|items[1..]|, i requires 0 <= i < |items[1..]| => line(items[1..][i]));
      assert lines[1..] == rest;
      LoopIsLines(items[1..], line);
    }
  }

  lemma SectionIsLines<T>(heading: string, items: seq<T>, line: T -> string, none: string)
    ensures Row(heading) + Block(items, line, none) == Terminated(Section(heading, items, line, none))
  {
    var bullets := Bullets(items, line, none);
    assert ([heading] + bullets)[1..] == bullets;
    if items == [] {
      assert bullets[1..] == [];
      assert Terminated(bullets) == Row(none) + Terminated(bullets[1..]);
    } else {
      LoopIsLines(items, line);
    }
  }

  lemma FourRows(a: string, b: string, c: string, d: string)
    ensures Terminated([a, b, c, d]) == Row(a) + Row(b) + Row(c) + Row(d)
  {
    TerminatedConcat([a, b], [c, d]);
    assert [a, b] + [c, d] == [a, b, c, d];
    assert [a, b][1..] == [b] && [c, d][1..] == [d];
    assert Terminated([b]) == Row(b) && Terminated([d]) == Row(d);
  }

  lemma SixRows(a: string, b: string, c: string, d: string, e: string, f: string)
    ensures Terminated([a, b, c, d, e, f]) == Row(a) + Row(b) + Row(c) + Row(d) + Row(e) + Row(f)
  {
    FourRows(a, b, c, d);
    TerminatedConcat([a, b, c, d], [e, f]);
    assert [a, b, c, d] + [e, f] == [a, b, c, d, e, f];
    assert [e, f][1..] == [f];
    assert Terminated([f]) == Row(f);
  }

  lemma {:induction false} SixParts(a: seq<string>, b: seq<string>, c: seq<string>, d: seq<string>, e: seq<string>,
                                    f: seq<string>)
    ensures Terminated(a + (b + (c + (d + (e + f)))))
         == Terminated(a) + (Terminated(b) + (Terminated(c) + (Terminated(d) + (Terminated(e) + Terminated(f)))))
  {
    TerminatedConcat(a, b + (c + (d + (e + f))));
    TerminatedConcat(b, c + (d + (e + f)));
    TerminatedConcat(c, d + (e + f));
    TerminatedConcat(d, e + f);
    TerminatedConcat(e, f);
  }

  /** The template writes the lines, each with its newline. */
  lemma TemplateIsLines(p: ContextPacket)
    ensures Template(p) == Terminated(Lines(p))
  {
    SixRows("TAREA", Quote(p.task), "", "CONSULTA", Quote(p.query), "");
    FourRows("CONTROL", "- modo=" + Quote(ModeName(p.mode)), "- active_pick_id=" + PickText(p),
        "- trace_id=" + Quote(p.traceId));
    SectionIsLines("DATOS CONFIRMADOS", p.confirmed, ItemLine, NO_ITEM);
    SectionIsLines("DATOS NO DISPONIBLES", p.unavailable, TextLine, NO_ITEM);
    SectionIsLines("ACCIONES REALIZADAS", p.actions, ActionLine, NO_ACTION);
    SectionIsLines("REGLAS DE REDACCIÓN", p.rules, TextLine, NO_RULE);
    SixParts(Head(p),
      Section("DATOS CONFIRMADOS", p.confirmed, ItemLine, NO_ITEM),
      Section("DATOS NO DISPONIBLES", p.unavailable, TextLine, NO_ITEM),
      Section("ACCIONES REALIZADAS", p.actions, ActionLine, NO_ACTION),
      Section("REGLAS DE REDACCIÓN", p.rules, TextLine, NO_RULE),
      Control(p));
  }

  // ---------- Splitting into lines ----------

  /** `split("\n")`. */
  function Split(s: string): (r: seq<string>)
    ensures |r| > 0
    decreases |s|
  {
    var e := RunEnd(c => c != '\n', s, 0);
    if e == |s| then [s] else [s[..e]] + Split(s[e + 1..])
  }

  lemma {:induction false} SplitOne(line: string)
    requires '\n' !in line
    ensures Split(line) == [line]
  {
    RunEndIs(c => c != '\n', line, 0, |line|);
  }

  lemma {:induction false} SplitFirst(line: string, rest: string)
    requires '\n' !in line
    ensures Split(line + "\n" + rest) == [line] + Split(rest)
  {
    var s, e := line + "\n" + rest, |line|;
    forall k | 0 <= k < e ensures s[k] != '\n' {
      assert s[k] == line[k] && line[k] in line;
    }
    RunEndIs(c => c != '\n', s, 0, e);
    assert s[..e] == line && s[e + 1..] == rest;
  }

  /** Lines come back from their joined text. */
  lemma {:induction false} SplitInvertsJoin(lines: seq<string>)
    requires lines != [] && forall i :: 0 <= i < |lines| ==> '\n' !in lines[i]
    ensures Split(Join("\n", lines)) == lines
  {
    if |lines| > 1 {
      SplitFirst(lines[0], Join("\n", lines[1..]));
      SplitInvertsJoin(lines[1..]);
      assert lines == [lines[0]] + lines[1..];
    } else {
      SplitOne(lines[0]);
      assert lines == [lines[0]];
    }
  }

  // ---------- No field adds a line ----------

  ghost predicate OneLine(s: string) {
    '\n' !in s
  }

  lemma QuoteIsOneLine(s: string)
    ensures OneLine(Quote(s)) && |Quote(s)| >= 2 && Quote(s)[0] == '\"' == Quote(s)[|Quote(s)| - 1]
  {
    QuotesArePrintable(s);
  }

  /** A bullet line. */
  predicate Bullet(line: string) {
    line != "" && line[0] == '-'
  }

  lemma OriginIsOneLine(item: EvidenceItem)
    ensures OneLine(Origin(item))
  {
    QuoteIsOneLine(SourceName(item.source));
    if Present(item.reference) {
      QuoteIsOneLine(item.reference.value);
    }
  }

  lemma ItemIsBullet(item: EvidenceItem)
    ensures OneLine(ItemLine(item)) && Bullet(ItemLine(item))
  {
    QuoteIsOneLine(item.caption);
    QuoteIsOneLine(item.value);
    OriginIsOneLine(item);
  }

  lemma TextIsBullet(text: string)
    ensures OneLine(TextLine(text)) && Bullet(TextLine(text))
  {
    QuoteIsOneLine(text);
  }

  lemma ActionReferenceIsOneLine(action: PerformedAction)
    ensures OneLine(ActionReference(action))
  {
    if Present(action.reference) {
      QuoteIsOneLine(action.reference.value);
    }
  }

  lemma ActionIsBullet(action: PerformedAction)
    ensures OneLine(ActionLine(action)) && Bullet(ActionLine(action))
  {
    QuoteIsOneLine(action.name);
    QuoteIsOneLine(OutcomeName(action.outcome));
    ActionReferenceIsOneLine(action);
  }

  ghost predicate AllBullets(lines: seq<string>) {
    forall i :: 0 <= i < |lines| ==> OneLine(lines[i]) && Bullet(lines[i])
  }

  lemma BlocksAreBullets(p: ContextPacket)
    ensures AllBullets(Bullets(p.confirmed, ItemLine, NO_ITEM)) && AllBullets(Bullets(p.unavailable, TextLine, NO_ITEM))
    ensures AllBullets(Bullets(p.actions, ActionLine, NO_ACTION)) && AllBullets(Bullets(p.rules, TextLine, NO_RULE))
  {
    forall item {
      ItemIsBullet(item);
    }
    forall text {
      TextIsBullet(text);
    }
    forall action {
      ActionIsBullet(action);
    }
  }

  lemma ControlLines(p: ContextPacket)
    ensures OneLine(Control(p)[0]) && OneLine(Control(p)[1]) && OneLine(Control(p)[2]) && OneLine(Control(p)[3])
    ensures Bullet(Control(p)[1]) && Bullet(Control(p)[2]) && Bullet(Control(p)[3])
    ensures Control(p)[3][|Control(p)[3]| - 1] == '\"'
  {
    QuoteIsOneLine(ModeName(p.mode));
    QuoteIsOneLine(p.traceId);
    if Present(p.activePickId) {
      QuoteIsOneLine(p.activePickId.value);
    }
  }

  ghost predicate OneLineEach(lines: seq<string>) {
    forall i :: 0 <= i < |lines| ==> OneLine(lines[i])
  }

  lemma SixOneLineEach(a: seq<string>, b: seq<string>, c: seq<string>, d: seq<string>, e: seq<string>, f: seq<string>)
    requires OneLineEach(a) && OneLineEach(b) && OneLineEach(c) && OneLineEach(d) && OneLineEach(e) && OneLineEach(f)
    ensures OneLineEach(a + (b + (c + (d + (e + f)))))
  {
  }

  lemma SectionIsOneLineEach<T>(heading: string, items: seq<T>, line: T -> string, none: string)
    requires OneLine(heading) && AllBullets(Bullets(items, line, none))
    ensures OneLineEach(Section(heading, items, line, none))
  {
  }

  lemma HeadIsOneLineEach(p: ContextPacket)
    ensures OneLineEach(Head(p))
  {
    QuoteIsOneLine(p.task);
    QuoteIsOneLine(p.query);
  }

  lemma SectionsAreOneLineEach(p: ContextPacket)
    ensures OneLineEach(Section("DATOS CONFIRMADOS", p.confirmed, ItemLine, NO_ITEM))
    ensures OneLineEach(Section("DATOS NO DISPONIBLES", p.unavailable, TextLine, NO_ITEM))
    ensures OneLineEach(Section("ACCIONES REALIZADAS", p.actions, ActionLine, NO_ACTION))
    ensures OneLineEach(Section("REGLAS DE REDACCIÓN", p.rules, TextLine, NO_RULE))
  {
    BlocksAreBullets(p);
    SectionIsOneLineEach("DATOS CONFIRMADOS", p.confirmed, ItemLine, NO_ITEM);
    SectionIsOneLineEach("DATOS NO DISPONIBLES", p.unavailable, TextLine, NO_ITEM);
    SectionIsOneLineEach("ACCIONES REALIZADAS", p.actions, ActionLine, NO_ACTION);
    SectionIsOneLineEach("REGLAS DE REDACCIÓN", p.rules, TextLine, NO_RULE);
  }

  lemma ControlIsOneLineEach(p: ContextPacket)
    ensures OneLineEach(Control(p))
  {
    ControlLines(p);
  }

  lemma LinesAreLines(p: ContextPacket)
    ensures OneLineEach(Lines(p))
  {
    ControlIsOneLineEach(p);
    HeadIsOneLineEach(p);
    SectionsAreOneLineEach(p);
    SixOneLineEach(Head(p),
      Section("DATOS CONFIRMADOS", p.confirmed, ItemLine, NO_ITEM),
      Section("DATOS NO DISPONIBLES", p.unavailable, TextLine, NO_ITEM),
      Section("ACCIONES REALIZADAS", p.actions, ActionLine, NO_ACTION),
      Section("REGLAS DE REDACCIÓN", p.rules, TextLine, NO_RULE),
      Control(p));
  }

  lemma {:induction false} JoinEnds(lines: seq<string>)
    requires lines != [] && lines[0] != "" && lines[|lines| - 1] != ""
    ensures var s, last := Join("\n", lines), lines[|lines| - 1];
            s != "" && s[0] == lines[0][0] && s[|s| - 1] == last[|last| - 1]
    decreases |lines|
  {
    if |lines| > 1 {
      JoinKeepsEnd(lines);
    }
  }

  lemma {:induction false} JoinKeepsEnd(lines: seq<string>)
    requires lines != [] && lines[|lines| - 1] != ""
    ensures var s, last := Join("\n", lines), lines[|lines| - 1];
            s != "" && s[|s| - 1] == last[|last| - 1]
  {
    if |lines| > 1 {
      JoinKeepsEnd(lines[1..]);
    }
  }

  lemma StripsFinalNewline(u: CharTable, s: string)
    requires Lawful(u) && s != "" && !u.space(s[0]) && !u.space(s[|s| - 1])
    ensures Strip(u, Row(s)) == s
  {
    var r := Row(s);
    assert r[0] == s[0] && StripLeft(u, r) == r;
    assert r[|r| - 1] == '\n' && r[..|r| - 1] == s;
    assert StripRight(u.space, s) == s;
  }

  /** The joined lines begin and end in characters that trimming leaves. */
  lemma LinesEndVisibly(u: CharTable, p: ContextPacket)
    requires Lawful(u)
    ensures var s := Join("\n", Lines(p)); s != "" && !u.space(s[0]) && !u.space(s[|s| - 1])
  {
    ControlLines(p);
    JoinEnds(Lines(p));
    assert Plain('T') && Plain('\"');
  }

  lemma {:induction false} TemplateIsRow(p: ContextPacket, lines: seq<string>)
    requires lines == Lines(p)
    ensures Template(p) == Row(Join("\n", lines))
  {
    TemplateIsLines(p);
    TerminatedIsJoin(lines);
  }

  lemma TrimmedLines(u: CharTable, p: ContextPacket, text: string, joined: string)
    requires Lawful(u) && joined == Join("\n", Lines(p)) && text == Row(joined)
    ensures Strip(u, text) == joined
  {
    LinesEndVisibly(u, p);
    StripsFinalNewline(u, joined);
  }

  lemma RenderIsJoined(u: CharTable, p: ContextPacket, joined: string)
    requires Lawful(u) && joined == Join("\n", Lines(p))
    ensures Render(u, p) == joined
  {
    TemplateIsRow(p, Lines(p));
    TrimmedLines(u, p, Template(p), joined);
  }

  /** The rendered prompt is its lines, joined: trimming takes only the last newline. */
  lemma RenderIsLines(u: CharTable, p: ContextPacket)
    requires Lawful(u)
    ensures Render(u, p) == Join("\n", Lines(p)) && Split(Render(u, p)) == Lines(p)
  {
    RenderIsJoined(u, p, Join("\n", Lines(p)));
    LinesAreLines(p);
    SplitInvertsJoin(Lines(p));
  }

  // ---------- The headings ----------

  const HEADINGS: seq<string> := [
    "TAREA", "CONSULTA", "DATOS CONFIRMADOS", "DATOS NO DISPONIBLES", "ACCIONES REALIZADAS", "REGLAS DE REDACCIÓN",
        "CONTROL"]

  /** A line that begins like a heading. */
  predicate Capital(line: string) {
    line != "" && 'A' <= line[0] <= 'Z'
  }

  /** The lines that begin like a heading, in order. */
  function Capitals(lines: seq<string>): seq<string> {
    if lines == [] then []
    else if Capital(lines[0]) then [lines[0]] + Capitals(lines[1..])
    else Capitals(lines[1..])
  }

  lemma {:induction false} CapitalsConcat(a: seq<string>, b: seq<string>)
    ensures Capitals(a + b) == Capitals(a) + Capitals(b)
  {
    if a == [] {
      assert a + b == b;
    } else {
      assert (a + b)[1..] == a[1..] + b;
      CapitalsConcat(a[1..], b);
    }
  }

  lemma {:induction false} NoCapitals(lines: seq<string>)
    requires forall i :: 0 <= i < |lines| ==> !Capital(lines[i])
    ensures Capitals(lines) == []
  {
    if lines != [] {
      NoCapitals(lines[1..]);
    }
  }

  lemma SectionCapitals<T>(heading: string, items: seq<T>, line: T -> string, none: string)
    requires Capital(heading) && AllBullets(Bullets(items, line, none))
    ensures Capitals(Section(heading, items, line, none)) == [heading]
  {
    NoCapitals(Bullets(items, line, none));
    assert Section(heading, items, line, none)[1..] == Bullets(items, line, none);
  }

  lemma HeadCapitals(p: ContextPacket)
    ensures Capitals(Head(p)) == ["TAREA", "CONSULTA"]
  {
    QuoteIsOneLine(p.task);
    QuoteIsOneLine(p.query);
    var a, b := ["TAREA", Quote(p.task), ""], ["CONSULTA", Quote(p.query), ""];
    assert Head(p) == a + b;
    CapitalsConcat(a, b);
    NoCapitals(a[1..]);
    NoCapitals(b[1..]);
  }

  lemma ControlCapitals(p: ContextPacket)
    ensures Capitals(Control(p)) == ["CONTROL"]
  {
    ControlLines(p);
    NoCapitals(Control(p)[1..]);
  }

  lemma {:induction false} SixCapitals(a: seq<string>, b: seq<string>, c: seq<string>, d: seq<string>,
                                       e: seq<string>, f: seq<string>)
    ensures Capitals(a + (b + (c + (d + (e + f)))))
         == Capitals(a) + (Capitals(b) + (Capitals(c) + (Capitals(d) + (Capitals(e) + Capitals(f)))))
  {
    CapitalsConcat(a, b + (c + (d + (e + f))));
    CapitalsConcat(b, c + (d + (e + f)));
    CapitalsConcat(c, d + (e + f));
    CapitalsConcat(d, e + f);
    CapitalsConcat(e, f);
  }

  lemma HeadingsInOrder()
    ensures HEADINGS
         == ["TAREA", "CONSULTA"] + (["DATOS CONFIRMADOS"] + (["DATOS NO DISPONIBLES"] + (["ACCIONES REALIZADAS"]
            + (["REGLAS DE REDACCIÓN"] + ["CONTROL"]))))
  {
  }

  /**
   Whatever its fields hold, the rendered prompt has each heading on one line of its own, in order, and no other
   line that could pass for one.
   */
  lemma HeadingsStandOnce(u: CharTable, p: ContextPacket)
    requires Lawful(u)
    ensures Capitals(Split(Render(u, p))) == HEADINGS
  {
    RenderIsLines(u, p);
    LineCapitals(p);
    HeadingsInOrder();
  }

  lemma LineCapitals(p: ContextPacket)
    ensures Capitals(Lines(p))
         == ["TAREA", "CONSULTA"] + (["DATOS CONFIRMADOS"] + (["DATOS NO DISPONIBLES"] + (["ACCIONES REALIZADAS"]
            + (["REGLAS DE REDACCIÓN"] + ["CONTROL"]))))
  {
    BlocksAreBullets(p);
    HeadCapitals(p);
    ControlCapitals(p);
    SectionCapitals("DATOS CONFIRMADOS", p.confirmed, ItemLine, NO_ITEM);
    SectionCapitals("DATOS NO DISPONIBLES", p.unavailable, TextLine, NO_ITEM);
    SectionCapitals("ACCIONES REALIZADAS", p.actions, ActionLine, NO_ACTION);
    SectionCapitals("REGLAS DE REDACCIÓN", p.rules, TextLine, NO_RULE);
    SixCapitals(Head(p),
      Section("DATOS CONFIRMADOS", p.confirmed, ItemLine, NO_ITEM),
      Section("DATOS NO DISPONIBLES", p.unavailable, TextLine, NO_ITEM),
      Section("ACCIONES REALIZADAS", p.actions, ActionLine, NO_ACTION),
      Section("REGLAS DE REDACCIÓN", p.rules, TextLine, NO_RULE),
      Control(p));
  }
}
