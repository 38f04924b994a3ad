/** Reading the evidence prompt: every field of the packet comes back from the rendered text. */
module EvidenceReader {
  import opened Options
  import opened Contracts
  import opened Texts
  import opened Json
  import opened Evidence

  // ---------- The reader ----------

  function After(prefix: string, s: string): Option<string> {
    if prefix <= s then Some(s[|prefix|..]) else None
  }

  /** A quoted text and nothing else. */
  function ReadWhole(s: string): Option<string> {
    var (text, rest) :- ReadQuoted(s);
    if rest == "" then Some(text) else None
  }

  function ReadSource(name: string): Option<EvidenceSource> {
    if name == "buenpick_internal_api" then Some(BuenPickInternalApi)
    else if name == "conversation" then Some(Conversation)
    else if name == "policy" then Some(Policy)
    else None
  }

  function ReadOutcome(name: string): Option<ActionOutcome> {
    if name == "succeeded" then Some(Succeeded)
    else if name == "failed" then Some(Failed)
    else if name == "skipped" then Some(Skipped)
    else None
  }

  function ReadMode(name: string): Option<ResponseMode> {
    if name == "deterministic" then Some(Deterministic)
    else if name == "jinja" then Some(Jinja)
    else if name == "jinja_llm" then Some(JinjaLlm)
    else if name == "non_commercial_llm" then Some(NonCommercialLlm)
    else None
  }

  function ReadOrigin(s: string): Option<(EvidenceSource, Option<string>)> {
    var a :- After(" (fuente=", s);
    var (name, b) :- ReadQuoted(a);
    var source :- ReadSource(name);
    if b == ")" then Some((source, None))
    else
      var c :- After(", referencia=", b);
      var (reference, d) :- ReadQuoted(c);
      if d == ")" then Some((source, Some(reference))) else None
  }

  function ReadItem(line: string): Option<EvidenceItem> {
    var a :- After("- ", line);
    var (caption, b) :- ReadQuoted(a);
    var c :- After(": ", b);
    var (value, d) :- ReadQuoted(c);
    var (source, reference) :- ReadOrigin(d);
    Some(EvidenceItem(caption, value, source, reference))
  }

  function ReadText(line: string): Option<string> {
    var a :- After("- ", line);
    ReadWhole(a)
  }

  function ReadActionReference(s: string): Option<Option<string>> {
    if s == "" then Some(None)
    else
      var a :- After(" (referencia=", s);
      var (reference, b) :- ReadQuoted(a);
      if b == ")" then Some(Some(reference)) else None
  }

  function ReadAction(line: string): Option<PerformedAction> {
    var a :- After("- ", line);
    var (name, b) :- ReadQuoted(a);
    var c :- After(": ", b);
    var (outcomeName, d) :- ReadQuoted(c);
    var outcome :- ReadOutcome(outcomeName);
    var reference :- ReadActionReference(d);
    Some(PerformedAction(name, outcome, reference))
  }

  function ReadEach<T>(lines: seq<string>, read: string -> Option<T>): Option<seq<T>> {
    if lines == [] then Some([])
    else
      var first :- read(lines[0]);
      var rest :- ReadEach(lines[1..], read);
      Some([first] + rest)
  }

  function ReadBullets<T>(lines: seq<string>, read: string -> Option<T>, none: string): Option<seq<T>> {
    if lines == [none] then Some([]) else ReadEach(lines, read)
  }

  /** A heading and the bullets under it, and the lines that follow. */
  function ReadSection<T>(lines: seq<string>, heading: string, read: string -> Option<T>,
                          none: string): Option<(seq<T>, seq<string>)> {
    if lines == [] || lines[0] != heading then None
    else
      var e := RunEnd(Bullet, lines, 1);
      var items :- ReadBullets(lines[1..e], read, none);
      Some((items, lines[e..]))
  }

  function ReadHead(lines: seq<string>): Option<(string, string, seq<string>)> {
    if |lines| >= 6 && lines[0] == "TAREA" && lines[2] == "" && lines[3] == "CONSULTA" && lines[5] == "" then
      var task :- ReadWhole(lines[1]);
      var query :- ReadWhole(lines[4]);
      Some((task, query, lines[6..]))
    else None
  }

  function ReadPick(text: string): Option<Option<string>> {
    if text == "null" then Some(None)
    else
      var id :- ReadWhole(text);
      Some(Some(id))
  }

  function ReadControl(lines: seq<string>): Option<(ResponseMode, Option<string>, string)> {
    if |lines| == 4 && lines[0] == "CONTROL" then
      var a :- After("- modo=", lines[1]);
      var name :- ReadWhole(a);
      var mode :- ReadMode(name);
      var b :- After("- active_pick_id=", lines[2]);
      var pick :- ReadPick(b);
      var c :- After("- trace_id=", lines[3]);
      var trace :- ReadWhole(c);
      Some((mode, pick, trace))
    else None
  }

  function ReadLines(lines: seq<string>): Option<ContextPacket> {
    var (task, query, a) :- ReadHead(lines);
    var (confirmed, b) :- ReadSection(a, "DATOS CONFIRMADOS", ReadItem, NO_ITEM);
    var (unavailable, c) :- ReadSection(b, "DATOS NO DISPONIBLES", ReadText, NO_ITEM);
    var (actions, d) :- ReadSection(c, "ACCIONES REALIZADAS", ReadAction, NO_ACTION);
    var (rules, e) :- ReadSection(d, "REGLAS DE REDACCIÓN", ReadText, NO_RULE);
    var (mode, pick, trace) :- ReadControl(e);
    Some(ContextPacket(task, query, confirmed, unavailable, actions, rules, mode, pick, trace))
  }

  function Unrender(text: string): Option<ContextPacket> {
    ReadLines(Split(text))
  }

  // ---------- What the prompt tells apart ----------

  function PresentOnly(text: Option<string>): Option<string> {
    if text == Some("") then None else text
  }

  function EraseItem(item: EvidenceItem): EvidenceItem {
    item.(reference := PresentOnly(item.reference))
  }

  function EraseAction(action: PerformedAction): PerformedAction {
    action.(reference := PresentOnly(action.reference))
  }

  function EachOf<S, T>(f: S -> T, s: seq<S>): seq<T> {
    seq(|s|, i requires 0 <= i < |s| => f(s[i]))
  }

  /** The packet with empty references and an empty active pick taken as none. */
  function Erase(p: ContextPacket): ContextPacket {
    p.(confirmed := EachOf(EraseItem, p.confirmed), actions := EachOf(EraseAction, p.actions),
        activePickId := PresentOnly(p.activePickId))
  }

  // ---------- The reader is the inverse ----------

  lemma AfterPrefix(prefix: string, rest: string)
    ensures After(prefix, prefix + rest) == Some(rest)
  {
  }

  lemma WholeReadsBack(text: string)
    ensures ReadWhole(Quote(text)) == Some(text)
  {
    QuoteReadsBack(text, "");
    assert Quote(text) + "" == Quote(text);
  }

  lemma NamesReadBack(source: EvidenceSource, outcome: ActionOutcome, mode: ResponseMode)
    ensures ReadSource(SourceName(source)) == Some(source)
    ensures ReadOutcome(OutcomeName(outcome)) == Some(outcome)
    ensures ReadMode(ModeName(mode)) == Some(mode)
  {
  }

  lemma OriginReadsBack(item: EvidenceItem)
    ensures ReadOrigin(Origin(item)) == Some((item.source, PresentOnly(item.reference)))
  {
    NamesReadBack(item.source, Succeeded, Jinja);
    var tail := if Present(item.reference) then ", referencia=" + (Quote(item.reference.value) + ")") else ")";
    AfterPrefix(" (fuente=", Quote(SourceName(item.source)) + tail);
    QuoteReadsBack(SourceName(item.source), tail);
    if Present(item.reference) {
      AfterPrefix(", referencia=", Quote(item.reference.value) + ")");
      QuoteReadsBack(item.reference.value, ")");
    }
  }

  lemma ItemReadsBack(item: EvidenceItem)
    ensures ReadItem(ItemLine(item)) == Some(EraseItem(item))
  {
    AfterPrefix("- ", Quote(item.caption) + (": " + (Quote(item.value) + Origin(item))));
    QuoteReadsBack(item.caption, ": " + (Quote(item.value) + Origin(item)));
    AfterPrefix(": ", Quote(item.value) + Origin(item));
    QuoteReadsBack(item.value, Origin(item));
    OriginReadsBack(item);
  }

  lemma TextReadsBack(text: string)
    ensures ReadText(TextLine(text)) == Some(text)
  {
    AfterPrefix("- ", Quote(text));
    WholeReadsBack(text);
  }

  lemma ActionReferenceReadsBack(action: PerformedAction)
    ensures ReadActionReference(ActionReference(action)) == Some(PresentOnly(action.reference))
  {
    if Present(action.reference) {
      AfterPrefix(" (referencia=", Quote(action.reference.value) + ")");
      QuoteReadsBack(action.reference.value, ")");
    }
  }

  lemma ActionReadsBack(action: PerformedAction)
    ensures ReadAction(ActionLine(action)) == Some(EraseAction(action))
  {
    var outcome := OutcomeName(action.outcome);
    AfterPrefix("- ", Quote(action.name) + (": " + (Quote(outcome) + ActionReference(action))));
    QuoteReadsBack(action.name, ": " + (Quote(outcome) + ActionReference(action)));
    AfterPrefix(": ", Quote(outcome) + ActionReference(action));
    QuoteReadsBack(outcome, ActionReference(action));
    NamesReadBack(Policy, action.outcome, Jinja);
    ActionReferenceReadsBack(action);
  }

  lemma {:induction false} EachReadsBack<T>(items: seq<T>, line: T -> string, read: string -> Option<T>, erase: T -> T)
    requires forall i :: 0 <= i < |items| ==> read(line(items[i])) == Some(erase(items[i]))
    ensures ReadEach(EachOf(line, items), read) == Some(EachOf(erase, items))
  {
    if items != [] {
      assert EachOf(line, items)[1..] == EachOf(line, items[1..]);
      assert EachOf(erase, items) == [erase(items[0])] + EachOf(erase, items[1..]);
      EachReadsBack(items[1..], line, read, erase);
    }
  }

  /** A section is read back, up to the first line that is no bullet. */
  lemma SectionReadsBack<T>(heading: string, items: seq<T>, line: T -> string, read: string -> Option<T>, erase: T -> T,
                            none: string, rest: seq<string>)
    requires forall i :: 0 <= i < |items| ==> read(line(items[i])) == Some(erase(items[i])) && line(items[i]) != none
    requires AllBullets(Bullets(items, line, none))
    requires rest != [] && !Bullet(rest[0])
    ensures ReadSection(Section(heading, items, line, none) + rest, heading, read, none)
         == Some((EachOf(erase, items), rest))
  {
    var bullets := Bullets(items, line, none);
    var lines := Section(heading, items, line, none) + rest;
    var e := 1 + |bullets|;
    RunEndIs(Bullet, lines, 1, e);
    assert lines[1..e] == bullets && lines[e..] == rest;
    if items == [] {
      assert EachOf(erase, items) == [];
    } else {
      assert bullets == EachOf(line, items);
      assert bullets[0] == line(items[0]);
      EachReadsBack(items, line, read, erase);
    }
  }

  lemma HeadReadsBack(p: ContextPacket, rest: seq<string>)
    ensures ReadHead(Head(p) + rest) == Some((p.task, p.query, rest))
  {
    WholeReadsBack(p.task);
    WholeReadsBack(p.query);
    assert (Head(p) + rest)[6..] == rest;
  }

  lemma PickReadsBack(p: ContextPacket)
    ensures ReadPick(PickText(p)) == Some(PresentOnly(p.activePickId))
  {
    if Present(p.activePickId) {
      WholeReadsBack(p.activePickId.value);
      assert PickText(p)[0] == '\"';
    }
  }

  lemma ControlReadsBack(p: ContextPacket)
    ensures ReadControl(Control(p)) == Some((p.mode, PresentOnly(p.activePickId), p.traceId))
  {
    AfterPrefix("- modo=", Quote(ModeName(p.mode)));
    WholeReadsBack(ModeName(p.mode));
    NamesReadBack(Policy, Succeeded, p.mode);
    AfterPrefix("- active_pick_id=", PickText(p));
    PickReadsBack(p);
    AfterPrefix("- trace_id=", Quote(p.traceId));
    WholeReadsBack(p.traceId);
  }

  /** No line for a value is the line for none. */
  lemma NoneIsApart(item: EvidenceItem, text: string, action: PerformedAction)
    ensures ItemLine(item) != NO_ITEM && TextLine(text) != NO_ITEM && TextLine(text) != NO_RULE &&
            ActionLine(action) != NO_ACTION
  {
    assert ItemLine(item)[2] == '\"' && TextLine(text)[2] == '\"' && ActionLine(action)[2] == '\"';
  }

  lemma ConfirmedReadsBack(p: ContextPacket, rest: seq<string>)
    requires rest != [] && !Bullet(rest[0])
    ensures ReadSection(Section("DATOS CONFIRMADOS", p.confirmed, ItemLine, NO_ITEM) + rest, "DATOS CONFIRMADOS",
            ReadItem, NO_ITEM)
         == Some((EachOf(EraseItem, p.confirmed), rest))
  {
    forall i | 0 <= i < |p.confirmed|
      ensures ReadItem(ItemLine(p.confirmed[i])) == Some(EraseItem(p.confirmed[i])) &&
              ItemLine(p.confirmed[i]) != NO_ITEM
    {
      ItemReadsBack(p.confirmed[i]);
      NoneIsApart(p.confirmed[i], "", PerformedAction("", Failed, None));
    }
    BlocksAreBullets(p);
    SectionReadsBack("DATOS CONFIRMADOS", p.confirmed, ItemLine, ReadItem, EraseItem, NO_ITEM, rest);
  }

  lemma TextsReadBack(heading: string, texts: seq<string>, none: string, rest: seq<string>)
    requires none == NO_ITEM || none == NO_RULE
    requires rest != [] && !Bullet(rest[0]) && AllBullets(Bullets(texts, TextLine, none))
    ensures ReadSection(Section(heading, texts, TextLine, none) + rest, heading, ReadText, none) == Some((texts, rest))
  {
    forall i | 0 <= i < |texts| ensures ReadText(TextLine(texts[i])) == Some(texts[i]) && TextLine(texts[i]) != none {
      TextReadsBack(texts[i]);
      NoneIsApart(EvidenceItem("", "", Policy, None), texts[i], PerformedAction("", Failed, None));
    }
    SectionReadsBack(heading, texts, TextLine, ReadText, text => text, none, rest);
    assert EachOf(text => text, texts) == texts;
  }

  lemma ActionsReadBack(p: ContextPacket, rest: seq<string>)
    requires rest != [] && !Bullet(rest[0])
    ensures ReadSection(Section("ACCIONES REALIZADAS", p.actions, ActionLine, NO_ACTION) + rest, "ACCIONES REALIZADAS",
            ReadAction, NO_ACTION)
         == Some((EachOf(EraseAction, p.actions), rest))
  {
    forall i | 0 <= i < |p.actions|
      ensures ReadAction(ActionLine(p.actions[i])) == Some(EraseAction(p.actions[i])) &&
              ActionLine(p.actions[i]) != NO_ACTION
    {
      ActionReadsBack(p.actions[i]);
      NoneIsApart(EvidenceItem("", "", Policy, None), "", p.actions[i]);
    }
    BlocksAreBullets(p);
    SectionReadsBack("ACCIONES REALIZADAS", p.actions, ActionLine, ReadAction, EraseAction, NO_ACTION, rest);
  }

  lemma LinesReadBack(p: ContextPacket)
    ensures ReadLines(Lines(p)) == Some(Erase(p))
  {
    var e := Control(p);
    var d := Section("REGLAS DE REDACCIÓN", p.rules, TextLine, NO_RULE) + e;
    var c := Section("ACCIONES REALIZADAS", p.actions, ActionLine, NO_ACTION) + d;
    var b := Section("DATOS NO DISPONIBLES", p.unavailable, TextLine, NO_ITEM) + c;
    var a := Section("DATOS CONFIRMADOS", p.confirmed, ItemLine, NO_ITEM) + b;
    assert Lines(p) == Head(p) + a;
    BlocksAreBullets(p);
    HeadReadsBack(p, a);
    ConfirmedReadsBack(p, b);
    TextsReadBack("DATOS NO DISPONIBLES", p.unavailable, NO_ITEM, c);
    ActionsReadBack(p, d);
    TextsReadBack("REGLAS DE REDACCIÓN", p.rules, NO_RULE, e);
    ControlReadsBack(p);
  }

  /**
   Reading inverts rendering: the prompt loses nothing but the difference between an empty and an absent reference.
   */
  lemma UnrenderInvertsRender(u: CharTable, p: ContextPacket)
    requires Lawful(u)
    ensures Unrender(Render(u, p)) == Some(Erase(p))
  {
    RenderIsLines(u, p);
    LinesReadBack(p);
  }

  /** Two packets with the same prompt differ at most there, and packets that differ only there share it. */
  lemma SamePromptSamePacket(u: CharTable, p: ContextPacket, q: ContextPacket)
    requires Lawful(u)
    ensures Render(u, p) == Render(u, q) <==> Erase(p) == Erase(q)
  {
    UnrenderInvertsRender(u, p);
    UnrenderInvertsRender(u, q);
    ErasedLines(p);
    ErasedLines(q);
    RenderIsLines(u, p);
    RenderIsLines(u, q);
  }

  lemma ErasedBullets<T>(items: seq<T>, line: T -> string, erase: T -> T, none: string)
    requires forall i :: 0 <= i < |items| ==> line(erase(items[i])) == line(items[i])
    ensures Bullets(EachOf(erase, items), line, none) == Bullets(items, line, none)
  {
  }

  lemma ErasedItemLine(item: EvidenceItem)
    ensures ItemLine(EraseItem(item)) == ItemLine(item)
  {
  }

  lemma ErasedActionLine(action: PerformedAction)
    ensures ActionLine(EraseAction(action)) == ActionLine(action)
  {
  }

  lemma ErasedLines(p: ContextPacket)
    ensures Lines(Erase(p)) == Lines(p)
  {
    forall item {
      ErasedItemLine(item);
    }
    forall action {
      ErasedActionLine(action);
    }
    ErasedBullets(p.confirmed, ItemLine, EraseItem, NO_ITEM);
    ErasedBullets(p.actions, ActionLine, EraseAction, NO_ACTION);
  }
}
