/**
 * The Markdown-to-Word translator: a token list produced by the `marked` lexer is turned into
 * the children of a `docx` document section, or flattened into plain text.
 *
 * The lexer is not modelled: its output is the input here (`Token`). The `docx` classes
 * (`Paragraph`, `TextRun`, `Table`, `TableRow`, `TableCell`) are modelled by the value types
 * `Para`, `Run`, `Row`, `Cell` and `Element`; a property the source leaves `undefined` is `None`.
 */
module WordExport {
  import opened Wrappers
  import opened Strings

  // ---------------------------------------------------------------------------------------------
  // Input: the lexer's tokens
  // ---------------------------------------------------------------------------------------------

  /** One block-level token, reduced to the fields the translator reads. */
  datatype Token =
    | Heading(depth: int, text: string)
    | Paragraph(text: string)
    | Text(text: string)
    | Table(header: Option<seq<string>>, rows: seq<seq<string>>)
    | List(ordered: bool, items: seq<string>)
    | Code(text: string)
    | Blockquote(text: string)
    | Hr
      /** Any other token kind (space, html, ...), with its `text` field when it has one. */
    | Other(optText: Option<string>)

  // ---------------------------------------------------------------------------------------------
  // Output: the document objects
  // ---------------------------------------------------------------------------------------------

  datatype HeadingLevel = Heading1 | Heading2 | Heading3 | Heading4 | Heading5 | Heading6

  datatype Alignment = Center

  /** A `TextRun`: text with its character formatting (size in half-points). */
  datatype Run = Run(text: string, bold: bool, size: int, font: Option<string>, color: Option<string>)

  /**
   * A `Paragraph`: either plain `text` (headings and the title) or `runs`, with optional heading
   * style, alignment, spacing before/after, bullet level and left indent.
   */
  datatype Para = Para(
    text: Option<string>,
    heading: Option<HeadingLevel>,
    alignment: Option<Alignment>,
    runs: seq<Run>,
    before: Option<int>,
    after: Option<int>,
    bulletLevel: Option<int>,
    indentLeft: Option<int>)

  /** A `TableCell` holding one paragraph, with its width in percent. */
  datatype Cell = Cell(para: Para, widthPercent: real)

  datatype Row = Row(cells: seq<Cell>)

  /** A child of the document section. */
  datatype Element =
    | ParagraphElement(para: Para)
    | TableElement(rows: seq<Row>, widthPercent: real)

  const BodySize := 20
  const CodeSize := 18
  const CodeFont := "Courier New"
  const QuoteColor := "666666"
  const QuoteIndent := 720
  const RuleColor := "CCCCCC"
  const RuleChar := '─'
  const RuleLength := 50
  const OrderedPrefix := "1."
  const BulletPrefix := "•"

  function PlainRun(text: string, size: int): Run {
    Run(text, false, size, None, None)
  }

  /** A paragraph made of `runs` with spacing after and nothing else set. */
  function RunsParagraph(runs: seq<Run>, after: int): Para {
    Para(None, None, None, runs, None, Some(after), None, None)
  }

  /** The number 1..6 of a heading level. */
  function LevelNumber(level: HeadingLevel): int {
    match level
    case Heading1 => 1
    case Heading2 => 2
    case Heading3 => 3
    case Heading4 => 4
    case Heading5 => 5
    case Heading6 => 6
  }

  // ---------------------------------------------------------------------------------------------
  // Per-token translation (the cases of the `switch` in parseMarkdownToWordElements)
  // ---------------------------------------------------------------------------------------------

  /** The inner `switch (headingLevel)`: depths 1..6 map to their level, anything else to level 1. */
  function HeadingLevelOf(depth: int): (level: HeadingLevel)
    ensures 1 <= depth <= 6 ==> LevelNumber(level) == depth
    ensures !(1 <= depth <= 6) ==> level == Heading1
  {
    if depth == 2 then Heading2
    else if depth == 3 then Heading3
    else if depth == 4 then Heading4
    else if depth == 5 then Heading5
    else if depth == 6 then Heading6
    else Heading1
  }

  function HeadingElement(depth: int, text: string): Element {
    ParagraphElement(Para(Some(text), Some(HeadingLevelOf(depth)), None, [],
                          Some(if depth == 1 then 400 else 200), Some(200), None, None))
  }

  function Body(text: string): Element {
    ParagraphElement(RunsParagraph([PlainRun(text, BodySize)], 200))
  }

  function CodeElement(text: string): Element {
    ParagraphElement(RunsParagraph([Run(text, false, CodeSize, Some(CodeFont), None)], 200))
  }

  function BlockquoteElement(text: string): Element {
    ParagraphElement(Para(None, None, None, [Run(text, false, BodySize, None, Some(QuoteColor))],
                          None, Some(200), None, Some(QuoteIndent)))
  }

  function RuleElement(): Element {
    ParagraphElement(RunsParagraph([Run(Repeat(RuleChar, RuleLength), false, BodySize, None, Some(RuleColor))], 200))
  }

  /** One list item: the literal prefix, a space and the item text; only unordered items get a bullet. */
  function ListItemElement(ordered: bool, item: string): Element {
    ParagraphElement(Para(None, None, None,
                          [PlainRun((if ordered then OrderedPrefix else BulletPrefix) + " " + item, BodySize)],
                          None, Some(100), if ordered then None else Some(0), None))
  }

  /** A cell whose paragraph holds one run; `n` is the length of the row it belongs to. */
  function TableCellOf(text: string, bold: bool, n: nat): Cell
    requires n > 0
  {
    Cell(Para(None, None, None, [Run(text, bold, BodySize, None, None)], None, None, None, None),
         100.0 / (n as real))
  }

  function HeaderRow(header: seq<string>): Row {
    Row(seq(|header|, i requires 0 <= i < |header| => TableCellOf(header[i], true, |header|)))
  }

  function DataRow(row: seq<string>): Row {
    Row(seq(|row|, i requires 0 <= i < |row| => TableCellOf(row[i], false, |row|)))
  }

  /** The data rows, in order. */
  function DataRows(rows: seq<seq<string>>): seq<Row> {
    seq(|rows|, k requires 0 <= k < |rows| => DataRow(rows[k]))
  }

  /** The `tableRows` array: the header row when `token.header` is present, then the data rows. */
  function TableRows(header: Option<seq<string>>, rows: seq<seq<string>>): seq<Row> {
    (if header.Some? then [HeaderRow(header.value)] else []) + DataRows(rows)
  }

  /** The `if ('text' in token && token.text)` test of the default case. */
  predicate HasText(t: Token) {
    (t.Text? && t.text != "") || (t.Other? && t.optText.Some? && t.optText.value != "")
  }

  /** How many elements one token contributes, stated independently of how they are built. */
  function TokenElementCount(t: Token): nat {
    match t
    case List(_, items) => |items|
    case Text(_) => if HasText(t) then 1 else 0
    case Other(_) => if HasText(t) then 1 else 0
    case _ => 1
  }

  /** The elements one token pushes. */
  function TokenElements(t: Token): (r: seq<Element>)
    ensures |r| == TokenElementCount(t)
  {
    match t
    case Heading(depth, text) => [HeadingElement(depth, text)]
    case Paragraph(text) => [Body(text)]
    case Table(header, rows) => [TableElement(TableRows(header, rows), 100.0)]
    case List(ordered, items) => seq(|items|, i requires 0 <= i < |items| => ListItemElement(ordered, items[i]))
    case Code(text) => [CodeElement(text)]
    case Blockquote(text) => [BlockquoteElement(text)]
    case Hr => [RuleElement()]
    case Text(text) => if HasText(t) then [Body(text)] else []
    case Other(o) => if HasText(t) then [Body(o.value)] else []
  }

  /** The whole translation: every token's elements, in token order. */
  function Translate(tokens: seq<Token>): (elements: seq<Element>)
    decreases |tokens|
  {
    if |tokens| == 0 then []
    else Translate(tokens[..|tokens| - 1]) + TokenElements(tokens[|tokens| - 1])
  }

  /** The number of elements a token list yields, summed token by token. */
  function ElementCount(tokens: seq<Token>): nat
    decreases |tokens|
  {
    if |tokens| == 0 then 0 else TokenElementCount(tokens[0]) + ElementCount(tokens[1..])
  }

  // ---------------------------------------------------------------------------------------------
  // parseMarkdownToWordElements: the `forEach` loop that pushes into `elements`
  // ---------------------------------------------------------------------------------------------

  /** The data-row loop of the table case: pushes one row per `token.rows` entry after the header. */
  method BuildTableRows(header: Option<seq<string>>, rows: seq<seq<string>>) returns (tableRows: seq<Row>)
    ensures tableRows == TableRows(header, rows)
  {
    tableRows := [];
    if header.Some? {
      tableRows := tableRows + [HeaderRow(header.value)];
    }
    var k := 0;
    while k < |rows|
      invariant 0 <= k <= |rows|
      invariant tableRows == (if header.Some? then [HeaderRow(header.value)] else []) + DataRows(rows[..k])
    {
      assert DataRows(rows[..k + 1]) == DataRows(rows[..k]) + [DataRow(rows[k])];
      tableRows := tableRows + [DataRow(rows[k])];
      k := k + 1;
    }
    assert rows[..k] == rows;
  }

  /** The list case: pushes one paragraph per item. */
  method PushListItems(elements: seq<Element>, ordered: bool, items: seq<string>) returns (out: seq<Element>)
    ensures out == elements + TokenElements(List(ordered, items))
  {
    out := elements;
    var j := 0;
    while j < |items|
      invariant 0 <= j <= |items|
      invariant out == elements + TokenElements(List(ordered, items[..j]))
    {
      assert TokenElements(List(ordered, items[..j + 1]))
          == TokenElements(List(ordered, items[..j])) + [ListItemElement(ordered, items[j])];
      out := out + [ListItemElement(ordered, items[j])];
      j := j + 1;
    }
    assert items[..j] == items;
  }

  /** `parseMarkdownToWordElements` on the lexer's tokens. */
  method ParseMarkdownToWordElements(tokens: seq<Token>) returns (elements: seq<Element>)
    ensures elements == Translate(tokens)
  {
    elements := [];
    var i := 0;
    while i < |tokens|
      invariant 0 <= i <= |tokens|
      invariant elements == Translate(tokens[..i])
    {
      var token := tokens[i];
      assert tokens[..i + 1][..i] == tokens[..i];
      match token {
        case Heading(depth, text) =>
          elements := elements + [HeadingElement(depth, text)];
        case Paragraph(text) =>
          elements := elements + [Body(text)];
        case Table(header, rows) =>
          var tableRows := BuildTableRows(header, rows);
          elements := elements + [TableElement(tableRows, 100.0)];
        case List(ordered, items) =>
          elements := PushListItems(elements, ordered, items);
        case Code(text) =>
          elements := elements + [CodeElement(text)];
        case Blockquote(text) =>
          elements := elements + [BlockquoteElement(text)];
        case Hr =>
          elements := elements + [RuleElement()];
        case Text(text) =>
          if text != "" {
            elements := elements + [Body(text)];
          }
        case Other(o) =>
          if o.Some? && o.value != "" {
            elements := elements + [Body(o.value)];
          }
      }
      i := i + 1;
    }
    assert tokens[..i] == tokens;
  }

  // ---------------------------------------------------------------------------------------------
  // Properties of the translation
  // ---------------------------------------------------------------------------------------------

  /** Translating one more token appends that token's elements. */
  lemma TranslateSnoc(tokens: seq<Token>, t: Token)
    ensures Translate(tokens + [t]) == Translate(tokens) + TokenElements(t)
  {
    assert (tokens + [t])[..|tokens|] == tokens;
  }

  /** Translating a concatenation is concatenating the translations. */
  lemma {:induction false} TranslateConcat(a: seq<Token>, b: seq<Token>)
    ensures Translate(a + b) == Translate(a) + Translate(b)
    decreases |b|
  {
    if |b| == 0 {
      assert a + b == a;
    } else {
      var b', last := b[..|b| - 1], b[|b| - 1];
      assert b == b' + [last];
      assert a + b == (a + b') + [last];
      calc {
        Translate(a + b);
        Translate((a + b') + [last]);
        { TranslateSnoc(a + b', last); }
        Translate(a + b') + TokenElements(last);
        { TranslateConcat(a, b'); }
        Translate(a) + Translate(b') + TokenElements(last);
        { TranslateSnoc(b', last); }
        Translate(a) + Translate(b);
      }
    }
  }

  lemma {:induction false} ElementCountConcat(a: seq<Token>, b: seq<Token>)
    ensures ElementCount(a + b) == ElementCount(a) + ElementCount(b)
    decreases |a|
  {
    if |a| > 0 {
      assert (a + b)[1..] == a[1..] + b;
      ElementCountConcat(a[1..], b);
    } else {
      assert a + b == b;
    }
  }

  /** Each token kind contributes its fixed number of elements, so the total is their sum. */
  lemma {:induction false} TranslateLength(tokens: seq<Token>)
    ensures |Translate(tokens)| == ElementCount(tokens)
    decreases |tokens|
  {
    if |tokens| > 0 {
      var init := tokens[..|tokens| - 1];
      var last := tokens[|tokens| - 1];
      TranslateLength(init);
      assert tokens == init + [last];
      ElementCountConcat(init, [last]);
      assert ElementCount([last]) == TokenElementCount(last) by {
        assert [last][1..] == [];
      }
    }
  }

  /**
   * Elements follow token order: the elements of token `i` sit, in one contiguous block, right
   * after the elements of all earlier tokens.
   */
  lemma TranslateOrder(tokens: seq<Token>, i: int)
    requires 0 <= i < |tokens|
    ensures ElementCount(tokens[..i]) + TokenElementCount(tokens[i]) <= |Translate(tokens)|
    ensures Translate(tokens)[ElementCount(tokens[..i]) .. ElementCount(tokens[..i]) + TokenElementCount(tokens[i])]
            == TokenElements(tokens[i])
  {
    var pre, mid, post := tokens[..i], [tokens[i]], tokens[i + 1..];
    assert tokens == pre + mid + post;
    TranslateConcat(pre + mid, post);
    TranslateConcat(pre, mid);
    assert Translate(mid) == TokenElements(tokens[i]) by {
      assert mid[..0] == [];
    }
    TranslateLength(pre);
  }

  /** A heading gets level `depth` for 1..6 and level 1 otherwise, 400 before only at depth 1, always 200 after. */
  lemma HeadingLayout(depth: int, text: string)
    ensures var p := TokenElements(Heading(depth, text))[0].para;
      && TokenElements(Heading(depth, text)) == [ParagraphElement(p)]
      && p.text == Some(text) && p.runs == []
      && p.heading.Some? && LevelNumber(p.heading.value) == (if 1 <= depth <= 6 then depth else 1)
      && p.before == Some(if depth == 1 then 400 else 200)
      && p.after == Some(200)
  {
  }

  /** An out-of-range depth gets level 1 but only the deeper levels' spacing of 200. */
  lemma OutOfRangeHeading()
    ensures var p := HeadingElement(0, "x").para;
      p.heading == Some(Heading1) && p.before == Some(200)
    ensures HeadingElement(7, "x") == ParagraphElement(Para(Some("x"), Some(Heading1), None, [], Some(200), Some(200), None, None))
  {
  }

  /** Rows of a table: the header row whenever `header` is present (even if empty), then one per data row. */
  lemma TableLayout(header: Option<seq<string>>, rows: seq<seq<string>>)
    ensures var tr := TableRows(header, rows);
      && |tr| == (if header.Some? then 1 else 0) + |rows|
      && (header.Some? ==> tr[0] == HeaderRow(header.value))
      && forall k :: 0 <= k < |rows| ==> tr[k + (if header.Some? then 1 else 0)] == DataRow(rows[k])
  {
  }

  /** Header cells are bold with the header's text; data cells are not bold and carry the row's text. */
  lemma CellTexts(header: seq<string>, row: seq<string>)
    ensures |HeaderRow(header).cells| == |header|
    ensures forall i :: 0 <= i < |header| ==>
      HeaderRow(header).cells[i].para.runs == [Run(header[i], true, BodySize, None, None)]
    ensures |DataRow(row).cells| == |row|
    ensures forall i :: 0 <= i < |row| ==>
      DataRow(row).cells[i].para.runs == [Run(row[i], false, BodySize, None, None)]
  {
  }

  function SumWidths(cells: seq<Cell>): real
    decreases |cells|
  {
    if |cells| == 0 then 0.0 else cells[0].widthPercent + SumWidths(cells[1..])
  }

  /** Cells that all have width `w` sum to `|cells| * w`. */
  lemma {:induction false} SumEqualWidths(cells: seq<Cell>, w: real)
    requires forall i :: 0 <= i < |cells| ==> cells[i].widthPercent == w
    ensures SumWidths(cells) == (|cells| as real) * w
    decreases |cells|
  {
    if |cells| > 0 {
      SumEqualWidths(cells[1..], w);
    }
  }

  /**
   * Every non-empty row's widths sum to 100, whatever the other rows' lengths: each cell is
   * `100 / n` of its own row of `n` cells (the header row likewise).
   */
  lemma RowWidths(header: seq<string>, row: seq<string>)
    ensures |row| > 0 ==> SumWidths(DataRow(row).cells) == 100.0
    ensures |header| > 0 ==> SumWidths(HeaderRow(header).cells) == 100.0
    ensures forall i :: 0 <= i < |row| ==> DataRow(row).cells[i].widthPercent == 100.0 / (|row| as real)
    ensures forall i :: 0 <= i < |header| ==> HeaderRow(header).cells[i].widthPercent == 100.0 / (|header| as real)
  {
    if |row| > 0 {
      SumEqualWidths(DataRow(row).cells, 100.0 / (|row| as real));
    }
    if |header| > 0 {
      SumEqualWidths(HeaderRow(header).cells, 100.0 / (|header| as real));
    }
  }

  /** A ragged table: header of 3, data row of 2; the data cells are 50% each, not 100/3. */
  lemma RaggedTable()
    ensures var rows := TableRows(Some(["a", "b", "c"]), [["x", "y"]]);
      |rows| == 2 && rows[1].cells[0].widthPercent == 50.0 && rows[0].cells[0].widthPercent == 100.0 / 3.0
  {
  }

  /**
   * Ordered items all read `"1. " + text` (no numbering increment), unordered ones `"• " + text`;
   * only unordered items carry bullet level 0.
   */
  lemma ListLayout(ordered: bool, items: seq<string>)
    ensures var es := TokenElements(List(ordered, items));
      && |es| == |items|
      && forall i :: 0 <= i < |items| ==>
           && es[i].ParagraphElement? && |es[i].para.runs| == 1
           && es[i].para.runs[0].text == (if ordered then "1. " else "• ") + items[i]
           && es[i].para.bulletLevel == (if ordered then None else Some(0))
  {
    var es := TokenElements(List(ordered, items));
    forall i | 0 <= i < |items|
      ensures es[i].para.runs[0].text == (if ordered then "1. " else "• ") + items[i]
    {
      assert (if ordered then OrderedPrefix else BulletPrefix) + " " == (if ordered then "1. " else "• ");
    }
  }

  /** A horizontal rule is one paragraph holding one run of exactly 50 `─`. */
  lemma RuleLayout()
    ensures var es := TokenElements(Hr);
      && |es| == 1 && es[0].ParagraphElement? && |es[0].para.runs| == 1
      && |es[0].para.runs[0].text| == 50
      && forall k :: 0 <= k < 50 ==> es[0].para.runs[0].text[k] == '─'
  {
  }

  // ---------------------------------------------------------------------------------------------
  // exportMarkdownToWord: the section's children
  // ---------------------------------------------------------------------------------------------

  /** The optional `projectInfo` argument: every field may be missing. */
  datatype ProjectInfo = ProjectInfo(
    projectName: Option<string>,
    procurementUnit: Option<string>,
    servicePeriod: Option<string>,
    serviceLocation: Option<string>)

  const DefaultProjectName := "采购文档"
  const InfoHeading := "项目信息"
  const ContentHeading := "文档内容"
  const NameLabel := "项目名称："
  const UnitLabel := "采购单位："
  const PeriodLabel := "服务期限："
  const LocationLabel := "服务地点："

  /** The title: `projectInfo?.projectName || projectName`, where a missing `projectName` argument is the default. */
  function DocumentTitle(projectName: Option<string>, info: Option<ProjectInfo>): string {
    OrElse(if info.Some? then info.value.projectName else None, projectName.GetOr(DefaultProjectName))
  }

  function TitleElement(title: string): Element {
    ParagraphElement(Para(Some(title), Some(Heading1), Some(Center), [], Some(200), Some(200), None, None))
  }

  function SectionHeadingElement(caption: string): Element {
    ParagraphElement(Para(None, Some(Heading2), None, [Run(caption, true, 24, None, None)], Some(400), Some(200), None, None))
  }

  function InfoLineElement(caption: string, value: Option<string>, after: int): Element {
    ParagraphElement(RunsParagraph([PlainRun(caption + OrElse(value, ""), BodySize)], after))
  }

  /** The six-paragraph project-information block. */
  function InfoBlock(info: ProjectInfo): seq<Element> {
    [ SectionHeadingElement(InfoHeading),
      InfoLineElement(NameLabel, info.projectName, 100),
      InfoLineElement(UnitLabel, info.procurementUnit, 100),
      InfoLineElement(PeriodLabel, info.servicePeriod, 100),
      InfoLineElement(LocationLabel, info.serviceLocation, 200),
      SectionHeadingElement(ContentHeading) ]
  }

  /** The `children` array of the only section, for the lexer's tokens of the markdown. */
  function DocumentChildren(tokens: seq<Token>, projectName: Option<string>, info: Option<ProjectInfo>): seq<Element> {
    [TitleElement(DocumentTitle(projectName, info))]
    + (if info.Some? then InfoBlock(info.value) else [])
    + Translate(tokens)
  }

  /**
   * `exportMarkdownToWord` without the download: the section's children are built from the
   * translated tokens; `packed` says whether `Packer.toBlob` and the download succeed, and a
   * failure is rethrown to the caller (`None`).
   */
  method ExportMarkdownToWord(tokens: seq<Token>, projectName: Option<string>, info: Option<ProjectInfo>, packed: bool)
    returns (children: Option<seq<Element>>)
    ensures children == if packed then Some(DocumentChildren(tokens, projectName, info)) else None
  {
    var body := ParseMarkdownToWordElements(tokens);
    var front := [TitleElement(DocumentTitle(projectName, info))];
    if info.Some? {
      front := front + InfoBlock(info.value);
    } else {
      assert front == front + [];
    }
    children := if packed then Some(front + body) else None;
  }

  /** The title, then the six information paragraphs exactly when `projectInfo` is given, then the body. */
  lemma DocumentLayout(tokens: seq<Token>, projectName: Option<string>, info: Option<ProjectInfo>)
    ensures var cs := DocumentChildren(tokens, projectName, info);
      var k := if info.Some? then 6 else 0;
      && |cs| == 1 + k + ElementCount(tokens)
      && cs[0] == TitleElement(DocumentTitle(projectName, info))
      && cs[1 + k..] == Translate(tokens)
      && (info.Some? ==> cs[1..7] == InfoBlock(info.value))
  {
    TranslateLength(tokens);
    var cs := DocumentChildren(tokens, projectName, info);
    var k := if info.Some? then 6 else 0;
    assert cs[1 + k..] == Translate(tokens);
  }

  /** The title is the info's project name when that is non-empty, else the argument, else the default. */
  lemma TitleChoice(projectName: Option<string>, info: Option<ProjectInfo>)
    ensures info.Some? && info.value.projectName.Some? && info.value.projectName.value != ""
            ==> DocumentTitle(projectName, info) == info.value.projectName.value
    ensures (info.None? || info.value.projectName.None? || info.value.projectName.value == "")
            ==> DocumentTitle(projectName, info) == (if projectName.Some? then projectName.value else DefaultProjectName)
  {
  }

  /** A missing field renders as its caption followed by nothing. */
  lemma MissingInfoField(caption: string, after: int)
    ensures InfoLineElement(caption, None, after).para.runs[0].text == caption
    ensures InfoLineElement(caption, Some(""), after).para.runs[0].text == caption
  {
    assert caption + "" == caption;
  }

  // ---------------------------------------------------------------------------------------------
  // markdownToText: the `forEach` loop that pushes into `textParts`
  // ---------------------------------------------------------------------------------------------

  const CellSeparator := " | "
  const PartSeparator := '\n'

  /** The text lines of a table: the joined header when present, then each joined data row. */
  function TableTextParts(header: Option<seq<string>>, rows: seq<seq<string>>): seq<string> {
    (if header.Some? then [Join(header.value, CellSeparator)] else [])
    + seq(|rows|, k requires 0 <= k < |rows| => Join(rows[k], CellSeparator))
  }

  /** How many parts one token contributes: headings, paragraphs and text always one, other tokens only with text. */
  function TokenPartCount(t: Token): nat {
    match t
    case Table(header, rows) => (if header.Some? then 1 else 0) + |rows|
    case List(_, items) => |items|
    case Hr => 0
    case Other(o) => if HasText(t) then 1 else 0
    case _ => 1
  }

  function TokenTextParts(t: Token): (r: seq<string>)
    ensures |r| == TokenPartCount(t)
  {
    match t
    case Heading(_, text) => [text]
    case Paragraph(text) => [text]
    case Text(text) => [text]
    case Table(header, rows) => TableTextParts(header, rows)
    case List(_, items) => items
    case Code(text) => [text]
    case Blockquote(text) => [text]
    case Hr => []
    case Other(o) => if HasText(t) then [o.value] else []
  }

  function TextParts(tokens: seq<Token>): (lines: seq<string>)
    decreases |tokens|
  {
    if |tokens| == 0 then []
    else TextParts(tokens[..|tokens| - 1]) + TokenTextParts(tokens[|tokens| - 1])
  }

  function PartCount(tokens: seq<Token>): nat
    decreases |tokens|
  {
    if |tokens| == 0 then 0 else PartCount(tokens[..|tokens| - 1]) + TokenPartCount(tokens[|tokens| - 1])
  }

  /** The table case: pushes the joined header when present, then each joined data row. */
  method PushTableText(parts: seq<string>, header: Option<seq<string>>, rows: seq<seq<string>>) returns (out: seq<string>)
    ensures out == parts + TableTextParts(header, rows)
  {
    out := parts;
    if header.Some? {
      out := out + [Join(header.value, CellSeparator)];
    }
    ghost var start := out;
    var k := 0;
    while k < |rows|
      invariant 0 <= k <= |rows|
      invariant out == start + seq(k, j requires 0 <= j < k => Join(rows[j], CellSeparator))
    {
      out := out + [Join(rows[k], CellSeparator)];
      k := k + 1;
    }
  }

  /** The list case: pushes every item's text. */
  method PushItemTexts(parts: seq<string>, items: seq<string>) returns (out: seq<string>)
    ensures out == parts + items
  {
    out := parts;
    var j := 0;
    while j < |items|
      invariant 0 <= j <= |items|
      invariant out == parts + items[..j]
    {
      assert items[..j + 1] == items[..j] + [items[j]];
      out := out + [items[j]];
      j := j + 1;
    }
    assert items[..j] == items;
  }

  /** `markdownToText` on the lexer's tokens: the parts joined with newlines. */
  method MarkdownToText(tokens: seq<Token>) returns (text: string)
    ensures text == Join(TextParts(tokens), [PartSeparator])
  {
    var textParts: seq<string> := [];
    var i := 0;
    while i < |tokens|
      invariant 0 <= i <= |tokens|
      invariant textParts == TextParts(tokens[..i])
    {
      assert tokens[..i + 1][..i] == tokens[..i];
      match tokens[i] {
        case Heading(_, t) =>
          textParts := textParts + [t];
        case Paragraph(t) =>
          textParts := textParts + [t];
        case Text(t) =>
          textParts := textParts + [t];
        case Table(header, rows) =>
          textParts := PushTableText(textParts, header, rows);
        case List(_, items) =>
          textParts := PushItemTexts(textParts, items);
        case Code(t) =>
          textParts := textParts + [t];
        case Blockquote(t) =>
          textParts := textParts + [t];
        case Hr =>
        case Other(o) =>
          if o.Some? && o.value != "" {
            textParts := textParts + [o.value];
          }
      }
      i := i + 1;
    }
    assert tokens[..i] == tokens;
    text := Join(textParts, [PartSeparator]);
  }

  /** One part per heading, paragraph or text token (even empty), one per table row, one per list item. */
  lemma {:induction false} TextPartsLength(tokens: seq<Token>)
    ensures |TextParts(tokens)| == PartCount(tokens)
    decreases |tokens|
  {
    if |tokens| > 0 {
      TextPartsLength(tokens[..|tokens| - 1]);
    }
  }

  /** An empty heading still yields its (empty) line, an empty default token yields none. */
  lemma EmptyTextParts()
    ensures TextParts([Heading(1, ""), Other(Some(""))]) == [""]
    ensures TextParts([Other(Some("")), Paragraph("")]) == [""]
  {
    assert [Heading(1, ""), Other(Some(""))][..1] == [Heading(1, "")];
    assert [Other(Some("")), Paragraph("")][..1] == [Other(Some(""))];
  }

  /** When no part contains a newline, the plain text splits back into exactly the parts. */
  lemma TextRoundTrip(tokens: seq<Token>, text: string)
    requires text == Join(TextParts(tokens), [PartSeparator])
    requires |TextParts(tokens)| > 0
    requires forall i :: 0 <= i < |TextParts(tokens)| ==> PartSeparator !in TextParts(tokens)[i]
    ensures Split(text, PartSeparator) == TextParts(tokens)
  {
    JoinSplit(TextParts(tokens), PartSeparator);
  }
}
