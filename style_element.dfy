/** The `a:tblStyle` fragment (DrawingML table style, ECMA-376 Part 1,
    section 20.1.4.2) that the injector writes: a fixed template with slots
    for the style id, the style name and three fill colours, and an optional
    `a:firstRow` block. Rendering is concatenation of constant text and the
    slot values; nothing is escaped or checked. */
module StyleElement {
  import opened Text

  /** The text colour `first_row` uses when it is not given one. */
  const DefaultTextColor: string := "FFFFFF"

  function OpenTag(tag: string): string {
    "<a:" + tag + ">"
  }

  function CloseTag(tag: string): string {
    "</a:" + tag + ">"
  }

  /** An RGB colour element, `<a:srgbClr val="..." />`. */
  function ColorTag(color: string): string {
    "<a:srgbClr val=\"" + color + "\" />"
  }

  function StyleOpenTag(styleId: string, styleName: string): string {
    "<a:tblStyle styleId=\"" + styleId + "\" styleName=\"" + styleName + "\">"
  }

  /** One line of the template: a line break, `indent` spaces and one tag,
      given as the text that follows its `<`. */
  function Line(indent: nat, tag: string): string {
    Newline(indent) + "<" + tag
  }

  /** Border width, in EMU, of the thin white borders of the whole table. */
  const ThinBorder: string := "12700"

  /** Border width, in EMU, of the thick white rule under the header row and
      above the last row. */
  const ThickBorder: string := "38100"

  /** One cell border `a:<side>`: a solid line of width `width`, drawn in
      the light scheme colour. */
  function Border(side: string, width: string): string {
    Line(20, "a:" + side + ">")
    + Line(24, "a:ln w=\"" + width + "\" cmpd=\"sng\">")
    + Line(28, "a:solidFill>")
    + Line(32, "a:schemeClr val=\"lt1\" />")
    + Line(28, "/a:solidFill>")
    + Line(24, "/a:ln>")
    + Line(20, "/a:" + side + ">")
  }

  /** The six thin borders of `a:wholeTbl`. */
  const ThinBorders: string :=
    Border("left", ThinBorder)
    + Border("right", ThinBorder)
    + Border("top", ThinBorder)
    + Border("bottom", ThinBorder)
    + Border("insideH", ThinBorder)
    + Border("insideV", ThinBorder)

  /** A cell style whose border element holds `borders`; the cell style is
      left open. */
  function CellBorders(borders: string): string {
    Line(12, "a:tcStyle>")
    + Line(16, "a:tcBdr>")
    + borders
    + Line(16, "/a:tcBdr>")
  }

  /** A cell style with an empty border element, left open. */
  const EmptyBorders: string :=
    Line(12, "a:tcStyle>")
    + Line(16, "a:tcBdr />")

  /** What closes a cell style, up to the line of the element's closing tag. */
  const StyleEnd: string :=
    Line(12, "/a:tcStyle>")
    + Newline(8)

  /** The minor theme font, in black. */
  const FontRef: string :=
    Line(16, "a:fontRef idx=\"minor\">")
    + Line(20, "a:prstClr val=\"black\" />")
    + Line(16, "/a:fontRef>")

  /** What opens a solid cell fill, up to its colour. */
  const FillStart: string :=
    Line(16, "a:fill>")
    + Line(20, "a:solidFill>")
    + Newline(24)

  /** Text of `a:wholeTbl` between its opening tag and the fill colour: the
      default text style and the six white cell borders. */
  const WholeTblBody: string :=
    Line(12, "a:tcTxStyle>")
    + FontRef
    + Line(16, "a:schemeClr val=\"dk1\" />")
    + Line(12, "/a:tcTxStyle>")
    + CellBorders(ThinBorders)
    + FillStart

  /** Text of a horizontal band (`a:band1H`, `a:band2H`) between its opening
      tag and the fill colour. */
  const BandFillBody: string :=
    EmptyBorders + FillStart

  /** What closes a solid fill after its colour, up to the element's closing tag. */
  const FillEnd: string :=
    Line(20, "/a:solidFill>")
    + Line(16, "/a:fill>")
    + StyleEnd

  /** Body of a vertical band (`a:band1V`, `a:band2V`): an empty border. */
  const BorderOnlyBody: string :=
    EmptyBorders + StyleEnd

  /** Body of `a:lastRow`: bold text and a thick top border. */
  const LastRowBody: string :=
    Line(12, "a:tcTxStyle b=\"on\">")
    + FontRef
    + Line(16, "a:schemeClr val=\"lt1\" />")
    + Line(12, "/a:tcTxStyle>")
    + CellBorders(Border("top", ThickBorder))
    + StyleEnd

  /** Text of `a:firstRow` between its opening tag and the text colour. */
  const FirstRowBodyHead: string :=
    Line(12, "a:tcTxStyle b=\"on\">")
    + FontRef
    + Newline(16)

  /** Text of `a:firstRow` after the text colour, up to its closing tag. */
  const FirstRowBodyTail: string :=
    Line(12, "/a:tcTxStyle>")
    + CellBorders(Border("bottom", ThickBorder))
    + StyleEnd

  /** The constant text of the template, as one value, so that the layout
      lemmas below hold for any template text and need not look inside it. */
  datatype Pieces = Pieces(wholeTbl: string, bandFill: string, fillEnd: string, borderOnly: string,
                           lastRow: string, firstRowHead: string, firstRowTail: string)

  const Template: Pieces :=
    Pieces(WholeTblBody, BandFillBody, FillEnd, BorderOnlyBody, LastRowBody, FirstRowBodyHead, FirstRowBodyTail)

  /** An element whose cells are filled with one solid colour. */
  function FilledElement(p: Pieces, tag: string, body: string, color: string): string {
    Newline(8) + OpenTag(tag) + body + ColorTag(color) + p.fillEnd + CloseTag(tag)
  }

  function BorderOnlyElement(p: Pieces, tag: string): string {
    Newline(8) + OpenTag(tag) + p.borderOnly + CloseTag(tag)
  }

  function FirstRowOf(p: Pieces, display: bool, textColor: string): string {
    if display then
      Newline(12) + OpenTag("firstRow") + p.firstRowHead + ColorTag(textColor)
      + p.firstRowTail + CloseTag("firstRow") + Newline(8)
    else ""
  }

  /** `first_row(display, text_color)`: the header-row block, or nothing. */
  function FirstRow(display: bool, textColor: string): (r: string)
    ensures !display ==> r == ""
  {
    FirstRowOf(Template, display, textColor)
  }

  function Opening(styleId: string, styleName: string): string {
    Newline(4) + StyleOpenTag(styleId, styleName)
  }

  /** The three colour-carrying elements, in template order. */
  function Fills(p: Pieces, bgColor: string, evenColor: string, oddColor: string): string {
    FilledElement(p, "wholeTbl", p.wholeTbl, bgColor)
    + FilledElement(p, "band1H", p.bandFill, evenColor)
    + FilledElement(p, "band2H", p.bandFill, oddColor)
  }

  /** The vertical bands and the whole last row: what precedes the
      first-row slot after the colour elements. */
  function LastRowClosed(p: Pieces): string {
    BorderOnlyElement(p, "band1V") + BorderOnlyElement(p, "band2V")
    + "\n" + Newline(8) + OpenTag("lastRow") + p.lastRow + CloseTag("lastRow") + Newline(4)
  }

  /** Everything the template renders after the first-row slot. */
  function StyleTail(): string {
    Newline(4) + CloseTag("tblStyle") + Newline(4)
  }

  /** Everything after the colour elements; the first-row block always gets
      the default (white) text colour. */
  function AfterFills(p: Pieces, includeFirstRow: bool): string {
    LastRowClosed(p) + FirstRowOf(p, includeFirstRow, DefaultTextColor) + StyleTail()
  }

  /** The whole fragment. */
  function Render(p: Pieces, styleId: string, styleName: string, bgColor: string, evenColor: string,
                  oddColor: string, includeFirstRow: bool): string
  {
    Opening(styleId, styleName) + Fills(p, bgColor, evenColor, oddColor) + AfterFills(p, includeFirstRow)
  }

  /** `get_style_element`, over the template text. */
  function GetStyleElement(styleId: string, styleName: string, bgColor: string, evenColor: string,
                           oddColor: string, includeFirstRow: bool): string
  {
    Render(Template, styleId, styleName, bgColor, evenColor, oddColor, includeFirstRow)
  }

  /** The value `v` sits at index `i`, after the text `open` at `a` and
      before the text `close` at `b`. */
  predicate Enclosed(s: string, open: string, v: string, close: string, a: nat, i: nat, b: nat) {
    && a + |open| <= i && i + |v| <= b
    && OccursAt(s, open, a) && OccursAt(s, v, i) && OccursAt(s, close, b)
  }

  /** The value `v` sits at index `i`, somewhere after `open` and before `close`. */
  ghost predicate Within(s: string, open: string, v: string, close: string, i: nat) {
    exists a: nat, b: nat :: Enclosed(s, open, v, close, a, i, b)
  }

  /** The value `v` sits at index `i` inside an element `tag`. */
  ghost predicate InElement(s: string, tag: string, v: string, i: nat) {
    Within(s, OpenTag(tag), v, CloseTag(tag), i)
  }

  lemma EnclosedBefore(x: string, y: string, open: string, v: string, close: string, a: nat, i: nat, b: nat)
    requires Enclosed(x, open, v, close, a, i, b)
    ensures Enclosed(x + y, open, v, close, a, i, b)
  {
    OccursBefore(x, y, v, i);
    OccursBefore(x, y, open, a);
    OccursBefore(x, y, close, b);
  }

  lemma EnclosedAfter(x: string, y: string, open: string, v: string, close: string, a: nat, i: nat, b: nat)
    requires Enclosed(y, open, v, close, a, i, b)
    ensures Enclosed(x + y, open, v, close, |x| + a, |x| + i, |x| + b)
  {
    OccursAfter(x, y, v, i);
    OccursAfter(x, y, open, a);
    OccursAfter(x, y, close, b);
  }

  lemma EnclosedWide(x: string, m: string, y: string, open: string, v: string, close: string,
                     a: nat, i: nat, b: nat)
    requires Enclosed(m, open, v, close, a, i, b)
    ensures Enclosed(x + m + y, open, v, close, |x| + a, |x| + i, |x| + b)
  {
    EnclosedAfter(x, m, open, v, close, a, i, b);
    EnclosedBefore(x + m, y, open, v, close, |x| + a, |x| + i, |x| + b);
  }

  /** `open`, then `v`, then `close`, within text laid out around them. */
  lemma EnclosedLayout(nl: string, open: string, body: string, v: string, rest: string, close: string)
    ensures Enclosed(nl + open + body + v + rest + close, open, v, close,
                     |nl|, |nl + open + body|, |nl + open + body + v + rest|)
  {
    var p2 := nl + open + body;
    var p4 := p2 + v + rest;
    OccursInMiddle(nl, open, body + v + rest + close);
    assert nl + open + (body + v + rest + close) == p4 + close;
    OccursInMiddle(p2, v, rest + close);
    assert p2 + v + (rest + close) == p4 + close;
    OccursAtEnd(p4, close);
  }

  lemma FirstRowLayout(p: Pieces, textColor: string)
    ensures BeginsAfterBlank(FirstRowOf(p, true, textColor), OpenTag("firstRow"))
    ensures EndsBeforeBlank(FirstRowOf(p, true, textColor), CloseTag("firstRow"))
    ensures Contains(FirstRowOf(p, true, textColor), ColorTag(textColor))
  {
    var p1 := Newline(12) + OpenTag("firstRow");
    var p2 := p1 + p.firstRowHead;
    var p3 := p2 + ColorTag(textColor);
    var p4 := p3 + p.firstRowTail;
    var p5 := p4 + CloseTag("firstRow");
    BlankThen(Newline(12), OpenTag("firstRow"));
    BeginsBefore(p1, p.firstRowHead, OpenTag("firstRow"));
    BeginsBefore(p2, ColorTag(textColor), OpenTag("firstRow"));
    BeginsBefore(p3, p.firstRowTail, OpenTag("firstRow"));
    BeginsBefore(p4, CloseTag("firstRow"), OpenTag("firstRow"));
    BeginsBefore(p5, Newline(8), OpenTag("firstRow"));
    ThenBlank(p4, CloseTag("firstRow"), Newline(8));
    OccursAtEnd(p2, ColorTag(textColor));
    OccursBefore(p3, p.firstRowTail, ColorTag(textColor), |p2|);
    OccursBefore(p4, CloseTag("firstRow"), ColorTag(textColor), |p2|);
    OccursBefore(p5, Newline(8), ColorTag(textColor), |p2|);
  }

  /** The shown first-row block starts (after blanks) with `<a:firstRow>`,
      ends (before blanks) with `</a:firstRow>` and carries the text colour. */
  lemma FirstRowShown(textColor: string)
    ensures BeginsAfterBlank(FirstRow(true, textColor), OpenTag("firstRow"))
    ensures EndsBeforeBlank(FirstRow(true, textColor), CloseTag("firstRow"))
    ensures Contains(FirstRow(true, textColor), ColorTag(textColor))
  {
    FirstRowLayout(Template, textColor);
  }

  lemma RenderTags(p: Pieces, styleId: string, styleName: string, bgColor: string, evenColor: string,
                   oddColor: string, includeFirstRow: bool)
    ensures BeginsAfterBlank(Render(p, styleId, styleName, bgColor, evenColor, oddColor, includeFirstRow),
                             StyleOpenTag(styleId, styleName))
    ensures EndsBeforeBlank(Render(p, styleId, styleName, bgColor, evenColor, oddColor, includeFirstRow),
                            CloseTag("tblStyle"))
  {
    var t := StyleOpenTag(styleId, styleName);
    var opening := Opening(styleId, styleName);
    var fills := Fills(p, bgColor, evenColor, oddColor);
    var row := FirstRowOf(p, includeFirstRow, DefaultTextColor);
    BlankThen(Newline(4), t);
    BeginsBefore(opening, fills, t);
    BeginsBefore(opening + fills, AfterFills(p, includeFirstRow), t);
    ThenBlank(Newline(4), CloseTag("tblStyle"), Newline(4));
    EndsAfter(LastRowClosed(p) + row, StyleTail(), CloseTag("tblStyle"));
    EndsAfter(opening + fills, AfterFills(p, includeFirstRow), CloseTag("tblStyle"));
  }

  /** The fragment opens (after blanks) with the `a:tblStyle` tag carrying the
      given id and name, and closes (before blanks) with `</a:tblStyle>`. */
  lemma StyleElementTags(styleId: string, styleName: string, bgColor: string, evenColor: string,
                         oddColor: string, includeFirstRow: bool)
    ensures BeginsAfterBlank(GetStyleElement(styleId, styleName, bgColor, evenColor, oddColor, includeFirstRow),
                             StyleOpenTag(styleId, styleName))
    ensures EndsBeforeBlank(GetStyleElement(styleId, styleName, bgColor, evenColor, oddColor, includeFirstRow),
                            CloseTag("tblStyle"))
  {
    RenderTags(Template, styleId, styleName, bgColor, evenColor, oddColor, includeFirstRow);
  }

  lemma EnclosedWithin(s: string, open: string, v: string, close: string, a: nat, i: nat, b: nat)
    requires Enclosed(s, open, v, close, a, i, b)
    ensures Within(s, open, v, close, i)
  {
  }

  /** What is enclosed in the first of three parts stays enclosed when the
      parts are put between `x` and `y`. */
  lemma FirstOfThree(x: string, e1: string, e2: string, e3: string, y: string,
                     open: string, v: string, close: string, a: nat, i: nat, b: nat)
    requires Enclosed(e1, open, v, close, a, i, b)
    ensures Within(x + (e1 + e2 + e3) + y, open, v, close, |x| + i)
  {
    EnclosedBefore(e1, e2, open, v, close, a, i, b);
    EnclosedBefore(e1 + e2, e3, open, v, close, a, i, b);
    EnclosedWide(x, e1 + e2 + e3, y, open, v, close, a, i, b);
    EnclosedWithin(x + (e1 + e2 + e3) + y, open, v, close, |x| + a, |x| + i, |x| + b);
  }

  lemma SecondOfThree(x: string, e1: string, e2: string, e3: string, y: string,
                      open: string, v: string, close: string, a: nat, i: nat, b: nat)
    requires Enclosed(e2, open, v, close, a, i, b)
    ensures Within(x + (e1 + e2 + e3) + y, open, v, close, |x| + |e1| + i)
  {
    EnclosedWide(e1, e2, e3, open, v, close, a, i, b);
    EnclosedWide(x, e1 + e2 + e3, y, open, v, close, |e1| + a, |e1| + i, |e1| + b);
    EnclosedWithin(x + (e1 + e2 + e3) + y, open, v, close, |x| + |e1| + a, |x| + |e1| + i, |x| + |e1| + b);
  }

  lemma ThirdOfThree(x: string, e1: string, e2: string, e3: string, y: string,
                     open: string, v: string, close: string, a: nat, i: nat, b: nat)
    requires Enclosed(e3, open, v, close, a, i, b)
    ensures Within(x + (e1 + e2 + e3) + y, open, v, close, |x| + |e1| + |e2| + i)
  {
    var k := |e1 + e2|;
    EnclosedAfter(e1 + e2, e3, open, v, close, a, i, b);
    EnclosedWide(x, e1 + e2 + e3, y, open, v, close, k + a, k + i, k + b);
    EnclosedWithin(x + (e1 + e2 + e3) + y, open, v, close, |x| + k + a, |x| + k + i, |x| + k + b);
  }

  /** Three elements laid out alike, each with a value between its opening
      and closing texts, placed between `x` and `y`: each value lies inside
      its own element, in order. */
  lemma ThreeEnclosed(x: string, y: string, nl: string, rest: string,
                      o1: string, b1: string, v1: string, c1: string,
                      o2: string, b2: string, v2: string, c2: string,
                      o3: string, b3: string, v3: string, c3: string)
    requires |nl| > 0
    ensures exists i1: nat, i2: nat, i3: nat ::
      var s := x + ((nl + o1 + b1 + v1 + rest + c1) + (nl + o2 + b2 + v2 + rest + c2)
                    + (nl + o3 + b3 + v3 + rest + c3)) + y;
      && i1 < i2 < i3
      && Within(s, o1, v1, c1, i1) && Within(s, o2, v2, c2, i2) && Within(s, o3, v3, c3, i3)
  {
    var e1 := nl + o1 + b1 + v1 + rest + c1;
    var e2 := nl + o2 + b2 + v2 + rest + c2;
    var e3 := nl + o3 + b3 + v3 + rest + c3;
    EnclosedLayout(nl, o1, b1, v1, rest, c1);
    EnclosedLayout(nl, o2, b2, v2, rest, c2);
    EnclosedLayout(nl, o3, b3, v3, rest, c3);
    FirstOfThree(x, e1, e2, e3, y, o1, v1, c1, |nl|, |nl + o1 + b1|, |nl + o1 + b1 + v1 + rest|);
    SecondOfThree(x, e1, e2, e3, y, o2, v2, c2, |nl|, |nl + o2 + b2|, |nl + o2 + b2 + v2 + rest|);
    ThirdOfThree(x, e1, e2, e3, y, o3, v3, c3, |nl|, |nl + o3 + b3|, |nl + o3 + b3 + v3 + rest|);
    var s := x + (e1 + e2 + e3) + y;
    var i1, i2, i3 := |x| + |nl + o1 + b1|, |x| + |e1| + |nl + o2 + b2|, |x| + |e1| + |e2| + |nl + o3 + b3|;
    assert i1 < i2 < i3;
    assert Within(s, o1, v1, c1, i1) && Within(s, o2, v2, c2, i2) && Within(s, o3, v3, c3, i3);
  }

  lemma RenderColors(p: Pieces, styleId: string, styleName: string, bgColor: string, evenColor: string,
                     oddColor: string, includeFirstRow: bool)
    ensures exists i1: nat, i2: nat, i3: nat ::
      var r := Render(p, styleId, styleName, bgColor, evenColor, oddColor, includeFirstRow);
      && i1 < i2 < i3
      && InElement(r, "wholeTbl", ColorTag(bgColor), i1)
      && InElement(r, "band1H", ColorTag(evenColor), i2)
      && InElement(r, "band2H", ColorTag(oddColor), i3)
  {
    var r := Render(p, styleId, styleName, bgColor, evenColor, oddColor, includeFirstRow);
    ThreeEnclosed(Opening(styleId, styleName), AfterFills(p, includeFirstRow), Newline(8), p.fillEnd,
                  OpenTag("wholeTbl"), p.wholeTbl, ColorTag(bgColor), CloseTag("wholeTbl"),
                  OpenTag("band1H"), p.bandFill, ColorTag(evenColor), CloseTag("band1H"),
                  OpenTag("band2H"), p.bandFill, ColorTag(oddColor), CloseTag("band2H"));
    var i1: nat, i2: nat, i3: nat :|
      && i1 < i2 < i3
      && Within(r, OpenTag("wholeTbl"), ColorTag(bgColor), CloseTag("wholeTbl"), i1)
      && Within(r, OpenTag("band1H"), ColorTag(evenColor), CloseTag("band1H"), i2)
      && Within(r, OpenTag("band2H"), ColorTag(oddColor), CloseTag("band2H"), i3);
    assert InElement(r, "wholeTbl", ColorTag(bgColor), i1);
    assert InElement(r, "band1H", ColorTag(evenColor), i2);
    assert InElement(r, "band2H", ColorTag(oddColor), i3);
  }

  /** The background colour is the fill inside `a:wholeTbl`, the even-row
      colour the fill inside `a:band1H` and the odd-row colour the fill inside
      `a:band2H`, appearing in that order. */
  lemma ColorsInTheirBands(styleId: string, styleName: string, bgColor: string, evenColor: string,
                           oddColor: string, includeFirstRow: bool)
    ensures exists i1: nat, i2: nat, i3: nat ::
      var r := GetStyleElement(styleId, styleName, bgColor, evenColor, oddColor, includeFirstRow);
      && i1 < i2 < i3
      && InElement(r, "wholeTbl", ColorTag(bgColor), i1)
      && InElement(r, "band1H", ColorTag(evenColor), i2)
      && InElement(r, "band2H", ColorTag(oddColor), i3)
  {
    var r := GetStyleElement(styleId, styleName, bgColor, evenColor, oddColor, includeFirstRow);
    assert r == Render(Template, styleId, styleName, bgColor, evenColor, oddColor, includeFirstRow);
    RenderColors(Template, styleId, styleName, bgColor, evenColor, oddColor, includeFirstRow);
  }

  /** Putting `r` after `lead + close + nl` is inserting it into the text
      that has nothing there, at a point that ends with `close` and blanks. */
  lemma InsertedAfter(x: string, lead: string, close: string, nl: string, r: string, t: string)
    requires AllBlank(nl)
    ensures exists k: nat ::
      var without := x + (lead + close + nl + "" + t);
      && k <= |without|
      && x + (lead + close + nl + r + t) == without[..k] + r + without[k..]
      && EndsBeforeBlank(without[..k], close)
  {
    var l := lead + close + nl;
    var w := x + (l + "" + t);
    assert w == (x + l) + t;
    assert w[..|x + l|] == x + l;
    assert w[|x + l|..] == t;
    ThenBlank(lead, close, nl);
    EndsAfter(x, l, close);
  }

  lemma RenderSlot(p: Pieces, styleId: string, styleName: string, bgColor: string, evenColor: string,
                   oddColor: string)
    ensures exists k: nat ::
      var without := Render(p, styleId, styleName, bgColor, evenColor, oddColor, false);
      && k <= |without|
      && Render(p, styleId, styleName, bgColor, evenColor, oddColor, true)
         == without[..k] + FirstRowOf(p, true, DefaultTextColor) + without[k..]
      && EndsBeforeBlank(without[..k], CloseTag("lastRow"))
  {
    var without := Render(p, styleId, styleName, bgColor, evenColor, oddColor, false);
    var row := FirstRowOf(p, true, DefaultTextColor);
    InsertedAfter(Opening(styleId, styleName) + Fills(p, bgColor, evenColor, oddColor),
                  BorderOnlyElement(p, "band1V") + BorderOnlyElement(p, "band2V") + "\n" + Newline(8)
                  + OpenTag("lastRow") + p.lastRow,
                  CloseTag("lastRow"), Newline(4), row, StyleTail());
    var k: nat :|
      && k <= |without|
      && Render(p, styleId, styleName, bgColor, evenColor, oddColor, true) == without[..k] + row + without[k..]
      && EndsBeforeBlank(without[..k], CloseTag("lastRow"));
  }

  /** The flag only inserts the white first-row block, at the one slot just
      after `</a:lastRow>`; with the flag off the block is empty. */
  lemma FirstRowSlot(styleId: string, styleName: string, bgColor: string, evenColor: string, oddColor: string)
    ensures exists k: nat ::
      var without := GetStyleElement(styleId, styleName, bgColor, evenColor, oddColor, false);
      && k <= |without|
      && GetStyleElement(styleId, styleName, bgColor, evenColor, oddColor, true)
         == without[..k] + FirstRow(true, DefaultTextColor) + without[k..]
      && EndsBeforeBlank(without[..k], CloseTag("lastRow"))
  {
    var with := GetStyleElement(styleId, styleName, bgColor, evenColor, oddColor, true);
    var without := GetStyleElement(styleId, styleName, bgColor, evenColor, oddColor, false);
    assert with == Render(Template, styleId, styleName, bgColor, evenColor, oddColor, true);
    assert without == Render(Template, styleId, styleName, bgColor, evenColor, oddColor, false);
    assert FirstRow(true, DefaultTextColor) == FirstRowOf(Template, true, DefaultTextColor);
    RenderSlot(Template, styleId, styleName, bgColor, evenColor, oddColor);
  }
}
