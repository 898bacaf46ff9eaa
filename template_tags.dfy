/** Without its header row the fragment holds no `a:firstRow` opening tag,
    whatever texts fill its slots, as long as none of them holds a `'<'`.
    Every template line is one tag, shown from its own text to be neither
    that tag nor a beginning of it; text that is `Clean` in this sense stays
    clean when joined. */
module TemplateTags {
  import opened Text
  import opened StyleElement

  /** The tag whose absence is shown. */
  const Marker: string := OpenTag("firstRow")

  /** `x` holds no `'<'`. */
  predicate NoLt(x: string) {
    forall i | 0 <= i < |x| :: x[i] != '<'
  }

  /** The tag `"<" + x` holds no other `'<'` and its text differs from that
      of `Marker` at `k`. */
  predicate SafeTag(x: string, k: nat) {
    NoLt(x) && k < |x| && k + 1 < |Marker| && x[k] != Marker[k + 1]
  }

  lemma NoLtIn(x: string)
    requires '<' !in x
    ensures NoLt(x)
  {
  }

  lemma SafeTagClean(x: string, k: nat)
    requires SafeTag(x, k)
    ensures Clean("<" + x, Marker)
  {
    assert '<' !in x by {
      forall i | 0 <= i < |x| ensures x[i] != '<' {
      }
    }
    TagClean(x, Marker, k);
  }

  lemma LineClean(indent: nat, x: string, k: nat)
    requires SafeTag(x, k)
    ensures Clean(Line(indent, x), Marker)
  {
    assert Line(indent, x) == Newline(indent) + ("<" + x);
    NewlineClean(indent, Marker);
    SafeTagClean(x, k);
    CleanAppend(Newline(indent), "<" + x, Marker);
  }

  /** `x + v + y` holds no `'<'` when none of its parts does. */
  lemma NoLtAround(x: string, v: string, y: string)
    requires NoLt(x) && NoLt(v) && NoLt(y)
    ensures NoLt(x + v + y)
  {
    var s := x + v + y;
    forall i | 0 <= i < |s| ensures s[i] != '<' {
      if i < |x| {
        assert s[i] == x[i];
      } else if i < |x| + |v| {
        assert s[i] == v[i - |x|];
      } else {
        assert s[i] == y[i - |x| - |v|];
      }
    }
  }

  /** An opening tag `a:<tag>` with a name that does not start as
      `firstRow` does. */
  lemma OpenTagClean(tag: string)
    requires NoLt(tag) && |tag| > 0 && tag[0] != 'f'
    ensures Clean(OpenTag(tag), Marker)
  {
    var x := "a:" + tag + ">";
    assert OpenTag(tag) == "<" + x;
    NoLtAround("a:", tag, ">");
    assert x[2] == tag[0];
    SafeTagClean(x, 2);
  }

  lemma CloseTagClean(tag: string)
    requires NoLt(tag)
    ensures Clean(CloseTag(tag), Marker)
  {
    var x := "/a:" + tag + ">";
    assert CloseTag(tag) == "<" + x;
    NoLtAround("/a:", tag, ">");
    SafeTagClean(x, 0);
  }

  lemma ColorTagClean(color: string)
    requires NoLt(color)
    ensures Clean(ColorTag(color), Marker)
  {
    var x := "a:srgbClr val=\"" + color + "\" />";
    assert ColorTag(color) == "<" + x;
    NoLtAround("a:srgbClr val=\"", color, "\" />");
    SafeTagClean(x, 2);
  }

  lemma StyleOpenTagClean(styleId: string, styleName: string)
    requires NoLt(styleId) && NoLt(styleName)
    ensures Clean(StyleOpenTag(styleId, styleName), Marker)
  {
    var lead := "<a:tblStyle styleId=\"";
    OpenedClean(lead, Marker, 3);
    PlainClean(styleId, Marker);
    PlainClean("\" styleName=\"", Marker);
    PlainClean(styleName, Marker);
    PlainClean("\">", Marker);
    CleanAppend(lead, styleId, Marker);
    CleanAppend(lead + styleId, "\" styleName=\"", Marker);
    CleanAppend(lead + styleId + "\" styleName=\"", styleName, Marker);
    CleanAppend(lead + styleId + "\" styleName=\"" + styleName, "\">", Marker);
  }

  lemma BorderTags()
    ensures SafeTag("a:solidFill>", 2) && SafeTag("a:schemeClr val=\"lt1\" />", 2)
    ensures SafeTag("/a:solidFill>", 0) && SafeTag("/a:ln>", 0)
  {
  }

  lemma BorderClean(side: string, width: string)
    requires NoLt(side) && |side| > 0 && side[0] != 'f' && NoLt(width)
    ensures Clean(Border(side, width), Marker)
  {
    BorderTags();
    NoLtAround("a:", side, ">");
    assert ("a:" + side + ">")[2] == side[0];
    NoLtAround("a:ln w=\"", width, "\" cmpd=\"sng\">");
    NoLtAround("/a:", side, ">");
    LineClean(20, "a:" + side + ">", 2);
    LineClean(24, "a:ln w=\"" + width + "\" cmpd=\"sng\">", 2);
    LineClean(28, "a:solidFill>", 2);
    LineClean(32, "a:schemeClr val=\"lt1\" />", 2);
    LineClean(28, "/a:solidFill>", 0);
    LineClean(24, "/a:ln>", 0);
    LineClean(20, "/a:" + side + ">", 0);
    var s := Line(20, "a:" + side + ">");
    CleanAppend(s, Line(24, "a:ln w=\"" + width + "\" cmpd=\"sng\">"), Marker);
    s := s + Line(24, "a:ln w=\"" + width + "\" cmpd=\"sng\">");
    CleanAppend(s, Line(28, "a:solidFill>"), Marker);
    s := s + Line(28, "a:solidFill>");
    CleanAppend(s, Line(32, "a:schemeClr val=\"lt1\" />"), Marker);
    s := s + Line(32, "a:schemeClr val=\"lt1\" />");
    CleanAppend(s, Line(28, "/a:solidFill>"), Marker);
    s := s + Line(28, "/a:solidFill>");
    CleanAppend(s, Line(24, "/a:ln>"), Marker);
    s := s + Line(24, "/a:ln>");
    CleanAppend(s, Line(20, "/a:" + side + ">"), Marker);
  }

  lemma BorderNames()
    ensures NoLt("left") && NoLt("right") && NoLt("top") && NoLt("bottom")
    ensures NoLt("insideH") && NoLt("insideV") && NoLt(ThinBorder) && NoLt(ThickBorder)
  {
  }

  lemma CellBordersClean(borders: string)
    requires Clean(borders, Marker)
    ensures Clean(CellBorders(borders), Marker)
  {
    LineClean(12, "a:tcStyle>", 2);
    LineClean(16, "a:tcBdr>", 2);
    LineClean(16, "/a:tcBdr>", 0);
    var s := Line(12, "a:tcStyle>");
    CleanAppend(s, Line(16, "a:tcBdr>"), Marker);
    s := s + Line(16, "a:tcBdr>");
    CleanAppend(s, borders, Marker);
    s := s + borders;
    CleanAppend(s, Line(16, "/a:tcBdr>"), Marker);
  }

  lemma ThinBordersClean()
    ensures Clean(ThinBorders, Marker)
  {
    BorderNames();
    BorderClean("left", ThinBorder);
    var s := Border("left", ThinBorder);
    BorderClean("right", ThinBorder);
    CleanAppend(s, Border("right", ThinBorder), Marker);
    s := s + Border("right", ThinBorder);
    BorderClean("top", ThinBorder);
    CleanAppend(s, Border("top", ThinBorder), Marker);
    s := s + Border("top", ThinBorder);
    BorderClean("bottom", ThinBorder);
    CleanAppend(s, Border("bottom", ThinBorder), Marker);
    s := s + Border("bottom", ThinBorder);
    BorderClean("insideH", ThinBorder);
    CleanAppend(s, Border("insideH", ThinBorder), Marker);
    s := s + Border("insideH", ThinBorder);
    BorderClean("insideV", ThinBorder);
    CleanAppend(s, Border("insideV", ThinBorder), Marker);
  }

  lemma EmptyBordersClean()
    ensures Clean(EmptyBorders, Marker)
  {
    LineClean(12, "a:tcStyle>", 2);
    var s := Line(12, "a:tcStyle>");
    LineClean(16, "a:tcBdr />", 2);
    CleanAppend(s, Line(16, "a:tcBdr />"), Marker);
  }

  lemma StyleEndClean()
    ensures Clean(StyleEnd, Marker)
  {
    LineClean(12, "/a:tcStyle>", 0);
    var s := Line(12, "/a:tcStyle>");
    NewlineClean(8, Marker);
    CleanAppend(s, Newline(8), Marker);
  }

  lemma FontRefTags()
    ensures SafeTag("a:fontRef idx=\"minor\">", 3)
    ensures SafeTag("a:prstClr val=\"black\" />", 2)
    ensures SafeTag("/a:fontRef>", 0)
  {
  }

  lemma FontRefClean()
    ensures Clean(FontRef, Marker)
  {
    FontRefTags();
    LineClean(16, "a:fontRef idx=\"minor\">", 3);
    var s := Line(16, "a:fontRef idx=\"minor\">");
    LineClean(20, "a:prstClr val=\"black\" />", 2);
    CleanAppend(s, Line(20, "a:prstClr val=\"black\" />"), Marker);
    s := s + Line(20, "a:prstClr val=\"black\" />");
    LineClean(16, "/a:fontRef>", 0);
    CleanAppend(s, Line(16, "/a:fontRef>"), Marker);
  }

  lemma FillStartClean()
    ensures Clean(FillStart, Marker)
  {
    LineClean(16, "a:fill>", 4);
    var s := Line(16, "a:fill>");
    LineClean(20, "a:solidFill>", 2);
    CleanAppend(s, Line(20, "a:solidFill>"), Marker);
    s := s + Line(20, "a:solidFill>");
    NewlineClean(24, Marker);
    CleanAppend(s, Newline(24), Marker);
  }

  lemma WholeTblTags()
    ensures SafeTag("a:tcTxStyle>", 2)
    ensures SafeTag("a:schemeClr val=\"dk1\" />", 2)
    ensures SafeTag("/a:tcTxStyle>", 0)
  {
  }

  lemma WholeTblBodyClean()
    ensures Clean(WholeTblBody, Marker)
  {
    WholeTblTags();
    LineClean(12, "a:tcTxStyle>", 2);
    var s := Line(12, "a:tcTxStyle>");
    FontRefClean();
    CleanAppend(s, FontRef, Marker);
    s := s + FontRef;
    LineClean(16, "a:schemeClr val=\"dk1\" />", 2);
    CleanAppend(s, Line(16, "a:schemeClr val=\"dk1\" />"), Marker);
    s := s + Line(16, "a:schemeClr val=\"dk1\" />");
    LineClean(12, "/a:tcTxStyle>", 0);
    CleanAppend(s, Line(12, "/a:tcTxStyle>"), Marker);
    s := s + Line(12, "/a:tcTxStyle>");
    ThinBordersClean();
    CellBordersClean(ThinBorders);
    CleanAppend(s, CellBorders(ThinBorders), Marker);
    s := s + CellBorders(ThinBorders);
    FillStartClean();
    CleanAppend(s, FillStart, Marker);
  }

  lemma BandFillBodyClean()
    ensures Clean(BandFillBody, Marker)
  {
    EmptyBordersClean();
    var s := EmptyBorders;
    FillStartClean();
    CleanAppend(s, FillStart, Marker);
  }

  lemma FillEndClean()
    ensures Clean(FillEnd, Marker)
  {
    LineClean(20, "/a:solidFill>", 0);
    var s := Line(20, "/a:solidFill>");
    LineClean(16, "/a:fill>", 0);
    CleanAppend(s, Line(16, "/a:fill>"), Marker);
    s := s + Line(16, "/a:fill>");
    StyleEndClean();
    CleanAppend(s, StyleEnd, Marker);
  }

  lemma BorderOnlyBodyClean()
    ensures Clean(BorderOnlyBody, Marker)
  {
    EmptyBordersClean();
    var s := EmptyBorders;
    StyleEndClean();
    CleanAppend(s, StyleEnd, Marker);
  }

  lemma LastRowTags()
    ensures SafeTag("a:tcTxStyle b=\"on\">", 2)
    ensures SafeTag("a:schemeClr val=\"lt1\" />", 2)
    ensures SafeTag("/a:tcTxStyle>", 0)
  {
  }

  lemma LastRowBodyClean()
    ensures Clean(LastRowBody, Marker)
  {
    LastRowTags();
    BorderNames();
    LineClean(12, "a:tcTxStyle b=\"on\">", 2);
    var s := Line(12, "a:tcTxStyle b=\"on\">");
    FontRefClean();
    CleanAppend(s, FontRef, Marker);
    s := s + FontRef;
    LineClean(16, "a:schemeClr val=\"lt1\" />", 2);
    CleanAppend(s, Line(16, "a:schemeClr val=\"lt1\" />"), Marker);
    s := s + Line(16, "a:schemeClr val=\"lt1\" />");
    LineClean(12, "/a:tcTxStyle>", 0);
    CleanAppend(s, Line(12, "/a:tcTxStyle>"), Marker);
    s := s + Line(12, "/a:tcTxStyle>");
    BorderClean("top", ThickBorder);
    CellBordersClean(Border("top", ThickBorder));
    CleanAppend(s, CellBorders(Border("top", ThickBorder)), Marker);
    s := s + CellBorders(Border("top", ThickBorder));
    StyleEndClean();
    CleanAppend(s, StyleEnd, Marker);
  }

  /** The template parts outside the header-row block are clean. */
  ghost predicate CleanPieces(p: Pieces) {
    && Clean(p.wholeTbl, Marker) && Clean(p.bandFill, Marker) && Clean(p.fillEnd, Marker)
    && Clean(p.borderOnly, Marker) && Clean(p.lastRow, Marker)
  }

  lemma TemplateClean()
    ensures CleanPieces(Template)
  {
    WholeTblBodyClean();
    BandFillBodyClean();
    FillEndClean();
    BorderOnlyBodyClean();
    LastRowBodyClean();
  }

  lemma ElementNames()
    ensures NoLt("wholeTbl") && NoLt("band1H") && NoLt("band2H") && NoLt("band1V") && NoLt("band2V")
    ensures NoLt("lastRow") && NoLt("tblStyle")
  {
  }

  lemma FilledElementClean(p: Pieces, tag: string, body: string, color: string)
    requires Clean(body, Marker) && Clean(p.fillEnd, Marker)
    requires NoLt(tag) && |tag| > 0 && tag[0] != 'f' && NoLt(color)
    ensures Clean(FilledElement(p, tag, body, color), Marker)
  {
    NewlineClean(8, Marker);
    OpenTagClean(tag);
    ColorTagClean(color);
    CloseTagClean(tag);
    var s := Newline(8) + OpenTag(tag);
    CleanAppend(Newline(8), OpenTag(tag), Marker);
    CleanAppend(s, body, Marker);
    s := s + body;
    CleanAppend(s, ColorTag(color), Marker);
    s := s + ColorTag(color);
    CleanAppend(s, p.fillEnd, Marker);
    s := s + p.fillEnd;
    CleanAppend(s, CloseTag(tag), Marker);
  }

  lemma BorderOnlyElementClean(p: Pieces, tag: string)
    requires Clean(p.borderOnly, Marker) && NoLt(tag) && |tag| > 0 && tag[0] != 'f'
    ensures Clean(BorderOnlyElement(p, tag), Marker)
  {
    NewlineClean(8, Marker);
    OpenTagClean(tag);
    CloseTagClean(tag);
    var s := Newline(8) + OpenTag(tag);
    CleanAppend(Newline(8), OpenTag(tag), Marker);
    CleanAppend(s, p.borderOnly, Marker);
    s := s + p.borderOnly;
    CleanAppend(s, CloseTag(tag), Marker);
  }

  lemma LastRowClosedClean(p: Pieces)
    requires CleanPieces(p)
    ensures Clean(LastRowClosed(p), Marker)
  {
    ElementNames();
    BorderOnlyElementClean(p, "band1V");
    BorderOnlyElementClean(p, "band2V");
    PlainClean("\n", Marker);
    NewlineClean(8, Marker);
    OpenTagClean("lastRow");
    CloseTagClean("lastRow");
    NewlineClean(4, Marker);
    var s := BorderOnlyElement(p, "band1V") + BorderOnlyElement(p, "band2V");
    CleanAppend(BorderOnlyElement(p, "band1V"), BorderOnlyElement(p, "band2V"), Marker);
    CleanAppend(s, "\n", Marker);
    s := s + "\n";
    CleanAppend(s, Newline(8), Marker);
    s := s + Newline(8);
    CleanAppend(s, OpenTag("lastRow"), Marker);
    s := s + OpenTag("lastRow");
    CleanAppend(s, p.lastRow, Marker);
    s := s + p.lastRow;
    CleanAppend(s, CloseTag("lastRow"), Marker);
    s := s + CloseTag("lastRow");
    CleanAppend(s, Newline(4), Marker);
  }

  lemma StyleTailClean()
    ensures Clean(StyleTail(), Marker)
  {
    ElementNames();
    NewlineClean(4, Marker);
    CloseTagClean("tblStyle");
    CleanAppend(Newline(4), CloseTag("tblStyle"), Marker);
    CleanAppend(Newline(4) + CloseTag("tblStyle"), Newline(4), Marker);
  }

  /** Over clean parts and slot texts without `'<'`, the fragment without
      its header row is clean. */
  lemma RenderClean(p: Pieces, styleId: string, styleName: string, bgColor: string, evenColor: string,
                    oddColor: string)
    requires CleanPieces(p)
    requires NoLt(styleId) && NoLt(styleName) && NoLt(bgColor) && NoLt(evenColor) && NoLt(oddColor)
    ensures Clean(Render(p, styleId, styleName, bgColor, evenColor, oddColor, false), Marker)
  {
    ElementNames();
    NewlineClean(4, Marker);
    StyleOpenTagClean(styleId, styleName);
    CleanAppend(Newline(4), StyleOpenTag(styleId, styleName), Marker);
    FilledElementClean(p, "wholeTbl", p.wholeTbl, bgColor);
    FilledElementClean(p, "band1H", p.bandFill, evenColor);
    FilledElementClean(p, "band2H", p.bandFill, oddColor);
    var f1 := FilledElement(p, "wholeTbl", p.wholeTbl, bgColor);
    var f2 := FilledElement(p, "band1H", p.bandFill, evenColor);
    var f3 := FilledElement(p, "band2H", p.bandFill, oddColor);
    CleanAppend(f1, f2, Marker);
    CleanAppend(f1 + f2, f3, Marker);
    LastRowClosedClean(p);
    StyleTailClean();
    assert AfterFills(p, false) == LastRowClosed(p) + StyleTail();
    CleanAppend(LastRowClosed(p), StyleTail(), Marker);
    CleanAppend(Opening(styleId, styleName), Fills(p, bgColor, evenColor, oddColor), Marker);
    CleanAppend(Opening(styleId, styleName) + Fills(p, bgColor, evenColor, oddColor), AfterFills(p, false), Marker);
  }

  lemma RenderHasFirstRow(p: Pieces, styleId: string, styleName: string, bgColor: string,
                          evenColor: string, oddColor: string)
    ensures Contains(Render(p, styleId, styleName, bgColor, evenColor, oddColor, true), Marker)
  {
    var block := FirstRowOf(p, true, DefaultTextColor);
    FirstRowLayout(p, DefaultTextColor);
    BeginsContains(block, Marker);
    ContainsWidened(LastRowClosed(p), block, StyleTail(), Marker);
    var lead := Opening(styleId, styleName) + Fills(p, bgColor, evenColor, oddColor);
    ContainsAfter(lead, AfterFills(p, true), Marker);
  }

  /** With the header row, the fragment holds its opening tag. */
  lemma FirstRowIncluded(styleId: string, styleName: string, bgColor: string, evenColor: string,
                         oddColor: string)
    ensures Contains(GetStyleElement(styleId, styleName, bgColor, evenColor, oddColor, true), Marker)
  {
    RenderHasFirstRow(Template, styleId, styleName, bgColor, evenColor, oddColor);
  }

  /** Without the header row, and with slot texts free of `'<'`, the
      fragment holds no opening tag of it. */
  lemma FirstRowOmitted(styleId: string, styleName: string, bgColor: string, evenColor: string,
                        oddColor: string)
    requires NoLt(styleId) && NoLt(styleName) && NoLt(bgColor) && NoLt(evenColor) && NoLt(oddColor)
    ensures !Contains(GetStyleElement(styleId, styleName, bgColor, evenColor, oddColor, false), Marker)
  {
    TemplateClean();
    RenderClean(Template, styleId, styleName, bgColor, evenColor, oddColor);
    CleanNotContains(Render(Template, styleId, styleName, bgColor, evenColor, oddColor, false), Marker);
  }

  /** When no slot text holds a `'<'`, the fragment holds an `a:firstRow`
      opening tag exactly when the header row is asked for. */
  lemma FirstRowIffIncluded(styleId: string, styleName: string, bgColor: string, evenColor: string,
                            oddColor: string, includeFirstRow: bool)
    requires '<' !in styleId && '<' !in styleName
    requires '<' !in bgColor && '<' !in evenColor && '<' !in oddColor
    ensures Contains(GetStyleElement(styleId, styleName, bgColor, evenColor, oddColor, includeFirstRow),
                     OpenTag("firstRow"))
            <==> includeFirstRow
  {
    if includeFirstRow {
      FirstRowIncluded(styleId, styleName, bgColor, evenColor, oddColor);
    } else {
      NoLtIn(styleId);
      NoLtIn(styleName);
      NoLtIn(bgColor);
      NoLtIn(evenColor);
      NoLtIn(oddColor);
      FirstRowOmitted(styleId, styleName, bgColor, evenColor, oddColor);
    }
  }
}
