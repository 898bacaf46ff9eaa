/** The pure part of the table-style injector: formatting a GUID from a UUID
    string, rendering the style fragment, and rewriting the text of
    `ppt/tableStyles.xml` so that it holds the new style. */
module TableStyle {
  import opened Text
  import StyleElement

  predicate IsLowerAscii(c: char) {
    'a' <= c <= 'z'
  }

  predicate IsUpperAscii(c: char) {
    'A' <= c <= 'Z'
  }

  /** `str.upper` on one character, for the ASCII letters. */
  function UpperChar(c: char): (u: char)
    ensures !IsLowerAscii(u)
    ensures IsLowerAscii(c) ==> IsUpperAscii(u) && u as int + 32 == c as int
    ensures !IsLowerAscii(c) ==> u == c
  {
    if IsLowerAscii(c) then (c as int - 32) as char else c
  }

  /** `str.lower` on one character, for the ASCII letters. */
  function LowerChar(c: char): (l: char)
    ensures !IsUpperAscii(l)
    ensures IsUpperAscii(c) ==> IsLowerAscii(l) && l as int == c as int + 32
    ensures !IsUpperAscii(c) ==> l == c
  {
    if IsUpperAscii(c) then (c as int + 32) as char else c
  }

  function Upper(s: string): (r: string)
    ensures |r| == |s|
    ensures forall i :: 0 <= i < |s| ==> r[i] == UpperChar(s[i])
  {
    seq(|s|, i requires 0 <= i < |s| => UpperChar(s[i]))
  }

  function Lower(s: string): (r: string)
    ensures |r| == |s|
    ensures forall i :: 0 <= i < |s| ==> r[i] == LowerChar(s[i])
  {
    seq(|s|, i requires 0 <= i < |s| => LowerChar(s[i]))
  }

  /** `generate_guid` with the random UUID's text given: the upper-cased text
      in braces. */
  function GenerateGuid(uuidText: string): string {
    "{" + Upper(uuidText) + "}"
  }

  /** The GUID is the UUID text, upper-cased, in braces: two characters
      longer, and free of lower-case letters. */
  lemma GuidShape(uuidText: string)
    ensures var guid := GenerateGuid(uuidText);
      && |guid| == |uuidText| + 2
      && guid[0] == '{' && guid[|guid| - 1] == '}'
      && guid[1..|guid| - 1] == Upper(uuidText)
      && forall i :: 0 <= i < |guid| ==> !IsLowerAscii(guid[i])
  {
    var guid := GenerateGuid(uuidText);
    assert guid[1..|guid| - 1] == Upper(uuidText);
  }

  predicate IsHyphenPosition(i: int) {
    i == 8 || i == 13 || i == 18 || i == 23
  }

  predicate IsLowerHex(c: char) {
    '0' <= c <= '9' || 'a' <= c <= 'f'
  }

  predicate IsUpperHex(c: char) {
    '0' <= c <= '9' || 'A' <= c <= 'F'
  }

  /** The text `str(uuid.uuid4())` produces: 8-4-4-4-12 lower-case hex digits. */
  predicate IsUuidText(u: string) {
    |u| == 36 && forall i :: 0 <= i < 36 ==> if IsHyphenPosition(i) then u[i] == '-' else IsLowerHex(u[i])
  }

  /** A registry-format GUID: upper-case 8-4-4-4-12 hex digits in braces. */
  predicate IsGuidText(g: string) {
    && |g| == 38 && g[0] == '{' && g[37] == '}'
    && forall i :: 1 <= i < 37 ==> if IsHyphenPosition(i - 1) then g[i] == '-' else IsUpperHex(g[i])
  }

  /** A UUID's text becomes a well-formed GUID. */
  lemma GuidOfUuid(u: string)
    requires IsUuidText(u)
    ensures IsGuidText(GenerateGuid(u))
  {
    var g := GenerateGuid(u);
    GuidShape(u);
    forall i | 1 <= i < 37
      ensures if IsHyphenPosition(i - 1) then g[i] == '-' else IsUpperHex(g[i])
    {
      assert g[i] == UpperChar(u[i - 1]);
    }
  }

  /** Lower-casing undoes upper-casing on text without upper-case letters. */
  lemma LowerUpper(s: string)
    requires forall i :: 0 <= i < |s| ==> !IsUpperAscii(s[i])
    ensures Lower(Upper(s)) == s
  {
    assert forall i :: 0 <= i < |s| ==> LowerChar(UpperChar(s[i])) == s[i];
  }

  /** The UUID text can be read back from the GUID, so distinct UUIDs give
      distinct GUIDs. */
  lemma GuidRoundTrip(u: string)
    requires IsUuidText(u)
    ensures var g := GenerateGuid(u); Lower(g[1..|g| - 1]) == u
  {
    GuidShape(u);
    LowerUpper(u);
  }

  lemma GuidInjective(u1: string, u2: string)
    requires IsUuidText(u1) && IsUuidText(u2)
    requires GenerateGuid(u1) == GenerateGuid(u2)
    ensures u1 == u2
  {
    GuidRoundTrip(u1);
    GuidRoundTrip(u2);
  }

  /** `create_new_table_style`: the style fragment for the same arguments,
      in the same order. */
  function CreateNewTableStyle(styleId: string, styleName: string, headerColor: string, evenColor: string,
                               oddColor: string, includeFirstRow: bool): (r: string)
    ensures r == StyleElement.GetStyleElement(styleId, styleName, headerColor, evenColor, oddColor, includeFirstRow)
  {
    StyleElement.GetStyleElement(styleId, styleName, headerColor, evenColor, oddColor, includeFirstRow)
  }

  /** Texts shorter than this are taken to hold no style list. */
  const MinimalLength: nat := 250

  const XmlDeclaration: string := "<?xml version=\"1.0\" encoding=\"UTF-8\" standalone=\"yes\"?>"

  /** The DrawingML main namespace (ECMA-376 Part 1). */
  const DrawingMLNamespace: string := "http://schemas.openxmlformats.org/drawingml/2006/main"

  function StyleListOpenTag(defaultId: string): string {
    "<a:tblStyleLst xmlns:a=\"" + DrawingMLNamespace + "\" def=\"" + defaultId + "\">"
  }

  const StyleListCloseTag: string := "</a:tblStyleLst>"

  /** A fresh styles document holding only `fragment`, whose default style is
      `styleId`. */
  function NewStylesDocument(styleId: string, fragment: string): string {
    XmlDeclaration + StyleListOpenTag(styleId) + fragment + StyleListCloseTag
  }

  /** The populated branch: cut on `'<'`, put the fragment after the first
      three pieces and join again. */
  function Splice(current: string, fragment: string): string {
    var parts := Split(current, '<');
    Join("<", SliceTo(parts, 3)) + fragment + "<" + Join("<", SliceFrom(parts, 3))
  }

  /** The new text of `ppt/tableStyles.xml`: a length test picks between a
      fresh document and the splice. */
  function NewTableStyles(current: string, styleId: string, fragment: string): string
  {
    if |current| < MinimalLength then NewStylesDocument(styleId, fragment) else Splice(current, fragment)
  }

  datatype Injection = Injection(newText: string, styleId: string)

  /** `add_style_to_powerpoint` from the old styles text to the new one, with
      the random UUID given as text. */
  function AddStyleToPowerpoint(currentText: string, uuidText: string, styleName: string, headerColor: string,
                                evenColor: string, oddColor: string, includeFirstRow: bool): Injection
  {
    var styleId := GenerateGuid(uuidText);
    var fragment := CreateNewTableStyle(styleId, styleName, headerColor, evenColor, oddColor, includeFirstRow);
    Injection(NewTableStyles(currentText, styleId, fragment), styleId)
  }

  /** With three or more `'<'`, the fragment goes in just before the third
      one and the old text is otherwise kept: prefix plus suffix is the old
      text. */
  lemma SpliceBeforeThirdLt(s: string, fragment: string)
    requires Count(s, '<') >= 3
    ensures exists p: nat ::
      && p < |s| && s[p] == '<' && Count(s[..p], '<') == 2
      && Splice(s, fragment) == s[..p] + fragment + s[p..]
  {
    var parts := Split(s, '<');
    SplitAtThird(s, '<');
    var pre := Join("<", parts[..3]);
    var post := Join("<", parts[3..]);
    CutBefore(pre, '<', post, fragment);
    assert Splice(s, fragment) == pre + fragment + "<" + post;
    assert Count(s[..|pre|], '<') == 2;
  }

  /** With fewer than three `'<'`, the fragment is appended and followed by a
      stray `'<'`. */
  lemma SpliceFewLt(s: string, fragment: string)
    requires Count(s, '<') < 3
    ensures Splice(s, fragment) == s + fragment + "<"
  {
    var parts := Split(s, '<');
    SplitPieces(s, '<');
    JoinSplit(s, '<');
    assert SliceTo(parts, 3) == parts;
    assert SliceFrom(parts, 3) == [];
  }

  /** Whatever occurs in the fragment occurs in the new text, on every branch. */
  lemma FragmentKept(current: string, styleId: string, fragment: string, t: string)
    requires Contains(fragment, t)
    ensures Contains(NewTableStyles(current, styleId, fragment), t)
  {
    if |current| < MinimalLength {
      ContainsWidened(XmlDeclaration + StyleListOpenTag(styleId), fragment, StyleListCloseTag, t);
    } else if Count(current, '<') >= 3 {
      SpliceBeforeThirdLt(current, fragment);
      var p: nat :| p < |current| && Splice(current, fragment) == current[..p] + fragment + current[p..];
      ContainsWidened(current[..p], fragment, current[p..], t);
    } else {
      SpliceFewLt(current, fragment);
      ContainsWidened(current, fragment, "<", t);
    }
  }

  /** A fresh document names `styleId` as its default style. */
  lemma FreshDocumentDefault(styleId: string, fragment: string)
    ensures OccursAt(NewStylesDocument(styleId, fragment), StyleListOpenTag(styleId), |XmlDeclaration|)
  {
    OccursInMiddle(XmlDeclaration, StyleListOpenTag(styleId), fragment + StyleListCloseTag);
    assert NewStylesDocument(styleId, fragment)
        == XmlDeclaration + StyleListOpenTag(styleId) + (fragment + StyleListCloseTag);
  }

  /** A short old text is replaced outright by a fresh document, which does
      not depend on the old text; its default style is the new id. */
  lemma ShortTextReplaced(currentText: string, uuidText: string, styleName: string, headerColor: string,
                          evenColor: string, oddColor: string, includeFirstRow: bool)
    requires |currentText| < MinimalLength
    ensures var r := AddStyleToPowerpoint(currentText, uuidText, styleName, headerColor, evenColor, oddColor,
                                          includeFirstRow);
      && r.newText == NewStylesDocument(r.styleId, CreateNewTableStyle(r.styleId, styleName, headerColor,
                                                                       evenColor, oddColor, includeFirstRow))
      && OccursAt(r.newText, StyleListOpenTag(r.styleId), |XmlDeclaration|)
  {
    var styleId := GenerateGuid(uuidText);
    FreshDocumentDefault(styleId, CreateNewTableStyle(styleId, styleName, headerColor, evenColor, oddColor,
                                                      includeFirstRow));
  }

  /** A long old text keeps all of its characters: the fragment goes in just
      before its third `'<'`, or at the end with a stray `'<'` when it has fewer. */
  lemma LongTextSpliced(currentText: string, uuidText: string, styleName: string, headerColor: string,
                        evenColor: string, oddColor: string, includeFirstRow: bool)
    requires |currentText| >= MinimalLength
    ensures var r := AddStyleToPowerpoint(currentText, uuidText, styleName, headerColor, evenColor, oddColor,
                                          includeFirstRow);
      var fragment := CreateNewTableStyle(r.styleId, styleName, headerColor, evenColor, oddColor, includeFirstRow);
      && (Count(currentText, '<') >= 3 ==>
            exists p: nat :: p < |currentText| && currentText[p] == '<' && Count(currentText[..p], '<') == 2
                             && r.newText == currentText[..p] + fragment + currentText[p..])
      && (Count(currentText, '<') < 3 ==> r.newText == currentText + fragment + "<")
  {
    var styleId := GenerateGuid(uuidText);
    var fragment := CreateNewTableStyle(styleId, styleName, headerColor, evenColor, oddColor, includeFirstRow);
    if Count(currentText, '<') >= 3 {
      SpliceBeforeThirdLt(currentText, fragment);
    } else {
      SpliceFewLt(currentText, fragment);
    }
  }

  /** The returned id is the GUID of the UUID, and it is the id written into
      the new style, whichever branch is taken. */
  lemma ReturnedIdWritten(currentText: string, uuidText: string, styleName: string, headerColor: string,
                          evenColor: string, oddColor: string, includeFirstRow: bool)
    ensures var r := AddStyleToPowerpoint(currentText, uuidText, styleName, headerColor, evenColor, oddColor,
                                          includeFirstRow);
      && r.styleId == GenerateGuid(uuidText)
      && Contains(r.newText, StyleElement.StyleOpenTag(r.styleId, styleName))
  {
    var styleId := GenerateGuid(uuidText);
    var fragment := CreateNewTableStyle(styleId, styleName, headerColor, evenColor, oddColor, includeFirstRow);
    var tag := StyleElement.StyleOpenTag(styleId, styleName);
    StyleElement.StyleElementTags(styleId, styleName, headerColor, evenColor, oddColor, includeFirstRow);
    BeginsContains(fragment, tag);
    FragmentKept(currentText, styleId, fragment, tag);
  }

  /** A short old text does not matter. */
  lemma ShortTextIgnored(current1: string, current2: string, uuidText: string, styleName: string,
                         headerColor: string, evenColor: string, oddColor: string, includeFirstRow: bool)
    requires |current1| < MinimalLength && |current2| < MinimalLength
    ensures AddStyleToPowerpoint(current1, uuidText, styleName, headerColor, evenColor, oddColor, includeFirstRow)
         == AddStyleToPowerpoint(current2, uuidText, styleName, headerColor, evenColor, oddColor, includeFirstRow)
  {
  }
}
