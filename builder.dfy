/** The slide builder: a presentation under construction, a registry of the
    table styles added to its template, and a flag that records whether
    content has been added. Presentations are abstract records (layouts,
    slides, the text of `ppt/tableStyles.xml`); the files the builder reads
    and writes are a map from path to presentation. */
module Builder {
  import opened TableStyle

  datatype Option<T> = None | Some(value: T)

  /** The exceptions the builder lets through to its caller. */
  datatype Error =
    | ValueError         // styling after content was added
    | IndexError         // a layout index out of range, or a style with fewer than three colours
    | KeyError           // a table style name that was never registered
    | AttributeError     // a layout without a title placeholder
    | FileNotFoundError  // the template archive, or its `ppt/tableStyles.xml`, is missing
    | PackageNotFoundError  // a template path that names no presentation
    | ZeroDivisionError  // a table of zero columns: python-pptx divides the table width by the column count

  datatype Outcome = Pass | Fail(error: Error)

  /** A slide layout of the template; only whether it has a title matters. */
  datatype Layout = Layout(hasTitle: bool)

  /** A table cell: its text and the font size of its text runs, if set. */
  datatype Cell = Cell(text: string, fontSize: Option<nat>)

  /** A table: its grid of cells and the id of its table style. */
  datatype Table = Table(cells: seq<seq<Cell>>, styleRef: string)

  /** A slide: the index of its layout, its title (none when the layout has
      no title placeholder) and its table, if any. */
  datatype Slide = Slide(layout: nat, title: Option<string>, table: Option<Table>)

  /** A presentation, open or stored in a file. */
  datatype Presentation = Presentation(layouts: seq<Layout>, slides: seq<Slide>, tableStyles: Option<string>)

  /** A data frame: column labels and rows of cell texts. */
  datatype Frame = Frame(columns: seq<string>, rows: seq<seq<string>>)

  /** Every row has one value per column. */
  type DataFrame = f: Frame | forall r :: 0 <= r < |f.rows| ==> |f.rows[r]| == |f.columns|
    witness Frame([], [])

  /** The builder's single font size, 15 pt. */
  const FontSizePt: nat := 15

  /** Where the constructor saves the default presentation. */
  const TempPath: string := "temp.pptx"

  /** The style a newly added table refers to before it is given one: the
      default table style of python-pptx's table template. */
  const DefaultTableStyleId: string := "{5C22544A-7EE6-4342-B048-85BDC9FD1C3A}"

  /** Everything the builder's methods read and write. `blank` is the default
      presentation an empty path opens. */
  datatype State = State(templatePath: string, prs: Presentation, styles: map<Option<string>, string>,
                         contentAdded: bool, files: map<string, Presentation>, blank: Presentation)

  datatype Transition = Transition(state: State, outcome: Outcome)

  /** `create_new_presentation`: an empty path opens the default presentation,
      any other path the presentation stored there. */
  function OpenPresentation(s: State, path: string): Option<Presentation>
  {
    if path == "" then Some(s.blank)
    else if path in s.files then Some(s.files[path])
    else None
  }

  /** The state `__init__` leaves: the default presentation, saved to
      `temp.pptx`, which becomes the template path. */
  function InitialState(files: map<string, Presentation>, blank: Presentation): State {
    State(TempPath, blank, map[], false, files[TempPath := blank], blank)
  }

  /** `load_template`: the path is recorded even when nothing can be opened there. */
  function LoadTemplateStep(s: State, path: string): Transition {
    var s1 := s.(templatePath := path);
    match OpenPresentation(s1, path)
    case None => Transition(s1, Fail(PackageNotFoundError))
    case Some(p) => Transition(s1.(prs := p), Pass)
  }

  /** `reset_content`: a fresh load of the template path. */
  function ResetContentStep(s: State): Transition {
    match OpenPresentation(s, s.templatePath)
    case None => Transition(s, Fail(PackageNotFoundError))
    case Some(p) => Transition(s.(prs := p), Pass)
  }

  /** Python's `xs[i]` on a list of length `n`: negative indices count from the end. */
  function LayoutIndex(n: nat, i: int): (r: Option<nat>)
    ensures r.Some? <==> -(n as int) <= i < n
    ensures r.Some? ==> r.value < n && (r.value == i || r.value == i + n)
  {
    if 0 <= i < n then Some(i as nat)
    else if -(n as int) <= i < 0 then Some((i + n) as nat)
    else None
  }

  /** `add_slide`: the slide is appended before its title is set, so a layout
      without a title leaves an untitled slide behind. The content flag is
      not touched. */
  function AddSlideStep(s: State, templateId: int, title: string): Transition {
    match LayoutIndex(|s.prs.layouts|, templateId)
    case None => Transition(s, Fail(IndexError))
    case Some(k) =>
      if s.prs.layouts[k].hasTitle then
        Transition(s.(prs := s.prs.(slides := s.prs.slides + [Slide(k, Some(title), None)])), Pass)
      else
        Transition(s.(prs := s.prs.(slides := s.prs.slides + [Slide(k, None, None)])), Fail(AttributeError))
  }

  /** How a style name is written into the style's XML: Python formats a
      missing name (`None`) as the text `None`. */
  function NameText(name: Option<string>): string {
    match name
    case None => "None"
    case Some(n) => n
  }

  /** `add_table_style_to_template`: refused once content exists; otherwise
      the style is written into the template file, registered under `name`,
      and the presentation is reloaded from the template. */
  function AddTableStyleStep(s: State, uuidText: string, style: seq<string>, name: Option<string>,
                             includeHeaderRow: bool): Transition
  {
    if s.contentAdded then Transition(s, Fail(ValueError))
    else if |style| < 3 then Transition(s, Fail(IndexError))
    else if s.templatePath == "" || s.templatePath !in s.files then Transition(s, Fail(FileNotFoundError))
    else
      var file := s.files[s.templatePath];
      match file.tableStyles
      case None => Transition(s, Fail(FileNotFoundError))
      case Some(text) =>
        Transition(Registered(s, name, AddStyleToPowerpoint(text, uuidText, NameText(name), style[0], style[1],
                                                            style[2], includeHeaderRow)), Pass)
  }

  /** The template file rewritten with the new list of table styles, the
      name registered under the new id, and the presentation reloaded. */
  function Registered(s: State, name: Option<string>, injection: Injection): State
    requires s.templatePath in s.files
  {
    var written := s.files[s.templatePath].(tableStyles := Some(injection.newText));
    s.(files := s.files[s.templatePath := written], styles := s.styles[name := injection.styleId], prs := written)
  }

  /** The text of cell `(r, c)` of a data frame's table: row 0 holds the
      column labels, row `r + 1` the data row `r`. */
  function Label(df: DataFrame, r: nat, c: nat): string
    requires r <= |df.rows| && c < |df.columns|
  {
    if r == 0 then df.columns[c] else df.rows[r - 1][c]
  }

  /** Whether setting a cell's text creates a text run: the text is split
      into paragraphs at '\n' and into lines at a vertical tab, and only a
      non-empty piece gets a run. So a text made of line breaks alone, like
      the empty text, has no run. */
  predicate HasRun(text: string)
  {
    exists k | 0 <= k < |text| :: text[k] != '\n' && text[k] != '\U{000B}'
  }

  /** Setting the font size of every text run of a cell; a cell without
      runs keeps no font size. */
  function WithFont(cell: Cell, size: nat): Cell
  {
    if HasRun(cell.text) then cell.(fontSize := Some(size)) else cell
  }

  /** A new table's cells: empty text, no font size. */
  function BlankCells(rows: nat, columns: nat): (cells: seq<seq<Cell>>)
    ensures |cells| == rows
    ensures forall r :: 0 <= r < rows ==> |cells[r]| == columns
    ensures forall r, c :: 0 <= r < rows && 0 <= c < columns ==> cells[r][c] == Cell("", None)
  {
    seq(rows, _ => seq(columns, _ => Cell("", None)))
  }

  /** The cells of a filled table: one row more than the data frame, the
      labels in row 0, data row `i` in row `i + 1`, and the font size set on
      every cell whose text has a run. */
  function FilledCells(df: DataFrame, size: nat): (cells: seq<seq<Cell>>)
    ensures |cells| == |df.rows| + 1
    ensures forall r :: 0 <= r < |cells| ==> |cells[r]| == |df.columns|
    ensures forall c :: 0 <= c < |df.columns| ==> cells[0][c].text == df.columns[c]
    ensures forall i, c :: 0 <= i < |df.rows| && 0 <= c < |df.columns| ==> cells[i + 1][c].text == df.rows[i][c]
    ensures forall r, c :: 0 <= r < |cells| && 0 <= c < |df.columns| ==>
              cells[r][c].fontSize == if HasRun(cells[r][c].text) then Some(size) else None
  {
    seq(|df.rows| + 1, r requires 0 <= r <= |df.rows| =>
      seq(|df.columns|, c requires 0 <= c < |df.columns| => WithFont(Cell(Label(df, r, c), None), size)))
  }

  /** The table-building loops of `add_table_only_slide`: a blank
      `(rows + 1) x columns` grid, the labels written into row 0, each data
      row into the row below it, then the font size set on every run. */
  method PopulateTable(df: DataFrame, size: nat) returns (cells: seq<seq<Cell>>)
    ensures cells == FilledCells(df, size)
  {
    var rows := |df.rows| + 1;
    var columns := |df.columns|;
    var grid := new Cell[rows, columns]((_, _) => Cell("", None));
    for i := 0 to columns
      invariant forall r, c :: 0 <= r < rows && 0 <= c < columns ==>
        grid[r, c] == if r == 0 && c < i then Cell(df.columns[c], None) else Cell("", None)
    {
      grid[0, i] := Cell(df.columns[i], None);
    }
    for k := 0 to |df.rows|
      invariant forall r, c :: 0 <= r < rows && 0 <= c < columns ==>
        grid[r, c] == if r <= k then Cell(Label(df, r, c), None) else Cell("", None)
    {
      for j := 0 to columns
        invariant forall r, c :: 0 <= r < rows && 0 <= c < columns ==>
          grid[r, c] == if r <= k || (r == k + 1 && c < j) then Cell(Label(df, r, c), None) else Cell("", None)
      {
        grid[k + 1, j] := Cell(df.rows[k][j], None);
      }
    }
    for r := 0 to rows
      invariant forall a, c :: 0 <= a < rows && 0 <= c < columns ==>
        grid[a, c] == if a < r then WithFont(Cell(Label(df, a, c), None), size) else Cell(Label(df, a, c), None)
    {
      for c := 0 to columns
        invariant forall a, b :: 0 <= a < rows && 0 <= b < columns ==>
          grid[a, b] == if a < r || (a == r && b < c) then WithFont(Cell(Label(df, a, b), None), size)
                        else Cell(Label(df, a, b), None)
      {
        grid[r, c] := WithFont(grid[r, c], size);
      }
    }
    cells := seq(rows, r requires 0 <= r < rows reads grid =>
      seq(columns, c requires 0 <= c < columns reads grid => grid[r, c]));
    forall r | 0 <= r < rows
      ensures cells[r] == FilledCells(df, size)[r]
    {
      assert forall c :: 0 <= c < columns ==> cells[r][c] == FilledCells(df, size)[r][c];
    }
  }

  /** Replaces the table of the last slide. */
  function WithTable(p: Presentation, t: Table): Presentation
    requires |p.slides| > 0
  {
    var last := |p.slides| - 1;
    p.(slides := p.slides[last := p.slides[last].(table := Some(t))])
  }

  /** `add_table_only_slide`: the content flag is set first, then the slide is
      added, then a blank table; a frame without columns makes python-pptx
      fail before the table exists. The style name (`None` is a name like
      any other) is looked up last, so a failed lookup leaves the flag, the
      slide and its blank table behind. */
  function AddTableOnlySlideStep(s: State, df: DataFrame, styleName: Option<string>, templateId: int,
                                 title: string): Transition
  {
    var added := AddSlideStep(s.(contentAdded := true), templateId, title);
    if added.outcome.Fail? then added
    else
      var s1 := added.state;
      if |df.columns| == 0 then Transition(s1, Fail(ZeroDivisionError))
      else
      var blank := Table(BlankCells(|df.rows| + 1, |df.columns|), DefaultTableStyleId);
      var s2 := s1.(prs := WithTable(s1.prs, blank));
      if styleName !in s.styles then Transition(s2, Fail(KeyError))
      else
        var t := Table(FilledCells(df, FontSizePt), s.styles[styleName]);
        Transition(s1.(prs := WithTable(s1.prs, t)), Pass)
  }

  /** `add_title_only_slide`: the content flag is set, then the slide is added. */
  function AddTitleOnlySlideStep(s: State, templateId: int, title: string): Transition {
    AddSlideStep(s.(contentAdded := true), templateId, title)
  }

  class PPTBuilder {
    /** `Pt(15)`. */
    const fontSize: nat := FontSizePt
    /** The default presentation python-pptx opens when given no path. */
    const blank: Presentation
    var templatePath: string
    var prs: Presentation
    var styles: map<Option<string>, string>
    var contentAdded: bool
    /** The presentation files on disk, by path. */
    var files: map<string, Presentation>

    function Current(): State
      reads this
    {
      State(templatePath, prs, styles, contentAdded, files, blank)
    }

    constructor(diskFiles: map<string, Presentation>, defaultPresentation: Presentation)
      ensures blank == defaultPresentation
      ensures Current() == InitialState(diskFiles, defaultPresentation)
    {
      blank := defaultPresentation;
      prs := defaultPresentation;
      files := diskFiles[TempPath := defaultPresentation];
      templatePath := TempPath;
      styles := map[];
      contentAdded := false;
    }

    method LoadTemplate(path: string) returns (outcome: Outcome)
      modifies this
      ensures Transition(Current(), outcome) == LoadTemplateStep(old(Current()), path)
    {
      templatePath := path;
      var loaded := OpenPresentation(Current(), path);
      if loaded.None? {
        return Fail(PackageNotFoundError);
      }
      prs := loaded.value;
      outcome := Pass;
    }

    method ResetContent() returns (outcome: Outcome)
      modifies this
      ensures Transition(Current(), outcome) == ResetContentStep(old(Current()))
    {
      var loaded := OpenPresentation(Current(), templatePath);
      if loaded.None? {
        return Fail(PackageNotFoundError);
      }
      prs := loaded.value;
      outcome := Pass;
    }

    method AddSlide(templateId: int, titleContent: string) returns (outcome: Outcome)
      modifies this
      ensures Transition(Current(), outcome) == AddSlideStep(old(Current()), templateId, titleContent)
    {
      var k := LayoutIndex(|prs.layouts|, templateId);
      if k.None? {
        return Fail(IndexError);
      }
      var layout := prs.layouts[k.value];
      if layout.hasTitle {
        prs := prs.(slides := prs.slides + [Slide(k.value, Some(titleContent), None)]);
        outcome := Pass;
      } else {
        prs := prs.(slides := prs.slides + [Slide(k.value, None, None)]);
        outcome := Fail(AttributeError);
      }
    }

    method AddTableStyleToTemplate(uuidText: string, style: seq<string>, name: Option<string>,
                                   includeHeaderRow: bool)
      returns (outcome: Outcome)
      modifies this
      ensures Transition(Current(), outcome)
           == AddTableStyleStep(old(Current()), uuidText, style, name, includeHeaderRow)
    {
      if contentAdded {
        return Fail(ValueError);
      }
      if |style| < 3 {
        return Fail(IndexError);
      }
      if templatePath == "" || templatePath !in files || files[templatePath].tableStyles.None? {
        return Fail(FileNotFoundError);
      }
      var file := files[templatePath];
      var injection := AddStyleToPowerpoint(file.tableStyles.value, uuidText, NameText(name), style[0], style[1],
                                            style[2], includeHeaderRow);
      files := files[templatePath := file.(tableStyles := Some(injection.newText))];
      styles := styles[name := injection.styleId];
      outcome := ResetContent();
    }

    method AddTableOnlySlide(df: DataFrame, styleName: Option<string>, templateId: int, title: string)
      returns (outcome: Outcome)
      modifies this
      ensures Transition(Current(), outcome)
           == AddTableOnlySlideStep(old(Current()), df, styleName, templateId, title)
    {
      contentAdded := true;
      ghost var flagged := Current();
      assert flagged == old(Current()).(contentAdded := true);
      outcome := AddSlide(templateId, title);
      if outcome.Fail? {
        return;
      }
      assert Current() == AddSlideStep(flagged, templateId, title).state;
      assert styles == old(styles);
      if |df.columns| == 0 {
        return Fail(ZeroDivisionError);
      }
      var base := prs;
      prs := WithTable(base, Table(BlankCells(|df.rows| + 1, |df.columns|), DefaultTableStyleId));
      if styleName !in styles {
        return Fail(KeyError);
      }
      var styleRef := styles[styleName];
      var cells := PopulateTable(df, fontSize);
      prs := WithTable(base, Table(cells, styleRef));
    }

    method AddTitleOnlySlide(templateId: int, title: string) returns (outcome: Outcome)
      modifies this
      ensures Transition(Current(), outcome) == AddTitleOnlySlideStep(old(Current()), templateId, title)
    {
      contentAdded := true;
      outcome := AddSlide(templateId, title);
    }
  }
}
