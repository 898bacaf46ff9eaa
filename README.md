# SlideAutomation table styles and slide builder, in Dafny

This project models the core of SlideAutomation, a Python tool that builds
PowerPoint decks. The tool adds custom DrawingML table styles
(`a:tblStyle`, ECMA-376 Part 1, section 20.1.4.2) to a template and fills
slides with titles and tables. Three pieces are modelled.

- `style_element.dfy` (module `StyleElement`) renders the table-style
  fragment. It is a fixed template with five slots and an optional
  `a:firstRow` block. The constant text is held in one `Pieces` value, so
  the layout lemmas hold for any template text laid out the same way and
  never look inside the literals. The template text itself is built from
  small named blocks (a line at an indent, a cell border, a fill).
- `template_tags.dfy` (module `TemplateTags`) looks inside those blocks. It
  proves that the template holds no `<a:firstRow>` text of its own, so the
  fragment carries that tag exactly when the first row is included.
- `table_style.dfy` (module `TableStyle`) covers `generate_guid` and
  `create_new_table_style`. It also covers the text transformation of
  `add_style_to_powerpoint`: old `ppt/tableStyles.xml` text plus style
  arguments give the new text and the new style id. The random UUID is a
  parameter.
- `builder.dfy` (module `Builder`) holds class `PPTBuilder`. Its fields are
  the template path, the open presentation, the name-to-id style registry,
  the content flag and the presentation files on disk. Each method is
  proved against a step function on a `State` value. `PopulateTable` fills
  an `array2` grid with the source's three loops: header row, data rows,
  then font sizes.
- `session.dfy` (module `Session`) states what the builder guarantees,
  one call at a time and over any sequence of calls.
- `text.dfy` (module `Text`) supplies the shared string vocabulary. That is
  occurrences of a substring, blank runs, and Python's one-character
  `split` and `join` with clamped slices.

All presentation objects are abstract records, as is the file system. A
`Presentation` has layouts (only whether each has a title placeholder
matters), slides (a layout index, an optional title and an optional table)
and the text of its `ppt/tableStyles.xml`, if the archive has one. A table
is a grid of cells and a style reference. A cell holds text and an
optional font size. Files are a map from path to presentation. The empty
path stands for every path Python treats as false (`None` and `""`). The
default presentation that python-pptx opens for such a path is a
parameter. Exceptions are an `Outcome`. The state left after a failure
follows the code: a titleless layout keeps its new slide, a frame with no
columns leaves a new slide without a table (`ZeroDivisionError` inside
python-pptx), and a failed style lookup leaves a slide holding a blank
table.

Points where the code does less or other than its docstrings say; the
model follows the code:

- The `reset_content` docstring (ppt_builder.py:39) promises a full reset,
  but neither it nor `load_template` clears `content_added`. Nothing in the
  class clears it (ppt_builder.py:27, 35-41).
- The `add_table_style_to_template` docstring (ppt_builder.py:88) asks for
  styles first and content after, but `add_slide` does not set
  `content_added`. So styling after a bare `add_slide` still succeeds, and
  its reload discards that slide (ppt_builder.py:57-76, 92).
- The `add_table_only_slide` docstring (ppt_builder.py:110) says the style
  name defaults to `None`, meaning no styling. The code looks `None` up like
  any other name (ppt_builder.py:130): it is a `KeyError` unless a style was
  registered under the name `None`, which `add_table_style_to_template`
  allows; the style's XML then carries the name text `None`.
- The splice (table_style.py:96-98) is meant to add the fragment to the
  existing styles. A long styles text with fewer than three `'<'` gives the
  old text, the fragment and a stray `'<'`.

## Model

| member | source | states |
|---|---|---|
| Text.Split | table_style.py:98 | Python's `str.split` on one character always gives at least one piece |
| Text.JoinSplit | table_style.py:98 | joining the pieces of a split with the separator gives the text back |
| Text.SplitPieces | table_style.py:98 | a split has one piece more than the separator count, and no piece holds the separator |
| Text.SplitAtThird | table_style.py:98 | with at least three separators, the text is the first three pieces joined, the third separator, then the rest joined; the first part holds exactly two separators |
| TableStyle.UpperChar | table_style.py:28 | `upper()` on one character: a lower-case ASCII letter becomes its capital (32 code points lower); anything else is unchanged; the result is never lower-case |
| TableStyle.Upper | table_style.py:28 | `upper()` keeps the length and maps every character by `UpperChar` |
| TableStyle.GuidShape | table_style.py:25-28 | the GUID is two characters longer than the UUID text, starts with `{`, ends with `}`, has the upper-cased UUID in between and no lower-case ASCII letter |
| TableStyle.GuidOfUuid | table_style.py:22-28 | the GUID of a canonical lower-case UUID text is a braced upper-case GUID: upper-case hex digits, with hyphens at positions 9, 14, 19 and 24 |
| TableStyle.GuidRoundTrip | table_style.py:25-28 | lower-casing the inside of the GUID of a canonical UUID text gives the UUID text back |
| TableStyle.GuidInjective | table_style.py:25-28 | distinct canonical UUID texts give distinct GUIDs |
| TableStyle.CreateNewTableStyle | table_style.py:48-50 | the new style is exactly `get_style_element` on the same arguments, in the same order |
| TableStyle.SpliceBeforeThirdLt | table_style.py:98 | with three or more `'<'`, the splice puts the fragment just before the third `'<'` (at a `'<'` with exactly two before it), and prefix plus suffix is the old text |
| TableStyle.SpliceFewLt | table_style.py:98 | with fewer than three `'<'`, the splice is the old text, the fragment, then a stray `'<'` |
| TableStyle.FragmentKept | table_style.py:94-98 | any text inside the fragment is also in the new styles text, on every branch |
| TableStyle.FreshDocumentDefault | table_style.py:95 | a fresh styles document opens, right after the XML declaration, with a `tblStyleLst` tag whose `def` is the new id |
| TableStyle.ShortTextReplaced | table_style.py:76-95 | old text shorter than 250 characters is replaced by the declaration, the list tag with `def` set to the new id, the fragment and the closing tag |
| TableStyle.ShortTextIgnored | table_style.py:94-95 | any two old texts shorter than 250 characters give the same result |
| TableStyle.LongTextSpliced | table_style.py:94-98 | old text of 250 or more characters is spliced: all of it is kept, with the fragment before its third `'<'`, or at the end followed by `'<'` when it has fewer |
| TableStyle.ReturnedIdWritten | table_style.py:76-114 | the returned id is the GUID of the UUID, and the new text holds a `tblStyle` opening tag with that id and the given name |
| StyleElement.FirstRow | style_element.py:5-29 | with `display` false the block is empty |
| StyleElement.FirstRowShown | style_element.py:5-27 | the shown block starts (after blanks) with `<a:firstRow>`, ends (before blanks) with `</a:firstRow>` and holds the `srgbClr` tag of the text colour |
| StyleElement.StyleElementTags | style_element.py:36-149 | the fragment starts (after blanks) with the `tblStyle` tag carrying the given id and name, and ends (before blanks) with `</a:tblStyle>` |
| StyleElement.ColorsInTheirBands | style_element.py:38-116 | the background colour is the fill inside `a:wholeTbl`, the even colour inside `a:band1H` and the odd colour inside `a:band2H`, in that order |
| StyleElement.FirstRowSlot | style_element.py:146-149 | the fragment with the flag set is the fragment without it, with the white first-row block inserted at the one slot right after `</a:lastRow>` |
| TemplateTags.TemplateClean | style_element.py:36-149 | no constant part of the fragment's template holds the text `<a:firstRow>` |
| TemplateTags.RenderClean | style_element.py:36-149 | for any template without `<a:firstRow>` in it and slot values without `'<'`, the fragment without the first row holds no `<a:firstRow>` |
| TemplateTags.RenderHasFirstRow | style_element.py:5-149 | for any template laid out as the source's, the fragment with the first row holds `<a:firstRow>` |
| TemplateTags.FirstRowIncluded | style_element.py:32-149 | `get_style_element` with the flag set holds `<a:firstRow>`, whatever the slot values |
| TemplateTags.FirstRowOmitted | style_element.py:1-149 | `get_style_element` with the flag clear holds no `<a:firstRow>` when no slot value holds a `'<'` |
| TemplateTags.FirstRowIffIncluded | style_element.py:1-149 | for slot values without `'<'`, the fragment holds `<a:firstRow>` exactly when the flag is set |
| Builder.LayoutIndex | ppt_builder.py:71 | Python list indexing: an index in `[-n, n)` selects a layout, counting negative indices from the end; anything else is an `IndexError` |
| Builder.BlankCells | ppt_builder.py:126-127 | a new table of the given size: every cell has empty text and no font size |
| Builder.FilledCells | ppt_builder.py:121-150 | the filled table has one row more than the frame and one column per label; row 0 holds the labels, row `i + 1` holds data row `i`, and a cell has the font size exactly when its text holds a character other than a newline or a vertical tab, that is when python-pptx gives it a text run |
| Builder.PopulateTable | ppt_builder.py:121-150 | the header, data and font loops over an `array2` grid give exactly `FilledCells` |
| Builder.PPTBuilder.constructor | ppt_builder.py:12-27 | the builder opens the default presentation and saves it as `temp.pptx`, which becomes the template path; the registry is empty and the content flag false |
| Builder.PPTBuilder.LoadTemplate | ppt_builder.py:29-55 | the new state and outcome are those of `LoadTemplateStep` |
| Builder.PPTBuilder.ResetContent | ppt_builder.py:38-55 | the new state and outcome are those of `ResetContentStep` |
| Builder.PPTBuilder.AddSlide | ppt_builder.py:57-76 | the new state and outcome are those of `AddSlideStep` |
| Builder.PPTBuilder.AddTableStyleToTemplate | ppt_builder.py:78-103 | the new state and outcome are those of `AddTableStyleStep` |
| Builder.PPTBuilder.AddTableOnlySlide | ppt_builder.py:105-150 | the new state and outcome are those of `AddTableOnlySlideStep`; the cells come from `PopulateTable` |
| Builder.PPTBuilder.AddTitleOnlySlide | ppt_builder.py:156-165 | the new state and outcome are those of `AddTitleOnlySlideStep` |
| Session.InitialStateReloads | ppt_builder.py:22-41 | right after construction a reload succeeds and changes nothing; no style is registered and no content added |
| Session.LoadTemplateEffect | ppt_builder.py:29-55 | the path is recorded even on failure; loading succeeds exactly when the path is empty or names a presentation, which becomes the open one; nothing else changes |
| Session.ResetContentIdempotent | ppt_builder.py:38-41 | reloading twice is reloading once |
| Session.StepKeepsTemplate | ppt_builder.py:38-76 | a call that neither loads a template nor adds a style keeps the template path, the files and the default presentation |
| Session.RunKeepsTemplate | ppt_builder.py:38-165 | any sequence of such calls keeps the template path, the files and the default presentation |
| Session.ResetDiscardsSlides | ppt_builder.py:38-55 | after any sequence of calls that leave the template alone, a reload succeeds exactly when it would have before them and then opens the same presentation, whatever slides they added; the content flag stays as they left it |
| Session.AddSlideEffect | ppt_builder.py:57-76 | success exactly when the index names a layout with a title; an index out of range changes nothing; otherwise one slide is appended, titled exactly when the layout has a title; only the slides change, not the content flag |
| Session.AddTableStyleSucceeds | ppt_builder.py:92-98 | styling succeeds exactly when no content was added, three colours are given and the template file holds a styles part; a failure changes nothing; content means `ValueError` |
| Session.AddTableStyleEffect | ppt_builder.py:97-103 | on success the name (`None` included) maps to the GUID of the UUID (overwriting any old entry) and other names are kept; the template file holds a style with that id and the name's text (`None` for `None`), other files are unchanged, and the open presentation is the rewritten template |
| Session.RegisteredEffect | ppt_builder.py:97-103 | recording an injection rewrites only the template file's styles part, updates one registry entry and reloads the presentation from that file |
| Session.AddTableOnlySlideEffect | ppt_builder.py:105-150 | the flag is set on every outcome; success exactly when the slide can be added, the frame has a column and the name is registered; a frame with no columns is a `ZeroDivisionError` that leaves the new slide without a table; otherwise the new last slide holds a table of one row more than the frame, filled with the registered style on success, blank on the `KeyError` of an unregistered name |
| Session.StepFlag | ppt_builder.py:27-165 | every call leaves the flag set when it was set, sets it exactly when the call is `add_table_only_slide` or `add_title_only_slide`, whether or not it succeeds, and otherwise leaves it clear |
| Session.ContentFlagSticky | ppt_builder.py:27-165 | after any sequence of calls the flag is set exactly when it was set before or one of the calls is `add_table_only_slide` or `add_title_only_slide`, whether or not it succeeded |
| Session.StepAfterContent | ppt_builder.py:92-94 | once content exists, no call changes the registry or the files |
| Session.StylesFrozenAfterContent | ppt_builder.py:92-165 | once content exists, no sequence of calls changes the registry or the template files |
| Session.StepKeepsNames | ppt_builder.py:100 | no call removes a registered name |
| Session.NamesKept | ppt_builder.py:100 | after any sequence of calls every registered name is still registered |

## Left out

- ZIP extraction and re-archiving, the `tmp` workspace, `os.walk` and `rmtree` are file-system I/O. A template is a record with an optional styles text, and an injection overwrites that text in the same file.
- A workspace left behind by a failed injection, and stale files a later injection might then pick up, are file-system effects and are not modelled.
- `uuid.uuid4` is random. The UUID text is a parameter, and uniqueness is not stated.
- `upper()` is modelled on ASCII letters only. Python also upper-cases other Unicode letters, but a UUID's text holds none.
- An archive that is not a presentation (`BadZipFile`), a `None` path passed to `zipfile`, and wrong argument types (`TypeError`) are not modelled. Every file is a presentation, and an empty path is a `FileNotFoundError`.
- The table's position and size on the slide (`Inches`), `Pt` units and the XML path used to write the style reference belong to python-pptx. The font size is the number 15, and the style reference is a field of the table.
- The default table style id of a new python-pptx table is written as a constant. It only shows on a slide left behind by a failed lookup.
- Cell paragraphs and runs are not modelled. python-pptx splits a cell's text into paragraphs at newlines and into lines at vertical tabs, and gives a run only to a non-empty piece; a cell gets the font size exactly when it has a run, which is recorded as one size per cell.
- Data frames are column labels plus equal-length rows of strings. `iterrows` is taken to yield the default index 0 to n-1, and non-string values are not modelled.
- `save`, and the slide object `add_slide` returns, are not modelled. Saving is I/O, and the caller of `add_slide` sees the slide in the presentation.
- StyleElement.FirstRow: only the empty branch is stated in its contract. The shown branch is stated by `FirstRowShown` and `FirstRowSlot`.
- TemplateTags.FirstRowOmitted requires slot values without `'<'`. A style name may itself hold the text `<a:firstRow>`, and then the source's output holds it with the flag clear.
- TemplateTags.FirstRowIffIncluded requires slot values without `'<'`, for the same reason: with a style name holding `<a:firstRow>`, the tag is present whatever the flag. GUIDs and hex colours meet the requirement.
- `ppt/tableStyles.xml` is read and written in text mode (table_style.py:90-91, 101-102). The styles text stands for what that read returns: carriage returns translated away and the platform's decoding applied are not modelled, and the 250-character test counts that decoded text.
- Data rows are read by label (`row[df.columns[j]]`, ppt_builder.py:143). The model reads them by position, which agrees when the labels are distinct; a repeated label makes pandas return several values, which is not modelled.
- XML well-formedness: the code only concatenates strings, and so does the model.
