/** What the builder's operations guarantee, one call at a time and over a
    whole sequence of calls. Every exception a call raises is taken to be
    caught by the caller, who goes on with the state the call left. */
module Session {
  import opened Text
  import opened TableStyle
  import opened Builder
  import StyleElement

  /** One call of a builder method, with its arguments. */
  datatype Call =
    | LoadTemplate(path: string)
    | ResetContent
    | AddSlide(templateId: int, title: string)
    | AddTableStyle(uuidText: string, style: seq<string>, name: Option<string>, includeHeaderRow: bool)
    | AddTableOnlySlide(df: DataFrame, styleName: Option<string>, templateId: int, title: string)
    | AddTitleOnlySlide(templateId: int, title: string)

  function Step(s: State, call: Call): Transition {
    match call
    case LoadTemplate(path) => LoadTemplateStep(s, path)
    case ResetContent => ResetContentStep(s)
    case AddSlide(i, title) => AddSlideStep(s, i, title)
    case AddTableStyle(u, style, name, header) => AddTableStyleStep(s, u, style, name, header)
    case AddTableOnlySlide(df, styleName, i, title) => AddTableOnlySlideStep(s, df, styleName, i, title)
    case AddTitleOnlySlide(i, title) => AddTitleOnlySlideStep(s, i, title)
  }

  /** The state after the calls, in order. */
  function Run(s: State, calls: seq<Call>): State
    decreases |calls|
  {
    if |calls| == 0 then s else Run(Step(s, calls[0]).state, calls[1..])
  }

  /** The two methods that add content. */
  predicate AddsContent(call: Call) {
    call.AddTableOnlySlide? || call.AddTitleOnlySlide?
  }

  /** `add_slide` succeeds exactly when the index names a layout that has a
      title; an index out of range changes nothing; otherwise one slide is
      appended, titled exactly when its layout has a title. Nothing but the
      slides changes, and the content flag least of all. */
  lemma AddSlideEffect(s: State, templateId: int, title: string)
    ensures var t := AddSlideStep(s, templateId, title);
      var n := |s.prs.layouts|;
      && (t.outcome == Pass <==> -(n as int) <= templateId < n && s.prs.layouts[LayoutIndex(n, templateId).value].hasTitle)
      && (t.outcome == Fail(IndexError) <==> !(-(n as int) <= templateId < n))
      && (t.outcome == Fail(IndexError) ==> t.state == s)
      && t.state == s.(prs := t.state.prs)
      && t.state.prs.layouts == s.prs.layouts && t.state.prs.tableStyles == s.prs.tableStyles
      && (t.outcome != Fail(IndexError) ==>
            var k := LayoutIndex(n, templateId).value;
            && t.outcome.Fail? == !s.prs.layouts[k].hasTitle
            && t.state.prs.slides == s.prs.slides + [Slide(k, if t.outcome == Pass then Some(title) else None, None)])
  {
  }

  /** `add_table_style_to_template` succeeds exactly when no content was
      added, three colours are given and the template file holds a list of
      table styles. */
  lemma AddTableStyleSucceeds(s: State, uuidText: string, style: seq<string>, name: Option<string>,
                              includeHeaderRow: bool)
    ensures var t := AddTableStyleStep(s, uuidText, style, name, includeHeaderRow);
      && (t.outcome == Pass <==>
            && !s.contentAdded && |style| >= 3
            && s.templatePath != "" && s.templatePath in s.files && s.files[s.templatePath].tableStyles.Some?)
      && (t.outcome.Fail? ==> t.state == s)
      && (s.contentAdded ==> t.outcome == Fail(ValueError))
  {
  }

  /** A successful styling call registers the name under the GUID of the
      UUID, writes a style with that id and name into the template file and
      reloads the presentation from it; the other files, the other names,
      the template path and the content flag stay as they were. */
  lemma AddTableStyleEffect(s: State, uuidText: string, style: seq<string>, name: Option<string>,
                            includeHeaderRow: bool)
    requires AddTableStyleStep(s, uuidText, style, name, includeHeaderRow).outcome == Pass
    ensures var t := AddTableStyleStep(s, uuidText, style, name, includeHeaderRow).state;
      var id := GenerateGuid(uuidText);
      && t.styles == s.styles[name := id]
      && t.templatePath == s.templatePath && t.contentAdded == s.contentAdded && t.blank == s.blank
      && t.files.Keys == s.files.Keys
      && (forall p :: p in s.files && p != s.templatePath ==> t.files[p] == s.files[p])
      && t.prs == t.files[t.templatePath]
      && t.prs.layouts == s.files[s.templatePath].layouts && t.prs.slides == s.files[s.templatePath].slides
      && t.prs.tableStyles.Some? && Contains(t.prs.tableStyles.value, StyleElement.StyleOpenTag(id, NameText(name)))
  {
    var text := s.files[s.templatePath].tableStyles.value;
    var injection := AddStyleToPowerpoint(text, uuidText, NameText(name), style[0], style[1], style[2],
                                          includeHeaderRow);
    ReturnedIdWritten(text, uuidText, NameText(name), style[0], style[1], style[2], includeHeaderRow);
    assert AddTableStyleStep(s, uuidText, style, name, includeHeaderRow).state == Registered(s, name, injection);
    RegisteredEffect(s, name, injection);
  }

  lemma RegisteredEffect(s: State, name: Option<string>, injection: Injection)
    requires s.templatePath in s.files
    ensures var t := Registered(s, name, injection);
      && t.styles == s.styles[name := injection.styleId]
      && t.templatePath == s.templatePath && t.contentAdded == s.contentAdded && t.blank == s.blank
      && t.files.Keys == s.files.Keys
      && (forall p :: p in s.files && p != s.templatePath ==> t.files[p] == s.files[p])
      && t.prs == t.files[t.templatePath]
      && t.prs.layouts == s.files[s.templatePath].layouts && t.prs.slides == s.files[s.templatePath].slides
      && t.prs.tableStyles == Some(injection.newText)
  {
  }

  /** The constructor saves the default presentation under the template
      path it records, so reloading right after it succeeds and changes
      nothing; no style is registered and no content added yet. */
  lemma InitialStateReloads(files: map<string, Presentation>, blank: Presentation)
    ensures var s := InitialState(files, blank);
      && ResetContentStep(s) == Transition(s, Pass)
      && s.styles == map[] && !s.contentAdded && s.prs == blank
  {
  }

  /** `load_template` records the path whether or not it can be opened; it
      succeeds exactly when the path is empty or names a presentation, which
      becomes the open one. Nothing else changes. */
  lemma LoadTemplateEffect(s: State, path: string)
    ensures var t := LoadTemplateStep(s, path);
      && t.state.templatePath == path
      && t.state == s.(templatePath := path, prs := t.state.prs)
      && (t.outcome == Pass <==> path == "" || path in s.files)
      && (t.outcome.Fail? ==> t.outcome == Fail(PackageNotFoundError) && t.state.prs == s.prs)
      && (path == "" ==> t.state.prs == s.blank)
      && (path != "" && path in s.files ==> t.state.prs == s.files[path])
  {
  }

  /** Reloading twice is reloading once. */
  lemma ResetContentIdempotent(s: State)
    ensures var once := ResetContentStep(s);
      ResetContentStep(once.state) == once
  {
  }

  /** The calls that leave the template alone: all but loading a template
      and styling it. */
  predicate KeepsTemplate(call: Call) {
    !call.LoadTemplate? && !call.AddTableStyle?
  }

  /** Such a call changes neither the template path, the files nor the
      default presentation. */
  lemma StepKeepsTemplate(s: State, call: Call)
    requires KeepsTemplate(call)
    ensures var t := Step(s, call).state;
      t.templatePath == s.templatePath && t.files == s.files && t.blank == s.blank
  {
    match call
    case AddTableOnlySlide(df, styleName, i, title) =>
      AddTableOnlySlideEffect(s, df, styleName, i, title);
    case AddTitleOnlySlide(i, title) =>
      AddSlideEffect(s.(contentAdded := true), i, title);
    case AddSlide(i, title) =>
      AddSlideEffect(s, i, title);
    case ResetContent =>
  }

  lemma {:induction false} RunKeepsTemplate(s: State, calls: seq<Call>)
    requires forall i | 0 <= i < |calls| :: KeepsTemplate(calls[i])
    ensures var t := Run(s, calls);
      t.templatePath == s.templatePath && t.files == s.files && t.blank == s.blank
    decreases |calls|
  {
    if |calls| > 0 {
      StepKeepsTemplate(s, calls[0]);
      assert forall i | 0 <= i < |calls[1..]| :: calls[1..][i] == calls[i + 1];
      RunKeepsTemplate(Step(s, calls[0]).state, calls[1..]);
    }
  }

  /** Reloading reads only the template path, the files and the default
      presentation. */
  lemma ReloadReadsTemplate(s: State, t: State)
    requires s.templatePath == t.templatePath && s.files == t.files && s.blank == t.blank
    ensures ResetContentStep(s).outcome == ResetContentStep(t).outcome
    ensures ResetContentStep(s).outcome == Pass ==> ResetContentStep(s).state.prs == ResetContentStep(t).state.prs
  {
  }

  /** `reset_content` fully resets the presentation: after any calls that
      leave the template alone (adding slides, tables, titles, reloading),
      a reload succeeds exactly when it would have succeeded before them
      and then opens the same presentation, whatever the calls added; the
      content flag stays as the calls left it. */
  lemma ResetDiscardsSlides(s: State, calls: seq<Call>)
    requires forall i | 0 <= i < |calls| :: KeepsTemplate(calls[i])
    ensures var after := Run(s, calls);
      && ResetContentStep(after).outcome == ResetContentStep(s).outcome
      && (ResetContentStep(s).outcome == Pass ==> ResetContentStep(after).state.prs == ResetContentStep(s).state.prs)
      && ResetContentStep(after).state.contentAdded == after.contentAdded
  {
    RunKeepsTemplate(s, calls);
    ReloadReadsTemplate(Run(s, calls), s);
  }

  /** `add_table_only_slide` always sets the content flag. It succeeds
      exactly when the slide can be added, the frame has a column and the
      style name is registered; then the new last slide holds a table of one
      row more than the frame, filled and sized as the builder fills it,
      that refers to the registered style. A frame without columns leaves
      the slide without a table; a name that is not registered leaves the
      slide with a blank table of the same size behind. */
  lemma AddTableOnlySlideEffect(s: State, df: DataFrame, styleName: Option<string>, templateId: int, title: string)
    ensures var t := AddTableOnlySlideStep(s, df, styleName, templateId, title);
      var added := AddSlideStep(s, templateId, title);
      && t.state.contentAdded
      && t.state.styles == s.styles && t.state.files == s.files && t.state.templatePath == s.templatePath
      && (t.outcome == Pass <==> added.outcome == Pass && |df.columns| > 0 && styleName in s.styles)
      && (added.outcome.Fail? ==> t == Transition(added.state.(contentAdded := true), added.outcome))
      && (added.outcome == Pass ==>
            var last := |t.state.prs.slides| - 1;
            && |t.state.prs.slides| == |s.prs.slides| + 1
            && t.state.prs.slides[..last] == s.prs.slides
            && t.state.prs.slides[last].title == Some(title)
            && (|df.columns| == 0 ==>
                  t.outcome == Fail(ZeroDivisionError) && t.state.prs.slides[last].table.None?)
            && (|df.columns| > 0 ==>
                  && t.state.prs.slides[last].table.Some?
                  && var table := t.state.prs.slides[last].table.value;
                  && |table.cells| == |df.rows| + 1
                  && (t.outcome == Pass ==>
                        table == Table(FilledCells(df, FontSizePt), s.styles[styleName]))
                  && (t.outcome.Fail? ==>
                        && t.outcome == Fail(KeyError)
                        && table == Table(BlankCells(|df.rows| + 1, |df.columns|), DefaultTableStyleId))))
  {
    AddSlideEffect(s.(contentAdded := true), templateId, title);
    AddSlideEffect(s, templateId, title);
  }

  /** A step sets the content flag when it adds content and never clears it. */
  lemma StepFlag(s: State, call: Call)
    ensures Step(s, call).state.contentAdded == (s.contentAdded || AddsContent(call))
  {
    match call
    case AddTableOnlySlide(df, styleName, i, title) =>
      AddTableOnlySlideEffect(s, df, styleName, i, title);
    case AddTitleOnlySlide(i, title) =>
      AddSlideEffect(s.(contentAdded := true), i, title);
    case AddSlide(i, title) =>
      AddSlideEffect(s, i, title);
    case AddTableStyle(u, style, name, header) =>
      AddTableStyleSucceeds(s, u, style, name, header);
      if Step(s, call).outcome == Pass {
        AddTableStyleEffect(s, u, style, name, header);
      }
    case _ =>
  }

  /** The content flag, once set, is never cleared, and it is set after a
      sequence of calls exactly when it was set before or one of the calls
      adds content. */
  lemma {:induction false} ContentFlagSticky(s: State, calls: seq<Call>)
    ensures Run(s, calls).contentAdded == (s.contentAdded || exists i :: 0 <= i < |calls| && AddsContent(calls[i]))
    decreases |calls|
  {
    if |calls| > 0 {
      StepFlag(s, calls[0]);
      ContentFlagSticky(Step(s, calls[0]).state, calls[1..]);
      assert forall i :: 1 <= i < |calls| ==> calls[i] == calls[1..][i - 1];
      if exists i :: 0 <= i < |calls[1..]| && AddsContent(calls[1..][i]) {
        var i :| 0 <= i < |calls[1..]| && AddsContent(calls[1..][i]);
        assert AddsContent(calls[i + 1]);
      }
    }
  }

  /** Only styling changes the registry or the files, and styling fails
      once content was added. */
  lemma StepAfterContent(s: State, call: Call)
    requires s.contentAdded
    ensures Step(s, call).state.styles == s.styles && Step(s, call).state.files == s.files
  {
    match call
    case AddTableOnlySlide(df, styleName, i, title) =>
      AddTableOnlySlideEffect(s, df, styleName, i, title);
    case AddTitleOnlySlide(i, title) =>
      AddSlideEffect(s.(contentAdded := true), i, title);
    case AddSlide(i, title) =>
      AddSlideEffect(s, i, title);
    case AddTableStyle(u, style, name, header) =>
      AddTableStyleSucceeds(s, u, style, name, header);
    case _ =>
  }

  /** After content has been added, no sequence of calls changes the table
      styles: neither the registry nor the template files. */
  lemma {:induction false} StylesFrozenAfterContent(s: State, calls: seq<Call>)
    requires s.contentAdded
    ensures Run(s, calls).styles == s.styles && Run(s, calls).files == s.files
    decreases |calls|
  {
    if |calls| > 0 {
      StepAfterContent(s, calls[0]);
      StepFlag(s, calls[0]);
      StylesFrozenAfterContent(Step(s, calls[0]).state, calls[1..]);
    }
  }

  /** No call forgets a registered name. */
  lemma StepKeepsNames(s: State, call: Call)
    ensures s.styles.Keys <= Step(s, call).state.styles.Keys
  {
    match call
    case AddTableOnlySlide(df, styleName, i, title) =>
      AddTableOnlySlideEffect(s, df, styleName, i, title);
    case AddTitleOnlySlide(i, title) =>
      AddSlideEffect(s.(contentAdded := true), i, title);
    case AddSlide(i, title) =>
      AddSlideEffect(s, i, title);
    case AddTableStyle(u, style, name, header) =>
      AddTableStyleSucceeds(s, u, style, name, header);
      if Step(s, call).outcome == Pass {
        AddTableStyleEffect(s, u, style, name, header);
      }
    case _ =>
  }

  /** The registry only grows: a name registered once stays registered. */
  lemma {:induction false} NamesKept(s: State, calls: seq<Call>)
    ensures s.styles.Keys <= Run(s, calls).styles.Keys
    decreases |calls|
  {
    if |calls| > 0 {
      StepKeepsNames(s, calls[0]);
      NamesKept(Step(s, calls[0]).state, calls[1..]);
    }
  }
}
