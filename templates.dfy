/**
 * Template selection (App.tsx): a slide is drawn with the title template, the
 * section template or the content template, chosen by its two layout flags,
 * the title flag winning when both are set.  `Render` gives what each
 * template shows of the slide record.
 */
module Templates {
  import opened Wrappers
  import opened SlideTypes
  import opened ContentLines

  /** The three layouts. */
  datatype TemplateKind = TitleTemplate | SectionTemplate | ContentTemplate

  /** The condition under which the slide body is centred: either layout flag is set. */
  predicate Centered(slide: SlideContent): (b: bool)
    ensures slide.isTitleSlide ==> b
    ensures slide.isSectionTitle ==> b
    ensures !slide.isTitleSlide && !slide.isSectionTitle ==> !b
  {
    slide.isTitleSlide || slide.isSectionTitle
  }

  /**
   * The template of a slide.  The centred layouts are exactly the title and
   * section templates, so the alignment and the template always agree.
   */
  function ChooseTemplate(slide: SlideContent): (k: TemplateKind)
    ensures k != ContentTemplate <==> Centered(slide)
  {
    if slide.isTitleSlide then TitleTemplate
    else if slide.isSectionTitle then SectionTemplate
    else ContentTemplate
  }

  /** The title flag wins, whatever the section flag says. */
  lemma TitleWins(slide: SlideContent)
    requires slide.isTitleSlide
    ensures ChooseTemplate(slide) == TitleTemplate
  {
  }

  /** The section template is chosen exactly for a section slide that is not a title slide. */
  lemma SectionOnlyWithoutTitle(slide: SlideContent)
    ensures ChooseTemplate(slide) == SectionTemplate <==> slide.isSectionTitle && !slide.isTitleSlide
  {
  }

  /** The code/output panel of a content slide. */
  datatype CodePanel = CodePanel(code: string, output: Option<string>)

  /** What is drawn for a slide, one variant per template. */
  datatype SlideView =
    | TitleView(title: string, subtitle: Option<string>, lines: Option<seq<string>>)
    | SectionView(section: string, title: string)
    | ContentView(
        section: string,
        title: string,
        items: seq<ContentLine>,
        codePanel: Option<CodePanel>,
        joinDiagram: bool,
        businessApplication: Option<string>)

  /** An optional string guarded by JavaScript truthiness: drawn only when present and non-empty. */
  function Shown(s: Option<string>): (r: Option<string>)
    ensures r.Some? <==> Truthy(s)
    ensures r.Some? ==> r == s
  {
    if Truthy(s) then s else None
  }

  /** The content strings of a slide, read with optional chaining: an absent list draws nothing. */
  function ContentOf(slide: SlideContent): (lines: seq<string>)
    ensures slide.content == None ==> lines == []
    ensures slide.content.Some? ==> lines == slide.content.value
  {
    match slide.content
    case Some(lines) => lines
    case None => []
  }

  /**
   * The view of a slide under its template: every template draws the slide's
   * title, the section and content templates draw its section, and the title
   * template draws its subtitle when that is truthy.
   */
  function Render(slide: SlideContent): (v: SlideView)
    ensures v.TitleView? <==> ChooseTemplate(slide) == TitleTemplate
    ensures v.SectionView? <==> ChooseTemplate(slide) == SectionTemplate
    ensures v.ContentView? ==> |v.items| == |ContentOf(slide)|
    ensures v.title == slide.title
    ensures v.SectionView? || v.ContentView? ==> v.section == slide.section
    ensures v.TitleView? ==> v.subtitle == Shown(slide.subtitle)
  {
    match ChooseTemplate(slide)
    case TitleTemplate =>
      TitleView(slide.title, Shown(slide.subtitle), slide.content)
    case SectionTemplate =>
      SectionView(slide.section, slide.title)
    case ContentTemplate =>
      var lines := ContentOf(slide);
      ContentView(
        slide.section,
        slide.title,
        seq(|lines|, i requires 0 <= i < |lines| => Classify(lines[i])),
        if Truthy(slide.code) then Some(CodePanel(slide.code.value, slide.codeOutput)) else None,
        slide.isJoinDiagram,
        Shown(slide.businessApplication))
  }

  /**
   * On a title slide the content strings are drawn as they are, in order, as
   * plain paragraphs: none is classified, and the list is drawn exactly when
   * the record has one.
   */
  lemma TitleLinesUnclassified(slide: SlideContent)
    requires slide.isTitleSlide
    ensures Render(slide).TitleView?
    ensures Render(slide).lines == slide.content
  {
  }

  /** A title slide with no subtitle, or an empty one, draws no subtitle region at all. */
  lemma SubtitleOmitted(slide: SlideContent)
    requires slide.isTitleSlide
    ensures Render(slide).subtitle.None? <==> !Truthy(slide.subtitle)
  {
  }

  /**
   * On a content slide every string turns into exactly the item its
   * classification gives: a line containing `?` is never split, the break
   * marker is never anything but a break, and every pair's heading followed
   * by the untrimmed rest of its line gives the line back.
   */
  lemma ContentItemsClassified(slide: SlideContent, i: nat)
    requires !Centered(slide)
    requires i < |ContentOf(slide)|
    ensures Render(slide).ContentView?
    ensures var item := Render(slide).items[i]; var line := ContentOf(slide)[i];
      item == Classify(line) &&
      ('?' in line ==> !item.Pair?) &&
      (line == LineBreak <==> item.Break?) &&
      (item.Pair? ==> line == item.heading + line[|item.heading|..])
  {
  }

  /** The code panel is drawn exactly when the slide has non-empty code, and shows that code and its output. */
  lemma CodePanelShown(slide: SlideContent)
    requires !Centered(slide)
    ensures Render(slide).ContentView?
    ensures Render(slide).codePanel.Some? <==> Truthy(slide.code)
    ensures Render(slide).codePanel.Some? ==>
      Render(slide).codePanel.value == CodePanel(slide.code.value, slide.codeOutput)
  {
  }

  /**
   * A content slide draws the join diagram exactly when its flag is set, and
   * the business-application callout exactly when that text is non-empty,
   * showing that text.
   */
  lemma DiagramAndCalloutShown(slide: SlideContent)
    requires !Centered(slide)
    ensures Render(slide).ContentView?
    ensures Render(slide).joinDiagram == slide.isJoinDiagram
    ensures Render(slide).businessApplication == Shown(slide.businessApplication)
    ensures Render(slide).businessApplication.Some? <==> Truthy(slide.businessApplication)
    ensures Render(slide).businessApplication.Some? ==>
      Render(slide).businessApplication.value == slide.businessApplication.value
  {
  }
}
