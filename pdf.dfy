/** The PDF export (`export_pdf`): the plain text is split into lines and drawn top-down on
    letter-size pages. A line whose stripped text is a section title is drawn as a heading;
    every other line is wrapped by reportlab's `simpleSplit` (here the parameter `wrap`) and
    its pieces are drawn one under the other. A new page starts when the cursor has dropped
    below the bottom margin before a line. */
module Pdf {
  import opened Seqs
  import opened Text
  import opened Resume
  import opened Linearizer

  datatype Font = Font(face: string, size: nat)

  /** The canvas' font when it is created and after every page break. */
  const DefaultFont := Font("Helvetica", 12)
  const TitleFont := Font("Helvetica-Bold", 14)
  const HeadingFont := Font("Helvetica-Bold", 12)
  const BodyFont := Font("Helvetica", 11)

  /** Letter paper, in points. */
  const PageWidth := 612
  const PageHeight := 792
  const XMargin := 40
  /** Where the cursor starts on every page. */
  const Top := PageHeight - 40
  /** A line starts a new page when the cursor is below this. */
  const Bottom := 60
  const HeadingStep := 18
  const LineStep := 14
  /** The width, 532 points, at which the `wrap` parameter of the functions below splits a
      body line in the body font. */
  const WrapWidth := PageWidth - 2 * XMargin

  /** The words that make a line a heading once stripped. */
  const HeadingWords: seq<string> := ["Summary", "Experience", "Education", "Skills", "Achievements"]

  /** One `drawString` call: position, text and the font in effect. */
  datatype Draw = Draw(x: int, y: int, text: string, font: Font)

  predicate IsHeading(line: string) {
    Strip(line) in HeadingWords
  }

  /** The heading words are exactly the section titles. */
  lemma HeadingWordsAreTitles(w: string)
    ensures w in HeadingWords <==> exists s :: w == SectionTitle(s)
  {
    if w in HeadingWords {
      if w == "Summary" { assert w == SectionTitle(Summary); }
      else if w == "Experience" { assert w == SectionTitle(Experience); }
      else if w == "Education" { assert w == SectionTitle(Education); }
      else if w == "Skills" { assert w == SectionTitle(Skills); }
      else { assert w == SectionTitle(Achievements); }
    }
  }

  /** A line is a heading exactly when, stripped, it is the title of a section. */
  lemma IsHeadingIff(line: string)
    ensures IsHeading(line) <==> exists s :: Strip(line) == SectionTitle(s)
  {
    HeadingWordsAreTitles(Strip(line));
  }

  /** A canvas: the font in effect, the draws on the current page, the finished pages. */
  class Canvas {
    var font: Font
    var page: seq<Draw>
    var done: seq<seq<Draw>>

    constructor ()
      ensures font == DefaultFont && page == [] && done == []
    {
      font := DefaultFont;
      page := [];
      done := [];
    }

    method SetFont(f: Font)
      modifies this
      ensures font == f && page == old(page) && done == old(done)
    {
      font := f;
    }

    method DrawString(x: int, y: int, text: string)
      modifies this
      ensures page == old(page) + [Draw(x, y, text, font)]
      ensures font == old(font) && done == old(done)
    {
      page := page + [Draw(x, y, text, font)];
    }

    /** Closes the current page; the new page starts with the default graphics state. */
    method ShowPage()
      modifies this
      ensures done == old(done) + [old(page)] && page == [] && font == DefaultFont
    {
      done := done + [page];
      page := [];
      font := DefaultFont;
    }
  }

  /** The state of the export between two lines: cursor, font, current page, finished pages. */
  datatype Layout = Layout(y: int, font: Font, page: seq<Draw>, done: seq<seq<Draw>>)

  /** Before the first line: the title font at the top of the first page. */
  const Start := Layout(Top, TitleFont, [], [])

  /** The page-break test made before each line. */
  function BreakIfLow(s: Layout): Layout {
    if s.y < Bottom then Layout(Top, BodyFont, [], s.done + [s.page]) else s
  }

  /** Drawing the wrapped pieces of a line, one `LineStep` apart. */
  function DrawPieces(s: Layout, ws: seq<string>): Layout {
    if ws == [] then s
    else
      var t := DrawPieces(s, ws[..|ws| - 1]);
      Layout(t.y - LineStep, t.font, t.page + [Draw(XMargin, t.y, ws[|ws| - 1], t.font)], t.done)
  }

  /** One line: the page-break test, then either a heading or the wrapped pieces. */
  function Step(s: Layout, line: string, heading: string -> bool, wrap: string -> seq<string>): Layout {
    var b := BreakIfLow(s);
    if heading(line) then Layout(b.y - HeadingStep, BodyFont, b.page + [Draw(XMargin, b.y, line, HeadingFont)], b.done)
    else DrawPieces(b, wrap(line))
  }

  /** The state after the lines; the cursor never rises above the top of the page. */
  function Run(lines: seq<string>, heading: string -> bool, wrap: string -> seq<string>): (r: Layout)
    ensures r.y <= Top
  {
    if lines == [] then Start
    else
      var before := Run(lines[..|lines| - 1], heading, wrap);
      StepCursor(before, lines[|lines| - 1], heading, wrap);
      Step(before, lines[|lines| - 1], heading, wrap)
  }

  /** The pages of the document: the finished ones and the one the final `showPage` closes. */
  function Render(lines: seq<string>, heading: string -> bool, wrap: string -> seq<string>): (r: seq<seq<Draw>>)
    ensures |r| >= 1
    ensures lines == [] ==> r == [[]]
  {
    var s := Run(lines, heading, wrap);
    s.done + [s.page]
  }

  function PdfPages(d: ResumeData, wrap: string -> seq<string>): seq<seq<Draw>> {
    Render(SplitLines(FormatTextResume(d)), IsHeading, wrap)
  }

  lemma RunSnoc(lines: seq<string>, i: nat, heading: string -> bool, wrap: string -> seq<string>)
    requires i < |lines|
    ensures Run(lines[..i + 1], heading, wrap) == Step(Run(lines[..i], heading, wrap), lines[i], heading, wrap)
  {
    assert lines[..i + 1][..i] == lines[..i];
  }

  lemma DrawPiecesSnoc(s: Layout, ws: seq<string>, k: nat)
    requires k < |ws|
    ensures DrawPieces(s, ws[..k + 1]) ==
      var t := DrawPieces(s, ws[..k]);
      Layout(t.y - LineStep, t.font, t.page + [Draw(XMargin, t.y, ws[k], t.font)], t.done)
  {
    assert ws[..k + 1][..k] == ws[..k];
  }

  /** The drawing loop of the export, on a fresh canvas: one `for` loop over the lines,
      and one over the pieces of each wrapped line. */
  method DrawLines(lines: seq<string>, heading: string -> bool, wrap: string -> seq<string>) returns (pages: seq<seq<Draw>>)
    ensures pages == Render(lines, heading, wrap)
  {
    var c := new Canvas();
    var y := Top;
    c.SetFont(TitleFont);
    var i := 0;
    while i < |lines|
      invariant 0 <= i <= |lines|
      invariant Layout(y, c.font, c.page, c.done) == Run(lines[..i], heading, wrap)
    {
      var line := lines[i];
      RunSnoc(lines, i, heading, wrap);
      ghost var b := BreakIfLow(Run(lines[..i], heading, wrap));
      if y < Bottom {
        c.ShowPage();
        c.SetFont(BodyFont);
        y := Top;
      }
      assert Layout(y, c.font, c.page, c.done) == b;
      if heading(line) {
        c.SetFont(HeadingFont);
        c.DrawString(XMargin, y, line);
        c.SetFont(BodyFont);
        y := y - HeadingStep;
        assert Layout(y, c.font, c.page, c.done) == Step(Run(lines[..i], heading, wrap), line, heading, wrap);
      } else {
        y := DrawWrapped(c, y, wrap(line));
      }
      i := i + 1;
    }
    assert lines[..i] == lines;
    c.ShowPage();
    pages := c.done;
  }

  /** The inner loop: the wrapped pieces of one line, one line step apart from cursor `y0`. */
  method DrawWrapped(c: Canvas, y0: int, wrapped: seq<string>) returns (y: int)
    modifies c
    ensures Layout(y, c.font, c.page, c.done) == DrawPieces(Layout(y0, old(c.font), old(c.page), old(c.done)), wrapped)
  {
    ghost var before := Layout(y0, c.font, c.page, c.done);
    y := y0;
    var k := 0;
    while k < |wrapped|
      invariant 0 <= k <= |wrapped|
      invariant Layout(y, c.font, c.page, c.done) == DrawPieces(before, wrapped[..k])
    {
      DrawPiecesSnoc(before, wrapped, k);
      c.DrawString(XMargin, y, wrapped[k]);
      y := y - LineStep;
      k := k + 1;
    }
    assert wrapped[..k] == wrapped;
  }

  /** The export: the plain text of the résumé, split into lines and drawn. */
  method ExportPdf(d: ResumeData, wrap: string -> seq<string>) returns (pages: seq<seq<Draw>>)
    ensures pages == PdfPages(d, wrap)
  {
    var text := FormatTextResume(d);
    pages := DrawLines(SplitLines(text), IsHeading, wrap);
  }

  /** The pieces of a wrapped line as drawn from cursor `y`: the `k`-th one `k` line steps lower. */
  function PieceDraws(y: int, font: Font, ws: seq<string>): (r: seq<Draw>)
    ensures |r| == |ws|
  {
    seq(|ws|, k requires 0 <= k < |ws| => Draw(XMargin, y - LineStep * k, ws[k], font))
  }

  /** Drawing the pieces one at a time gives the closed form: the cursor drops by one line
      step per piece and every piece is drawn in the font in effect. */
  lemma {:induction false} DrawPiecesClosedForm(s: Layout, ws: seq<string>)
    ensures DrawPieces(s, ws) == Layout(s.y - LineStep * |ws|, s.font, s.page + PieceDraws(s.y, s.font, ws), s.done)
    decreases |ws|
  {
    if ws != [] {
      var n := |ws| - 1;
      DrawPiecesClosedForm(s, ws[..n]);
      var front := PieceDraws(s.y, s.font, ws[..n]);
      assert PieceDraws(s.y, s.font, ws) == front + [Draw(XMargin, s.y - LineStep * n, ws[n], s.font)];
    }
  }

  /** What a line contributes to the drawn text: itself for a heading, its pieces otherwise. */
  function LineTexts(line: string, heading: string -> bool, wrap: string -> seq<string>): seq<string> {
    if heading(line) then [line] else wrap(line)
  }

  /** The texts the lines should put on paper, in order. */
  function Printed(lines: seq<string>, heading: string -> bool, wrap: string -> seq<string>): seq<string> {
    if lines == [] then [] else Printed(lines[..|lines| - 1], heading, wrap) + LineTexts(lines[|lines| - 1], heading, wrap)
  }

  function DrawText(dr: Draw): string {
    dr.text
  }

  predicate InHeadingFont(dr: Draw) {
    dr.font == HeadingFont
  }

  /** Every draw so far, page after page. */
  function AllDraws(s: Layout): seq<Draw> {
    Flatten(s.done) + s.page
  }

  /** The draws one line adds, from the cursor and font left by the page-break test. */
  function LineDraws(b: Layout, line: string, heading: string -> bool, wrap: string -> seq<string>): seq<Draw> {
    if heading(line) then [Draw(XMargin, b.y, line, HeadingFont)] else PieceDraws(b.y, b.font, wrap(line))
  }

  /** A page break moves the current page to the finished ones and loses no draw. */
  lemma BreakKeepsDraws(s: Layout)
    ensures AllDraws(BreakIfLow(s)) == AllDraws(s)
  {
    if s.y < Bottom {
      FlattenAppend(s.done, [s.page]);
      assert Flatten([s.page]) == s.page + Flatten([]);
    }
  }

  lemma StepDraws(s: Layout, line: string, heading: string -> bool, wrap: string -> seq<string>)
    ensures AllDraws(Step(s, line, heading, wrap)) == AllDraws(s) + LineDraws(BreakIfLow(s), line, heading, wrap)
  {
    var b := BreakIfLow(s);
    BreakKeepsDraws(s);
    if !heading(line) {
      DrawPiecesClosedForm(b, wrap(line));
    }
  }

  lemma PieceTexts(y: int, font: Font, ws: seq<string>)
    ensures Map(DrawText, PieceDraws(y, font, ws)) == ws
  {
    var draws := PieceDraws(y, font, ws);
    forall i | 0 <= i < |ws| ensures Map(DrawText, draws)[i] == ws[i] {
      MapAt(DrawText, draws, i);
    }
  }

  /** The document holds exactly the texts the lines call for, in order: nothing is lost,
      repeated or reordered across page breaks. */
  lemma {:induction false} RunPrintsLines(lines: seq<string>, heading: string -> bool, wrap: string -> seq<string>)
    ensures Map(DrawText, AllDraws(Run(lines, heading, wrap))) == Printed(lines, heading, wrap)
    decreases |lines|
  {
    if lines != [] {
      var n := |lines| - 1;
      var s := Run(lines[..n], heading, wrap);
      RunPrintsLines(lines[..n], heading, wrap);
      StepDraws(s, lines[n], heading, wrap);
      MapAppend(DrawText, AllDraws(s), LineDraws(BreakIfLow(s), lines[n], heading, wrap));
      if !heading(lines[n]) {
        PieceTexts(BreakIfLow(s).y, BreakIfLow(s).font, wrap(lines[n]));
      }
    } else {
      assert Flatten<Draw>([]) == [];
    }
  }

  lemma RenderHoldsAllDraws(lines: seq<string>, heading: string -> bool, wrap: string -> seq<string>)
    ensures Flatten(Render(lines, heading, wrap)) == AllDraws(Run(lines, heading, wrap))
  {
    var s := Run(lines, heading, wrap);
    FlattenAppend(s.done, [s.page]);
    assert Flatten([s.page]) == s.page + Flatten([]);
  }

  /** The pages, read in order, carry exactly the texts of the lines. */
  lemma RenderPrintsLines(lines: seq<string>, heading: string -> bool, wrap: string -> seq<string>)
    ensures Map(DrawText, Flatten(Render(lines, heading, wrap))) == Printed(lines, heading, wrap)
  {
    RenderHoldsAllDraws(lines, heading, wrap);
    RunPrintsLines(lines, heading, wrap);
  }

  /** Between lines the font is the title font or the body font, and the body font once a
      heading has been drawn. */
  lemma {:induction false} RunFont(lines: seq<string>, heading: string -> bool, wrap: string -> seq<string>)
    ensures Run(lines, heading, wrap).font == TitleFont || Run(lines, heading, wrap).font == BodyFont
    ensures (exists i :: 0 <= i < |lines| && heading(lines[i])) ==> Run(lines, heading, wrap).font == BodyFont
    decreases |lines|
  {
    if lines != [] {
      var n := |lines| - 1;
      RunFont(lines[..n], heading, wrap);
      DrawPiecesClosedForm(BreakIfLow(Run(lines[..n], heading, wrap)), wrap(lines[n]));
      if exists i :: 0 <= i < |lines| && heading(lines[i]) {
        var i :| 0 <= i < |lines| && heading(lines[i]);
        if i < n {
          assert lines[..n][i] == lines[i];
        }
      }
    }
  }

  lemma PiecesNotInHeadingFont(y: int, font: Font, ws: seq<string>)
    requires font != HeadingFont
    ensures Filter(InHeadingFont, PieceDraws(y, font, ws)) == []
  {
    FilterNone(InHeadingFont, PieceDraws(y, font, ws));
  }

  /** A line adds one draw in the heading font, its own text, when it is a heading, and
      none otherwise. */
  lemma LineHeadingDraws(b: Layout, line: string, heading: string -> bool, wrap: string -> seq<string>)
    requires b.font != HeadingFont
    ensures Map(DrawText, Filter(InHeadingFont, LineDraws(b, line, heading, wrap))) == if heading(line) then [line] else []
  {
    if !heading(line) {
      PiecesNotInHeadingFont(b.y, b.font, wrap(line));
    }
  }

  /** One step adds the line's text to the heading-font texts when it is a heading, and
      nothing otherwise. */
  lemma StepHeadingTexts(s: Layout, line: string, heading: string -> bool, wrap: string -> seq<string>)
    requires s.font != HeadingFont
    ensures Map(DrawText, Filter(InHeadingFont, AllDraws(Step(s, line, heading, wrap))))
         == Map(DrawText, Filter(InHeadingFont, AllDraws(s))) + (if heading(line) then [line] else [])
  {
    var b := BreakIfLow(s);
    var added := LineDraws(b, line, heading, wrap);
    LineHeadingDraws(b, line, heading, wrap);
    StepDraws(s, line, heading, wrap);
    FilterAppend(InHeadingFont, AllDraws(s), added);
    MapAppend(DrawText, Filter(InHeadingFont, AllDraws(s)), Filter(InHeadingFont, added));
  }

  /** The texts drawn in the heading font are exactly the heading lines, in order. */
  lemma {:induction false} RunHeadings(lines: seq<string>, heading: string -> bool, wrap: string -> seq<string>)
    ensures Map(DrawText, Filter(InHeadingFont, AllDraws(Run(lines, heading, wrap)))) == Filter(heading, lines)
    decreases |lines|
  {
    if lines != [] {
      var n := |lines| - 1;
      RunHeadings(lines[..n], heading, wrap);
      RunFont(lines[..n], heading, wrap);
      StepHeadingTexts(Run(lines[..n], heading, wrap), lines[n], heading, wrap);
      assert lines == lines[..n] + [lines[n]];
      FilterSnoc(heading, lines[..n], lines[n]);
    } else {
      assert Flatten<Draw>([]) == [];
    }
  }

  /** Until the first heading or page break every draw, not only the name, is in the title
      font: the font is only changed by a heading or a page break. */
  lemma {:induction false} TitleFontUntilHeading(lines: seq<string>, heading: string -> bool, wrap: string -> seq<string>)
    requires forall i :: 0 <= i < |lines| ==> !heading(lines[i])
    requires Run(lines, heading, wrap).done == []
    ensures Run(lines, heading, wrap).font == TitleFont
    ensures forall i :: 0 <= i < |Run(lines, heading, wrap).page| ==> Run(lines, heading, wrap).page[i].font == TitleFont
    decreases |lines|
  {
    if lines != [] {
      var n := |lines| - 1;
      var s := Run(lines[..n], heading, wrap);
      assert !heading(lines[n]);
      DrawPiecesClosedForm(BreakIfLow(s), wrap(lines[n]));
      assert s.done == [] && s.y >= Bottom;
      assert forall i :: 0 <= i < n ==> lines[..n][i] == lines[i];
      TitleFontUntilHeading(lines[..n], heading, wrap);
    }
  }

  /** The vertical space a line takes. */
  function Advance(line: string, heading: string -> bool, wrap: string -> seq<string>): int {
    if heading(line) then HeadingStep else LineStep * |wrap(line)|
  }

  function TotalAdvance(lines: seq<string>, heading: string -> bool, wrap: string -> seq<string>): (r: int)
    ensures r >= 0
  {
    if lines == [] then 0 else TotalAdvance(lines[..|lines| - 1], heading, wrap) + Advance(lines[|lines| - 1], heading, wrap)
  }

  /** Per line: a page break exactly when the cursor is below the bottom margin, which
      moves it back to the top; then the line lowers it by its advance. Wrapped pieces of
      one line never trigger a break between them. */
  lemma StepCursor(s: Layout, line: string, heading: string -> bool, wrap: string -> seq<string>)
    ensures Step(s, line, heading, wrap).y == (if s.y < Bottom then Top else s.y) - Advance(line, heading, wrap)
    ensures Step(s, line, heading, wrap).done == if s.y < Bottom then s.done + [s.page] else s.done
  {
    DrawPiecesClosedForm(BreakIfLow(s), wrap(line));
  }

  /** The number of lines before which the page was broken. */
  function Breaks(lines: seq<string>, heading: string -> bool, wrap: string -> seq<string>): nat {
    if lines == [] then 0
    else
      var n := |lines| - 1;
      Breaks(lines[..n], heading, wrap) + (if Run(lines[..n], heading, wrap).y < Bottom then 1 else 0)
  }

  /** The page count is the number of breaks plus the final page. */
  lemma {:induction false} PageCountIsBreaksPlusOne(lines: seq<string>, heading: string -> bool, wrap: string -> seq<string>)
    ensures |Render(lines, heading, wrap)| == Breaks(lines, heading, wrap) + 1
    decreases |lines|
  {
    if lines != [] {
      var n := |lines| - 1;
      PageCountIsBreaksPlusOne(lines[..n], heading, wrap);
      StepCursor(Run(lines[..n], heading, wrap), lines[n], heading, wrap);
    }
  }

  /** Before every line the cursor stayed at or above the bottom margin. */
  predicate FitsOnePage(lines: seq<string>, heading: string -> bool, wrap: string -> seq<string>) {
    forall i :: 0 <= i < |lines| ==> TotalAdvance(lines[..i], heading, wrap) <= Top - Bottom
  }

  /** A non-empty list fits on one page exactly when all but its last line do and the
      space they take leaves the cursor at or above the bottom margin. */
  lemma FitsOnePageSnoc(lines: seq<string>, heading: string -> bool, wrap: string -> seq<string>)
    requires lines != []
    ensures var n := |lines| - 1;
      FitsOnePage(lines, heading, wrap) <==>
        FitsOnePage(lines[..n], heading, wrap) && TotalAdvance(lines[..n], heading, wrap) <= Top - Bottom
  {
    var n := |lines| - 1;
    assert forall i :: 0 <= i <= n ==> lines[..n][..i] == lines[..i];
  }

  /** Without a page break the cursor is the top less the space taken so far. */
  lemma {:induction false} NoBreakIff(lines: seq<string>, heading: string -> bool, wrap: string -> seq<string>)
    ensures Run(lines, heading, wrap).done == [] <==> FitsOnePage(lines, heading, wrap)
    ensures FitsOnePage(lines, heading, wrap) ==> Run(lines, heading, wrap).y == Top - TotalAdvance(lines, heading, wrap)
    decreases |lines|
  {
    if lines != [] {
      var n := |lines| - 1;
      NoBreakIff(lines[..n], heading, wrap);
      StepCursor(Run(lines[..n], heading, wrap), lines[n], heading, wrap);
      FitsOnePageSnoc(lines, heading, wrap);
    }
  }

  /** The document is a single page exactly when the cursor never dropped below the bottom
      margin before a line. */
  lemma SinglePageIff(lines: seq<string>, heading: string -> bool, wrap: string -> seq<string>)
    ensures |Render(lines, heading, wrap)| == 1 <==> FitsOnePage(lines, heading, wrap)
  {
    NoBreakIff(lines, heading, wrap);
  }

  /** Each page break needs more than a page's worth of space: the number of extra pages
      is bounded by the space the lines take. */
  lemma {:induction false} PagesBound(lines: seq<string>, heading: string -> bool, wrap: string -> seq<string>)
    ensures Run(lines, heading, wrap).y <= Top
    ensures Top - Run(lines, heading, wrap).y + (Top - Bottom + 1) * |Run(lines, heading, wrap).done| <= TotalAdvance(lines, heading, wrap)
    decreases |lines|
  {
    if lines != [] {
      var n := |lines| - 1;
      PagesBound(lines[..n], heading, wrap);
      DrawPiecesClosedForm(BreakIfLow(Run(lines[..n], heading, wrap)), wrap(lines[n]));
    }
  }

  lemma PageCountBound(lines: seq<string>, heading: string -> bool, wrap: string -> seq<string>)
    ensures (|Render(lines, heading, wrap)| - 1) * (Top - Bottom + 1) <= TotalAdvance(lines, heading, wrap)
  {
    PagesBound(lines, heading, wrap);
  }

  /** A page is only closed once something was drawn on it, so only the last page can be blank. */
  lemma {:induction false} NoBlankPages(lines: seq<string>, heading: string -> bool, wrap: string -> seq<string>)
    ensures Run(lines, heading, wrap).y < Top ==> Run(lines, heading, wrap).page != []
    ensures forall i :: 0 <= i < |Run(lines, heading, wrap).done| ==> Run(lines, heading, wrap).done[i] != []
    decreases |lines|
  {
    if lines != [] {
      var n := |lines| - 1;
      NoBlankPages(lines[..n], heading, wrap);
      DrawPiecesClosedForm(BreakIfLow(Run(lines[..n], heading, wrap)), wrap(lines[n]));
    }
  }

  /** For a résumé: the pages carry the lines of its plain text, and its headings are drawn
      in the heading font. */
  lemma PdfCarriesText(d: ResumeData, wrap: string -> seq<string>)
    ensures Map(DrawText, Flatten(PdfPages(d, wrap))) == Printed(SplitLines(FormatTextResume(d)), IsHeading, wrap)
    ensures Map(DrawText, Filter(InHeadingFont, Flatten(PdfPages(d, wrap)))) ==
      Filter(IsHeading, SplitLines(FormatTextResume(d)))
  {
    var lines := SplitLines(FormatTextResume(d));
    RenderPrintsLines(lines, IsHeading, wrap);
    RenderHoldsAllDraws(lines, IsHeading, wrap);
    RunHeadings(lines, IsHeading, wrap);
  }
}
