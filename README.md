# Résumé builder backend: a Dafny model

This project models the core of the résumé builder backend (`main.py`). The backend takes
a résumé record and exports it as plain text, as a Word document and as a PDF. It also
suggests canned summary and bullet text.

The modules are:

- `Resume` (`resume.dfy`): the records `Skill`, `ExperienceItem`, `EducationItem` and
  `ResumeData`, the five optional sections and their fixed order.
- `Linearizer` (`linearizer.dfy`): `_format_text_resume`, which turns the record into one
  string. It is modelled as pure functions: the parts list, per section, then the join, the
  strip and the final newline.
- `Docx` (`docx.dfy`): the section walk of `export_docx`. It is modelled as the sequence
  of blocks it adds to the document (`Heading(level, text)`, `Para(text)`,
  `Bullet(text)`). It is related to the plain text: the two agree except in two places,
  and both places are proved.
- `Pdf` (`pdf.dfy`): the pagination loop of `export_pdf`.
  - The reportlab canvas is a class with the font in effect, the draws of the current page
    and the finished pages.
  - `DrawLines` is the loop over the lines, with an inner loop over the wrapped pieces of
    each line. It is proved equal to the function `Render`, which folds one line at a time
    over a `Layout` (cursor, font, page, finished pages).
  - The properties are proved about `Render`: when pages break, the page count, that every
    heading line and wrapped piece is drawn once and in order, and which texts use the
    heading font.
- `Suggest` (`suggest.dfy`): `ai_suggest`, a total function with the 400 error case.
- `Text` and `Seqs` (`text.dfy`, `seqs.dfy`): the Python operations the source uses.
  - `str.strip()` uses the full `str.isspace()` set.
  - `sep.join`.
  - `s.split("\n")`, with its round trip.
  - `str.title()`.
  - List comprehensions, as `Filter` and `Map`.

Python's `x or default` treats a missing value and an empty one alike. So an empty string
(or an empty list) stands for a missing field or context key throughout.

The model follows the code in these points:

- The name falls back to "Your Name" only when it is empty. A name made of spaces is kept
  and then removed by the final strip.
- The PDF heading test compares the *stripped* line with the five section titles.
- In the Word document, education details are a plain paragraph, not a bullet.
- In the Word document, the Skills heading and an empty skills paragraph appear whenever
  the skills list is non-empty, even when no skill has a name.
- The PDF loop tests the cursor only before each line. The wrapped pieces of one line are
  all drawn on the same page, so a line that wraps to many pieces is drawn below the
  bottom margin and can run off the page.
- The final `showPage` always closes one more page. When the last line only triggers a
  page break and draws nothing (the empty line after the text's final newline), that last
  page is blank.

## Model

| member | source | states |
|---|---|---|
| Linearizer.FormatTextResume | main.py:135 | the text always ends in one newline, and before it there is no leading or trailing whitespace |
| Linearizer.AllDefaultText | main.py:101-105 | the record with every field at its default (`EmptyResume`) renders as exactly "Your Name" and a newline |
| Linearizer.SubHeaderOmittedIff | main.py:102-105 | the sub-header line is present exactly when one of title, email, phone or location is non-empty, and then it is that line |
| Linearizer.SubHeaderAllFields | main.py:102 | with all four fields set, the sub-header is title, email, phone and location in that order, separated by " \| " |
| Linearizer.KeptBulletsAt | main.py:114 | a whitespace-only bullet is dropped; any other bullet is kept unchanged, in its place |
| Linearizer.SkillTextShape | main.py:126 | a skill renders as its name, followed by " (level)" exactly when the level is non-empty |
| Linearizer.SkillsLineDropsUnnamed | main.py:126 | a skill with an empty name is dropped whatever its level |
| Linearizer.SkillsLineEmptyIff | main.py:126 | the skills line is empty exactly when no skill has a name |
| Linearizer.SkillsLineAppend | main.py:126 | the rendered skills of two lists are joined with ", " (or one side is empty) |
| Linearizer.SkillsSectionIff | main.py:125-128 | the Skills section appears exactly when some skill has a name, and is "\nSkills\n" followed by the skills line |
| Linearizer.ExperienceEntriesAppend | main.py:111-115 | each experience item contributes its own lines in the order of the list |
| Linearizer.EducationEntriesAppend | main.py:119-123 | each education item contributes its own lines in the order of the list |
| Linearizer.SectionPresence | main.py:106-133 | a section contributes lines exactly when its field is non-empty (Skills: when a skill has a name); the list sections need only a non-empty list, even if every entry is blank |
| Linearizer.SectionHeading | main.py:106-133 | a section's first part starts with a blank line and its title |
| Linearizer.SectionsTextSkipsAbsent | main.py:106-133 | absent sections contribute nothing, so only the sections present matter |
| Linearizer.Parts | main.py:100-133 | the parts open with the name, or "Your Name" when it is empty; SubHeaderOmittedIff, PartsBySection and SectionPresence say what follows |
| Linearizer.PartsBySection | main.py:100-133 | the parts are the header parts, then the present sections in the fixed order Summary, Experience, Education, Skills, Achievements |
| Linearizer.EmittedExactly | main.py:106-133 | a section is emitted exactly when the record has it |
| Linearizer.NameTitleSkillText | main.py:99-135 | a record with only a name, a title and one named skill gives "name\ntitle\n\nSkills\nskill\n" |
| Docx.DocxBlocks | main.py:159-193 | the document opens with a level-0 heading holding the name, or "Your Name" when it is empty; DocxSingleTitle, DocxHeadings and DocxBullets below say what follows |
| Docx.DocxSingleTitle | main.py:159-193 | no other block is a level-0 heading |
| Docx.DocxHeadings | main.py:165-191 | the level-1 headings are the titles of the sections the document has, in the fixed section order |
| Docx.SectionChoiceDiffersOnlyInSkills | main.py:185-188 | the document has the same sections as the text, except a Skills section whose skills are all unnamed |
| Docx.DocxBullets | main.py:174-175 | the bullet blocks are the non-blank experience bullets, item by item, then the non-blank achievements, unchanged and in order |
| Docx.DocxAgreesWithText | main.py:159-193 | with no education details and no skills list made only of unnamed skills, the blocks read as lines give exactly the plain text |
| Docx.EducationDetailsDiffer | main.py:182-183 | the details of any education entry appear in the document as a plain paragraph and in the text as a bullet line |
| Docx.SkillsHeadingWithoutNames | main.py:185-188 | skills that all lack a name still give a Skills heading and an empty paragraph, while the text has no Skills section |
| Pdf.IsHeadingIff | main.py:224 | a line is a heading exactly when its stripped text is one of the five section titles |
| Pdf.Canvas.constructor | main.py:210 | a new canvas has the default font and no pages |
| Pdf.Canvas.SetFont | main.py:216 | changes the font in effect and nothing else |
| Pdf.Canvas.DrawString | main.py:226 | appends one draw, in the font in effect, to the current page |
| Pdf.Canvas.ShowPage | main.py:220 | closes the current page and restores the default font |
| Pdf.DrawLines | main.py:215-234 | the loop over the lines and their wrapped pieces produces exactly the pages `Render` describes |
| Pdf.DrawWrapped | main.py:230-233 | the inner loop draws the wrapped pieces of one line one line step apart, in the font in effect, exactly as `DrawPieces` describes |
| Pdf.ExportPdf | main.py:208-234 | the PDF pages are those of the plain text of the record, split at newlines |
| Pdf.DrawPiecesClosedForm | main.py:230-233 | the pieces of one line are drawn one line step apart from the cursor, in the font in effect, with no page break between them |
| Pdf.Step | main.py:219-233 | one line of the loop; StepCursor states where it leaves the cursor and when it closes a page |
| Pdf.Run | main.py:218-233 | the state after the lines: the cursor is never above the top of the page |
| Pdf.Render | main.py:218-234 | there is always at least one page, and no lines give a single blank page, because of the final `showPage` |
| Pdf.StepCursor | main.py:219-233 | the page breaks before a line exactly when the cursor is below 60, which resets it to 752; a heading then lowers it by 18, any other line by 14 per wrapped piece |
| Pdf.PageCountIsBreaksPlusOne | main.py:219-234 | the number of pages is the number of breaks plus one |
| Pdf.SinglePageIff | main.py:219-234 | the document is one page exactly when the space taken before each line leaves the cursor at or above the bottom margin |
| Pdf.NoBreakIff | main.py:219-233 | without a page break the cursor is the top minus the space the lines have taken |
| Pdf.PageCountBound | main.py:219-234 | every extra page needs more than a page's worth of space (693 points) |
| Pdf.NoBlankPages | main.py:219-234 | every page the loop closes holds a draw, and the current page holds one once the cursor has moved; the last page, closed by the final `showPage`, can be blank |
| Pdf.RenderPrintsLines | main.py:218-233 | the pages, in order, carry a draw of each heading line and of every wrapped piece of the other lines, none repeated or left out, although a draw may lie below the bottom margin or off the page |
| Pdf.RunFont | main.py:216-227 | between lines the font is the title font or the body font, and the body font once a heading has been drawn |
| Pdf.RunHeadings | main.py:224-227 | the texts drawn in the heading font are exactly the heading lines, in order |
| Pdf.TitleFontUntilHeading | main.py:216-233 | until the first heading or page break every line, not only the name, is drawn in the 14-point bold title font |
| Pdf.PdfCarriesText | main.py:208-234 | for a résumé, the pages carry the lines of its plain text and its headings are drawn in the heading font |
| Suggest.AiSuggest | main.py:74-96 | "summary" gives a summary, "bullets" four bullets, and any other kind the 400 error "Unsupported type" |
| Suggest.SuggestSummary | main.py:78-82 | the summary is non-empty, starts with a non-space character and ends with a full stop |
| Suggest.SummaryWithTitle | main.py:75-82 | with a non-blank title (by default "professional"), the summary is the title-cased title, left-stripped, then the fixed text around the non-empty skills joined by ", " |
| Suggest.SummaryWithBlankTitle | main.py:78-82 | a title made only of whitespace contributes nothing: the summary is the rest of the text, stripped |
| Suggest.SummaryOfLowerTitle | main.py:75-82 | a lower-case title opens the summary with its first letter capitalised, followed by the fixed text around the skills |
| Suggest.SummaryOfDefaultTitle | main.py:75-82 | with no title the summary opens with "Professional" |
| Suggest.EngineerSummary | main.py:75-82 | title "engineer" with skills Go and SQL gives a summary that opens with "Engineer" and lists "Go, SQL" |
| Suggest.SummaryIgnoresEmptySkill | main.py:77 | empty skills are left out of the summary |
| Suggest.SummaryStableUnderTitleCase | main.py:79 | suggesting again from the title-cased title gives the same summary |
| Suggest.SuggestBullets | main.py:88-93 | there are exactly four bullets |
| Suggest.BulletsShareStandardPart | main.py:88-93 | only the first bullet depends on the context |
| Suggest.FirstBulletNamesRole | main.py:86-89 | the first bullet names the role, or "Role" when it is empty, right after its fixed opening |
| Suggest.FirstBulletNamesCompany | main.py:87-89 | the first bullet ends with the company, or "Company" when it is empty, and the fixed closing |
| Text.Strip | main.py:135 | the stripped text starts and ends with a non-space, and is empty only for blank text |
| Text.StripIsInfix | main.py:135 | strip removes only whitespace, and only at the two ends: the result sits in the text with whitespace alone before and after it |
| Text.StripUnique | main.py:135 | stripping text surrounded by whitespace gives back that text |
| Text.StripIdempotent | main.py:135 | stripping twice is stripping once |
| Text.StripEmptyIffBlank | main.py:114 | a string strips to nothing exactly when it is all whitespace |
| Text.Join | main.py:135 | the joined text begins with the first piece; SplitJoinRoundTrip shows that splitting the newline-join of newline-free pieces gives them back |
| Text.JoinPresent | main.py:102 | the join of the non-empty fields is empty exactly when every field is empty |
| Text.SplitLines | main.py:217 | splitting at newlines gives at least one piece, none containing a newline, and joining them back gives the text |
| Text.SplitJoinRoundTrip | main.py:217 | splitting the newline-join of newline-free pieces gives the pieces back |
| Text.TitleCase | main.py:79 | title-casing keeps the length and leaves every character that is not a letter unchanged; TitleCaseAt states the case of each letter |
| Text.TitleCaseLowerWord | main.py:79 | a word of lower-case letters gets its first letter capitalised and the rest unchanged |
| Text.TitleCaseAt | main.py:79 | a letter is upper-cased at the start of a word and lower-cased after a letter |
| Text.TitleCaseIdempotent | main.py:79 | title-casing twice is title-casing once |
| Seqs.Filter | main.py:114 | a comprehension filter is never longer than its list; FilterIn says which elements it keeps, FilterAppend that it keeps their order |
| Seqs.FilterAppend | main.py:114 | a comprehension filter keeps the relative order of what it keeps |
| Seqs.FilterIn | main.py:114 | an element is kept exactly when it is in the list and passes the test |

## Left out

- HTTP: the FastAPI application, CORS, the routes, `StreamingResponse` and `BytesIO`, the download headers, and the root and `/test` endpoints. This is transport and diagnostics, with no logic to state.
- python-docx document creation, the Normal style's font, the "List Bullet" style and `doc.save`. The document is modelled as its block sequence.
- reportlab's drawing, font metrics and `c.save`.
- `simpleSplit` is the parameter `wrap` of the PDF functions. It stands for the split of a line at `WrapWidth`, the 532 points between the margins, in the body font.
- `Pdf.DrawLines`: takes the heading test as a parameter. `ExportPdf` and `PdfPages` pass `IsHeading`, so the export itself is modelled with the source's test.
- The UTF-8 encoding of the text export.
- The `photo` field and the `template`, `color` and `font` payload fields. They are never read by the core.
- Suggestion context values that are not strings (or, for skills, not a list of strings). The model's context is typed.
- `Text.TitleCaseAt`: letter case is modelled over ASCII letters only. Python's `str.title()` also cases other Unicode letters.
