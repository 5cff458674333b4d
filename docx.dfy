/** The Word-document export's own walk over the record (`export_docx`), producing the
    sequence of blocks it adds to the document: headings, plain paragraphs and bulleted
    paragraphs. It re-derives the sections independently of the plain-text linearizer and
    differs from it in two places: education details are a plain paragraph, and the Skills
    heading is emitted whenever the skills list is non-empty. */
module Docx {
  import opened Seqs
  import opened Text
  import opened Resume
  import opened Linearizer

  datatype Block = Heading(level: nat, text: string) | Para(text: string) | Bullet(text: string)

  /** A paragraph in the "List Bullet" style. */
  function BulletBlock(b: string): Block {
    Bullet(b)
  }

  function DocxExperienceEntries(exps: seq<ExperienceItem>): seq<Block> {
    if exps == [] then []
    else [Para(ExperienceLine(exps[0]))] + Map(BulletBlock, KeptBullets(exps[0].bullets))
         + DocxExperienceEntries(exps[1..])
  }

  function DocxEducationEntries(eds: seq<EducationItem>): seq<Block> {
    if eds == [] then []
    else [Para(EducationLine(eds[0]))] + (if eds[0].details != "" then [Para(eds[0].details)] else [])
         + DocxEducationEntries(eds[1..])
  }

  /** The level-0 heading with the name, then the sub-header paragraph if there is one. */
  function DocxHead(d: ResumeData): seq<Block> {
    var sub := SubHeader(d);
    [Heading(0, HeaderLine(d.name))] + (if sub != "" then [Para(sub)] else [])
  }

  /** The blocks a section adds. */
  function DocxSectionBlocks(d: ResumeData, s: Section): seq<Block> {
    match s
    case Summary =>
      if d.summary == "" then [] else [Heading(1, "Summary"), Para(d.summary)]
    case Experience =>
      if d.experience == [] then [] else [Heading(1, "Experience")] + DocxExperienceEntries(d.experience)
    case Education =>
      if d.education == [] then [] else [Heading(1, "Education")] + DocxEducationEntries(d.education)
    case Skills =>
      if d.skills == [] then [] else [Heading(1, "Skills"), Para(SkillsLine(d.skills))]
    case Achievements =>
      if d.achievements == [] then []
      else [Heading(1, "Achievements")] + Map(BulletBlock, KeptBullets(d.achievements))
  }

  function DocxSections(d: ResumeData, order: seq<Section>): seq<Block> {
    if order == [] then [] else DocxSectionBlocks(d, order[0]) + DocxSections(d, order[1..])
  }

  /** The blocks of the document, in the order the source adds them. */
  function DocxBlocks(d: ResumeData): (r: seq<Block>)
    ensures r != [] && r[0] == Heading(0, if d.name == "" then "Your Name" else d.name)
  {
    DocxHead(d) + DocxSections(d, SectionOrder)
  }

  /** Whether the document has a section: as in the text, except that Skills only needs a
      non-empty skills list. */
  predicate DocxHasSection(d: ResumeData, s: Section) {
    match s
    case Summary => d.summary != ""
    case Experience => d.experience != []
    case Education => d.education != []
    case Skills => d.skills != []
    case Achievements => d.achievements != []
  }

  function HasDocxSection(d: ResumeData): Section -> bool {
    s => DocxHasSection(d, s)
  }

  predicate IsSectionHeading(b: Block) {
    b.Heading? && b.level == 1
  }

  predicate IsTitleHeading(b: Block) {
    b.Heading? && b.level == 0
  }

  function SectionHeadingBlock(s: Section): Block {
    Heading(1, SectionTitle(s))
  }

  /** Entry blocks are paragraphs and bullets, never headings. */
  lemma {:induction false} EntriesHaveNoHeadings(d: ResumeData)
    ensures forall b :: b in DocxExperienceEntries(d.experience) ==> !b.Heading?
    ensures forall b :: b in DocxEducationEntries(d.education) ==> !b.Heading?
    ensures forall b :: b in Map(BulletBlock, KeptBullets(d.achievements)) ==> !b.Heading?
  {
    ExperienceBlocksNoHeadings(d.experience);
    EducationBlocksNoHeadings(d.education);
    BulletBlocksAreBullets(KeptBullets(d.achievements));
  }

  /** Bullet texts become bullet blocks. */
  lemma {:induction false} BulletBlocksAreBullets(bs: seq<string>)
    ensures forall b :: b in Map(BulletBlock, bs) ==> b.Bullet?
    decreases |bs|
  {
    if bs != [] {
      BulletBlocksAreBullets(bs[1..]);
      assert Map(BulletBlock, bs) == [Bullet(bs[0])] + Map(BulletBlock, bs[1..]);
    }
  }

  lemma {:induction false} ExperienceBlocksNoHeadings(exps: seq<ExperienceItem>)
    ensures forall b :: b in DocxExperienceEntries(exps) ==> !b.Heading?
    decreases |exps|
  {
    if exps != [] {
      ExperienceBlocksNoHeadings(exps[1..]);
      BulletBlocksAreBullets(KeptBullets(exps[0].bullets));
    }
  }

  lemma {:induction false} EducationBlocksNoHeadings(eds: seq<EducationItem>)
    ensures forall b :: b in DocxEducationEntries(eds) ==> !b.Heading?
    decreases |eds|
  {
    if eds != [] {
      EducationBlocksNoHeadings(eds[1..]);
    }
  }

  /** A level-1 heading followed by blocks that are not headings has that heading alone. */
  lemma HeadedBlocks(h: Block, rest: seq<Block>)
    requires IsSectionHeading(h)
    requires forall b :: b in rest ==> !b.Heading?
    ensures Filter(IsSectionHeading, [h] + rest) == [h]
    ensures forall b :: b in [h] + rest ==> !IsTitleHeading(b)
  {
    assert forall i :: 0 <= i < |rest| ==> !IsSectionHeading(rest[i]) by {
      forall i | 0 <= i < |rest| ensures !IsSectionHeading(rest[i]) {
        assert rest[i] in rest;
      }
    }
    FilterNone(IsSectionHeading, rest);
    FilterAppend(IsSectionHeading, [h], rest);
  }

  /** A section adds exactly one heading: its level-1 title, and only when the document has it. */
  lemma SectionBlocksHeadings(d: ResumeData, s: Section)
    ensures Filter(IsSectionHeading, DocxSectionBlocks(d, s)) ==
      if DocxHasSection(d, s) then [SectionHeadingBlock(s)] else []
    ensures forall b :: b in DocxSectionBlocks(d, s) ==> !IsTitleHeading(b)
  {
    if DocxHasSection(d, s) {
      var h := SectionHeadingBlock(s);
      match s
      case Summary =>
        HeadedBlocks(h, [Para(d.summary)]);
      case Experience =>
        ExperienceBlocksNoHeadings(d.experience);
        HeadedBlocks(h, DocxExperienceEntries(d.experience));
      case Education =>
        EducationBlocksNoHeadings(d.education);
        HeadedBlocks(h, DocxEducationEntries(d.education));
      case Skills =>
        HeadedBlocks(h, [Para(SkillsLine(d.skills))]);
      case Achievements =>
        BulletBlocksAreBullets(KeptBullets(d.achievements));
        HeadedBlocks(h, Map(BulletBlock, KeptBullets(d.achievements)));
    }
  }

  lemma {:induction false} SectionsHeadings(d: ResumeData, order: seq<Section>)
    ensures Filter(IsSectionHeading, DocxSections(d, order)) == Map(SectionHeadingBlock, Filter(HasDocxSection(d), order))
    ensures forall b :: b in DocxSections(d, order) ==> !IsTitleHeading(b)
    decreases |order|
  {
    if order != [] {
      SectionsHeadings(d, order[1..]);
      SectionBlocksHeadings(d, order[0]);
      FilterAppend(IsSectionHeading, DocxSectionBlocks(d, order[0]), DocxSections(d, order[1..]));
      var head := if DocxHasSection(d, order[0]) then [order[0]] else [];
      assert Filter(HasDocxSection(d), order) == head + Filter(HasDocxSection(d), order[1..]);
      MapAppend(SectionHeadingBlock, head, Filter(HasDocxSection(d), order[1..]));
    }
  }

  /** The opening heading is the document's only level-0 heading. */
  lemma DocxSingleTitle(d: ResumeData)
    ensures forall i :: 0 < i < |DocxBlocks(d)| ==> !IsTitleHeading(DocxBlocks(d)[i])
  {
    SectionsHeadings(d, SectionOrder);
    var head := DocxHead(d);
    var rest := DocxSections(d, SectionOrder);
    forall i | 0 < i < |head + rest| ensures !IsTitleHeading((head + rest)[i]) {
      if i >= |head| {
        assert (head + rest)[i] in rest;
      }
    }
  }

  /** The level-1 headings are the titles of the sections the document has, in the fixed
      section order. */
  lemma DocxHeadings(d: ResumeData)
    ensures Filter(IsSectionHeading, DocxBlocks(d)) == Map(SectionHeadingBlock, Filter(HasDocxSection(d), SectionOrder))
  {
    var sections := DocxSections(d, SectionOrder);
    SectionsHeadings(d, SectionOrder);
    HeadHasNoSectionHeadings(d);
    FilterAppend(IsSectionHeading, DocxHead(d), sections);
  }

  lemma HeadHasNoSectionHeadings(d: ResumeData)
    ensures Filter(IsSectionHeading, DocxHead(d)) == []
  {
    FilterNone(IsSectionHeading, DocxHead(d));
  }

  /** The two walks choose the same sections, except that the document has a Skills section
      whenever the skills list is non-empty while the text needs a named skill. */
  lemma SectionChoiceDiffersOnlyInSkills(d: ResumeData, s: Section)
    ensures s != Skills ==> (DocxHasSection(d, s) <==> TextHasSection(d, s))
    ensures TextHasSection(d, Skills) ==> DocxHasSection(d, Skills)
    ensures DocxHasSection(d, Skills) && !TextHasSection(d, Skills) <==>
      d.skills != [] && SkillsLine(d.skills) == ""
  {
    SkillsLineEmptyIff(d.skills);
  }

  predicate IsBulletBlock(b: Block) {
    b.Bullet?
  }

  function BlockText(b: Block): string {
    b.text
  }

  /** The texts of the bullet blocks, in order. */
  function BulletTexts(blocks: seq<Block>): seq<string> {
    Map(BlockText, Filter(IsBulletBlock, blocks))
  }

  /** The non-blank bullets of every experience entry, entry after entry. */
  function ExperienceBullets(exps: seq<ExperienceItem>): seq<string> {
    if exps == [] then [] else KeptBullets(exps[0].bullets) + ExperienceBullets(exps[1..])
  }

  function SectionBullets(d: ResumeData, s: Section): seq<string> {
    match s
    case Experience => ExperienceBullets(d.experience)
    case Achievements => KeptBullets(d.achievements)
    case _ => []
  }

  function SectionsBullets(d: ResumeData, order: seq<Section>): seq<string> {
    if order == [] then [] else SectionBullets(d, order[0]) + SectionsBullets(d, order[1..])
  }

  lemma BulletTextsAppend(a: seq<Block>, b: seq<Block>)
    ensures BulletTexts(a + b) == BulletTexts(a) + BulletTexts(b)
  {
    FilterAppend(IsBulletBlock, a, b);
    MapAppend(BlockText, Filter(IsBulletBlock, a), Filter(IsBulletBlock, b));
  }

  lemma {:induction false} BulletBlocksTexts(bs: seq<string>)
    ensures BulletTexts(Map(BulletBlock, bs)) == bs
    decreases |bs|
  {
    if bs != [] {
      var h := Bullet(bs[0]);
      BulletBlocksTexts(bs[1..]);
      assert Map(BulletBlock, bs) == [h] + Map(BulletBlock, bs[1..]);
      BulletTextsAppend([h], Map(BulletBlock, bs[1..]));
      assert Filter(IsBulletBlock, [h]) == [h] by { assert IsBulletBlock([h][0]); }
      assert BulletTexts([h]) == [bs[0]];
    }
  }

  lemma {:induction false} ExperienceBlocksBullets(exps: seq<ExperienceItem>)
    ensures BulletTexts(DocxExperienceEntries(exps)) == ExperienceBullets(exps)
    decreases |exps|
  {
    if exps != [] {
      var e := exps[0];
      var bullets := Map(BulletBlock, KeptBullets(e.bullets));
      ExperienceBlocksBullets(exps[1..]);
      BulletBlocksTexts(KeptBullets(e.bullets));
      BulletTextsAppend([Para(ExperienceLine(e))] + bullets, DocxExperienceEntries(exps[1..]));
      BulletTextsAppend([Para(ExperienceLine(e))], bullets);
    }
  }

  lemma {:induction false} EducationBlocksBullets(eds: seq<EducationItem>)
    ensures BulletTexts(DocxEducationEntries(eds)) == []
    decreases |eds|
  {
    if eds != [] {
      var ed := eds[0];
      var head := [Para(EducationLine(ed))] + (if ed.details != "" then [Para(ed.details)] else []);
      EducationBlocksBullets(eds[1..]);
      BulletTextsAppend(head, DocxEducationEntries(eds[1..]));
      FilterNone(IsBulletBlock, head);
    }
  }

  /** A leading block that is not a bullet adds no bullet text. */
  lemma NonBulletFirst(h: Block, rest: seq<Block>)
    requires !h.Bullet?
    ensures BulletTexts([h] + rest) == BulletTexts(rest)
  {
    BulletTextsAppend([h], rest);
    assert Filter(IsBulletBlock, [h]) == [] by { assert !IsBulletBlock([h][0]); }
  }

  lemma SectionBlocksBullets(d: ResumeData, s: Section)
    ensures BulletTexts(DocxSectionBlocks(d, s)) == SectionBullets(d, s)
  {
    match s
    case Summary =>
      if d.summary != "" { NonBulletFirst(Heading(1, "Summary"), [Para(d.summary)]); NonBulletFirst(Para(d.summary), []); }
    case Experience =>
      if d.experience != [] {
        ExperienceBlocksBullets(d.experience);
        NonBulletFirst(Heading(1, "Experience"), DocxExperienceEntries(d.experience));
      }
    case Education =>
      if d.education != [] {
        EducationBlocksBullets(d.education);
        NonBulletFirst(Heading(1, "Education"), DocxEducationEntries(d.education));
      }
    case Skills =>
      if d.skills != [] {
        var p := Para(SkillsLine(d.skills));
        NonBulletFirst(Heading(1, "Skills"), [p]);
        NonBulletFirst(p, []);
      }
    case Achievements =>
      if d.achievements != [] {
        BulletBlocksTexts(KeptBullets(d.achievements));
        NonBulletFirst(Heading(1, "Achievements"), Map(BulletBlock, KeptBullets(d.achievements)));
      }
  }

  lemma {:induction false} SectionsBlocksBullets(d: ResumeData, order: seq<Section>)
    ensures BulletTexts(DocxSections(d, order)) == SectionsBullets(d, order)
    decreases |order|
  {
    if order != [] {
      SectionsBlocksBullets(d, order[1..]);
      SectionBlocksBullets(d, order[0]);
      BulletTextsAppend(DocxSectionBlocks(d, order[0]), DocxSections(d, order[1..]));
    }
  }

  /** The bullet blocks are the non-blank experience bullets, entry by entry, then the
      non-blank achievements, each unchanged and in order. */
  lemma DocxBullets(d: ResumeData)
    ensures BulletTexts(DocxBlocks(d)) == ExperienceBullets(d.experience) + KeptBullets(d.achievements)
  {
    var sections := DocxSections(d, SectionOrder);
    SectionsBlocksBullets(d, SectionOrder);
    SectionOrderBullets(d);
    HeadHasNoBullets(d);
    BulletTextsAppend(DocxHead(d), sections);
  }

  lemma HeadHasNoBullets(d: ResumeData)
    ensures BulletTexts(DocxHead(d)) == []
  {
    FilterNone(IsBulletBlock, DocxHead(d));
  }

  /** Whether a section's blocks can hold bullets. */
  predicate HasBulletBlocks(s: Section) {
    s == Experience || s == Achievements
  }

  lemma {:induction false} NoBulletSections(d: ResumeData, order: seq<Section>)
    requires forall k :: 0 <= k < |order| ==> !HasBulletBlocks(order[k])
    ensures SectionsBullets(d, order) == []
    decreases |order|
  {
    if order != [] {
      assert !HasBulletBlocks(order[0]);
      NoBulletSections(d, order[1..]);
    }
  }

  /** With Achievements at position `j` and no other section holding bullets, the bullets
      are the achievements. */
  lemma {:induction false} AchievementsBulletSection(d: ResumeData, order: seq<Section>, j: nat)
    requires j < |order| && order[j] == Achievements
    requires forall k :: 0 <= k < |order| && k != j ==> !HasBulletBlocks(order[k])
    ensures SectionsBullets(d, order) == KeptBullets(d.achievements)
    decreases |order|
  {
    if j == 0 {
      NoBulletSections(d, order[1..]);
    } else {
      assert !HasBulletBlocks(order[0]);
      AchievementsBulletSection(d, order[1..], j - 1);
    }
  }

  /** With Experience at `i`, Achievements after it at `j` and no other section holding
      bullets, the bullets are the experience bullets, then the achievements. */
  lemma {:induction false} BulletSections(d: ResumeData, order: seq<Section>, i: nat, j: nat)
    requires i < j < |order| && order[i] == Experience && order[j] == Achievements
    requires forall k :: 0 <= k < |order| && k != i && k != j ==> !HasBulletBlocks(order[k])
    ensures SectionsBullets(d, order) == ExperienceBullets(d.experience) + KeptBullets(d.achievements)
    decreases |order|
  {
    if i == 0 {
      AchievementsBulletSection(d, order[1..], j - 1);
    } else {
      assert !HasBulletBlocks(order[0]);
      BulletSections(d, order[1..], i - 1, j - 1);
    }
  }

  lemma SectionOrderBullets(d: ResumeData)
    ensures SectionsBullets(d, SectionOrder) == ExperienceBullets(d.experience) + KeptBullets(d.achievements)
  {
    var o := SectionOrder;
    assert o[1] == Experience && o[4] == Achievements;
    forall k | 0 <= k < |o| && k != 1 && k != 4 ensures !HasBulletBlocks(o[k]) {
    }
    BulletSections(d, o, 1, 4);
  }

  /** How a block reads in the plain-text export: a section heading follows a blank line,
      a bullet carries the bullet prefix. */
  function BlockLine(b: Block): string {
    match b
    case Heading(level, t) => if level == 0 then t else "\n" + t
    case Para(t) => t
    case Bullet(t) => BulletLine(t)
  }

  lemma {:induction false} BulletBlocksRender(bs: seq<string>)
    ensures Map(BlockLine, Map(BulletBlock, bs)) == Map(BulletLine, bs)
    decreases |bs|
  {
    if bs != [] {
      BulletBlocksRender(bs[1..]);
    }
  }

  lemma {:induction false} ExperienceBlocksRender(exps: seq<ExperienceItem>)
    ensures Map(BlockLine, DocxExperienceEntries(exps)) == ExperienceEntries(exps)
    decreases |exps|
  {
    if exps != [] {
      var e := exps[0];
      var bullets := Map(BulletBlock, KeptBullets(e.bullets));
      ExperienceBlocksRender(exps[1..]);
      BulletBlocksRender(KeptBullets(e.bullets));
      MapAppend(BlockLine, [Para(ExperienceLine(e))] + bullets, DocxExperienceEntries(exps[1..]));
      MapAppend(BlockLine, [Para(ExperienceLine(e))], bullets);
    }
  }

  predicate NoDetails(eds: seq<EducationItem>) {
    forall i :: 0 <= i < |eds| ==> eds[i].details == ""
  }

  /** Education entries without details read the same in both exports. */
  lemma {:induction false} EducationBlocksRender(eds: seq<EducationItem>)
    requires NoDetails(eds)
    ensures Map(BlockLine, DocxEducationEntries(eds)) == EducationEntries(eds)
    decreases |eds|
  {
    if eds != [] {
      EducationBlocksRender(eds[1..]);
      MapAppend(BlockLine, [Para(EducationLine(eds[0]))], DocxEducationEntries(eds[1..]));
    }
  }

  /** The conditions under which the two walks agree: no education details, and no skills
      list made only of unnamed skills. */
  predicate WalksAgree(d: ResumeData) {
    && NoDetails(d.education)
    && (d.skills == [] || exists i :: 0 <= i < |d.skills| && Named(d.skills[i]))
  }

  /** A level-1 heading and one paragraph read as a blank line, the title, a newline and
      the paragraph. */
  lemma TitledParaRender(title: string, text: string)
    ensures Join(Map(BlockLine, [Heading(1, title), Para(text)]), "\n") == "\n" + title + "\n" + text
  {
    var blocks := [Heading(1, title), Para(text)];
    var lines := Map(BlockLine, blocks);
    MapAt(BlockLine, blocks, 0);
    MapAt(BlockLine, blocks, 1);
    assert lines == ["\n" + title, text];
    assert lines[1..] == [text];
  }

  lemma SummaryRendersAsText(d: ResumeData)
    ensures Join(Map(BlockLine, DocxSectionBlocks(d, Summary)), "\n") == Join(SectionParts(d, Summary), "\n")
  {
    if d.summary != "" {
      var text := d.summary;
      assert DocxSectionBlocks(d, Summary) == [Heading(1, "Summary"), Para(text)];
      assert SectionParts(d, Summary) == ["\nSummary\n" + text];
      TitledParaRender("Summary", text);
      assert "\n" + "Summary" + "\n" + text == "\nSummary\n" + text;
    }
  }

  /** A level-1 heading reads as a blank line and its title, ahead of the lines of the
      blocks under it. */
  lemma HeadedRender(title: string, blocks: seq<Block>, lines: seq<string>)
    requires Map(BlockLine, blocks) == lines
    ensures Map(BlockLine, [Heading(1, title)] + blocks) == ["\n" + title] + lines
  {
    MapAppend(BlockLine, [Heading(1, title)], blocks);
  }

  lemma ExperienceBlocksRenderAsText(exps: seq<ExperienceItem>)
    ensures Map(BlockLine, [Heading(1, "Experience")] + DocxExperienceEntries(exps))
         == ["\nExperience"] + ExperienceEntries(exps)
  {
    ExperienceBlocksRender(exps);
    HeadedRender("Experience", DocxExperienceEntries(exps), ExperienceEntries(exps));
    assert "\n" + "Experience" == "\nExperience";
  }

  lemma ExperienceRendersAsText(d: ResumeData)
    ensures Map(BlockLine, DocxSectionBlocks(d, Experience)) == SectionParts(d, Experience)
  {
    if d.experience != [] {
      var exps := d.experience;
      assert DocxSectionBlocks(d, Experience) == [Heading(1, "Experience")] + DocxExperienceEntries(exps);
      assert SectionParts(d, Experience) == ["\nExperience"] + ExperienceEntries(exps);
      ExperienceBlocksRenderAsText(exps);
    }
  }

  lemma EducationBlocksRenderAsText(eds: seq<EducationItem>)
    requires NoDetails(eds)
    ensures Map(BlockLine, [Heading(1, "Education")] + DocxEducationEntries(eds))
         == ["\nEducation"] + EducationEntries(eds)
  {
    EducationBlocksRender(eds);
    HeadedRender("Education", DocxEducationEntries(eds), EducationEntries(eds));
    assert "\n" + "Education" == "\nEducation";
  }

  lemma EducationRendersAsText(d: ResumeData)
    requires NoDetails(d.education)
    ensures Map(BlockLine, DocxSectionBlocks(d, Education)) == SectionParts(d, Education)
  {
    if d.education != [] {
      var eds := d.education;
      assert DocxSectionBlocks(d, Education) == [Heading(1, "Education")] + DocxEducationEntries(eds);
      assert SectionParts(d, Education) == ["\nEducation"] + EducationEntries(eds);
      EducationBlocksRenderAsText(eds);
    }
  }

  lemma SkillBlocksRender(skills: seq<Skill>)
    requires exists i :: 0 <= i < |skills| && Named(skills[i])
    ensures SkillsParts(skills) != []
    ensures Join(Map(BlockLine, [Heading(1, "Skills"), Para(SkillsLine(skills))]), "\n") == Join(SkillsParts(skills), "\n")
  {
    SkillsSectionIff(skills);
    var line := SkillsLine(skills);
    TitledParaRender("Skills", line);
    assert "\n" + "Skills" + "\n" + line == "\nSkills\n" + line;
    assert Join(["\nSkills\n" + line], "\n") == "\nSkills\n" + line;
  }

  lemma SkillsRenderAsText(d: ResumeData)
    requires d.skills == [] || exists i :: 0 <= i < |d.skills| && Named(d.skills[i])
    ensures Join(Map(BlockLine, DocxSectionBlocks(d, Skills)), "\n") == Join(SectionParts(d, Skills), "\n")
    ensures DocxSectionBlocks(d, Skills) == [] <==> SectionParts(d, Skills) == []
  {
    var skills := d.skills;
    assert SectionParts(d, Skills) == SkillsParts(skills);
    if skills != [] {
      assert DocxSectionBlocks(d, Skills) == [Heading(1, "Skills"), Para(SkillsLine(skills))];
      SkillBlocksRender(skills);
    }
  }

  lemma AchievementBlocksRender(achievements: seq<string>)
    ensures Map(BlockLine, [Heading(1, "Achievements")] + Map(BulletBlock, KeptBullets(achievements)))
         == ["\nAchievements"] + Map(BulletLine, KeptBullets(achievements))
  {
    var kept := KeptBullets(achievements);
    BulletBlocksRender(kept);
    HeadedRender("Achievements", Map(BulletBlock, kept), Map(BulletLine, kept));
    assert "\n" + "Achievements" == "\nAchievements";
  }

  lemma AchievementsRenderAsText(d: ResumeData)
    ensures Map(BlockLine, DocxSectionBlocks(d, Achievements)) == SectionParts(d, Achievements)
  {
    if d.achievements != [] {
      var a := d.achievements;
      assert DocxSectionBlocks(d, Achievements) == [Heading(1, "Achievements")] + Map(BulletBlock, KeptBullets(a));
      assert SectionParts(d, Achievements) == ["\nAchievements"] + Map(BulletLine, KeptBullets(a));
      AchievementBlocksRender(a);
    }
  }

  lemma SectionRendersAsText(d: ResumeData, s: Section)
    requires WalksAgree(d)
    ensures Join(Map(BlockLine, DocxSectionBlocks(d, s)), "\n") == Join(SectionParts(d, s), "\n")
    ensures DocxSectionBlocks(d, s) == [] <==> SectionParts(d, s) == []
  {
    match s
    case Summary => SummaryRendersAsText(d);
    case Experience => ExperienceRendersAsText(d);
    case Education => EducationRendersAsText(d);
    case Skills => SkillsRenderAsText(d);
    case Achievements => AchievementsRenderAsText(d);
  }

  lemma {:induction false} SectionsRenderAsText(d: ResumeData, order: seq<Section>)
    requires WalksAgree(d)
    ensures Join(Map(BlockLine, DocxSections(d, order)), "\n") == Join(SectionsText(d, order), "\n")
    ensures DocxSections(d, order) == [] <==> SectionsText(d, order) == []
    decreases |order|
  {
    if order != [] {
      SectionsRenderAsText(d, order[1..]);
      SectionRendersAsText(d, order[0]);
      MapAppend(BlockLine, DocxSectionBlocks(d, order[0]), DocxSections(d, order[1..]));
      JoinConcatAgree(SectionParts(d, order[0]), SectionsText(d, order[1..]),
                      Map(BlockLine, DocxSectionBlocks(d, order[0])), Map(BlockLine, DocxSections(d, order[1..])), "\n");
    }
  }

  /** Apart from education details and a Skills section without named skills, the document's
      blocks, read as lines, give exactly the plain text. */
  lemma DocxAgreesWithText(d: ResumeData)
    requires WalksAgree(d)
    ensures FormatTextResume(d) == Strip(Join(Map(BlockLine, DocxBlocks(d)), "\n")) + "\n"
  {
    SectionsRenderAsText(d, SectionOrder);
    MapAppend(BlockLine, DocxHead(d), DocxSections(d, SectionOrder));
    assert Map(BlockLine, DocxHead(d)) == HeadParts(d);
    JoinConcatAgree(HeadParts(d), SectionsText(d, SectionOrder),
                    Map(BlockLine, DocxHead(d)), Map(BlockLine, DocxSections(d, SectionOrder)), "\n");
  }

  /** Education details: a plain paragraph in the document, a bullet line in the text. */
  lemma EducationDetailsDiffer(d: ResumeData, ed: EducationItem)
    requires ed in d.education && ed.details != ""
    ensures Para(ed.details) in DocxBlocks(d) && BulletLine(ed.details) in Parts(d)
  {
    EducationDetailsInEntries(d.education, ed);
    assert SectionOrder[2] == Education;
    SectionBlocksInDocument(d, SectionOrder, Education, Para(ed.details));
    SectionPartsInText(d, SectionOrder, Education, BulletLine(ed.details));
  }

  lemma {:induction false} EducationDetailsInEntries(eds: seq<EducationItem>, ed: EducationItem)
    requires ed in eds && ed.details != ""
    ensures Para(ed.details) in DocxEducationEntries(eds)
    ensures BulletLine(ed.details) in EducationEntries(eds)
    decreases |eds|
  {
    if eds[0] != ed {
      EducationDetailsInEntries(eds[1..], ed);
    }
  }

  lemma {:induction false} SectionBlocksInDocument(d: ResumeData, order: seq<Section>, s: Section, b: Block)
    requires s in order && b in DocxSectionBlocks(d, s)
    ensures b in DocxSections(d, order)
    decreases |order|
  {
    if order[0] != s {
      SectionBlocksInDocument(d, order[1..], s, b);
    }
  }

  /** Skills that all lack a name still give the document a Skills heading and an empty
      paragraph, while the text has no Skills section. */
  lemma SkillsHeadingWithoutNames(d: ResumeData)
    requires d.skills != [] && forall i :: 0 <= i < |d.skills| ==> !Named(d.skills[i])
    ensures Heading(1, "Skills") in DocxBlocks(d) && Para("") in DocxBlocks(d)
    ensures SkillsParts(d.skills) == [] && !TextHasSection(d, Skills)
  {
    SkillsLineEmptyIff(d.skills);
    assert SectionOrder[3] == Skills;
    SectionBlocksInDocument(d, SectionOrder, Skills, Heading(1, "Skills"));
    SectionBlocksInDocument(d, SectionOrder, Skills, Para(""));
  }
}
