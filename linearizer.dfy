/** The plain-text linearizer `_format_text_resume`: the résumé as a list of parts
    (header, sub-header, then the optional sections in a fixed order), joined by newlines,
    stripped, and ended with one newline. The plain-text export returns exactly this text. */
module Linearizer {
  import opened Seqs
  import opened Text
  import opened Resume

  /** Two spaces, a bullet sign (U+2022) and a space. */
  const BulletPrefix: string := "  \U{2022} "

  function BulletLine(b: string): string {
    BulletPrefix + b
  }

  /** `if b.strip()`: the test that keeps a bullet or achievement. */
  predicate IsKept(b: string) {
    !AllSpace(b)
  }

  /** `[b for b in bs if b.strip()]` */
  function KeptBullets(bs: seq<string>): seq<string> {
    Filter(IsKept, bs)
  }

  /** Each bullet is kept, unmodified and in place, exactly when it has a non-whitespace character. */
  lemma KeptBulletsAt(a: seq<string>, b: string, c: seq<string>)
    ensures KeptBullets(a + [b] + c) == KeptBullets(a) + (if AllSpace(b) then [] else [b]) + KeptBullets(c)
  {
    FilterAppend(IsKept, a + [b], c);
    FilterAppend(IsKept, a, [b]);
  }

  /** `data.name or "Your Name"` */
  function HeaderLine(name: string): string {
    if name == "" then "Your Name" else name
  }

  /** Title, email, phone and location, the non-empty ones joined with " | ". */
  function SubHeader(d: ResumeData): string {
    JoinPresent([d.title, d.email, d.phone, d.location], " | ")
  }

  function ExperienceLine(e: ExperienceItem): string {
    JoinPresent([e.role, e.company, e.period], " - ")
  }

  function EducationLine(ed: EducationItem): string {
    JoinPresent([ed.degree, ed.school, ed.period], " - ")
  }

  /** The parts appended for each experience entry: its line, then its kept bullets. */
  function ExperienceEntries(exps: seq<ExperienceItem>): seq<string> {
    if exps == [] then []
    else [ExperienceLine(exps[0])] + Map(BulletLine, KeptBullets(exps[0].bullets)) + ExperienceEntries(exps[1..])
  }

  /** The parts appended for each education entry: its line, then its details as a bullet if any. */
  function EducationEntries(eds: seq<EducationItem>): seq<string> {
    if eds == [] then []
    else [EducationLine(eds[0])] + (if eds[0].details != "" then [BulletLine(eds[0].details)] else [])
         + EducationEntries(eds[1..])
  }

  /** `name` or `name (level)`. */
  function SkillText(s: Skill): string {
    if s.level == "" then s.name else s.name + " (" + s.level + ")"
  }

  /** The named skills rendered and joined with ", ". */
  function SkillsLine(skills: seq<Skill>): string {
    Join(Map(SkillText, Filter(Named, skills)), ", ")
  }

  function HeadParts(d: ResumeData): seq<string> {
    var sub := SubHeader(d);
    [HeaderLine(d.name)] + (if sub != "" then [sub] else [])
  }

  function SummaryParts(summary: string): seq<string> {
    if summary == "" then [] else ["\nSummary\n" + summary]
  }

  function ExperienceParts(exps: seq<ExperienceItem>): seq<string> {
    if exps == [] then [] else ["\nExperience"] + ExperienceEntries(exps)
  }

  function EducationParts(eds: seq<EducationItem>): seq<string> {
    if eds == [] then [] else ["\nEducation"] + EducationEntries(eds)
  }

  function SkillsParts(skills: seq<Skill>): seq<string> {
    if skills == [] then []
    else
      var line := SkillsLine(skills);
      if line == "" then [] else ["\nSkills\n" + line]
  }

  function AchievementsParts(achievements: seq<string>): seq<string> {
    if achievements == [] then [] else ["\nAchievements"] + Map(BulletLine, KeptBullets(achievements))
  }

  /** The sub-header line is present exactly when one of its four fields is non-empty. */
  lemma SubHeaderOmittedIff(d: ResumeData)
    ensures |HeadParts(d)| == 1 <==> d.title == "" && d.email == "" && d.phone == "" && d.location == ""
    ensures |HeadParts(d)| == 2 ==> HeadParts(d)[1] == SubHeader(d) && SubHeader(d) != ""
  {
    var fields := [d.title, d.email, d.phone, d.location];
    assert fields[0] == d.title && fields[1] == d.email && fields[2] == d.phone && fields[3] == d.location;
  }

  /** With all four fields present, the sub-header is title, email, phone and location in that order. */
  lemma SubHeaderAllFields(d: ResumeData)
    requires d.title != "" && d.email != "" && d.phone != "" && d.location != ""
    ensures SubHeader(d) == d.title + " | " + (d.email + " | " + (d.phone + " | " + d.location))
  {
    var fields := [d.title, d.email, d.phone, d.location];
    FilterAll(IsNonEmpty, fields);
    var f1, f2 := fields[1..], fields[2..];
    assert f1 == [d.email, d.phone, d.location];
    assert f2 == [d.phone, d.location] == f1[1..];
    assert f2[1..] == [d.location];
    assert Join(f2, " | ") == d.phone + " | " + d.location;
    assert Join(f1, " | ") == d.email + " | " + Join(f2, " | ");
    assert Join(fields, " | ") == d.title + " | " + Join(f1, " | ");
  }

  /** A skill renders as its name alone exactly when it has no level. */
  lemma SkillTextShape(s: Skill)
    ensures SkillText(s)[..|s.name|] == s.name
    ensures SkillText(s) == s.name <==> s.level == ""
    ensures s.level != "" ==> SkillText(s) == s.name + " (" + s.level + ")"
  {
  }

  /** An unnamed skill is dropped from the skills line wherever it stands, whatever its level. */
  lemma SkillsLineDropsUnnamed(a: seq<Skill>, level: string, b: seq<Skill>)
    ensures SkillsLine(a + [Skill("", level)] + b) == SkillsLine(a + b)
  {
    FilterAppend(Named, a + [Skill("", level)], b);
    FilterAppend(Named, a, [Skill("", level)]);
    FilterAppend(Named, a, b);
    assert Filter(Named, [Skill("", level)]) == [];
    assert Filter(Named, a) + [] == Filter(Named, a);
  }

  /** The skills line is empty exactly when no skill has a name. */
  lemma SkillsLineEmptyIff(skills: seq<Skill>)
    ensures SkillsLine(skills) == "" <==> forall i :: 0 <= i < |skills| ==> !Named(skills[i])
  {
    var named := Filter(Named, skills);
    FilterEmptyIff(Named, skills);
    if named != [] {
      var rendered := Map(SkillText, named);
      FilterFirst(Named, skills);
      MapAt(SkillText, named, 0);
      assert Join(rendered, ", ")[..|rendered[0]|] == rendered[0];
    }
  }

  /** Skills keep their order: the line for two lists is the two lines joined with ", ". */
  lemma SkillsLineAppend(a: seq<Skill>, b: seq<Skill>)
    ensures SkillsLine(a + b) ==
      if SkillsLine(a) == "" then SkillsLine(b)
      else if SkillsLine(b) == "" then SkillsLine(a)
      else SkillsLine(a) + ", " + SkillsLine(b)
  {
    FilterAppend(Named, a, b);
    MapAppend(SkillText, Filter(Named, a), Filter(Named, b));
    JoinAppend(Map(SkillText, Filter(Named, a)), Map(SkillText, Filter(Named, b)), ", ");
    SkillsLineEmptyIff(a);
    SkillsLineEmptyIff(b);
    FilterEmptyIff(Named, a);
    FilterEmptyIff(Named, b);
  }

  /** The Skills section is emitted exactly when some skill has a name. */
  lemma SkillsSectionIff(skills: seq<Skill>)
    ensures SkillsParts(skills) != [] <==> exists i :: 0 <= i < |skills| && Named(skills[i])
    ensures SkillsParts(skills) != [] ==> SkillsParts(skills) == ["\nSkills\n" + SkillsLine(skills)]
  {
    SkillsLineEmptyIff(skills);
  }

  /** Experience entries keep their order: the parts for two lists are the two lists of parts. */
  lemma {:induction false} ExperienceEntriesAppend(a: seq<ExperienceItem>, b: seq<ExperienceItem>)
    ensures ExperienceEntries(a + b) == ExperienceEntries(a) + ExperienceEntries(b)
    decreases |a|
  {
    if a == [] {
      assert a + b == b;
    } else {
      assert (a + b)[0] == a[0];
      assert (a + b)[1..] == a[1..] + b;
      ExperienceEntriesAppend(a[1..], b);
    }
  }

  /** Education entries keep their order in the same way. */
  lemma {:induction false} EducationEntriesAppend(a: seq<EducationItem>, b: seq<EducationItem>)
    ensures EducationEntries(a + b) == EducationEntries(a) + EducationEntries(b)
    decreases |a|
  {
    if a == [] {
      assert a + b == b;
    } else {
      assert (a + b)[0] == a[0];
      assert (a + b)[1..] == a[1..] + b;
      EducationEntriesAppend(a[1..], b);
    }
  }

  /** Whether a section appears in the text: Summary when the summary is non-empty, Skills when
      some skill has a name, the three list sections whenever their list is non-empty. */
  predicate TextHasSection(d: ResumeData, s: Section) {
    match s
    case Summary => d.summary != ""
    case Experience => d.experience != []
    case Education => d.education != []
    case Skills => exists i :: 0 <= i < |d.skills| && Named(d.skills[i])
    case Achievements => d.achievements != []
  }

  /** The parts a section contributes. */
  function SectionParts(d: ResumeData, s: Section): seq<string> {
    match s
    case Summary => SummaryParts(d.summary)
    case Experience => ExperienceParts(d.experience)
    case Education => EducationParts(d.education)
    case Skills => SkillsParts(d.skills)
    case Achievements => AchievementsParts(d.achievements)
  }

  /** `TextHasSection` for one record, as a predicate on sections. */
  function HasSection(d: ResumeData): Section -> bool {
    s => TextHasSection(d, s)
  }

  /** The sections among `order` that the text has, in the order of `order`. */
  function Emitted(d: ResumeData, order: seq<Section>): seq<Section> {
    Filter(HasSection(d), order)
  }

  /** The parts of the sections in `order`, one section after another. */
  function SectionsText(d: ResumeData, order: seq<Section>): seq<string> {
    if order == [] then [] else SectionParts(d, order[0]) + SectionsText(d, order[1..])
  }

  lemma {:induction false} SectionPartsInText(d: ResumeData, order: seq<Section>, s: Section, p: string)
    requires s in order && p in SectionParts(d, s)
    ensures p in SectionsText(d, order)
    decreases |order|
  {
    if order[0] != s {
      SectionPartsInText(d, order[1..], s, p);
    }
  }

  /** The `parts` list the source builds: header, sub-header, then Summary, Experience,
      Education, Skills and Achievements, each appended in that order. */
  function Parts(d: ResumeData): (r: seq<string>)
    ensures r != [] && r[0] == (if d.name == "" then "Your Name" else d.name)
  {
    HeadParts(d) + SectionsText(d, SectionOrder)
  }

  /** A section contributes parts exactly when the text has it. */
  lemma SectionPresence(d: ResumeData, s: Section)
    ensures SectionParts(d, s) != [] <==> TextHasSection(d, s)
  {
    if s == Skills {
      SkillsSectionIff(d.skills);
    }
  }

  /** `p` begins with a newline and `title`. */
  predicate BeginsWithTitle(p: string, title: string) {
    |p| > |title| && p[..|title| + 1] == "\n" + title
  }

  /** A part made of a newline, a title and more text begins with the newline and the title. */
  lemma StartsWithTitle(p: string, title: string, rest: string)
    requires p == "\n" + title + rest
    ensures BeginsWithTitle(p, title)
  {
    assert p == ("\n" + title) + rest;
  }

  lemma SummaryHeading(summary: string)
    ensures SummaryParts(summary) != [] ==> BeginsWithTitle(SummaryParts(summary)[0], "Summary")
  {
    if summary != "" {
      assert "\nSummary\n" + summary == "\n" + "Summary" + ("\n" + summary);
      StartsWithTitle(SummaryParts(summary)[0], "Summary", "\n" + summary);
    }
  }

  lemma SkillsHeading(skills: seq<Skill>)
    ensures SkillsParts(skills) != [] ==> BeginsWithTitle(SkillsParts(skills)[0], "Skills")
  {
    if SkillsParts(skills) != [] {
      var line := SkillsLine(skills);
      assert "\nSkills\n" + line == "\n" + "Skills" + ("\n" + line);
      StartsWithTitle(SkillsParts(skills)[0], "Skills", "\n" + line);
    }
  }

  /** A section's first part begins with a newline and the section's title. */
  lemma SectionHeading(d: ResumeData, s: Section)
    ensures SectionParts(d, s) != [] ==> BeginsWithTitle(SectionParts(d, s)[0], SectionTitle(s))
  {
    match s
    case Summary => SummaryHeading(d.summary);
    case Experience =>
      if d.experience != [] { StartsWithTitle("\nExperience", "Experience", ""); }
    case Education =>
      if d.education != [] { StartsWithTitle("\nEducation", "Education", ""); }
    case Skills => SkillsHeading(d.skills);
    case Achievements =>
      if d.achievements != [] { StartsWithTitle("\nAchievements", "Achievements", ""); }
  }

  lemma {:induction false} SectionsTextSkipsAbsent(d: ResumeData, order: seq<Section>)
    ensures SectionsText(d, Emitted(d, order)) == SectionsText(d, order)
    decreases |order|
  {
    if order != [] {
      SectionsTextSkipsAbsent(d, order[1..]);
      SectionPresence(d, order[0]);
      var head := if TextHasSection(d, order[0]) then [order[0]] else [];
      assert Emitted(d, order) == head + Emitted(d, order[1..]);
      if head == [] {
        assert Emitted(d, order) == Emitted(d, order[1..]);
      } else {
        assert Emitted(d, order)[0] == order[0];
        assert Emitted(d, order)[1..] == Emitted(d, order[1..]);
      }
    }
  }

  /** The text is the header parts followed by the sections it has, in the fixed section
      order; each of them begins with a newline and its title (SectionHeading). */
  lemma PartsBySection(d: ResumeData)
    ensures Parts(d) == HeadParts(d) + SectionsText(d, Emitted(d, SectionOrder))
  {
    SectionsTextSkipsAbsent(d, SectionOrder);
  }

  /** Every section the text has is emitted, and no other. */
  lemma EmittedExactly(d: ResumeData, s: Section)
    ensures s in Emitted(d, SectionOrder) <==> TextHasSection(d, s)
  {
    var o := SectionOrder;
    assert s in o by {
      assert o[0] == Summary && o[1] == Experience && o[2] == Education && o[3] == Skills && o[4] == Achievements;
    }
    FilterIn(HasSection(d), o, s);
  }

  /** `"\n".join(parts).strip() + "\n"`: one trailing newline, and no whitespace at either end before it. */
  function FormatTextResume(d: ResumeData): (r: string)
    ensures |r| >= 1 && r[|r| - 1] == '\n'
    ensures var body := r[..|r| - 1];
      body == [] || (!IsSpace(body[0]) && !IsSpace(body[|body| - 1]))
  {
    var body := Strip(Join(Parts(d), "\n"));
    assert (body + "\n")[..|body|] == body;
    body + "\n"
  }

  /** Every field left at its default. */
  predicate AllDefault(d: ResumeData) {
    && d.name == "" && d.title == "" && d.email == "" && d.phone == "" && d.location == ""
    && d.summary == "" && d.experience == [] && d.education == [] && d.skills == [] && d.achievements == []
  }

  /** When the record has none of the sections in `order`, they contribute nothing. */
  lemma {:induction false} NoSectionsText(d: ResumeData, order: seq<Section>)
    requires forall i :: 0 <= i < |order| ==> !TextHasSection(d, order[i])
    ensures SectionsText(d, order) == []
    decreases |order|
  {
    if order != [] {
      SectionPresence(d, order[0]);
      NoSectionsText(d, order[1..]);
    }
  }

  lemma AllDefaultParts(d: ResumeData)
    requires AllDefault(d)
    ensures Parts(d) == ["Your Name"]
  {
    forall s: Section ensures !TextHasSection(d, s) {
    }
    NoSectionsText(d, SectionOrder);
    var fields := [d.title, d.email, d.phone, d.location];
    FilterNone(IsNonEmpty, fields);
  }

  /** A text made of one part with no whitespace at either end is that part and a newline. */
  lemma SinglePartText(d: ResumeData, line: string)
    requires Parts(d) == [line]
    requires line != [] && !IsSpace(line[0]) && !IsSpace(line[|line| - 1])
    ensures FormatTextResume(d) == line + "\n"
  {
    SingleLineBody(line);
  }

  lemma SingleLineBody(line: string)
    requires line != [] && !IsSpace(line[0]) && !IsSpace(line[|line| - 1])
    ensures Strip(Join([line], "\n")) == line
  {
    assert Join([line], "\n") == line;
    assert [] + line + [] == line;
    StripUnique([], line, []);
  }

  /** A record left at its defaults renders as the fallback header alone. */
  lemma AllDefaultText(d: ResumeData)
    requires AllDefault(d)
    ensures FormatTextResume(d) == "Your Name\n"
  {
    AllDefaultParts(d);
    FallbackNameUnspaced();
    SinglePartText(d, HeaderLine(""));
  }

  lemma FallbackNameUnspaced()
    ensures var line := HeaderLine("");
      line != [] && !IsSpace(line[0]) && !IsSpace(line[|line| - 1])
  {
  }

  /** A résumé holding only a name, a title and one skill without a level. */
  predicate NameTitleSkillOnly(d: ResumeData) {
    && d.name != "" && d.title != "" && d.email == "" && d.phone == "" && d.location == ""
    && d.summary == "" && d.experience == [] && d.education == [] && d.achievements == []
    && |d.skills| == 1 && d.skills[0].name != "" && d.skills[0].level == ""
  }

  lemma NameTitleSkillHead(d: ResumeData)
    requires NameTitleSkillOnly(d)
    ensures HeadParts(d) == [d.name, d.title]
  {
    var fields := [d.title, d.email, d.phone, d.location];
    FilterNone(IsNonEmpty, fields[1..]);
    assert Filter(IsNonEmpty, fields) == [d.title];
  }

  /** When the record has only the section at position `k` of `order`, the sections give
      that section's parts alone. */
  lemma {:induction false} OnlySectionText(d: ResumeData, order: seq<Section>, k: nat)
    requires k < |order|
    requires forall i :: 0 <= i < |order| && i != k ==> !TextHasSection(d, order[i])
    ensures SectionsText(d, order) == SectionParts(d, order[k])
    decreases |order|
  {
    var rest := order[1..];
    assert SectionsText(d, order) == SectionParts(d, order[0]) + SectionsText(d, rest);
    if k == 0 {
      forall i | 0 <= i < |rest| ensures !TextHasSection(d, rest[i]) {
        assert rest[i] == order[i + 1];
      }
      NoSectionsText(d, rest);
    } else {
      SectionPresence(d, order[0]);
      forall i | 0 <= i < |rest| && i != k - 1 ensures !TextHasSection(d, rest[i]) {
        assert rest[i] == order[i + 1];
      }
      OnlySectionText(d, rest, k - 1);
    }
  }

  lemma NameTitleSkillParts(d: ResumeData)
    requires NameTitleSkillOnly(d)
    ensures Parts(d) == [d.name, d.title, "\nSkills\n" + d.skills[0].name]
  {
    NameTitleSkillHead(d);
    var o := SectionOrder;
    assert o[3] == Skills;
    forall i | 0 <= i < |o| && i != 3 ensures !TextHasSection(d, o[i]) {
    }
    OnlySectionText(d, o, 3);
    assert Filter(Named, d.skills) == d.skills;
    assert SkillsLine(d.skills) == d.skills[0].name;
  }

  lemma JoinThree(a: string, b: string, c: string)
    ensures Join([a, b, c], "\n") == a + "\n" + (b + "\n" + c)
  {
    var parts := [a, b, c];
    assert parts[1..] == [b, c];
    assert [b, c][1..] == [c];
    assert Join([c], "\n") == c;
    assert Join([b, c], "\n") == b + "\n" + c;
  }

  /** Three parts, the text starting and ending with a non-space, are joined by newlines. */
  lemma ThreePartText(d: ResumeData, a: string, b: string, c: string)
    requires Parts(d) == [a, b, c]
    requires a != [] && c != [] && !IsSpace(a[0]) && !IsSpace(c[|c| - 1])
    ensures FormatTextResume(d) == a + "\n" + (b + "\n" + c) + "\n"
  {
    var joined := a + "\n" + (b + "\n" + c);
    JoinThree(a, b, c);
    assert joined[0] == a[0];
    assert joined[|joined| - 1] == c[|c| - 1];
    assert [] + joined + [] == joined;
    StripUnique([], joined, []);
  }

  lemma SkillsTextRegrouped(a: string, b: string, c: string)
    ensures a + "\n" + (b + "\n" + ("\nSkills\n" + c)) + "\n" == a + "\n" + b + "\n\nSkills\n" + c + "\n"
  {
    assert "\n" + "\nSkills\n" == "\n\nSkills\n";
  }

  /** Such a résumé renders as its name, its title, a blank line and the Skills section
      (for example "Ann Lee\nEngineer\n\nSkills\nGo\n"). */
  lemma NameTitleSkillText(d: ResumeData)
    requires NameTitleSkillOnly(d)
    requires !IsSpace(d.name[0]) && !IsSpace(d.skills[0].name[|d.skills[0].name| - 1])
    ensures FormatTextResume(d) == d.name + "\n" + d.title + "\n\nSkills\n" + d.skills[0].name + "\n"
  {
    NameTitleSkillParts(d);
    var name := d.skills[0].name;
    var skill := "\nSkills\n" + name;
    assert skill[|skill| - 1] == name[|name| - 1];
    ThreePartText(d, d.name, d.title, skill);
    SkillsTextRegrouped(d.name, d.title, name);
  }
}
