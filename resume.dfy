/** The résumé record the backend receives: every field defaults to the empty string or
    the empty list, and lists keep the order of the request. */
module Resume {

  datatype Skill = Skill(name: string, level: string)

  datatype ExperienceItem = ExperienceItem(role: string, company: string, period: string, bullets: seq<string>)

  datatype EducationItem = EducationItem(degree: string, school: string, period: string, details: string)

  datatype ResumeData = ResumeData(
    name: string,
    title: string,
    email: string,
    phone: string,
    location: string,
    summary: string,
    experience: seq<ExperienceItem>,
    education: seq<EducationItem>,
    skills: seq<Skill>,
    achievements: seq<string>)

  /** The record with every field left at its default. */
  const EmptyResume := ResumeData("", "", "", "", "", "", [], [], [], [])

  /** The optional sections of a résumé. */
  datatype Section = Summary | Experience | Education | Skills | Achievements

  /** The heading text of a section. */
  function SectionTitle(s: Section): string {
    match s
    case Summary => "Summary"
    case Experience => "Experience"
    case Education => "Education"
    case Skills => "Skills"
    case Achievements => "Achievements"
  }

  /** The order in which both exporters emit the sections. */
  const SectionOrder: seq<Section> := [Summary, Experience, Education, Skills, Achievements]

  /** True when a skill has a name; unnamed skills are dropped from every rendering. */
  predicate Named(s: Skill) {
    s.name != ""
  }
}
