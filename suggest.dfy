/** The suggestion endpoint (`/ai/suggest`): a canned professional summary built from a
    title and a skills list, or four canned experience bullets built from a role and a
    company. Any other kind of suggestion is refused with status 400. */
module Suggest {
  import opened Seqs
  import opened Text

  /** The request context. A missing key and an empty value are the same to the source,
      which reads every key with `ctx.get(key) or default`; both are `""` (or `[]`) here. */
  datatype SuggestContext = SuggestContext(title: string, skills: seq<string>, role: string, company: string)

  datatype Suggestion = SummaryText(text: string) | BulletList(bullets: seq<string>)

  datatype Response = Ok(suggestion: Suggestion) | Error(status: nat, detail: string)

  /** `value or fallback` on strings. */
  function OrDefault(value: string, fallback: string): string {
    if value == "" then fallback else value
  }

  const DefaultTitle := "professional"
  const SummaryLead := " with a track record of delivering measurable outcomes. Skilled in "
  const SummaryTail := ". Known for clear communication, ownership, and continuous improvement. Seeking to leverage expertise to drive impact in a high-performing team."

  /** The summary: the title-cased title, the non-empty skills joined by ", ", and the fixed
      sentences, stripped. */
  function SuggestSummary(ctx: SuggestContext): (r: string)
    ensures r != [] && r[|r| - 1] == '.' && !IsSpace(r[0])
  {
    var title := TitleCase(OrDefault(ctx.title, DefaultTitle));
    var text := title + (SummaryLead + (JoinPresent(ctx.skills, ", ") + SummaryTail));
    SummaryEnds();
    assert text[|text| - 1] == SummaryTail[|SummaryTail| - 1];
    TrimEndOfNonSpace(text);
    Strip(text)
  }

  /** The fixed text ends in a full stop, which stripping keeps. */
  lemma SummaryEnds()
    ensures SummaryTail != [] && SummaryTail[|SummaryTail| - 1] == '.'
  {
  }

  const DefaultRole := "Role"
  const DefaultCompany := "Company"
  const FirstBulletLead := "Drove end-to-end initiatives as "
  const FirstBulletTail := ", improving key KPIs by 15%+."

  function FirstBullet(role: string, company: string): string {
    FirstBulletLead + role + " at " + company + FirstBulletTail
  }

  /** The bullets that do not depend on the context. */
  const StandardBullets: seq<string> := [
    "Collaborated cross-functionally to ship features on time while reducing defects.",
    "Automated repetitive workflows to save team 4\U{2013}6 hrs/week and increase consistency.",
    "Translated business goals into actionable plans with clear milestones and metrics."
  ]

  function SuggestBullets(ctx: SuggestContext): (r: seq<string>)
    ensures |r| == 4
  {
    [FirstBullet(OrDefault(ctx.role, DefaultRole), OrDefault(ctx.company, DefaultCompany))] + StandardBullets
  }

  /** The endpoint: a summary, bullets, or the 400 error for any other kind. */
  function AiSuggest(kind: string, ctx: SuggestContext): (r: Response)
    ensures r.Error? <==> kind != "summary" && kind != "bullets"
    ensures r.Error? ==> r.status == 400 && r.detail == "Unsupported type"
    ensures kind == "summary" ==> r == Ok(SummaryText(SuggestSummary(ctx)))
    ensures kind == "bullets" ==> r == Ok(BulletList(SuggestBullets(ctx))) && |r.suggestion.bullets| == 4
  {
    if kind == "summary" then Ok(SummaryText(SuggestSummary(ctx)))
    else if kind == "bullets" then Ok(BulletList(SuggestBullets(ctx)))
    else Error(400, "Unsupported type")
  }

  /** Title-casing changes letters only, so it keeps every whitespace character in place. */
  lemma TitleCaseKeepsSpaces(s: string)
    ensures forall i :: 0 <= i < |s| ==> (IsSpace(TitleCase(s)[i]) <==> IsSpace(s[i]))
  {
    var t := TitleCase(s);
    forall i | 0 <= i < |s| ensures IsSpace(t[i]) <==> IsSpace(s[i]) {
      if IsLetter(s[i]) {
        assert IsLetter(t[i]);
      }
    }
  }

  lemma TitleCaseBlankIff(s: string)
    ensures AllSpace(TitleCase(s)) <==> AllSpace(s)
  {
    TitleCaseKeepsSpaces(s);
  }

  /** The summary's shape for any fixed text around the skills, when the title is not blank. */
  lemma StripAroundTitle(t: string, lead: string, skills: string, tail: string)
    requires !AllSpace(t)
    requires tail != [] && !IsSpace(tail[|tail| - 1])
    ensures Strip(t + (lead + (skills + tail))) == TrimStart(t) + (lead + (skills + tail))
  {
    var rest := lead + (skills + tail);
    assert rest[|rest| - 1] == tail[|tail| - 1];
    StripAfterFirstPart(t, rest);
  }

  /** Stripping ignores blank text in front. */
  lemma StripAroundBlankTitle(t: string, rest: string)
    requires AllSpace(t)
    requires rest != [] && !IsSpace(rest[|rest| - 1])
    ensures Strip(t + rest) == Strip(rest)
  {
    TrimEndOfNonSpace(t + rest);
    TrimEndOfNonSpace(rest);
    TrimStartSkipsSpace(t, rest);
  }

  /** With a title that is not blank, the summary is the title-cased title without its
      leading whitespace, then the fixed text around the non-empty skills. */
  lemma SummaryWithTitle(ctx: SuggestContext)
    requires !AllSpace(OrDefault(ctx.title, DefaultTitle))
    ensures SuggestSummary(ctx) ==
      TrimStart(TitleCase(OrDefault(ctx.title, DefaultTitle))) + (SummaryLead + (JoinPresent(ctx.skills, ", ") + SummaryTail))
  {
    var title := OrDefault(ctx.title, DefaultTitle);
    TitleCaseBlankIff(title);
    SummaryEnds();
    StripAroundTitle(TitleCase(title), SummaryLead, JoinPresent(ctx.skills, ", "), SummaryTail);
  }

  /** A title made only of whitespace contributes nothing: the summary is the fixed text
      around the skills, stripped. */
  lemma SummaryWithBlankTitle(ctx: SuggestContext)
    requires ctx.title != "" && AllSpace(ctx.title)
    ensures SuggestSummary(ctx) == Strip(SummaryLead + (JoinPresent(ctx.skills, ", ") + SummaryTail))
  {
    var rest := SummaryLead + (JoinPresent(ctx.skills, ", ") + SummaryTail);
    TitleCaseBlankIff(ctx.title);
    SummaryEnds();
    assert rest[|rest| - 1] == SummaryTail[|SummaryTail| - 1];
    StripAroundBlankTitle(TitleCase(ctx.title), rest);
  }

  /** A lower-case title comes out with its first letter capitalised, right at the start of
      the summary. */
  lemma SummaryOfLowerTitle(ctx: SuggestContext)
    requires LowerWord(ctx.title)
    ensures SuggestSummary(ctx) ==
      [Upper(ctx.title[0])] + ctx.title[1..] + (SummaryLead + (JoinPresent(ctx.skills, ", ") + SummaryTail))
  {
    LowerTitleSummary(ctx, ctx.title);
  }

  /** With no title the summary opens with the capitalised default title. */
  lemma SummaryOfDefaultTitle(ctx: SuggestContext)
    requires ctx.title == ""
    ensures SuggestSummary(ctx) == "Professional" + (SummaryLead + (JoinPresent(ctx.skills, ", ") + SummaryTail))
  {
    DefaultTitleCased();
    LowerTitleSummary(ctx, DefaultTitle);
  }

  lemma DefaultTitleCased()
    ensures LowerWord(DefaultTitle)
    ensures [Upper(DefaultTitle[0])] + DefaultTitle[1..] == "Professional"
  {
  }

  /** The summary opens with the title-cased form of whichever title applies, `t`. */
  lemma LowerTitleSummary(ctx: SuggestContext, t: string)
    requires t == OrDefault(ctx.title, DefaultTitle) && LowerWord(t)
    ensures SuggestSummary(ctx) ==
      [Upper(t[0])] + t[1..] + (SummaryLead + (JoinPresent(ctx.skills, ", ") + SummaryTail))
  {
    var rest := SummaryLead + (JoinPresent(ctx.skills, ", ") + SummaryTail);
    assert !IsSpace(t[0]);
    SummaryWithTitle(ctx);
    assert SuggestSummary(ctx) == TrimStart(TitleCase(t)) + rest;
    TitleCaseLowerWord(t);
    TrimStartOfNonSpace(TitleCase(t));
  }

  /** The worked example: title "engineer" with skills Go and SQL. */
  lemma EngineerSummary(role: string, company: string)
    ensures SuggestSummary(SuggestContext("engineer", ["Go", "SQL"], role, company)) ==
      "Engineer" + (SummaryLead + ("Go, SQL" + SummaryTail))
  {
    var ctx := SuggestContext("engineer", ["Go", "SQL"], role, company);
    EngineerCased();
    LowerTitleSummary(ctx, ctx.title);
    GoSqlJoined();
  }

  lemma EngineerCased()
    ensures LowerWord("engineer")
    ensures [Upper("engineer"[0])] + "engineer"[1..] == "Engineer"
  {
  }

  lemma GoSqlJoined()
    ensures JoinPresent(["Go", "SQL"], ", ") == "Go, SQL"
  {
    JoinPresentOfPresent(["Go", "SQL"], ", ");
  }

  /** Empty skills are left out of the summary: removing one changes nothing. */
  lemma SummaryIgnoresEmptySkill(ctx: SuggestContext, a: seq<string>, b: seq<string>)
    requires ctx.skills == a + [""] + b
    ensures SuggestSummary(ctx) == SuggestSummary(ctx.(skills := a + b))
  {
    JoinPresentSkipsEmpty(a, b, ", ");
  }

  /** Suggesting again from the title-cased title gives the same summary. */
  lemma SummaryStableUnderTitleCase(ctx: SuggestContext)
    requires ctx.title != ""
    ensures SuggestSummary(ctx.(title := TitleCase(ctx.title))) == SuggestSummary(ctx)
  {
    TitleCaseIdempotent(ctx.title);
  }

  /** Only the first bullet depends on the context. */
  lemma BulletsShareStandardPart(c1: SuggestContext, c2: SuggestContext)
    ensures SuggestBullets(c1)[1..] == SuggestBullets(c2)[1..]
    ensures SuggestBullets(c1)[0] == SuggestBullets(c2)[0] <==>
      FirstBullet(OrDefault(c1.role, DefaultRole), OrDefault(c1.company, DefaultCompany)) ==
      FirstBullet(OrDefault(c2.role, DefaultRole), OrDefault(c2.company, DefaultCompany))
  {
    assert SuggestBullets(c1)[1..] == StandardBullets;
    assert SuggestBullets(c2)[1..] == StandardBullets;
  }

  /** The first bullet names the role right after its fixed opening, defaulting to "Role". */
  lemma FirstBulletNamesRole(ctx: SuggestContext)
    ensures var b := SuggestBullets(ctx)[0];
      var role := OrDefault(ctx.role, DefaultRole);
      |FirstBulletLead| + |role| <= |b| &&
      b[..|FirstBulletLead|] == FirstBulletLead &&
      b[|FirstBulletLead|..|FirstBulletLead| + |role|] == role
  {
    var role := OrDefault(ctx.role, DefaultRole);
    var company := OrDefault(ctx.company, DefaultCompany);
    var b := FirstBulletLead + role + (" at " + company + FirstBulletTail);
    assert SuggestBullets(ctx)[0] == b;
  }

  /** The first bullet ends with the company and the fixed closing, defaulting to "Company". */
  lemma FirstBulletNamesCompany(ctx: SuggestContext)
    ensures var b := SuggestBullets(ctx)[0];
      var tail := " at " + OrDefault(ctx.company, DefaultCompany) + FirstBulletTail;
      |tail| <= |b| && b[|b| - |tail|..] == tail
  {
    var role := OrDefault(ctx.role, DefaultRole);
    var tail := " at " + OrDefault(ctx.company, DefaultCompany) + FirstBulletTail;
    var b := (FirstBulletLead + role) + tail;
    assert SuggestBullets(ctx)[0] == b;
  }
}
