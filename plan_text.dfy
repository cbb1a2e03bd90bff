/** The plain-text export of an MVP plan (`planToText` in
    components/MVPResult.tsx): a title line, then seven sections in a fixed
    order, each a heading line and a body, separated by blank lines. */
module PlanText {
  import opened Types
  import opened Text

  /** One list item as the export writes it (`- ${item}`). */
  function Bullet(item: string): string
  {
    "- " + item
  }

  /** Every item made a bullet, one for one and in order (`items.map(...)`). */
  function Bulleted(items: seq<string>): (r: seq<string>)
    ensures |r| == |items|
    ensures forall i :: 0 <= i < |items| ==> r[i] == Bullet(items[i])
  {
    if items == [] then [] else [Bullet(items[0])] + Bulleted(items[1..])
  }

  /** A list section's body: the bullets joined by line breaks
      (`.map(f => `- ${f}`).join('\n')`). */
  function Bullets(items: seq<string>): string
  {
    Join(Bulleted(items), "\n")
  }

  /** Reading a list body back: one item per line, with the bullet marker
      taken off; the empty body is the empty list. */
  function ParseBullets(body: string): seq<string>
  {
    if body == "" then [] else Unbulleted(Split(body, '\n'))
  }

  function Unbulleted(lines: seq<string>): (r: seq<string>)
    ensures |r| == |lines|
    ensures forall i :: 0 <= i < |lines| ==> r[i] == if |lines[i]| >= 2 && lines[i][..2] == "- " then lines[i][2..] else lines[i]
  {
    if lines == [] then []
    else
      var l := lines[0];
      [if |l| >= 2 && l[..2] == "- " then l[2..] else l] + Unbulleted(lines[1..])
  }

  /** A list body keeps every item, in order and unchanged: reading it back
      gives the list again, as long as no item holds a line break. The empty
      list gives the empty body, and only it does. */
  lemma {:induction false} BulletsRoundTrip(items: seq<string>)
    requires forall i :: 0 <= i < |items| ==> '\n' !in items[i]
    ensures ParseBullets(Bullets(items)) == items
    ensures Bullets(items) == "" <==> items == []
  {
    var lines := Bulleted(items);
    if items != [] {
      forall i | 0 <= i < |lines|
        ensures '\n' !in lines[i]
      {
        assert lines[i] == "- " + items[i];
      }
      SplitJoin(lines, '\n');
      JoinPlacement(lines, "\n", 0);
      assert Bullets(items) != "";
      var back := Unbulleted(Split(Bullets(items), '\n'));
      forall i | 0 <= i < |items|
        ensures back[i] == items[i]
      {
        assert lines[i][..2] == "- ";
        assert lines[i][2..] == items[i];
      }
    }
  }

  /** The last item of a non-empty list body ends it. */
  lemma BulletsEnd(items: seq<string>)
    requires items != []
    ensures var b := Bullets(items); var last := Bullet(items[|items| - 1]);
      |last| <= |b| && b[|b| - |last|..] == last
  {
    JoinPlacement(Bulleted(items), "\n", |items| - 1);
  }

  /** The tech stack body: three lines, frontend, backend and database. */
  function TechStackBody(t: TechStack): string
  {
    "- Frontend: " + t.frontend + "\n- Backend: " + t.backend + "\n- Database: " + t.database
  }

  /** The tech stack body is exactly those three lines, in that order, as
      long as the three names hold no line break. */
  lemma TechStackLines(t: TechStack)
    requires '\n' !in t.frontend && '\n' !in t.backend && '\n' !in t.database
    ensures Split(TechStackBody(t), '\n') ==
      ["- Frontend: " + t.frontend, "- Backend: " + t.backend, "- Database: " + t.database]
  {
    var p0 := "- Frontend: " + t.frontend;
    var p1 := "- Backend: " + t.backend;
    var p2 := "- Database: " + t.database;
    assert '\n' !in p0 && '\n' !in p1 && '\n' !in p2;
    assert TechStackBody(t) == p0 + ['\n'] + (p1 + ['\n'] + p2);
    SplitWithout(p2, '\n');
    SplitAtFirst(p1, p2, '\n');
    SplitAtFirst(p0, p1 + ['\n'] + p2, '\n');
  }

  /** The seven section headings, in the order the export writes them. */
  const SECTION_HEADINGS: seq<string> :=
    ["Summary", "Core Features", "User Personas", "Tech Stack", "User Stories",
     "Monetization Strategies", "Success Metrics"]

  /** The seven section bodies, in heading order. */
  function SectionBodies(p: MVPPlan): seq<string>
  {
    [p.summary, Bullets(p.coreFeatures), Bullets(p.userPersonas), TechStackBody(p.techStack),
     Bullets(p.userStories), Bullets(p.monetizationStrategies), Bullets(p.successMetrics)]
  }

  /** A section: its heading line, then its body. */
  function Section(heading: string, body: string): string
  {
    heading + ":\n" + body
  }

  function Sections(p: MVPPlan): seq<string>
  {
    seq(7, i requires 0 <= i < 7 => Section(SECTION_HEADINGS[i], SectionBodies(p)[i]))
  }

  /** The title line and the blank line after it. */
  function Title(p: MVPPlan): string
  {
    "MVP Plan for: " + p.projectName + "\n\n"
  }

  /** The whole export: the title, then the sections with one blank line
      between neighbours and nothing after the last. */
  function PlanText(p: MVPPlan): string
  {
    Title(p) + Join(Sections(p), "\n\n")
  }

  /** Where section `i` starts in the export. */
  function SectionStart(p: MVPPlan, i: nat): nat
    requires i < 7
  {
    |Title(p)| + JoinStart(Sections(p), "\n\n", i)
  }

  /** The layout of the export: it opens with the title; section `i` sits at
      `SectionStart(p, i)` and begins with heading `i`; every section but the
      last is followed by one blank line and then the next section; the last
      one ends the text. */
  lemma PlanLayout(p: MVPPlan, i: nat)
    requires i < 7
    ensures var t := PlanText(p); var s := SectionStart(p, i);
      var sec := Section(SECTION_HEADINGS[i], SectionBodies(p)[i]);
      && t[..|Title(p)|] == Title(p)
      && s + |sec| <= |t|
      && t[s..s + |sec|] == sec
      && (i < 6 ==> s + |sec| + 2 <= |t| && t[s + |sec|..s + |sec| + 2] == "\n\n" && SectionStart(p, i + 1) == s + |sec| + 2)
      && (i == 6 ==> s + |sec| == |t|)
  {
    var j := Join(Sections(p), "\n\n");
    JoinPlacement(Sections(p), "\n\n", i);
    var t := PlanText(p);
    assert t[|Title(p)|..] == j;
  }

  /** An empty list leaves nothing between its heading line and what comes
      next. */
  lemma EmptyListSection(p: MVPPlan, i: nat)
    requires i in {1, 2, 4, 5, 6}
    requires i == 1 ==> p.coreFeatures == []
    requires i == 2 ==> p.userPersonas == []
    requires i == 4 ==> p.userStories == []
    requires i == 5 ==> p.monetizationStrategies == []
    requires i == 6 ==> p.successMetrics == []
    ensures Section(SECTION_HEADINGS[i], SectionBodies(p)[i]) == SECTION_HEADINGS[i] + ":\n"
  {
  }

  /** The export ends with the last success metric, with no trailing blank
      line. */
  lemma PlanEndsWithLastMetric(p: MVPPlan)
    requires p.successMetrics != []
    ensures var t := PlanText(p); var last := Bullet(p.successMetrics[|p.successMetrics| - 1]);
      |last| <= |t| && t[|t| - |last|..] == last
  {
    PlanLayout(p, 6);
    BulletsEnd(p.successMetrics);
    var t := PlanText(p);
    var sec := Section(SECTION_HEADINGS[6], SectionBodies(p)[6]);
    var s := SectionStart(p, 6);
    assert t[s..] == sec;
  }

  /** Section `k` is `heading + body`. */
  predicate SectionIs(p: MVPPlan, k: nat, heading: string, body: string)
    requires k < 7
  {
    |Sections(p)| == 7 && Sections(p)[k] == heading + body
  }

  /** The seven sections written out. */
  lemma SectionsWritten(p: MVPPlan)
    ensures |Sections(p)| == 7
    ensures Sections(p)[0] == "Summary:\n" + p.summary
    ensures Sections(p)[1] == "Core Features:\n" + Bullets(p.coreFeatures)
    ensures Sections(p)[2] == "User Personas:\n" + Bullets(p.userPersonas)
    ensures Sections(p)[3] == "Tech Stack:\n" + TechStackBody(p.techStack)
    ensures Sections(p)[4] == "User Stories:\n" + Bullets(p.userStories)
    ensures Sections(p)[5] == "Monetization Strategies:\n" + Bullets(p.monetizationStrategies)
    ensures Sections(p)[6] == "Success Metrics:\n" + Bullets(p.successMetrics)
  {
  }

  /** Appending section `k` and a separator to the text built so far. */
  lemma AppendSection(p: MVPPlan, k: nat, before: string, heading: string, body: string, sep: string)
    requires 0 < k < 7
    requires sep == "\n\n"
    requires SectionIs(p, k, heading, body)
    requires before == Title(p) + Join(Sections(p)[..k], sep) + sep
    ensures before + heading + body == Title(p) + Join(Sections(p)[..k + 1], sep)
  {
    JoinPrefixStep(Sections(p), sep, k);
  }

  /** `planToText` as the code runs it: eight appends to one text. */
  method PlanToText(plan: MVPPlan) returns (text: string)
    ensures text == PlanText(plan)
  {
    ghost var sep := "\n\n";
    text := "MVP Plan for: " + plan.projectName + "\n\n";
    text := text + "Summary:\n" + plan.summary + "\n\n";
    SectionsWritten(plan);
    assert text == Title(plan) + Join(Sections(plan)[..1], sep) + sep;
    AppendSection(plan, 1, text, "Core Features:\n", Bullets(plan.coreFeatures), sep);
    text := text + "Core Features:\n" + Bullets(plan.coreFeatures) + "\n\n";
    AppendSection(plan, 2, text, "User Personas:\n", Bullets(plan.userPersonas), sep);
    text := text + "User Personas:\n" + Bullets(plan.userPersonas) + "\n\n";
    AppendSection(plan, 3, text, "Tech Stack:\n", TechStackBody(plan.techStack), sep);
    text := text + "Tech Stack:\n" + TechStackBody(plan.techStack) + "\n\n";
    AppendSection(plan, 4, text, "User Stories:\n", Bullets(plan.userStories), sep);
    text := text + "User Stories:\n" + Bullets(plan.userStories) + "\n\n";
    AppendSection(plan, 5, text, "Monetization Strategies:\n", Bullets(plan.monetizationStrategies), sep);
    text := text + "Monetization Strategies:\n" + Bullets(plan.monetizationStrategies) + "\n\n";
    AppendSection(plan, 6, text, "Success Metrics:\n", Bullets(plan.successMetrics), sep);
    text := text + "Success Metrics:\n" + Bullets(plan.successMetrics);
    assert Sections(plan)[..7] == Sections(plan);
  }
}
