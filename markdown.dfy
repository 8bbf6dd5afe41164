/** The Markdown report: a heading and one bullet per long-running build, then a heading
    and one bullet per unconverted pipeline, built by appending to one string. */
module Markdown {
  import opened Seqs
  import opened Records

  const BuildsHeading := "\n## long-running builds\n\n"
  const ReposHeading := "\n## unconverted repos\n\n"

  /** `* {build_url} ([{name}](mailto:{email}))` */
  function BuildBullet(b: LongBuild): string
  {
    "* " + b.buildUrl + " ([" + b.name + "](mailto:" + b.email + "))"
  }

  /** `* **[{name}]({repo})** - [pipeline]({web_url})` */
  function PipelineBullet(p: PipelineSummary): string
  {
    "* **[" + p.name + "](" + p.repo + ")** - [pipeline](" + p.webUrl + ")"
  }

  /** A line of text with its terminating newline. */
  function Line(text: string): string
  {
    text + "\n"
  }

  function BuildLine(b: LongBuild): string
  {
    Line(BuildBullet(b))
  }

  function PipelineLine(p: PipelineSummary): string
  {
    Line(PipelineBullet(p))
  }

  /** The report text for the two accumulated lists. */
  function Document(longBuilds: seq<LongBuild>, pipelines: seq<PipelineSummary>): string
  {
    BuildsHeading + ConcatMap(longBuilds, BuildLine) + ReposHeading + ConcatMap(pipelines, PipelineLine)
  }

  /** `md += ...` over both lists, each in its own order. */
  method Render(longBuilds: seq<LongBuild>, pipelines: seq<PipelineSummary>) returns (md: string)
    ensures md == Document(longBuilds, pipelines)
  {
    md := "";
    md := md + BuildsHeading;
    for i := 0 to |longBuilds|
      invariant md == BuildsHeading + ConcatMap(longBuilds[..i], BuildLine)
    {
      ConcatMapStep(BuildsHeading, longBuilds, i, BuildLine);
      md := md + BuildLine(longBuilds[i]);
    }
    assert longBuilds[..|longBuilds|] == longBuilds;
    md := md + ReposHeading;
    ghost var top := md;
    for i := 0 to |pipelines|
      invariant md == top + ConcatMap(pipelines[..i], PipelineLine)
    {
      ConcatMapStep(top, pipelines, i, PipelineLine);
      md := md + PipelineLine(pipelines[i]);
    }
    assert pipelines[..|pipelines|] == pipelines;
  }

  /** `s.split("\n")`: the pieces between newlines, including the one after the last. */
  function SplitLines(s: string): (ls: seq<string>)
    ensures |ls| >= 1
  {
    if s == [] then [""]
    else
      var rest := SplitLines(s[1..]);
      if s[0] == '\n' then [""] + rest else [[s[0]] + rest[0]] + rest[1..]
  }

  /** Each of `ls` followed by a newline. */
  function JoinLines(ls: seq<string>): string
  {
    ConcatMap(ls, Line)
  }

  predicate SingleLine(s: string)
  {
    forall i :: 0 <= i < |s| ==> s[i] != '\n'
  }

  lemma SingleLineConcat(a: string, b: string)
    requires SingleLine(a) && SingleLine(b)
    ensures SingleLine(a + b)
  {
    forall i | 0 <= i < |a + b|
      ensures (a + b)[i] != '\n'
    {
      if i >= |a| {
        assert (a + b)[i] == b[i - |a|];
      }
    }
  }

  predicate SingleLineBuild(b: LongBuild)
  {
    SingleLine(b.buildUrl) && SingleLine(b.name) && SingleLine(b.email)
  }

  predicate SingleLinePipeline(p: PipelineSummary)
  {
    SingleLine(p.name) && SingleLine(p.repo) && SingleLine(p.webUrl)
  }

  lemma {:induction false} SplitFirstLine(l: string, rest: string)
    requires SingleLine(l)
    ensures SplitLines(Line(l) + rest) == [l] + SplitLines(rest)
  {
    var s := Line(l) + rest;
    if l == [] {
      assert s == "\n" + rest;
      assert s[1..] == rest;
    } else {
      assert s[0] == l[0] && s[1..] == Line(l[1..]) + rest;
      SplitFirstLine(l[1..], rest);
      assert [l[0]] + l[1..] == l;
    }
  }

  /** Splitting joined lines gives the lines back, and the empty piece after the last newline. */
  lemma {:induction false} SplitJoin(ls: seq<string>)
    requires AllSingleLine(ls)
    ensures SplitLines(JoinLines(ls)) == ls + [""]
  {
    if ls != [] {
      assert JoinLines(ls) == Line(ls[0]) + JoinLines(ls[1..]);
      SplitFirstLine(ls[0], JoinLines(ls[1..]));
      SplitJoin(ls[1..]);
      assert ls == [ls[0]] + ls[1..];
    }
  }

  lemma {:induction false} BuildLinesJoin(bs: seq<LongBuild>)
    ensures ConcatMap(bs, BuildLine) == JoinLines(Map(bs, BuildBullet))
  {
    if bs != [] {
      BuildLinesJoin(bs[1..]);
      assert Map(bs, BuildBullet) == [BuildBullet(bs[0])] + Map(bs[1..], BuildBullet);
    }
  }

  lemma {:induction false} PipelineLinesJoin(ps: seq<PipelineSummary>)
    ensures ConcatMap(ps, PipelineLine) == JoinLines(Map(ps, PipelineBullet))
  {
    if ps != [] {
      PipelineLinesJoin(ps[1..]);
      assert Map(ps, PipelineBullet) == [PipelineBullet(ps[0])] + Map(ps[1..], PipelineBullet);
    }
  }

  lemma HeadingLines()
    ensures BuildsHeading == JoinLines(["", "## long-running builds", ""])
    ensures ReposHeading == JoinLines(["", "## unconverted repos", ""])
  {
    var h1 := ["", "## long-running builds", ""];
    assert JoinLines(h1) == Line(h1[0]) + JoinLines(h1[1..]);
    assert JoinLines(h1[1..]) == Line(h1[1]) + JoinLines(h1[2..]);
    assert JoinLines(h1[2..]) == Line(h1[2]) + JoinLines([]);
    var h2 := ["", "## unconverted repos", ""];
    assert JoinLines(h2) == Line(h2[0]) + JoinLines(h2[1..]);
    assert JoinLines(h2[1..]) == Line(h2[1]) + JoinLines(h2[2..]);
    assert JoinLines(h2[2..]) == Line(h2[2]) + JoinLines([]);
  }

  predicate AllSingleLine(ls: seq<string>)
  {
    forall i :: 0 <= i < |ls| ==> SingleLine(ls[i])
  }

  lemma AllSingleLineAppend(a: seq<string>, b: seq<string>)
    requires AllSingleLine(a) && AllSingleLine(b)
    ensures AllSingleLine(a + b)
  {
    forall i | 0 <= i < |a + b|
      ensures SingleLine((a + b)[i])
    {
      if i >= |a| {
        assert (a + b)[i] == b[i - |a|];
      }
    }
  }

  lemma BuildBulletSingleLine(b: LongBuild)
    requires SingleLineBuild(b)
    ensures SingleLine(BuildBullet(b))
  {
    SingleLineConcat("* ", b.buildUrl);
    SingleLineConcat("* " + b.buildUrl, " ([");
    SingleLineConcat("* " + b.buildUrl + " ([", b.name);
    SingleLineConcat("* " + b.buildUrl + " ([" + b.name, "](mailto:");
    SingleLineConcat("* " + b.buildUrl + " ([" + b.name + "](mailto:", b.email);
    SingleLineConcat("* " + b.buildUrl + " ([" + b.name + "](mailto:" + b.email, "))");
  }

  lemma PipelineBulletSingleLine(p: PipelineSummary)
    requires SingleLinePipeline(p)
    ensures SingleLine(PipelineBullet(p))
  {
    SingleLineConcat("* **[", p.name);
    SingleLineConcat("* **[" + p.name, "](");
    SingleLineConcat("* **[" + p.name + "](", p.repo);
    SingleLineConcat("* **[" + p.name + "](" + p.repo, ")** - [pipeline](");
    SingleLineConcat("* **[" + p.name + "](" + p.repo + ")** - [pipeline](", p.webUrl);
    SingleLineConcat("* **[" + p.name + "](" + p.repo + ")** - [pipeline](" + p.webUrl, ")");
  }

  lemma BuildBulletsSingleLine(bs: seq<LongBuild>)
    requires forall i :: 0 <= i < |bs| ==> SingleLineBuild(bs[i])
    ensures AllSingleLine(Map(bs, BuildBullet))
  {
    forall i | 0 <= i < |bs|
      ensures SingleLine(BuildBullet(bs[i]))
    {
      BuildBulletSingleLine(bs[i]);
    }
  }

  lemma PipelineBulletsSingleLine(ps: seq<PipelineSummary>)
    requires forall i :: 0 <= i < |ps| ==> SingleLinePipeline(ps[i])
    ensures AllSingleLine(Map(ps, PipelineBullet))
  {
    forall i | 0 <= i < |ps|
      ensures SingleLine(PipelineBullet(ps[i]))
    {
      PipelineBulletSingleLine(ps[i]);
    }
  }

  /** The report is the join of its headings and bullets. */
  lemma DocumentJoined(longBuilds: seq<LongBuild>, pipelines: seq<PipelineSummary>)
    ensures Document(longBuilds, pipelines)
            == JoinLines(["", "## long-running builds", ""] + Map(longBuilds, BuildBullet)
                         + ["", "## unconverted repos", ""] + Map(pipelines, PipelineBullet))
  {
    var h1, h2 := ["", "## long-running builds", ""], ["", "## unconverted repos", ""];
    var bl, pl := Map(longBuilds, BuildBullet), Map(pipelines, PipelineBullet);
    HeadingLines();
    BuildLinesJoin(longBuilds);
    PipelineLinesJoin(pipelines);
    ConcatMapAppend(h1, bl, Line);
    ConcatMapAppend(h1 + bl, h2, Line);
    ConcatMapAppend(h1 + bl + h2, pl, Line);
  }

  /** The report, read line by line: an empty line, the builds heading, an empty line, one
      bullet per long-running build in order, an empty line, the repos heading, an empty line,
      one bullet per pipeline in order, and nothing after the final newline. */
  lemma DocumentLines(longBuilds: seq<LongBuild>, pipelines: seq<PipelineSummary>)
    requires forall i :: 0 <= i < |longBuilds| ==> SingleLineBuild(longBuilds[i])
    requires forall i :: 0 <= i < |pipelines| ==> SingleLinePipeline(pipelines[i])
    ensures SplitLines(Document(longBuilds, pipelines))
            == ["", "## long-running builds", ""] + Map(longBuilds, BuildBullet)
               + ["", "## unconverted repos", ""] + Map(pipelines, PipelineBullet) + [""]
  {
    var h1, h2 := ["", "## long-running builds", ""], ["", "## unconverted repos", ""];
    var bl, pl := Map(longBuilds, BuildBullet), Map(pipelines, PipelineBullet);
    DocumentJoined(longBuilds, pipelines);
    assert AllSingleLine(h1) && AllSingleLine(h2);
    BuildBulletsSingleLine(longBuilds);
    PipelineBulletsSingleLine(pipelines);
    AllSingleLineAppend(h1, bl);
    AllSingleLineAppend(h1 + bl, h2);
    AllSingleLineAppend(h1 + bl + h2, pl);
    SplitJoin(h1 + bl + h2 + pl);
  }
}
