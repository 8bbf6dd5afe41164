/** The API records the two page handlers read, what they keep of them, and the keep/drop
    tests: the pipeline classifier and the long-running build filter. */
module Records {
  import opened Wrappers
  import opened Seqs
  import Text

  /** A pipeline step; steps such as `wait` have no command. */
  datatype Step = Step(command: Option<string>)

  /** A pipeline record; `repository` is `provider.settings.repository`. */
  datatype Pipeline = Pipeline(slug: string, webUrl: string, steps: seq<Step>, repository: string, name: string)

  /** What is pushed onto `allPipelines`. */
  datatype PipelineSummary = PipelineSummary(slug: string, name: string, webUrl: string, repo: string)

  datatype Creator = Creator(email: string, name: string)

  /** A build record; `startedAt` is `started_at` in milliseconds since the epoch. */
  datatype Build = Build(webUrl: string, creator: Creator, startedAt: int)

  /** What is pushed onto `longBuilds`. */
  datatype LongBuild = LongBuild(buildUrl: string, email: string, name: string)

  /** The first-step command of a pipeline whose steps come from its repository's YAML. */
  const UploadCommand := "buildkite-agent pipeline upload"

  const GitHubPrefix := "https://github.com/"

  /** `60e3`: milliseconds in a minute. */
  const MillisPerMinute := 60000

  /** `steps[0].command === "buildkite-agent pipeline upload"`: strict equality, not containment. */
  predicate UsesYaml(p: Pipeline)
    requires |p.steps| > 0
  {
    p.steps[0].command == Some(UploadCommand)
  }

  /** The pipelines the classifier reports: at least one step, and not YAML-driven. */
  predicate IsUnconverted(p: Pipeline)
  {
    |p.steps| > 0 && !UsesYaml(p)
  }

  function Summarize(p: Pipeline): PipelineSummary
  {
    PipelineSummary(p.slug, Text.Trim(p.name), p.webUrl, GitHubPrefix + p.repository)
  }

  /** What the pipeline handler appends for a sequence of pipeline records. */
  function Unconverted(ps: seq<Pipeline>): seq<PipelineSummary>
  {
    FilterMap(ps, IsUnconverted, Summarize)
  }

  /** `elapsed > MINUTES * 60e3` with `elapsed = now - started_at`. */
  predicate IsLongRunning(b: Build, now: int, minutes: nat)
  {
    now - b.startedAt > minutes * MillisPerMinute
  }

  function ToLongBuild(b: Build): LongBuild
  {
    LongBuild(b.webUrl, b.creator.email, b.creator.name)
  }

  /** What the build handler appends for a sequence of build records. */
  function LongRunning(bs: seq<Build>, now: int, minutes: nat): seq<LongBuild>
  {
    FilterMap(bs, LongRunningTest(now, minutes), ToLongBuild)
  }

  /** The build handler's test, for the `now` and threshold of one run. */
  function LongRunningTest(now: int, minutes: nat): Build -> bool
  {
    (b: Build) => IsLongRunning(b, now, minutes)
  }

  /** A pipeline without steps leaves the output as if it were not there. */
  lemma EmptyStepsDropped(before: seq<Pipeline>, p: Pipeline, after: seq<Pipeline>)
    requires |p.steps| == 0
    ensures Unconverted(before + [p] + after) == Unconverted(before + after)
  {
    FilterMapSplit(before, p, after, IsUnconverted, Summarize);
    FilterMapAppend(before, after, IsUnconverted, Summarize);
  }

  /** A pipeline whose first command is exactly the upload command leaves the output as if
      it were not there. */
  lemma UploadPipelineDropped(before: seq<Pipeline>, p: Pipeline, after: seq<Pipeline>)
    requires |p.steps| > 0 && p.steps[0].command == Some(UploadCommand)
    ensures Unconverted(before + [p] + after) == Unconverted(before + after)
  {
    FilterMapSplit(before, p, after, IsUnconverted, Summarize);
    FilterMapAppend(before, after, IsUnconverted, Summarize);
  }

  /** Every other pipeline contributes exactly one summary, at its own place in the order:
      trimmed name, GitHub URL of its repository, slug and web URL as they were. */
  lemma OtherPipelineKept(before: seq<Pipeline>, p: Pipeline, after: seq<Pipeline>)
    requires |p.steps| > 0 && p.steps[0].command != Some(UploadCommand)
    ensures Unconverted(before + [p] + after)
            == Unconverted(before)
               + [PipelineSummary(p.slug, Text.Trim(p.name), p.webUrl, "https://github.com/" + p.repository)]
               + Unconverted(after)
  {
    FilterMapSplit(before, p, after, IsUnconverted, Summarize);
  }

  /** A summary is in the output exactly when some reported pipeline produced it. */
  lemma UnconvertedMembers(ps: seq<Pipeline>, s: PipelineSummary)
    ensures s in Unconverted(ps) <==> exists i :: 0 <= i < |ps| && IsUnconverted(ps[i]) && s == Summarize(ps[i])
  {
    if s in Unconverted(ps) {
      FilterMapOrigin(ps, s, IsUnconverted, Summarize);
    }
    if exists i :: 0 <= i < |ps| && IsUnconverted(ps[i]) && s == Summarize(ps[i]) {
      var i :| 0 <= i < |ps| && IsUnconverted(ps[i]) && s == Summarize(ps[i]);
      FilterMapKeeps(ps, i, IsUnconverted, Summarize);
    }
  }

  /** Records arriving on several pages are classified as if they had come on one. */
  lemma UnconvertedAcrossPages(pages: seq<seq<Pipeline>>, page: seq<Pipeline>)
    ensures Unconverted(Flatten(pages + [page])) == Unconverted(Flatten(pages)) + Unconverted(page)
  {
    FlattenSnoc(pages, page);
    FilterMapAppend(Flatten(pages), page, IsUnconverted, Summarize);
  }

  /** Builds arriving on several pages are filtered as if they had come on one. */
  lemma LongRunningAcrossPages(pages: seq<seq<Build>>, page: seq<Build>, now: int, minutes: nat)
    ensures LongRunning(Flatten(pages + [page]), now, minutes) == LongRunning(Flatten(pages), now, minutes) + LongRunning(page, now, minutes)
  {
    FlattenSnoc(pages, page);
    FilterMapAppend(Flatten(pages), page, LongRunningTest(now, minutes), ToLongBuild);
  }

  /** A command that merely starts with the upload command is not the upload command. */
  lemma UploadWithArgumentsKept(p: Pipeline, suffix: string)
    requires |p.steps| > 0 && suffix != "" && p.steps[0].command == Some(UploadCommand + suffix)
    ensures IsUnconverted(p)
  {
    assert |UploadCommand| < |UploadCommand + suffix|;
  }

  lemma RepoOneTrimmed()
    ensures Text.Trim(" Repo One ") == "Repo One"
  {
    var name := "Repo One";
    assert name[0] == 'R' && name[|name| - 1] == 'e';
    assert Text.AllWhiteSpace(" ");
    assert " Repo One " == " " + name + " ";
    Text.TrimPadded(" ", name, " ");
  }

  /** The pipeline `" Repo One "` with a `make build` step on `org/repo1` is reported as
      `Repo One` with repository URL `https://github.com/org/repo1`. */
  lemma SamplePipelineSummary(slug: string, webUrl: string)
    ensures var p := Pipeline(slug, webUrl, [Step(Some("make build"))], "org/repo1", " Repo One ");
            IsUnconverted(p) && Summarize(p) == PipelineSummary(slug, "Repo One", webUrl, "https://github.com/org/repo1")
  {
    RepoOneTrimmed();
    assert "make build"[0] != UploadCommand[0];
    assert "https://github.com/" + "org/repo1" == "https://github.com/org/repo1";
  }

  /** A build contributes one entry, with its URL and creator verbatim, exactly when it has
      run for strictly longer than the threshold; copies are not merged. */
  lemma BuildContribution(before: seq<Build>, b: Build, after: seq<Build>, now: int, minutes: nat)
    ensures LongRunning(before + [b] + after, now, minutes)
            == LongRunning(before, now, minutes)
               + (if now - b.startedAt > minutes * 60000 then [LongBuild(b.webUrl, b.creator.email, b.creator.name)] else [])
               + LongRunning(after, now, minutes)
  {
    FilterMapSplit(before, b, after, LongRunningTest(now, minutes), ToLongBuild);
  }

  /** A build that has run for exactly the threshold is not long-running. */
  lemma ThresholdIsStrict(before: seq<Build>, b: Build, after: seq<Build>, now: int, minutes: nat)
    requires now - b.startedAt == minutes * 60000
    ensures LongRunning(before + [b] + after, now, minutes) == LongRunning(before + after, now, minutes)
  {
    BuildContribution(before, b, after, now, minutes);
    FilterMapAppend(before, after, LongRunningTest(now, minutes), ToLongBuild);
  }

  /** Raising the threshold never adds builds. */
  lemma {:induction false} HigherThresholdFewerBuilds(bs: seq<Build>, now: int, low: nat, high: nat)
    requires low <= high
    ensures |LongRunning(bs, now, high)| <= |LongRunning(bs, now, low)|
  {
    if bs != [] {
      assert low * MillisPerMinute <= high * MillisPerMinute;
      HigherThresholdFewerBuilds(bs[1..], now, low, high);
    }
  }

  /** A build started 90 minutes ago is long-running with a 60-minute threshold and not with
      a 120-minute one. */
  lemma SampleBuild(now: int)
    ensures var b := Build("u", Creator("a@x.com", "A"), now - 90 * 60000);
            LongRunning([b], now, 60) == [LongBuild("u", "a@x.com", "A")]
            && LongRunning([b], now, 120) == []
  {
  }
}
