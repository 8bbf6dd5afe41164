/** The run `go()`: page through the organisation's pipelines and classify them, page through
    its running builds and filter them, then render the report that is written to disk. */
module Run {
  import opened Wrappers
  import opened Seqs
  import opened Paging
  import opened Records
  import opened Markdown
  import Text

  const Root := "https://api.buildkite.com/v2"

  function PipelinesUrl(org: string): string
  {
    Root + "/organizations/" + org + "/pipelines"
  }

  function BuildsUrl(org: string): string
  {
    Root + "/organizations/" + org + "/builds"
  }

  /** The builds endpoint is asked only for builds in the `running` state. */
  const RunningQuery: Query := map["state" := Str("running")]

  /** The two lists the page handlers push onto. */
  class Results {
    var allPipelines: seq<PipelineSummary>
    var longBuilds: seq<LongBuild>

    constructor ()
      ensures allPipelines == [] && longBuilds == []
    {
      allPipelines := [];
      longBuilds := [];
    }

    /** The pipeline page handler: skip pipelines without steps, skip those whose first
        command is the upload command, push a summary of every other one. */
    method AddPipelines(pipelines: seq<Pipeline>)
      modifies this
      ensures allPipelines == old(allPipelines) + Unconverted(pipelines)
      ensures longBuilds == old(longBuilds)
    {
      for i := 0 to |pipelines|
        invariant allPipelines == old(allPipelines) + Unconverted(pipelines[..i])
        invariant longBuilds == old(longBuilds)
      {
        var pipeline := pipelines[i];
        FilterMapStep(pipelines, i, IsUnconverted, Summarize);
        var repo := GitHubPrefix + pipeline.repository;
        if |pipeline.steps| == 0 {
          continue;
        }
        var usesYaml := pipeline.steps[0].command == Some(UploadCommand);
        if !usesYaml {
          allPipelines := allPipelines + [PipelineSummary(pipeline.slug, Text.Trim(pipeline.name), pipeline.webUrl, repo)];
        }
      }
      assert pipelines[..|pipelines|] == pipelines;
    }

    /** The running-build page handler: push every build that has run for longer than
        `minutes` minutes at time `now`. */
    method AddLongBuilds(builds: seq<Build>, now: int, minutes: nat)
      modifies this
      ensures longBuilds == old(longBuilds) + LongRunning(builds, now, minutes)
      ensures allPipelines == old(allPipelines)
    {
      for i := 0 to |builds|
        invariant longBuilds == old(longBuilds) + LongRunning(builds[..i], now, minutes)
        invariant allPipelines == old(allPipelines)
      {
        var build := builds[i];
        FilterMapStep(builds, i, LongRunningTest(now, minutes), ToLongBuild);
        var elapsed := now - build.startedAt;
        if elapsed > minutes * MillisPerMinute {
          longBuilds := longBuilds + [LongBuild(build.webUrl, build.creator.email, build.creator.name)];
        }
      }
      assert builds[..|builds|] == builds;
    }
  }

  /** The text written to the output file, or None when a request rejects and the run ends
      without writing anything. */
  function WrittenReport(pipelineReplies: seq<Reply<Pipeline>>, buildReplies: seq<Reply<Build>>, now: int, minutes: nat): Option<string>
  {
    if Completes(pipelineReplies) && Completes(buildReplies) then
      Some(Document(LongRunning(Flatten(Handled(buildReplies)), now, minutes), Unconverted(Flatten(Handled(pipelineReplies)))))
    else
      None
  }

  /** `go()`, with the server's replies to the two paginations, the clock reading and the
      threshold as inputs; it returns every request made and the report text. */
  method Go(org: string, pipelineReplies: seq<Reply<Pipeline>>, buildReplies: seq<Reply<Build>>, now: int, minutes: nat)
    returns (requests: seq<Request>, report: Option<string>)
    ensures requests == Issued(PipelinesUrl(org), map[], pipelineReplies)
                        + (if Completes(pipelineReplies) then Issued(BuildsUrl(org), RunningQuery, buildReplies) else [])
    ensures report == WrittenReport(pipelineReplies, buildReplies, now, minutes)
  {
    var results := new Results();

    var pipelineRequests, pipelineCalls, pipelineOutcome := PagedGet(PipelinesUrl(org), map[], pipelineReplies);
    ghost var pipelinePages := Handled(pipelineReplies);
    for k := 0 to |pipelineCalls|
      invariant results.allPipelines == Unconverted(Flatten(pipelinePages[..k]))
      invariant results.longBuilds == []
    {
      UnconvertedAcrossPages(pipelinePages[..k], pipelinePages[k]);
      assert pipelinePages[..k + 1] == pipelinePages[..k] + [pipelinePages[k]];
      results.AddPipelines(pipelineCalls[k].data);
    }
    assert pipelinePages[..|pipelineCalls|] == pipelinePages;
    requests := pipelineRequests;
    if pipelineOutcome == Failed {
      return requests, None;
    }

    var buildRequests, buildCalls, buildOutcome := PagedGet(BuildsUrl(org), RunningQuery, buildReplies);
    ghost var buildPages := Handled(buildReplies);
    for k := 0 to |buildCalls|
      invariant results.longBuilds == LongRunning(Flatten(buildPages[..k]), now, minutes)
      invariant results.allPipelines == Unconverted(Flatten(pipelinePages))
    {
      LongRunningAcrossPages(buildPages[..k], buildPages[k], now, minutes);
      assert buildPages[..k + 1] == buildPages[..k] + [buildPages[k]];
      results.AddLongBuilds(buildCalls[k].data, now, minutes);
    }
    assert buildPages[..|buildCalls|] == buildPages;
    requests := requests + buildRequests;
    if buildOutcome == Failed {
      return requests, None;
    }

    var md := Render(results.longBuilds, results.allPipelines);
    report := Some(md);
  }

  /** Once both paginations have ended normally, replies the server would have sent after
      the stopping ones change nothing in the report. */
  lemma ReportIgnoresLaterReplies(pipelineReplies: seq<Reply<Pipeline>>, buildReplies: seq<Reply<Build>>,
                                  laterPipelines: seq<Reply<Pipeline>>, laterBuilds: seq<Reply<Build>>,
                                  now: int, minutes: nat)
    requires Completes(pipelineReplies) && Completes(buildReplies)
    ensures WrittenReport(pipelineReplies + laterPipelines, buildReplies + laterBuilds, now, minutes)
            == WrittenReport(pipelineReplies, buildReplies, now, minutes)
  {
    LaterRepliesIgnored(pipelineReplies, laterPipelines);
    LaterRepliesIgnored(buildReplies, laterBuilds);
  }
}
