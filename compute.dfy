/** internal/compute/compute.go: building the Cloud Run RunJob request and handing
    it to the Jobs client, whose answer is an oracle. */
module Compute {
  import opened Wrappers
  import Paths

  datatype ContainerOverride = ContainerOverride(args: seq<string>)

  datatype Overrides = Overrides(containerOverrides: seq<ContainerOverride>, taskCount: int)

  datatype RunJobRequest = RunJobRequest(name: string, overrides: Overrides)

  /** fmt.Sprintf(JOB_PREFIX, projectId, region, jobName) with
      JOB_PREFIX = "projects/%s/locations/%s/jobs/%s". */
  function JobResourceName(projectId: string, region: string, jobName: string): string
  {
    "projects/" + projectId + "/locations/" + region + "/jobs/" + jobName
  }

  /** The request TriggerFileStreamerJob sends: one container override carrying
      the arguments, one task. */
  function NewRunJobRequest(projectId: string, region: string, jobName: string, args: seq<string>): RunJobRequest
  {
    RunJobRequest(JobResourceName(projectId, region, jobName),
                  Overrides([ContainerOverride(args)], 1))
  }

  /** TriggerFileStreamerJob: the error of RunJob is returned unchanged, nil on success. */
  function TriggerFileStreamerJob(projectId: string, region: string, jobName: string,
                                  args: seq<string>, runJob: RunJobRequest -> Option<string>): (err: Option<string>)
    ensures err == runJob(NewRunJobRequest(projectId, region, jobName, args))
  {
    var request := NewRunJobRequest(projectId, region, jobName, args);
    runJob(request)
  }

  /** The request names the job under the project and region, carries exactly one
      container override whose arguments are the given ones, and runs one task. */
  lemma RunJobRequestShape(projectId: string, region: string, jobName: string, args: seq<string>)
    ensures var r := NewRunJobRequest(projectId, region, jobName, args);
      && r.name == "projects/" + projectId + "/locations/" + region + "/jobs/" + jobName
      && |r.overrides.containerOverrides| == 1
      && r.overrides.containerOverrides[0].args == args
      && r.overrides.taskCount == 1
  {
  }

  /** When project, region and job name hold no '/', the resource name splits back
      into its six segments, so the three inputs can be read off it. */
  lemma JobResourceNameSegments(projectId: string, region: string, jobName: string)
    requires '/' !in projectId && '/' !in region && '/' !in jobName
    ensures Paths.Split(JobResourceName(projectId, region, jobName), '/')
         == ["projects", projectId, "locations", region, "jobs", jobName]
  {
    var parts := ["projects", projectId, "locations", region, "jobs", jobName];
    JobResourceNameJoins(projectId, region, jobName);
    Paths.JoinThenSplit(parts, '/');
  }

  /** Joining a first piece onto a non-empty rest. */
  lemma JoinCons(p: string, rest: seq<string>)
    requires rest != []
    ensures Paths.JoinWith([p] + rest, '/') == p + "/" + Paths.JoinWith(rest, '/')
  {
    assert ([p] + rest)[1..] == rest;
  }

  /** Six pieces joined with '/'. */
  lemma JoinSix(a: string, b: string, c: string, d: string, e: string, f: string)
    ensures Paths.JoinWith([a, b, c, d, e, f], '/') == a + "/" + (b + "/" + (c + "/" + (d + "/" + (e + "/" + f))))
  {
    assert [a, b, c, d, e, f] == [a] + ([b] + ([c] + ([d] + ([e] + [f]))));
    JoinCons(e, [f]);
    JoinCons(d, [e] + [f]);
    JoinCons(c, [d] + ([e] + [f]));
    JoinCons(b, [c] + ([d] + ([e] + [f])));
    JoinCons(a, [b] + ([c] + ([d] + ([e] + [f]))));
  }

  /** The format string's pieces, regrouped. */
  lemma Regroup(projectId: string, region: string, jobName: string)
    ensures "projects" + "/" + (projectId + "/" + ("locations" + "/" + (region + "/" + ("jobs" + "/" + jobName))))
         == JobResourceName(projectId, region, jobName)
  {
    assert "projects" + "/" == "projects/";
    assert "/" + ("locations" + "/") == "/locations/";
    assert "/" + ("jobs" + "/") == "/jobs/";
  }

  /** The resource name is its six segments joined with '/'. */
  lemma JobResourceNameJoins(projectId: string, region: string, jobName: string)
    ensures Paths.JoinWith(["projects", projectId, "locations", region, "jobs", jobName], '/')
         == JobResourceName(projectId, region, jobName)
  {
    JoinSix("projects", projectId, "locations", region, "jobs", jobName);
    Regroup(projectId, region, jobName);
  }
}
