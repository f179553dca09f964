/** alpaca's CodeBuild administration: a buildspec with a fixed pip-3.6,
    the create-or-update of the fixed-name project on a fixed image, one
    build, and a poll that waits on every status except SUCCEEDED. */
module AlpacaCodeBuild {
  import opened Wrappers
  import opened Aws

  const PROJECT_NAME := "alpacaBuilder"
  const ARTIFACT_FILE := "alpaca.zip"
  const IMAGE := "irlrobot/amazonlinux1:latest"

  /** The buildspec installs the package with pip-3.6 and ships one zip;
      the package can be read back from it, so different packages give
      different buildspecs. */
  function GenerateBuildspec(package: string): (spec: BuildSpec)
    ensures InstalledPackage(spec) == Some(package)
    ensures spec.artifactFiles == [ARTIFACT_FILE]
  {
    BuildSpec(0.2, ["pip-3.6 install " + package + " -t alpaca", "cd alpaca/", "zip -r ../alpaca.zip *"], [ARTIFACT_FILE])
  }

  /** The package named in the install command, when the command has the
      shape `pip-3.6 install <package> -t alpaca`. */
  function InstalledPackage(spec: BuildSpec): (p: Option<string>)
    ensures p.Some? ==> |spec.commands| > 0 && spec.commands[0] == "pip-3.6 install " + p.value + " -t alpaca"
  {
    var prefix := "pip-3.6 install ";
    var suffix := " -t alpaca";
    if |spec.commands| == 0 then None
    else
      var c := spec.commands[0];
      if |c| >= |prefix| + |suffix| && c[..|prefix|] == prefix && c[|c| - |suffix|..] == suffix then
        var p := c[|prefix|..|c| - |suffix|];
        assert c == prefix + p + suffix;
        Some(p)
      else None
  }

  /** Version 0.2; install with pip-3.6, enter the target directory, zip it;
      one artifact file. */
  lemma BuildspecLayout(package: string)
    ensures var spec := GenerateBuildspec(package);
      && spec.version == 0.2
      && spec.commands == ["pip-3.6 install " + package + " -t alpaca", "cd alpaca/", "zip -r ../alpaca.zip *"]
      && spec.artifactFiles == ["alpaca.zip"]
  {
  }

  /** The project definition that both the create and the update request carry. */
  function ProjectParams(role: string, bucket: string, buildspec: BuildSpec): Project {
    Project(PROJECT_NAME, "NO_SOURCE", buildspec, "S3", bucket, "LINUX_CONTAINER", IMAGE, "BUILD_GENERAL1_SMALL", role)
  }

  /** Create the project; when it already exists, update it with the same
      parameters. */
  method CreateBuildProject(acct: Account, role: string, bucket: string, buildspec: BuildSpec)
    modifies acct`projects, acct`calls
    ensures acct.projects == old(acct.projects)[PROJECT_NAME := ProjectParams(role, bucket, buildspec)]
    ensures var p := ProjectParams(role, bucket, buildspec);
      acct.calls == old(acct.calls) + [Call.CreateProject(p)]
                    + (if PROJECT_NAME in old(acct.projects) then [Call.UpdateProject(p)] else [])
  {
    var p := ProjectParams(role, bucket, buildspec);
    var created := acct.CreateProject(p);
    if created == Fail(ResourceAlreadyExists(PROJECT_NAME)) {
      var updated := acct.UpdateProject(p);
    }
  }

  method DeleteBuildProject(acct: Account)
    modifies acct`projects, acct`calls
    ensures acct.projects == old(acct.projects) - {PROJECT_NAME}
    ensures acct.calls == old(acct.calls) + [Call.DeleteProject(PROJECT_NAME)]
  {
    acct.DeleteProject(PROJECT_NAME);
  }

  /** How a poll ends: SUCCEEDED, or the supplied reports ran out first
      (the tool would still be polling).  The source has no exit for a
      failed status; the crash when its recursion gets too deep is not
      modelled, so the reports stand for fewer polls than that limit. */
  datatype Wait = Completed(polls: nat) | Pending(polls: nat)

  /** The recursive poll of the source, entered at poll number `i`. */
  function WaitFrom(reports: seq<BuildReport>, i: nat): (r: Wait)
    requires i <= |reports|
    ensures i <= r.polls <= |reports|
    ensures r.Pending? ==> r.polls == |reports|
    ensures r.Completed? ==> i < r.polls && reports[r.polls - 1].status == SUCCEEDED
    decreases |reports| - i
  {
    if i == |reports| then Pending(i)
    else if reports[i].status == SUCCEEDED then Completed(i + 1)
    else WaitFrom(reports, i + 1)
  }

  /** The poll returns at the first SUCCEEDED and nowhere else: every
      earlier status, FAILED included, was waited through. */
  lemma {:induction false} WaitFromDecides(reports: seq<BuildReport>, i: nat)
    requires i <= |reports|
    ensures var r := WaitFrom(reports, i);
      && i <= r.polls <= |reports|
      && (forall j | i <= j < r.polls && (r.Pending? || j < r.polls - 1) :: reports[j].status != SUCCEEDED)
      && (r.Pending? ==> r.polls == |reports|)
      && (r.Completed? ==> i < r.polls && reports[r.polls - 1].status == SUCCEEDED)
    decreases |reports| - i
  {
    if i < |reports| && reports[i].status != SUCCEEDED {
      WaitFromDecides(reports, i + 1);
    }
  }

  /** The poll as a loop over the same build id; the sleep is a no-op. */
  method WaitForBuildToComplete(buildId: BuildId, reports: seq<BuildReport>) returns (r: Wait, polled: seq<BuildId>)
    ensures r == WaitFrom(reports, 0)
    ensures |polled| == r.polls && forall j | 0 <= j < |polled| :: polled[j] == buildId
  {
    var i := 0;
    polled := [];
    while i < |reports|
      invariant i <= |reports|
      invariant WaitFrom(reports, i) == WaitFrom(reports, 0)
      invariant |polled| == i && forall j | 0 <= j < i :: polled[j] == buildId
    {
      var status := reports[i].status;
      polled := polled + [buildId];
      if status == SUCCEEDED {
        return Completed(i + 1), polled;
      }
      i := i + 1;
    }
    r := Pending(i);
  }

  /** Start one build of the project and poll the id `start_build` returned. */
  method BuildArtifact(acct: Account, reports: seq<BuildReport>) returns (r: Result<Wait, ApiError>, polled: seq<BuildId>)
    modifies acct`builds, acct`calls, acct`objects
    ensures acct.calls == old(acct.calls) + [Call.StartBuild(PROJECT_NAME)]
    ensures PROJECT_NAME !in acct.projects ==>
      && r == Failure(ResourceNotFound(PROJECT_NAME)) && polled == []
      && acct.builds == old(acct.builds) && acct.objects == old(acct.objects)
    ensures PROJECT_NAME in acct.projects ==>
      var id := |old(acct.builds)|;
      var b := Build(acct.projects[PROJECT_NAME]);
      && acct.builds == old(acct.builds) + [b]
      && r == Success(WaitFrom(reports, 0))
      && |polled| == r.value.polls && (forall j | 0 <= j < |polled| :: polled[j] == id)
      && acct.objects == if r.value.Completed? then old(acct.objects) + ArtifactsOf(b, id) else old(acct.objects)
  {
    var started := acct.StartBuild(PROJECT_NAME);
    if started.Failure? {
      return Failure(started.error), [];
    }
    var buildId := started.value;
    var w;
    w, polled := WaitForBuildToComplete(buildId, reports);
    if w.Completed? {
      acct.CompleteBuild(buildId);
    }
    r := Success(w);
  }
}
