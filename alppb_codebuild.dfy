/** alppb's CodeBuild administration: choosing the container image and the
    pip command from the Python version, generating the buildspec, the
    create-or-update of the fixed-name project, starting one build and
    polling it until it is decided. */
module AlppbCodeBuild {
  import opened Wrappers
  import opened Aws

  const PROJECT_NAME := "alppbBuilder"
  const ARTIFACT_FILE := "alppb.zip"

  const IMAGE_PY27 := "irlrobot/alppb-python27"
  const IMAGE_PY36 := "irlrobot/alppb-python36"
  const IMAGE_PY37 := "irlrobot/alppb-python37"

  const PIP_27 := "pip-2.7"
  const PIP_36 := "pip-3.6"
  const PIP_37 := "/usr/local/bin/pip-3.7"

  /** The Python versions the dispatch recognises; `None` is Python's None. */
  predicate Supported(pyVersion: Option<string>) {
    pyVersion == Some("2.7") || pyVersion == Some("3.6") || pyVersion == Some("3.7")
  }

  // The source tests `py_version == "3.6" or None`; its `or None` operand is
  // always false, so that test is `pyVersion == Some("3.6")` alone.

  function DetermineImage(pyVersion: Option<string>): (image: string)
    ensures image == IMAGE_PY27 || image == IMAGE_PY36 || image == IMAGE_PY37
  {
    if pyVersion == Some("2.7") then IMAGE_PY27
    else if pyVersion == Some("3.6") then IMAGE_PY36
    else if pyVersion == Some("3.7") then IMAGE_PY37
    else IMAGE_PY36
  }

  function PipToUse(pyVersion: Option<string>): (pip: string)
    ensures pip == PIP_27 || pip == PIP_36 || pip == PIP_37
  {
    if pyVersion == Some("2.7") then PIP_27
    else if pyVersion == Some("3.6") then PIP_36
    else if pyVersion == Some("3.7") then PIP_37
    else PIP_36
  }

  function InstallCommand(pip: string, package: string): string {
    pip + " install " + package + " -t alppb"
  }

  /** The buildspec installs the package with the version's pip and ships
      one zip; the package can be read back from it. */
  function GenerateBuildspec(package: string, pyVersion: Option<string>): (spec: BuildSpec)
    ensures InstalledPackage(spec, PipToUse(pyVersion)) == Some(package)
    ensures spec.artifactFiles == [ARTIFACT_FILE]
  {
    BuildSpec(0.2, [InstallCommand(PipToUse(pyVersion), package), "cd alppb/", "zip -r ../alppb.zip *"], [ARTIFACT_FILE])
  }

  /** The inverse of the install command: the package it installs, when the
      command has the shape `<pip> install <package> -t alppb`. */
  function InstalledPackage(spec: BuildSpec, pip: string): (p: Option<string>)
    ensures p.Some? ==> |spec.commands| > 0 && spec.commands[0] == InstallCommand(pip, p.value)
  {
    var prefix := pip + " install ";
    var suffix := " -t alppb";
    if |spec.commands| == 0 then None
    else
      var c := spec.commands[0];
      if |c| >= |prefix| + |suffix| && c[..|prefix|] == prefix && c[|c| - |suffix|..] == suffix then
        var p := c[|prefix|..|c| - |suffix|];
        assert c == prefix + p + suffix;
        Some(p)
      else None
  }

  /** The project definition that both the create and the update request carry. */
  function ProjectParams(role: string, bucket: string, buildspec: BuildSpec, image: string): Project {
    Project(PROJECT_NAME, "NO_SOURCE", buildspec, "S3", bucket, "LINUX_CONTAINER", image, "BUILD_GENERAL1_SMALL", role)
  }

  // ---- properties of the dispatch and the buildspec ----

  /** The values the unit tests pin down. */
  lemma DispatchPinnedByTests()
    ensures DetermineImage(Some("2.7")) == "irlrobot/alppb-python27"
    ensures DetermineImage(Some("3.6")) == "irlrobot/alppb-python36"
    ensures DetermineImage(Some("3.7")) == "irlrobot/alppb-python37"
    ensures DetermineImage(Some("None")) == "irlrobot/alppb-python36"
    ensures DetermineImage(None) == "irlrobot/alppb-python36"
    ensures DetermineImage(Some("blah")) == "irlrobot/alppb-python36"
  {
  }

  /** Any version outside the three recognised ones behaves exactly as "3.6". */
  lemma FallbackIsPython36(package: string, pyVersion: Option<string>)
    requires !Supported(pyVersion)
    ensures DetermineImage(pyVersion) == DetermineImage(Some("3.6")) == IMAGE_PY36
    ensures PipToUse(pyVersion) == PipToUse(Some("3.6")) == PIP_36
    ensures GenerateBuildspec(package, pyVersion) == GenerateBuildspec(package, Some("3.6"))
  {
  }

  /** The pip command of each recognised version. */
  lemma PipPinned()
    ensures PipToUse(Some("2.7")) == "pip-2.7"
    ensures PipToUse(Some("3.6")) == "pip-3.6"
    ensures PipToUse(Some("3.7")) == "/usr/local/bin/pip-3.7"
    ensures PipToUse(None) == "pip-3.6"
  {
  }

  /** The image and the pip command always pick the same Python version. */
  lemma ImageAndPipAgree(v: Option<string>)
    ensures DetermineImage(v) == IMAGE_PY27 <==> PipToUse(v) == PIP_27
    ensures DetermineImage(v) == IMAGE_PY36 <==> PipToUse(v) == PIP_36
    ensures DetermineImage(v) == IMAGE_PY37 <==> PipToUse(v) == PIP_37
  {
  }

  /** Version 0.2; install with the version's pip, enter the target
      directory, zip it; one artifact file. */
  lemma BuildspecLayout(package: string, pyVersion: Option<string>)
    ensures var spec := GenerateBuildspec(package, pyVersion);
      && spec.version == 0.2
      && spec.commands == [PipToUse(pyVersion) + " install " + package + " -t alppb", "cd alppb/", "zip -r ../alppb.zip *"]
      && spec.artifactFiles == ["alppb.zip"]
  {
  }

  /** The package name only reaches the first command: two packages give
      buildspecs that differ in nothing else, and different packages give
      different buildspecs. */
  lemma PackageOnlyInFirstCommand(p: string, q: string, pyVersion: Option<string>)
    ensures GenerateBuildspec(p, pyVersion).commands[1..] == GenerateBuildspec(q, pyVersion).commands[1..]
    ensures GenerateBuildspec(p, pyVersion).artifactFiles == GenerateBuildspec(q, pyVersion).artifactFiles
    ensures GenerateBuildspec(p, pyVersion) == GenerateBuildspec(q, pyVersion) <==> p == q
  {
  }

  // ---- project and build operations ----

  /** Create the project; when it already exists, update it with the same
      parameters. */
  method CreateBuildProject(acct: Account, role: string, bucket: string, buildspec: BuildSpec, image: string)
    modifies acct`projects, acct`calls
    ensures acct.projects == old(acct.projects)[PROJECT_NAME := ProjectParams(role, bucket, buildspec, image)]
    ensures var p := ProjectParams(role, bucket, buildspec, image);
      acct.calls == old(acct.calls) + [Call.CreateProject(p)]
                    + (if PROJECT_NAME in old(acct.projects) then [Call.UpdateProject(p)] else [])
  {
    var p := ProjectParams(role, bucket, buildspec, image);
    var created := acct.CreateProject(p);
    if created == Fail(ResourceAlreadyExists(PROJECT_NAME)) {
      var updated := acct.UpdateProject(p);
    }
  }

  method DeleteBuildProject(acct: Account)
    modifies acct`projects, acct`calls
    ensures acct.projects == old(acct.projects) - {PROJECT_NAME}
    ensures acct.calls == old(acct.calls) + [Call.DeleteProject(PROJECT_NAME)]
  {
    acct.DeleteProject(PROJECT_NAME);
  }

  /** How a poll of one build ends: SUCCEEDED, a status that makes the tool
      exit with code 1, or the supplied reports ran out while IN_PROGRESS
      (the tool would still be polling). */
  datatype Wait =
    | Completed(polls: nat)
    | Failed(status: string, buildId: BuildId, polls: nat)
    | Pending(polls: nat)

  /** The recursive poll of the source, entered at poll number `i`. */
  function WaitFrom(buildId: BuildId, reports: seq<BuildReport>, i: nat): (r: Wait)
    requires i <= |reports|
    ensures i <= r.polls <= |reports|
    ensures r.Pending? ==> r.polls == |reports|
    ensures r.Completed? ==> i < r.polls && reports[r.polls - 1].status == SUCCEEDED
    ensures r.Failed? ==> r.buildId == buildId
    decreases |reports| - i
  {
    if i == |reports| then Pending(i)
    else if reports[i].status == SUCCEEDED then Completed(i + 1)
    else if reports[i].status == IN_PROGRESS then WaitFrom(buildId, reports, i + 1)
    else Failed(reports[i].status, buildId, i + 1)
  }

  /** Every poll before the deciding one saw IN_PROGRESS; SUCCEEDED returns,
      any other status exits reporting that status and the build id, and no
      poll follows the deciding one. */
  lemma {:induction false} WaitFromDecides(buildId: BuildId, reports: seq<BuildReport>, i: nat)
    requires i <= |reports|
    ensures var r := WaitFrom(buildId, reports, i);
      && i <= r.polls <= |reports|
      && (forall j | i <= j < r.polls && (r.Pending? || j < r.polls - 1) :: reports[j].status == IN_PROGRESS)
      && (r.Pending? ==> r.polls == |reports|)
      && (r.Completed? ==> i < r.polls && reports[r.polls - 1].status == SUCCEEDED)
      && (r.Failed? ==> && i < r.polls && r.buildId == buildId
                        && r.status == reports[r.polls - 1].status
                        && r.status != SUCCEEDED && r.status != IN_PROGRESS)
    decreases |reports| - i
  {
    if i < |reports| && reports[i].status != SUCCEEDED && reports[i].status == IN_PROGRESS {
      WaitFromDecides(buildId, reports, i + 1);
    }
  }

  /** The poll as a loop: one `batch_get_builds` of the same id per report;
      the ten-second sleep between polls is a no-op. */
  method WaitForBuildToComplete(buildId: BuildId, reports: seq<BuildReport>) returns (r: Wait, polled: seq<BuildId>)
    ensures r == WaitFrom(buildId, reports, 0)
    ensures |polled| == r.polls && forall j | 0 <= j < |polled| :: polled[j] == buildId
  {
    var i := 0;
    polled := [];
    while i < |reports|
      invariant i <= |reports|
      invariant WaitFrom(buildId, reports, i) == WaitFrom(buildId, reports, 0)
      invariant |polled| == i && forall j | 0 <= j < i :: polled[j] == buildId
    {
      var status := reports[i].status;
      polled := polled + [buildId];
      if status == SUCCEEDED {
        return Completed(i + 1), polled;
      } else if status == IN_PROGRESS {
        i := i + 1;
      } else {
        return Failed(status, buildId, i + 1), polled;
      }
    }
    r := Pending(i);
  }

  /** Start one build of the project and poll the id `start_build` returned. */
  method BuildArtifact(acct: Account, reports: seq<BuildReport>) returns (r: Result<Wait, ApiError>, polled: seq<BuildId>)
    modifies acct`builds, acct`calls, acct`objects
    ensures acct.calls == old(acct.calls) + [Call.StartBuild(PROJECT_NAME)]
    ensures PROJECT_NAME !in acct.projects ==>
      && r == Failure(ResourceNotFound(PROJECT_NAME)) && polled == []
      && acct.builds == old(acct.builds) && acct.objects == old(acct.objects)
    ensures PROJECT_NAME in acct.projects ==>
      var id := |old(acct.builds)|;
      var b := Build(acct.projects[PROJECT_NAME]);
      && acct.builds == old(acct.builds) + [b]
      && r == Success(WaitFrom(id, reports, 0))
      && |polled| == r.value.polls && (forall j | 0 <= j < |polled| :: polled[j] == id)
      && acct.objects == if r.value.Completed? then old(acct.objects) + ArtifactsOf(b, id) else old(acct.objects)
  {
    var started := acct.StartBuild(PROJECT_NAME);
    if started.Failure? {
      return Failure(started.error), [];
    }
    var buildId := started.value;
    var w;
    w, polled := WaitForBuildToComplete(buildId, reports);
    if w.Completed? {
      acct.CompleteBuild(buildId);
    }
    r := Success(w);
  }
}
