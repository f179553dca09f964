/** The first alpaca script: create the project with a plain create, build
    and poll for the artifact's location, delete the project.  It creates
    no role, downloads nothing and deletes no artifact. */
module AlpacaScript {
  import opened Wrappers
  import opened Aws
  import AlpacaCodeBuild

  const PROJECT_NAME := "alpacaBuilder"
  const ARTIFACT_LOCATION := "rebukethe.net"
  const IMAGE := "irlrobot/amazonlinux1:latest"

  /** The buildspec the script embeds as base64 text, decoded. */
  const EMBEDDED_BUILDSPEC := BuildSpec(0.2, ["pip-3.6 install requests -t alpaca", "cd alpaca/", "zip -r ../alpaca.zip *"], ["alpaca.zip"])

  /** The embedded buildspec is the one alpaca's generator makes for the
      package `requests`. */
  lemma EmbeddedBuildspecIsGenerated()
    ensures EMBEDDED_BUILDSPEC == AlpacaCodeBuild.GenerateBuildspec("requests")
    ensures AlpacaCodeBuild.InstalledPackage(EMBEDDED_BUILDSPEC) == Some("requests")
  {
    assert "pip-3.6 install " + "requests" + " -t alpaca" == "pip-3.6 install requests -t alpaca";
  }

  /** The key under which the script's build leaves its artifact. */
  const ARTIFACT_KEY := "alpacaBuilder/alpaca.zip"

  /** The build uploads exactly one object: `alpacaBuilder/alpaca.zip` in
      `rebukethe.net`. */
  lemma ArtifactStaysInBucket(role: string, id: BuildId)
    ensures ArtifactsOf(Build(ProjectParams(role)), id) == map[ObjectRef(ARTIFACT_LOCATION, ARTIFACT_KEY) := BuildOutput(id)]
  {
    assert PROJECT_NAME + "/" + "alpaca.zip" == ARTIFACT_KEY;
    assert ArtifactsOf(Build(ProjectParams(role)), id).Keys == {ObjectRef(ARTIFACT_LOCATION, ARTIFACT_KEY)};
  }

  function ProjectParams(role: string): Project {
    Project(PROJECT_NAME, "NO_SOURCE", EMBEDDED_BUILDSPEC, "S3", ARTIFACT_LOCATION, "LINUX_CONTAINER", IMAGE, "BUILD_GENERAL1_SMALL", role)
  }

  /** A plain create: an existing project makes it raise. */
  method CreateBuildProject(acct: Account, role: string) returns (o: Outcome<ApiError>)
    modifies acct`projects, acct`calls
    ensures acct.calls == old(acct.calls) + [Call.CreateProject(ProjectParams(role))]
    ensures PROJECT_NAME in old(acct.projects) ==>
      o == Fail(ResourceAlreadyExists(PROJECT_NAME)) && acct.projects == old(acct.projects)
    ensures PROJECT_NAME !in old(acct.projects) ==>
      o == Pass && acct.projects == old(acct.projects)[PROJECT_NAME := ProjectParams(role)]
  {
    o := acct.CreateProject(ProjectParams(role));
  }

  method DeleteBuildProject(acct: Account)
    modifies acct`projects, acct`calls
    ensures acct.projects == old(acct.projects) - {PROJECT_NAME}
    ensures acct.calls == old(acct.calls) + [Call.DeleteProject(PROJECT_NAME)]
  {
    acct.DeleteProject(PROJECT_NAME);
  }

  /** How a poll for the artifact ends: SUCCEEDED with the location the
      build reported, or the supplied reports ran out first. */
  datatype Located = Found(location: string, polls: nat) | Pending(polls: nat)

  /** The recursive poll of the source, entered at poll number `i`. */
  function LocateFrom(reports: seq<BuildReport>, i: nat): (r: Located)
    requires i <= |reports|
    ensures i <= r.polls <= |reports|
    ensures r.Pending? ==> r.polls == |reports|
    ensures r.Found? ==> && i < r.polls && reports[r.polls - 1].status == SUCCEEDED
                         && r.location == reports[r.polls - 1].artifactsLocation
    decreases |reports| - i
  {
    if i == |reports| then Pending(i)
    else if reports[i].status == SUCCEEDED then Found(reports[i].artifactsLocation, i + 1)
    else LocateFrom(reports, i + 1)
  }

  /** A location is returned only from a SUCCEEDED report, and it is that
      report's location; every other status is waited through. */
  lemma {:induction false} LocateFromDecides(reports: seq<BuildReport>, i: nat)
    requires i <= |reports|
    ensures var r := LocateFrom(reports, i);
      && i <= r.polls <= |reports|
      && (forall j | i <= j < r.polls && (r.Pending? || j < r.polls - 1) :: reports[j].status != SUCCEEDED)
      && (r.Pending? ==> r.polls == |reports|)
      && (r.Found? ==> i < r.polls && reports[r.polls - 1] == BuildReport(SUCCEEDED, r.location))
    decreases |reports| - i
  {
    if i < |reports| && reports[i].status != SUCCEEDED {
      LocateFromDecides(reports, i + 1);
    }
  }

  /** This poll stops exactly where alpaca's `wait_for_build_to_complete`
      stops on the same reports. */
  lemma {:induction false} LocateAgreesWithWait(reports: seq<BuildReport>, i: nat)
    requires i <= |reports|
    ensures LocateFrom(reports, i).polls == AlpacaCodeBuild.WaitFrom(reports, i).polls
    ensures LocateFrom(reports, i).Found? <==> AlpacaCodeBuild.WaitFrom(reports, i).Completed?
    decreases |reports| - i
  {
    if i < |reports| && reports[i].status != SUCCEEDED {
      LocateAgreesWithWait(reports, i + 1);
    }
  }

  /** The poll as a loop over the same build id; the sleep is a no-op. */
  method GetArtifactLocation(buildId: BuildId, reports: seq<BuildReport>) returns (r: Located, polled: seq<BuildId>)
    ensures r == LocateFrom(reports, 0)
    ensures |polled| == r.polls && forall j | 0 <= j < |polled| :: polled[j] == buildId
  {
    var i := 0;
    polled := [];
    while i < |reports|
      invariant i <= |reports|
      invariant LocateFrom(reports, i) == LocateFrom(reports, 0)
      invariant |polled| == i && forall j | 0 <= j < i :: polled[j] == buildId
    {
      var response := reports[i];
      polled := polled + [buildId];
      if response.status == SUCCEEDED {
        return Found(response.artifactsLocation, i + 1), polled;
      }
      i := i + 1;
    }
    r := Pending(i);
  }

  /** Start one build and return the location polled from that build's id. */
  method BuildArtifact(acct: Account, reports: seq<BuildReport>) returns (r: Result<Located, ApiError>, polled: seq<BuildId>)
    modifies acct`builds, acct`calls, acct`objects
    ensures acct.calls == old(acct.calls) + [Call.StartBuild(PROJECT_NAME)]
    ensures PROJECT_NAME !in acct.projects ==>
      && r == Failure(ResourceNotFound(PROJECT_NAME)) && polled == []
      && acct.builds == old(acct.builds) && acct.objects == old(acct.objects)
    ensures PROJECT_NAME in acct.projects ==>
      var id := |old(acct.builds)|;
      var b := Build(acct.projects[PROJECT_NAME]);
      && acct.builds == old(acct.builds) + [b]
      && r == Success(LocateFrom(reports, 0))
      && |polled| == r.value.polls && (forall j | 0 <= j < |polled| :: polled[j] == id)
      && acct.objects == if r.value.Found? then old(acct.objects) + ArtifactsOf(b, id) else old(acct.objects)
  {
    var started := acct.StartBuild(PROJECT_NAME);
    if started.Failure? {
      return Failure(started.error), [];
    }
    var buildId := started.value;
    var located;
    located, polled := GetArtifactLocation(buildId, reports);
    if located.Found? {
      acct.CompleteBuild(buildId);
    }
    r := Success(located);
  }

  datatype RunResult =
    | Finished(location: string)
      /** A service call raised an exception that nothing catches. */
    | Crashed(error: ApiError)
      /** The supplied reports ran out before SUCCEEDED. */
    | StillPolling(buildId: BuildId)

  /** The script's entry point: create project, build, delete project.  The
      role ARN comes from a shell command and is a parameter here. */
  method Run(acct: Account, role: string, reports: seq<BuildReport>) returns (result: RunResult)
    modifies acct
    ensures acct.roles == old(acct.roles) && acct.localFiles == old(acct.localFiles) && acct.buckets == old(acct.buckets)
    ensures PROJECT_NAME in old(acct.projects) ==>
      && result == Crashed(ResourceAlreadyExists(PROJECT_NAME))
      && acct.calls == old(acct.calls) + [Call.CreateProject(ProjectParams(role))]
      && acct.projects == old(acct.projects) && acct.builds == old(acct.builds) && acct.objects == old(acct.objects)
    ensures PROJECT_NAME !in old(acct.projects) ==>
      var id := |old(acct.builds)|;
      var b := Build(ProjectParams(role));
      var located := LocateFrom(reports, 0);
      && acct.builds == old(acct.builds) + [b]
      && (located.Found? ==>
            && result == Finished(located.location)
            && acct.calls == old(acct.calls) + [Call.CreateProject(ProjectParams(role)), Call.StartBuild(PROJECT_NAME),
                                                Call.DeleteProject(PROJECT_NAME)]
            && acct.projects == old(acct.projects)
            && acct.objects == old(acct.objects) + ArtifactsOf(b, id))
      && (located.Pending? ==>
            && result == StillPolling(id)
            && acct.calls == old(acct.calls) + [Call.CreateProject(ProjectParams(role)), Call.StartBuild(PROJECT_NAME)]
            && acct.projects == old(acct.projects)[PROJECT_NAME := ProjectParams(role)]
            && acct.objects == old(acct.objects))
    // The built artifact stays in the bucket: nothing deletes it.
    ensures result.Finished? ==> ObjectRef(ARTIFACT_LOCATION, ARTIFACT_KEY) in acct.objects
  {
    var created := CreateBuildProject(acct, role);
    if created.Fail? {
      return Crashed(created.error);
    }
    var id := |acct.builds|;
    var built, _ := BuildArtifact(acct, reports);
    match built.value
    case Pending(_) =>
      return StillPolling(id);
    case Found(location, _) =>
      ArtifactStaysInBucket(role, id);
      DeleteBuildProject(acct);
      assert acct.projects == old(acct.projects);
      return Finished(location);
  }
}
