/** alppb's entry point: the credential gate, the region gate, then
    provisioning, one build, download and teardown, in that fixed order.
    `exit(n)` becomes an outcome value. */
module AlppbMain {
  import opened Wrappers
  import opened Aws
  import CodeBuild = AlppbCodeBuild
  import S3 = AlppbS3
  import Iam = AlpacaIam

  datatype ExitReason =
    | Succeeded
    | NoCredentials
    | NoRegion
      /** The message names both regions and advises `--region <bucket region>`. */
    | RegionMismatch(bucketRegion: string, codebuildRegion: string, advisedFlag: string)
      /** Reported with the status and the build id for manual inspection. */
    | BuildFailed(status: string, buildId: BuildId)

  datatype RunResult =
    | Exit(code: int, reason: ExitReason)
      /** A service call raised an exception that nothing catches. */
    | Crashed(error: ApiError)
      /** The supplied reports ran out while the build was IN_PROGRESS. */
    | StillPolling(buildId: BuildId)

  /** Credentials present, a region resolved, the bucket found, and the
      bucket in the region the CodeBuild client uses. */
  predicate PassesGates(credentialsFound: bool, region: Option<string>, buckets: map<string, Option<string>>, bucket: string) {
    credentialsFound && region.Some? && bucket in buckets && S3.LocationRegion(buckets[bucket]) == region.value
  }

  /** The requests from role creation to the project upsert. */
  function ProvisioningCalls(role: Iam.RoleTemplate, p: Project, existed: bool): seq<Call> {
    [Call.CreateRole(role.roleName, role.trust),
     Call.PutRolePolicy(role.roleName, role.policyName, role.policy),
     Call.CreateProject(p)]
    + (if existed then [Call.UpdateProject(p)] else [])
  }

  /** The requests after a successful build: download, then teardown. */
  function RetrievalCalls(role: Iam.RoleTemplate, bucket: string): seq<Call> {
    [Call.DownloadFile(ObjectRef(bucket, S3.DEFAULT_KEY), S3.DEFAULT_LOCAL_PATH),
     Call.DeleteProject(CodeBuild.PROJECT_NAME),
     Call.DeleteRolePolicy(role.roleName, role.policyName),
     Call.DeleteRole(role.roleName),
     Call.DeleteObject(ObjectRef(bucket, S3.DEFAULT_KEY))]
  }

  /** What alppb's build uploads is exactly the object at the key that the
      download and the delete use by default. */
  lemma ArtifactLandsAtDefaultKey(role: string, bucket: string, package: string, pyVersion: Option<string>, image: string, id: BuildId)
    ensures var spec := CodeBuild.GenerateBuildspec(package, pyVersion);
      ArtifactsOf(Build(CodeBuild.ProjectParams(role, bucket, spec, image)), id)
        == map[ObjectRef(bucket, S3.DEFAULT_KEY) := BuildOutput(id)]
  {
    var spec := CodeBuild.GenerateBuildspec(package, pyVersion);
    var b := Build(CodeBuild.ProjectParams(role, bucket, spec, image));
    assert CodeBuild.PROJECT_NAME + "/" + CodeBuild.ARTIFACT_FILE == S3.DEFAULT_KEY;
    assert spec.artifactFiles == [CodeBuild.ARTIFACT_FILE];
    assert ArtifactsOf(b, id).Keys == {ObjectRef(bucket, S3.DEFAULT_KEY)};
  }

  /** Download the artifact, then delete the project, the role and the
      artifact object.  After a successful build every step succeeds. */
  method RetrieveAndCleanUp(acct: Account, bucket: string, role: Iam.RoleTemplate)
    requires bucket in acct.buckets && ObjectRef(bucket, S3.DEFAULT_KEY) in acct.objects
    requires role.roleName in acct.roles && acct.roles[role.roleName].policies.Keys == {role.policyName}
    modifies acct`localFiles, acct`projects, acct`roles, acct`objects, acct`calls
    ensures acct.calls == old(acct.calls) + RetrievalCalls(role, bucket)
    ensures acct.localFiles == old(acct.localFiles)[S3.DEFAULT_LOCAL_PATH := old(acct.objects)[ObjectRef(bucket, S3.DEFAULT_KEY)]]
    ensures acct.projects == old(acct.projects) - {CodeBuild.PROJECT_NAME}
    ensures acct.roles == old(acct.roles) - {role.roleName}
    ensures acct.objects == old(acct.objects) - {ObjectRef(bucket, S3.DEFAULT_KEY)}
  {
    // Download the artifact.
    var downloaded := S3.DownloadArtifact(acct, bucket);

    // Clean up.
    CodeBuild.DeleteBuildProject(acct);
    var deleted := Iam.DeleteRole(acct, role);
    var removed := S3.DeleteArtifact(acct, bucket);
  }

  /** Create the role, then the project whose buildspec and image both
      come from `pyVersion`. */
  method Provision(acct: Account, package: string, bucket: string, pyVersion: Option<string>, role: Iam.RoleTemplate)
    returns (r: Result<string, ApiError>)
    modifies acct`roles, acct`projects, acct`calls
    ensures role.roleName in old(acct.roles) ==>
      && r == Failure(EntityAlreadyExists(role.roleName))
      && acct.calls == old(acct.calls) + [Call.CreateRole(role.roleName, role.trust)]
      && acct.roles == old(acct.roles) && acct.projects == old(acct.projects)
    ensures role.roleName !in old(acct.roles) ==>
      var arn := acct.RoleArn(role.roleName);
      var p := CodeBuild.ProjectParams(arn, bucket, CodeBuild.GenerateBuildspec(package, pyVersion), CodeBuild.DetermineImage(pyVersion));
      && r == Success(arn)
      && acct.roles == old(acct.roles)[role.roleName := Iam.ProvisionedRole(arn, role)]
      && acct.projects == old(acct.projects)[CodeBuild.PROJECT_NAME := p]
      && acct.calls == old(acct.calls) + ProvisioningCalls(role, p, CodeBuild.PROJECT_NAME in old(acct.projects))
  {
    var created := Iam.CreateRole(acct, role);
    if created.Failure? {
      return created;
    }
    var arn := created.value;
    var buildspec := CodeBuild.GenerateBuildspec(package, pyVersion);
    CodeBuild.CreateBuildProject(acct, arn, bucket, buildspec, CodeBuild.DetermineImage(pyVersion));
    r := Success(arn);
  }

  /** Everything after the gates: create the role, generate the buildspec,
      upsert the project, build, then download and tear down. */
  method BuildPackage(acct: Account, package: string, bucket: string, pyVersion: Option<string>,
                      role: Iam.RoleTemplate, reports: seq<BuildReport>)
    returns (result: RunResult)
    requires bucket in acct.buckets
    modifies acct`roles, acct`projects, acct`builds, acct`objects, acct`localFiles, acct`calls
    // A role of the same name already exists: create_role raises.
    ensures role.roleName in old(acct.roles) ==>
      && result == Crashed(EntityAlreadyExists(role.roleName))
      && acct.calls == old(acct.calls) + [Call.CreateRole(role.roleName, role.trust)]
      && acct.roles == old(acct.roles) && acct.projects == old(acct.projects) && acct.builds == old(acct.builds)
      && acct.objects == old(acct.objects) && acct.localFiles == old(acct.localFiles)
    // Provisioned and built: the project and the build come from one py_version.
    ensures role.roleName !in old(acct.roles) ==> 
      var id := |old(acct.builds)|;
      var arn := acct.RoleArn(role.roleName);
      var spec := CodeBuild.GenerateBuildspec(package, pyVersion);
      var p := CodeBuild.ProjectParams(arn, bucket, spec, CodeBuild.DetermineImage(pyVersion));
      var w := CodeBuild.WaitFrom(id, reports, 0);
      var provisioning := old(acct.calls) + ProvisioningCalls(role, p, CodeBuild.PROJECT_NAME in old(acct.projects))
                          + [Call.StartBuild(CodeBuild.PROJECT_NAME)];
      && acct.builds == old(acct.builds) + [Build(p)]
      && (w.Completed? ==>
            && result == Exit(0, Succeeded)
            && acct.calls == provisioning + RetrievalCalls(role, bucket)
            && acct.roles == old(acct.roles)
            && acct.projects == old(acct.projects) - {CodeBuild.PROJECT_NAME}
            && acct.objects == old(acct.objects) - {ObjectRef(bucket, S3.DEFAULT_KEY)}
            && acct.localFiles == old(acct.localFiles)[S3.DEFAULT_LOCAL_PATH := BuildOutput(id)])
      && (!w.Completed? ==>
            && result == (if w.Failed? then Exit(1, BuildFailed(w.status, id)) else StillPolling(id))
            && acct.calls == provisioning
            && acct.roles == old(acct.roles)[role.roleName := Iam.ProvisionedRole(arn, role)]
            && acct.projects == old(acct.projects)[CodeBuild.PROJECT_NAME := p]
            && acct.objects == old(acct.objects)
            && acct.localFiles == old(acct.localFiles))
  {
    var created := Provision(acct, package, bucket, pyVersion, role);
    if created.Failure? {
      return Crashed(created.error);
    }
    result := BuildAndRetrieve(acct, bucket, role, reports);
  }

  /** Build the upserted project and poll it; after SUCCEEDED, download and
      tear down.  A failed build exits before any teardown. */
  method BuildAndRetrieve(acct: Account, bucket: string, role: Iam.RoleTemplate, reports: seq<BuildReport>)
    returns (result: RunResult)
    requires bucket in acct.buckets && CodeBuild.PROJECT_NAME in acct.projects
    requires acct.projects[CodeBuild.PROJECT_NAME].artifactsLocation == bucket
    requires acct.projects[CodeBuild.PROJECT_NAME].name == CodeBuild.PROJECT_NAME
    requires acct.projects[CodeBuild.PROJECT_NAME].buildspec.artifactFiles == [CodeBuild.ARTIFACT_FILE]
    requires role.roleName in acct.roles && acct.roles[role.roleName].policies.Keys == {role.policyName}
    modifies acct`roles, acct`projects, acct`builds, acct`objects, acct`localFiles, acct`calls
    ensures var id := |old(acct.builds)|;
      var w := CodeBuild.WaitFrom(id, reports, 0);
      && acct.builds == old(acct.builds) + [Build(old(acct.projects)[CodeBuild.PROJECT_NAME])]
      && (w.Completed? ==>
            && result == Exit(0, Succeeded)
            && acct.calls == old(acct.calls) + [Call.StartBuild(CodeBuild.PROJECT_NAME)] + RetrievalCalls(role, bucket)
            && acct.roles == old(acct.roles) - {role.roleName}
            && acct.projects == old(acct.projects) - {CodeBuild.PROJECT_NAME}
            && acct.objects == old(acct.objects) - {ObjectRef(bucket, S3.DEFAULT_KEY)}
            && acct.localFiles == old(acct.localFiles)[S3.DEFAULT_LOCAL_PATH := BuildOutput(id)])
      && (!w.Completed? ==>
            && result == (if w.Failed? then Exit(1, BuildFailed(w.status, id)) else StillPolling(id))
            && acct.calls == old(acct.calls) + [Call.StartBuild(CodeBuild.PROJECT_NAME)]
            && acct.roles == old(acct.roles)
            && acct.projects == old(acct.projects)
            && acct.objects == old(acct.objects)
            && acct.localFiles == old(acct.localFiles))
  {
    var id := |acct.builds|;
    var built, _ := CodeBuild.BuildArtifact(acct, reports);
    match built.value
    case Failed(status, buildId, _) =>
      CodeBuild.WaitFromDecides(id, reports, 0);
      return Exit(1, BuildFailed(status, buildId));
    case Pending(_) =>
      return StillPolling(id);
    case Completed(_) =>
      ghost var b := acct.builds[id];
      assert CodeBuild.PROJECT_NAME + "/" + CodeBuild.ARTIFACT_FILE == S3.DEFAULT_KEY;
      assert ArtifactsOf(b, id).Keys == {ObjectRef(bucket, S3.DEFAULT_KEY)};
      RetrieveAndCleanUp(acct, bucket, role);
      return Exit(0, Succeeded);
  }

  method Run(acct: Account, credentialsFound: bool, package: string, bucket: string, region: Option<string>,
             pyVersion: Option<string>, role: Iam.RoleTemplate, reports: seq<BuildReport>)
    returns (result: RunResult)
    modifies acct
    ensures acct.buckets == old(acct.buckets)
    // The gates: each failure leaves the account untouched.
    ensures !credentialsFound ==> result == Exit(1, NoCredentials) && unchanged(acct)
    ensures credentialsFound && region.None? ==> result == Exit(1, NoRegion) && unchanged(acct)
    ensures credentialsFound && region.Some? && bucket !in old(acct.buckets) ==>
      result == Crashed(NoSuchBucket(bucket)) && unchanged(acct)
    ensures credentialsFound && region.Some? && bucket in old(acct.buckets) &&
            S3.LocationRegion(old(acct.buckets)[bucket]) != region.value ==>
      var bucketRegion := S3.LocationRegion(old(acct.buckets)[bucket]);
      result == Exit(1, RegionMismatch(bucketRegion, region.value, "--region " + bucketRegion)) && unchanged(acct)
    ensures PassesGates(credentialsFound, region, old(acct.buckets), bucket) && role.roleName in old(acct.roles) ==>
      && result == Crashed(EntityAlreadyExists(role.roleName))
      && acct.calls == old(acct.calls) + [Call.CreateRole(role.roleName, role.trust)]
      && acct.roles == old(acct.roles) && acct.projects == old(acct.projects) && acct.builds == old(acct.builds)
      && acct.objects == old(acct.objects) && acct.localFiles == old(acct.localFiles)
    ensures PassesGates(credentialsFound, region, old(acct.buckets), bucket) && role.roleName !in old(acct.roles) ==>
      var id := |old(acct.builds)|;
      var arn := acct.RoleArn(role.roleName);
      var spec := CodeBuild.GenerateBuildspec(package, pyVersion);
      var p := CodeBuild.ProjectParams(arn, bucket, spec, CodeBuild.DetermineImage(pyVersion));
      var w := CodeBuild.WaitFrom(id, reports, 0);
      var provisioning := old(acct.calls) + ProvisioningCalls(role, p, CodeBuild.PROJECT_NAME in old(acct.projects))
                          + [Call.StartBuild(CodeBuild.PROJECT_NAME)];
      && acct.builds == old(acct.builds) + [Build(p)]
      && (w.Completed? ==>
            && result == Exit(0, Succeeded)
            && acct.calls == provisioning + RetrievalCalls(role, bucket)
            && acct.roles == old(acct.roles)
            && acct.projects == old(acct.projects) - {CodeBuild.PROJECT_NAME}
            && acct.objects == old(acct.objects) - {ObjectRef(bucket, S3.DEFAULT_KEY)}
            && acct.localFiles == old(acct.localFiles)[S3.DEFAULT_LOCAL_PATH := BuildOutput(id)])
      && (!w.Completed? ==>
            && result == (if w.Failed? then Exit(1, BuildFailed(w.status, id)) else StillPolling(id))
            && acct.calls == provisioning
            && acct.roles == old(acct.roles)[role.roleName := Iam.ProvisionedRole(arn, role)]
            && acct.projects == old(acct.projects)[CodeBuild.PROJECT_NAME := p]
            && acct.objects == old(acct.objects)
            && acct.localFiles == old(acct.localFiles))
    // Exit 0 only on success, and then nothing alppb provisioned is left.
    ensures result.Exit? ==> (result.code == 0 <==> result.reason == Succeeded)
    ensures result == Exit(0, Succeeded) ==>
      && acct.roles == old(acct.roles)
      && CodeBuild.PROJECT_NAME !in acct.projects
      && ObjectRef(bucket, S3.DEFAULT_KEY) !in acct.objects
    // A failed build exits inside the poll: role and project are left behind.
    ensures result.Exit? && result.reason.BuildFailed? ==>
      role.roleName in acct.roles && CodeBuild.PROJECT_NAME in acct.projects
  {
    if !credentialsFound {
      return Exit(1, NoCredentials);
    }
    if region.None? {
      // create_client cannot find a region to use
      return Exit(1, NoRegion);
    }
    var codebuildRegion := region.value;

    var located := S3.BucketRegion(acct, bucket);
    if located.Failure? {
      return Crashed(located.error);
    }
    var bucketRegion := located.value;
    if bucketRegion != codebuildRegion {
      return Exit(1, RegionMismatch(bucketRegion, codebuildRegion, "--region " + bucketRegion));
    }

    result := BuildPackage(acct, package, bucket, pyVersion, role, reports);
  }
}
