/** The part of an AWS account that the build tools act on: IAM roles with
    their inline policies, CodeBuild projects and the builds started from
    them, S3 buckets and their objects, and the files the tools write on the
    local disk.  Every request that changes the account or downloads a file
    is appended to `calls`, in order, including requests that the service
    refuses.  Read-only requests are not logged: the bucket-location lookup
    leaves `calls` as it was, and the build polls are the `polled` outputs
    of the poll methods. */
module Aws {
  import opened Wrappers

  type BuildId = nat

  /** IAM policy documents.  The tools embed them as fixed base64 text; the
      model keeps them opaque. */
  datatype Document = AlpacaTrustPolicy | AlpacaBuilderPolicy | Opaque(text: string)

  datatype Role = Role(arn: string, trust: Document, description: string, policies: map<string, Document>)

  /** A CodeBuild buildspec as the record that `yaml.dump` serialises. */
  datatype BuildSpec = BuildSpec(version: real, commands: seq<string>, artifactFiles: seq<string>)

  /** The parameters of a `create_project` / `update_project` request. */
  datatype Project = Project(
    name: string,
    sourceType: string,
    buildspec: BuildSpec,
    artifactsType: string,
    artifactsLocation: string,
    environmentType: string,
    image: string,
    computeType: string,
    serviceRole: string)

  /** A started build remembers the project definition it was started from. */
  datatype Build = Build(project: Project)

  /** What one `batch_get_builds` poll reports about a build. */
  datatype BuildReport = BuildReport(status: string, artifactsLocation: string)

  datatype ObjectRef = ObjectRef(bucket: string, key: string)

  datatype Blob = BuildOutput(buildId: BuildId) | Stored(content: string)

  datatype ApiError =
    | EntityAlreadyExists(roleName: string)
    | NoSuchEntity(name: string)
    | DeleteConflict(roleName: string)
    | ResourceAlreadyExists(projectName: string)
    | ResourceNotFound(projectName: string)
    | NoSuchBucket(bucket: string)
    | NoSuchKey(ref: ObjectRef)

  /** One request sent to a service. */
  datatype Call =
    | CreateRole(roleName: string, trust: Document)
    | PutRolePolicy(roleName: string, policyName: string, policy: Document)
    | DeleteRolePolicy(roleName: string, policyName: string)
    | DeleteRole(roleName: string)
    | CreateProject(project: Project)
    | UpdateProject(project: Project)
    | DeleteProject(projectName: string)
    | StartBuild(projectName: string)
    | DownloadFile(ref: ObjectRef, localPath: string)
    | DeleteObject(ref: ObjectRef)

  const SUCCEEDED := "SUCCEEDED"
  const IN_PROGRESS := "IN_PROGRESS"

  /** The objects a successful build uploads: every artifact file of its
      buildspec, under `<project name>/` in the project's artifact bucket. */
  function ArtifactsOf(b: Build, id: BuildId): (m: map<ObjectRef, Blob>)
    ensures forall f :: f in b.project.buildspec.artifactFiles ==>
      var r := ObjectRef(b.project.artifactsLocation, b.project.name + "/" + f);
      r in m && m[r] == BuildOutput(id)
    ensures forall r :: r in m ==> r.bucket == b.project.artifactsLocation
  {
    map f | f in b.project.buildspec.artifactFiles
      :: ObjectRef(b.project.artifactsLocation, b.project.name + "/" + f) := BuildOutput(id)
  }

  class Account {
    const accountId: string
    var roles: map<string, Role>
    var projects: map<string, Project>
    var builds: seq<Build>
    /** Each bucket's `LocationConstraint`; `None` when S3 reports none. */
    var buckets: map<string, Option<string>>
    var objects: map<ObjectRef, Blob>
    var localFiles: map<string, Blob>
    var calls: seq<Call>

    function RoleArn(name: string): string {
      "arn:aws:iam::" + accountId + ":role/" + name
    }

    // ---- IAM ----

    method CreateRole(name: string, trust: Document, description: string) returns (r: Result<string, ApiError>)
      modifies `roles, `calls
      ensures calls == old(calls) + [Call.CreateRole(name, trust)]
      ensures name in old(roles) ==> r == Failure(EntityAlreadyExists(name)) && roles == old(roles)
      ensures name !in old(roles) ==>
        r == Success(RoleArn(name)) && roles == old(roles)[name := Role(RoleArn(name), trust, description, map[])]
    {
      calls := calls + [Call.CreateRole(name, trust)];
      if name in roles {
        r := Failure(EntityAlreadyExists(name));
      } else {
        roles := roles[name := Role(RoleArn(name), trust, description, map[])];
        r := Success(RoleArn(name));
      }
    }

    method PutRolePolicy(roleName: string, policyName: string, policy: Document) returns (o: Outcome<ApiError>)
      modifies `roles, `calls
      ensures calls == old(calls) + [Call.PutRolePolicy(roleName, policyName, policy)]
      ensures roleName !in old(roles) ==> o == Fail(NoSuchEntity(roleName)) && roles == old(roles)
      ensures roleName in old(roles) ==>
        var role := old(roles)[roleName];
        o == Pass && roles == old(roles)[roleName := role.(policies := role.policies[policyName := policy])]
    {
      calls := calls + [Call.PutRolePolicy(roleName, policyName, policy)];
      if roleName !in roles {
        o := Fail(NoSuchEntity(roleName));
      } else {
        var role := roles[roleName];
        roles := roles[roleName := role.(policies := role.policies[policyName := policy])];
        o := Pass;
      }
    }

    method DeleteRolePolicy(roleName: string, policyName: string) returns (o: Outcome<ApiError>)
      modifies `roles, `calls
      ensures calls == old(calls) + [Call.DeleteRolePolicy(roleName, policyName)]
      ensures roleName !in old(roles) ==> o == Fail(NoSuchEntity(roleName)) && roles == old(roles)
      ensures roleName in old(roles) && policyName !in old(roles)[roleName].policies ==>
        o == Fail(NoSuchEntity(policyName)) && roles == old(roles)
      ensures roleName in old(roles) && policyName in old(roles)[roleName].policies ==>
        var role := old(roles)[roleName];
        o == Pass && roles == old(roles)[roleName := role.(policies := role.policies - {policyName})]
    {
      calls := calls + [Call.DeleteRolePolicy(roleName, policyName)];
      if roleName !in roles {
        o := Fail(NoSuchEntity(roleName));
      } else if policyName !in roles[roleName].policies {
        o := Fail(NoSuchEntity(policyName));
      } else {
        var role := roles[roleName];
        roles := roles[roleName := role.(policies := role.policies - {policyName})];
        o := Pass;
      }
    }

    /** IAM refuses to delete a role that still has inline policies. */
    method DeleteRole(roleName: string) returns (o: Outcome<ApiError>)
      modifies `roles, `calls
      ensures calls == old(calls) + [Call.DeleteRole(roleName)]
      ensures roleName !in old(roles) ==> o == Fail(NoSuchEntity(roleName)) && roles == old(roles)
      ensures roleName in old(roles) && old(roles)[roleName].policies != map[] ==>
        o == Fail(DeleteConflict(roleName)) && roles == old(roles)
      ensures roleName in old(roles) && old(roles)[roleName].policies == map[] ==>
        o == Pass && roles == old(roles) - {roleName}
    {
      calls := calls + [Call.DeleteRole(roleName)];
      if roleName !in roles {
        o := Fail(NoSuchEntity(roleName));
      } else if roles[roleName].policies != map[] {
        o := Fail(DeleteConflict(roleName));
      } else {
        roles := roles - {roleName};
        o := Pass;
      }
    }

    // ---- CodeBuild ----

    method CreateProject(p: Project) returns (o: Outcome<ApiError>)
      modifies `projects, `calls
      ensures calls == old(calls) + [Call.CreateProject(p)]
      ensures p.name in old(projects) ==> o == Fail(ResourceAlreadyExists(p.name)) && projects == old(projects)
      ensures p.name !in old(projects) ==> o == Pass && projects == old(projects)[p.name := p]
    {
      calls := calls + [Call.CreateProject(p)];
      if p.name in projects {
        o := Fail(ResourceAlreadyExists(p.name));
      } else {
        projects := projects[p.name := p];
        o := Pass;
      }
    }

    method UpdateProject(p: Project) returns (o: Outcome<ApiError>)
      modifies `projects, `calls
      ensures calls == old(calls) + [Call.UpdateProject(p)]
      ensures p.name !in old(projects) ==> o == Fail(ResourceNotFound(p.name)) && projects == old(projects)
      ensures p.name in old(projects) ==> o == Pass && projects == old(projects)[p.name := p]
    {
      calls := calls + [Call.UpdateProject(p)];
      if p.name !in projects {
        o := Fail(ResourceNotFound(p.name));
      } else {
        projects := projects[p.name := p];
        o := Pass;
      }
    }

    method DeleteProject(name: string)
      modifies `projects, `calls
      ensures calls == old(calls) + [Call.DeleteProject(name)]
      ensures projects == old(projects) - {name}
    {
      calls := calls + [Call.DeleteProject(name)];
      projects := projects - {name};
    }

    /** A new build gets the next id and a snapshot of the project. */
    method StartBuild(projectName: string) returns (r: Result<BuildId, ApiError>)
      modifies `builds, `calls
      ensures calls == old(calls) + [Call.StartBuild(projectName)]
      ensures projectName !in projects ==> r == Failure(ResourceNotFound(projectName)) && builds == old(builds)
      ensures projectName in projects ==>
        r == Success(|old(builds)|) && builds == old(builds) + [Build(projects[projectName])]
    {
      calls := calls + [Call.StartBuild(projectName)];
      if projectName !in projects {
        r := Failure(ResourceNotFound(projectName));
      } else {
        r := Success(|builds|);
        builds := builds + [Build(projects[projectName])];
      }
    }

    /** The build service's side of a build that reports SUCCEEDED: its
        artifacts are in S3.  This is not a request the tools send. */
    method CompleteBuild(id: BuildId)
      requires id < |builds|
      modifies `objects
      ensures objects == old(objects) + ArtifactsOf(builds[id], id)
    {
      objects := objects + ArtifactsOf(builds[id], id);
    }

    // ---- S3 ----

    /** A read-only lookup: it is not logged in `calls`. */
    method GetBucketLocation(bucket: string) returns (r: Result<Option<string>, ApiError>)
      ensures bucket in buckets ==> r == Success(buckets[bucket])
      ensures bucket !in buckets ==> r == Failure(NoSuchBucket(bucket))
    {
      if bucket in buckets {
        r := Success(buckets[bucket]);
      } else {
        r := Failure(NoSuchBucket(bucket));
      }
    }

    method DownloadFile(bucket: string, key: string, localPath: string) returns (o: Outcome<ApiError>)
      modifies `localFiles, `calls
      ensures calls == old(calls) + [Call.DownloadFile(ObjectRef(bucket, key), localPath)]
      ensures ObjectRef(bucket, key) in objects ==>
        o == Pass && localFiles == old(localFiles)[localPath := objects[ObjectRef(bucket, key)]]
      ensures ObjectRef(bucket, key) !in objects ==>
        o == Fail(NoSuchKey(ObjectRef(bucket, key))) && localFiles == old(localFiles)
    {
      calls := calls + [Call.DownloadFile(ObjectRef(bucket, key), localPath)];
      var ref := ObjectRef(bucket, key);
      if ref in objects {
        localFiles := localFiles[localPath := objects[ref]];
        o := Pass;
      } else {
        o := Fail(NoSuchKey(ref));
      }
    }

    /** S3 answers a delete of an absent key with success. */
    method DeleteObject(bucket: string, key: string) returns (o: Outcome<ApiError>)
      modifies `objects, `calls
      ensures calls == old(calls) + [Call.DeleteObject(ObjectRef(bucket, key))]
      ensures bucket !in buckets ==> o == Fail(NoSuchBucket(bucket)) && objects == old(objects)
      ensures bucket in buckets ==> o == Pass && objects == old(objects) - {ObjectRef(bucket, key)}
    {
      calls := calls + [Call.DeleteObject(ObjectRef(bucket, key))];
      if bucket !in buckets {
        o := Fail(NoSuchBucket(bucket));
      } else {
        objects := objects - {ObjectRef(bucket, key)};
        o := Pass;
      }
    }
  }
}
