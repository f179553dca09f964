# alppb / alpaca build orchestration in Dafny

alppb (and its predecessor alpaca) builds a Python package on Amazon Linux with
AWS CodeBuild and downloads the result. A run checks for credentials. It then
checks that the S3 bucket is in the CodeBuild region, creates an IAM role with
one inline policy, and creates or updates a fixed-name CodeBuild project. It
starts one build and polls it until it is decided. After a successful build it
downloads the artifact, then deletes the project, the role and the artifact
object.

This model covers:

- the pure version dispatch and buildspec generation;
- the service operations, as methods that change an abstract AWS account;
- the poll loops of the three snapshots (`alppb/`, `alpaca/` and the root
  `alpaca.py`);
- the top-level workflows, as the traces of the requests that change that
  account or download from it.

## Layout

- `wrappers.dfy` (module `Wrappers`): `Option`, `Result`, `Outcome` for Python's `None` and uncaught exceptions
- `aws.dfy` (module `Aws`): the abstract account, a class `Account` whose IAM, CodeBuild and S3 primitives update its fields and append each request that changes the account, and each download, to `calls`; the read-only bucket-location lookup is not logged, and the `batch_get_builds` polls are the `polled` outputs of the poll methods, not entries of `calls`
- `alppb_codebuild.dfy` (module `AlppbCodeBuild`): `alppb/codebuild.py`
- `alppb_s3.dfy` (module `AlppbS3`): `alppb/s3.py`
- `alppb_main.dfy` (module `AlppbMain`): `main` of `alppb/alppb.py`
- `alpaca_codebuild.dfy` (module `AlpacaCodeBuild`): `alpaca/codebuild.py`
- `alpaca_iam.dfy` (module `AlpacaIam`): `alpaca/iam.py`
- `alpaca_script.dfy` (module `AlpacaScript`): the root `alpaca.py`
- `poll_snapshots.dfy` (module `PollSnapshots`): how the `alppb/` and `alpaca/` polls differ on the same statuses

## Modelling choices

- A Python module function that takes a boto3 client becomes a module-level
  method that takes an `Account` and may modify only the fields it names.
  For example, `delete_build_project` gets `modifies acct`projects, acct`calls`,
  so "nothing else changes" is part of its frame.
- `py_version` is an `Option<string>`: `None` is Python's `None`, and `Some("None")`
  is the string that one unit test passes. The source tests
  `py_version == "3.6" or None`, and its `or None` operand is always false.
  Any version other than "2.7", "3.6" or "3.7" therefore reaches the final
  fallback, which returns the 3.6 choice.
- The buildspec is a record (`BuildSpec`), not YAML text. The base64 buildspec
  embedded in `alpaca.py` decodes to the record that alpaca's
  `generate_buildspec` produces for the package `requests`.
  `EmbeddedBuildspecIsGenerated` states this.
- Each poll loop reads a supplied finite sequence of `BuildReport`s. One report
  is one `batch_get_builds` answer. The ten-second sleep is a no-op. Each loop
  is specified by a recursive function that mirrors the source's recursion, and
  is implemented as a `while` loop proved equal to it. When the reports run out
  before the build is decided, the result is `Pending`, and at the top level
  `StillPolling`. This is how the model stands for a loop that has not
  finished yet. It does not mean the source gives up.
- `exit(n)` becomes `Exit(n, reason)`. An exception that nothing catches becomes
  `Crashed(error)`.
- The CodeBuild region is the region that the boto3 client resolved. It is a
  parameter, and `None` stands for the `NoRegionError` exit in `create_client`.
- When a build reports SUCCEEDED, the build service has uploaded each artifact
  file to `<location>/<project name>/<file>`. `Account.CompleteBuild` models
  this service behaviour, and `BuildArtifact` calls it after a SUCCEEDED poll.
- The code relies on some behaviour of the AWS services, which the model takes as given:
  - a role ARN is `arn:aws:iam::<account>:role/<name>`;
  - IAM refuses to delete a role that still has inline policies;
  - deleting a missing project or a missing S3 key succeeds;
  - build ids are the indices of `Account.builds`;
  - CodeBuild accepts a role as soon as `create_role` has returned, and
    `create_project` raises nothing but ResourceAlreadyExists.
- What happens on failure:
  - On a failed build, alppb exits with code 1 inside the poll. It does not
    clean up: the role and the project are left behind, and the `Run`
    contract says so.
  - alppb has no forced-cleanup operation, no IAM propagation wait, no
    backoff and no poll ceiling.
  - The `alpaca/` and `alpaca.py` polls have no exit for a failed status.
    They keep polling until the recursion-depth crash described under
    "Left out".
  - An S3 lookup error on the bucket propagates uncaught (`Crashed`). It is
    not turned into exit 1.

## Model

| member | source | states |
|---|---|---|
| `AlppbCodeBuild.DetermineImage` | alppb/codebuild.py:23-31 | the image is always one of the three alppb images |
| `AlppbCodeBuild.PipToUse` | alppb/codebuild.py:49-57 | the pip command is always one of pip-2.7, pip-3.6, /usr/local/bin/pip-3.7 |
| `AlppbCodeBuild.DispatchPinnedByTests` | tests/test_codebuild.py:7-31 | 2.7, 3.6 and 3.7 map to their images; "None", None and "blah" map to the python36 image |
| `AlppbCodeBuild.FallbackIsPython36` | alppb/codebuild.py:23-57 | any version outside {2.7, 3.6, 3.7} gets exactly the image, the pip and therefore the buildspec of "3.6" |
| `AlppbCodeBuild.PipPinned` | alppb/codebuild.py:49-57 | 2.7 gets `pip-2.7`, 3.6 gets `pip-3.6`, 3.7 gets `/usr/local/bin/pip-3.7`, and None gets `pip-3.6` |
| `AlppbCodeBuild.ImageAndPipAgree` | alppb/codebuild.py:23-57 | for every version, the image is the python27, python36 or python37 image exactly when the pip is pip-2.7, pip-3.6 or pip-3.7 respectively: image and installer never disagree on the Python version |
| `AlppbCodeBuild.BuildspecLayout` | alppb/codebuild.py:78-95 | version 0.2; commands exactly `<pip> install <package> -t alppb`, `cd alppb/`, `zip -r ../alppb.zip *`; artifact files exactly `["alppb.zip"]` |
| `AlppbCodeBuild.InstalledPackage` | alppb/codebuild.py:83-84 | a package read back from the first command is one whose install command is exactly that command |
| `AlppbCodeBuild.GenerateBuildspec` | alppb/codebuild.py:60-95 | the package is recovered from the generated buildspec with the version's pip, and the only artifact file is `alppb.zip` |
| `AlppbCodeBuild.PackageOnlyInFirstCommand` | alppb/codebuild.py:82-93 | the package reaches only the first command; two buildspecs are equal if and only if their packages are |
| `AlppbCodeBuild.CreateBuildProject` | alppb/codebuild.py:123-161 | upsert: afterwards `alppbBuilder` is exactly the given definition (NO_SOURCE, S3 at bucket, LINUX_CONTAINER, BUILD_GENERAL1_SMALL, image, role), whether or not it existed; an update follows the create only on already-exists, with identical parameters |
| `AlppbCodeBuild.DeleteBuildProject` | alppb/codebuild.py:176-177 | removes `alppbBuilder` and no other project |
| `AlppbCodeBuild.WaitFrom` | alppb/codebuild.py:195-212 | the recursive poll from poll `i` uses at most the remaining reports; SUCCEEDED is the last report read when it completes; a failure exit carries the polled build id; it is pending only when the reports ran out |
| `AlppbCodeBuild.WaitFromDecides` | alppb/codebuild.py:195-212 | every poll before the deciding one saw IN_PROGRESS; it returns only on SUCCEEDED; any other status exits reporting that status and the build id; nothing is polled after that |
| `AlppbCodeBuild.WaitForBuildToComplete` | alppb/codebuild.py:195-212 | the loop gives the recursive poll's outcome and polls the same build id each time |
| `AlppbCodeBuild.BuildArtifact` | alppb/codebuild.py:227-231 | starts exactly one build of `alppbBuilder`; every poll is of the id `start_build` returned; artifacts appear only after SUCCEEDED; a missing project raises and nothing is polled |
| `AlppbS3.DownloadArtifact` | alppb/s3.py:6-28 | copies the object at (bucket, key), default `alppbBuilder/alppb.zip`, to the local path, default `alppb.zip`; the bucket is unchanged; a missing object raises |
| `AlppbS3.DeleteArtifact` | alppb/s3.py:32-50 | removes only the object at (bucket, key), with the same default key; all other objects unchanged |
| `AlppbS3.BucketRegion` | alppb/s3.py:67-71 | us-east-1 when the location constraint is absent, the constraint unchanged otherwise (the same fallback as the region gate of `AlppbMain.Run`); a missing bucket raises |
| `AlppbMain.ArtifactLandsAtDefaultKey` | alppb/s3.py:6 | the object alppb's build uploads is exactly the one at the default key of download and delete (project name / buildspec artifact file) |
| `AlppbMain.Provision` | alppb/alppb.py:161-164 | role first, then the project whose buildspec and image come from the same py_version; an existing role raises before any project request |
| `AlppbMain.RetrieveAndCleanUp` | alppb/alppb.py:167-173 | download, then delete project, policy, role and artifact, in that order; afterwards none of them remains |
| `AlppbMain.BuildAndRetrieve` | alppb/alppb.py:165-173 | a failed build exits 1 with status and build id before any download or teardown; SUCCEEDED leads to download and full teardown |
| `AlppbMain.BuildPackage` | alppb/alppb.py:160-176 | the provisioning, build, download and teardown order as one trace of the state-changing requests and the download, with the resources that exist at each exit |
| `AlppbMain.Run` | alppb/alppb.py:126-176 | no credentials, no region, a missing bucket or a region mismatch each end the run with the account untouched; the mismatch names both regions and advises `--region <bucket region>`; exit 0 only on success, and then the role, project and artifact are gone; a failed build exits 1 leaving role and project behind |
| `AlpacaCodeBuild.BuildspecLayout` | alpaca/codebuild.py:23-39 | version 0.2; commands exactly `pip-3.6 install <package> -t alpaca`, `cd alpaca/`, `zip -r ../alpaca.zip *`; artifact files exactly `["alpaca.zip"]` |
| `AlpacaCodeBuild.InstalledPackage` | alpaca/codebuild.py:28 | a package read back from the first command is one whose install command is exactly that command |
| `AlpacaCodeBuild.GenerateBuildspec` | alpaca/codebuild.py:8-39 | the package is recovered from the generated buildspec, so different packages give different buildspecs; the only artifact file is `alpaca.zip` |
| `AlpacaCodeBuild.CreateBuildProject` | alpaca/codebuild.py:65-103 | upsert on `alpacaBuilder` with the fixed image `irlrobot/amazonlinux1:latest`; create and update carry identical parameters |
| `AlpacaCodeBuild.DeleteBuildProject` | alpaca/codebuild.py:119 | removes `alpacaBuilder` and no other project |
| `AlpacaCodeBuild.WaitFrom` | alpaca/codebuild.py:137-148 | the recursive poll from poll `i` uses at most the remaining reports; SUCCEEDED is the last report read when it completes; it is pending only when the reports ran out |
| `AlpacaCodeBuild.WaitFromDecides` | alpaca/codebuild.py:137-148 | returns only at the first SUCCEEDED; every earlier status, FAILED included, is waited through |
| `AlpacaCodeBuild.WaitForBuildToComplete` | alpaca/codebuild.py:137-148 | the loop gives the recursive poll's outcome and polls the same build id each time |
| `AlpacaCodeBuild.BuildArtifact` | alpaca/codebuild.py:164-167 | starts exactly one build of `alpacaBuilder`; every poll is of the id `start_build` returned; a missing project raises and nothing is polled |
| `AlpacaIam.CreateRole` | alpaca/iam.py:22-35 | creates `alpacaBuilderRole` and only then attaches its one policy; returns the new role's ARN; an existing role raises and nothing is attached |
| `AlpacaIam.AddRolePolicy` | alpaca/iam.py:51-75 | puts exactly the policy `alpacaBuilderPolicy` on `alpacaBuilderRole`; a missing role raises |
| `AlpacaIam.DeleteRole` | alpaca/iam.py:91-97 | deletes the inline policy, then the role; a failed policy delete stops before the role delete |
| `AlpacaIam.CreateThenDeleteRole` | alpaca/iam.py:22-97 | from an account without the role, create then delete leaves IAM exactly as before |
| `AlpacaScript.EmbeddedBuildspecIsGenerated` | alpaca.py:27-33 | the embedded buildspec is alpaca's generated buildspec for `requests` |
| `AlpacaScript.ArtifactStaysInBucket` | alpaca.py:35-38 | the build uploads exactly `alpacaBuilder/alpaca.zip` into `rebukethe.net` |
| `AlpacaScript.CreateBuildProject` | alpaca.py:23-45 | plain create of `alpacaBuilder` (artifacts at rebukethe.net, image irlrobot/amazonlinux1:latest); an existing project raises |
| `AlpacaScript.DeleteBuildProject` | alpaca.py:53 | removes `alpacaBuilder` and no other project |
| `AlpacaScript.LocateFrom` | alpaca.py:59-70 | the recursive poll from poll `i` uses at most the remaining reports; a found location is the `artifacts.location` of the last report read, which is SUCCEEDED; it is pending only when the reports ran out |
| `AlpacaScript.LocateFromDecides` | alpaca.py:59-70 | a location is returned only from a SUCCEEDED report and is that report's `artifacts.location`; every other status re-polls |
| `AlpacaScript.LocateAgreesWithWait` | alpaca.py:56-70 | this poll stops exactly where alpaca's `wait_for_build_to_complete` stops |
| `AlpacaScript.GetArtifactLocation` | alpaca.py:56-70 | the loop gives the recursive poll's result and polls the same build id each time |
| `AlpacaScript.BuildArtifact` | alpaca.py:73-82 | starts exactly one build of `alpacaBuilder`; every poll is of the id `start_build` returned, and the result is the location of that build's SUCCEEDED report; a missing project raises and nothing is polled |
| `AlpacaScript.Run` | alpaca.py:91-99 | create project, build, delete project; no role, download or artifact deletion; the artifact stays in the bucket |
| `PollSnapshots.SnapshotsCompared` | alppb/codebuild.py:198-212 | on the same reports both polls agree where alppb returns or waits; where alppb exits, alpaca polls on from the next report |
| `PollSnapshots.FailedBuildDiverges` | alpaca/codebuild.py:140-148 | a FAILED report makes alppb exit with that status and id, while alpaca carries on past it |

## Left out

- boto3 client and resource construction, credential lookup and argparse are not modelled. Credentials are a boolean parameter and the resolved region is an `Option<string>`. argparse's restriction of `--python` to 2.7, 3.6 or 3.7 is not modelled: every version string is accepted, and the dispatch lemmas cover all of them.
- `print`, `time.sleep`, `yaml.dump` text and the base64 text of the IAM documents are not modelled. The documents are opaque constants.
- alppb/iam.py is not part of this model. alppb's role is a `RoleTemplate` parameter of `AlppbMain.Run`, and its names and documents are not modelled. It is created and deleted by `AlpacaIam.CreateRole` and `AlpacaIam.DeleteRole`, that is, with the create-then-attach and detach-then-delete shape of alpaca/iam.py.
- alpaca/alpaca.py is not modelled. It calls `iam.create_role(iam_client, bucket)` at alpaca/alpaca.py:114, but alpaca/iam.py:7 takes only `client`, so that call would raise a TypeError before anything is created.
- alpaca/s3.py is not modelled separately. It has the shape of alppb/s3.py, with the key `alpacaBuilder/alpaca.zip`.
- `subprocess.check_output` in alpaca.py:95 is shell I/O. The role ARN it yields is a parameter of `AlpacaScript.Run`.
- `AlppbCodeBuild.WaitForBuildToComplete`, `AlpacaCodeBuild.WaitForBuildToComplete` and `AlpacaScript.GetArtifactLocation` do not model the crash when recursion gets too deep. The source polls by plain recursion (alppb/codebuild.py:206, alpaca/codebuild.py:148, alpaca.py:70), and CPython has no tail-call elimination. Under the default recursion limit of 1000 frames, the process dies with an uncaught RecursionError after somewhat fewer than 1000 polls. For a FAILED alpaca build, that is how the run ends. The model's results, and those of the `WaitFrom` and `LocateFrom` definitions, stand for report sequences shorter than that limit.
- AlppbMain.Run, AlppbMain.BuildPackage and AlppbMain.Provision: do not model CodeBuild refusing a role that IAM has not yet propagated. In AWS, `create_project` can raise InvalidInputException right after `create_role` (alppb/alppb.py:161-164). The `except` at alppb/codebuild.py:141 catches only ResourceAlreadyExistsException, so such a run would crash with the role left behind and no project. `Account.CreateProject` has no such refusal, so these contracts promise a project and a build once the gates pass and the role is new.
- Polling a real service is not modelled. The model reads a finite report sequence, and it claims nothing about whether a remote build ever finishes.
- Concurrent runs are not modelled. Two runs collide on the fixed names `alppbBuilder`, `alpacaBuilder` and `alpacaBuilderRole`. This is a known hazard.
- The integration tests need live AWS and are not modelled. For a nonexistent bucket they expect exit 1, but the code lets the `get_bucket_location` error propagate (`Crashed` in the model).
- Responses from the services are not modelled beyond the values the tools read from them: the role ARN, the build id, the build status and the artifact location.
