# Proxmox push-to-deploy: a verified model of the deployment core

The system takes a request to host a GitHub repository on a Proxmox VM or
LXC container. It validates the request against a registry of supported
frameworks and stores a `Deployment` row. It then drives the lifecycle
of that row:

- provision the machine with Terraform;
- wait until SSH answers;
- generate the framework's install and deploy scripts;
- mark the row `running`, or `failed` with the error's text.

Later it can destroy the infrastructure, mark the row `deleted`, or
reboot the VM.

This project models that core in Dafny:

- `config.dfy` (module `Config`): the resource limits (8 cores, 16384 MB,
  500 GB) and the framework registry. The registry has eleven lower-case
  names, each with a language and a port. Both lookups are
  case-insensitive.
- `validators.dfy` (module `Validators`):
  - `validate_deployment_request`, with its checks in their fixed order;
  - the GitHub URL pattern, decided by scanning the string and proved
    equal to the regular expression's language;
  - the name pattern, as a predicate over its character class and length;
  - `sanitize_github_url` and `extract_repo_info`.
- `script_generator.dfy` (module `ScriptGenerator`): the install and
  deploy script generators. Each builds a header, a language section
  and a trailer, and the contracts say what each one contains (shebang,
  framework banner, `git clone`, the registry port, the firewall rules,
  the systemd `ExecStart=` line of each branch).
- `database.dfy` (module `Database`):
  - the `Deployment` row as a class with one method per field update the
    service performs;
  - the six status names, which are pairwise distinct;
  - the `Record` value of a row, which the specification functions use.
- `deployment_service.dfy` (module `Deployments`):
  - `DeploymentService` as a class holding the table, the workspace
    directories on disk and a ghost history of commits and external
    calls;
  - `_deploy`, `_wait_for_vm_ready` (a loop over an abstract clock and
    probe), `destroy`, `restart`, and the DELETE handler's `deleted`
    transition, proved against specification functions (`DeployRun`,
    `Ready`, `DestroyReply`) whose properties are lemmas.
- `text.dfy` and `wrappers.dfy`: string helpers (`lower`, `startswith`,
  `endswith`, `replace(t, '')`, `str(n)`) and `Option`/`Result`.

External collaborators become values passed in:

- Terraform's answers are a `Provisioning` value. `create_workspace` may
  raise in `os.makedirs` (no directory is made) or after it, `apply` gives
  `(ok, output)` or raises, and `get_outputs` gives a map whose keys may be
  missing.
- `destroy` is a `TerraformRun`.
- Proxmox's `restart_vm` is a `bool`.
- The SSH probe and the clock are functions from the iteration number.
- `datetime.utcnow()` is an integer instant `now`.
- `PROXMOX_NODE` and `TERRAFORM_WORK_DIR` are fields of the service.

## Model

| member | source | states |
|---|---|---|
| Config.GetFrameworkInfo | backend/utils/config.py:72-75 | an entry exactly when the lower-cased name is registered; the entry is the one under the lower-cased name and its port is one of 3000, 5000, 8000, 8080 |
| Config.IsFrameworkSupported | backend/utils/config.py:67-75 | supported iff the lower-cased name is one of the eleven registered names, iff `get_framework_info` finds an entry |
| Config.RegistryShape | backend/utils/config.py:53-65 | the registry's keys are exactly the eleven framework names, so it has 11 entries |
| Config.FrameworkCount | backend/utils/config.py:53-65 | the eleven registered names are pairwise distinct |
| Config.RegistryKeysAreLowerCase | backend/utils/config.py:53-70 | every registered name is its own lower case and is supported as spelled |
| Config.LookupIgnoresCase | backend/utils/config.py:67-75 | two spellings equal once lowered get the same answers from both lookups, and `f` answers as `f.lower()` does |
| Validators.FirstMissingIndex | backend/utils/validators.py:20-23 | the scan stops at the first required field absent from the request: every earlier field is present and the one it names is absent |
| Validators.ValidateDeploymentRequest | backend/utils/validators.py:8-58 | `(True, None)` iff the request is accepted by all checks; the first missing of type, framework, github_url is named; then the type, framework, URL, cpu, memory and disk messages, each only when every earlier check passed; a framework or URL that is not a string raises at its step; past the disk check the name check decides |
| Validators.NameCheck | backend/utils/validators.py:53-56 | an absent or falsy name passes; a truthy string passes iff it is a valid name and otherwise gives the name message; a truthy non-string raises in `re.match` |
| Validators.IsValidGithubUrl | backend/utils/validators.py:60-63 | true iff the URL is in the regular expression's language: `https://github.com/` + a `[\w-]+` owner + `/` + a `[\w.-]+` repository + an optional `.git` |
| Validators.GithubUrlMatchesPattern | backend/utils/validators.py:60-63 | the scan that decides `is_valid_github_url` accepts a URL iff it is `https://github.com/` + a `[\w-]+` owner + `/` + a `[\w.-]+` repository + an optional `.git` |
| Validators.ValidUrlHasParts | backend/utils/validators.py:60-63 | an accepted URL splits into the pattern's parts |
| Validators.PartsMakeValidUrl | backend/utils/validators.py:60-63 | a URL built from the pattern's parts is accepted |
| Validators.SlashAfterOwner | backend/utils/validators.py:62 | the first slash after the prefix is the one after the owner, since `[\w-]` has no slash |
| Validators.AcceptedGithubUrls | tests/test_validators.py:16-20 | the two GitHub URLs of the unit tests are accepted |
| Validators.RejectedGithubUrls | tests/test_validators.py:22-29 | the GitLab URL, `not-a-url` and the URL without an owner are rejected |
| Validators.IsValidName | backend/utils/validators.py:65-68 | one to a hundred characters, each an ASCII letter, digit, `-` or `_` |
| Validators.DefaultName | backend/api/deployment.py:44 | the default name: the framework as given, `-`, then the rendered timestamp |
| Validators.RegistryNamesAreNames | backend/utils/config.py:53-65 | every registered framework name is at most ten name characters |
| Validators.DefaultNameIsValid | backend/api/deployment.py:44 | a supported framework written without the Kelvin sign, followed by a `%Y%m%d-%H%M%S` stamp, gives a name `is_valid_name` accepts |
| Validators.KelvinFlaskDefaultName | backend/api/deployment.py:44 | `flas` + Kelvin sign is supported, yet its default name fails `is_valid_name` |
| Validators.NameExamples | tests/test_validators.py:34-47 | `myapp123`, `my-app` and `my_app` are valid names; `my app` and `my@app` are not |
| Validators.SanitizeGithubUrl | backend/utils/validators.py:70-75 | a URL ending in `.git` loses exactly that suffix, any other URL is unchanged |
| Validators.SanitizeUndoesGitSuffix | backend/utils/validators.py:70-75 | sanitizing `u + ".git"` gives `u` back, and `u + ".git.git"` loses only one suffix |
| Validators.OwnerSpan | backend/utils/validators.py:80 | the longest prefix of `[\w-]` characters: all of it is in the class and the next character is not |
| Validators.RepoSpan | backend/utils/validators.py:80 | the longest prefix of `[\w.-]` characters: all of it is in the class and the next character is not |
| Validators.RepoGroupsMatch | backend/utils/validators.py:80-81 | the span-based groups are exactly the groups `re.match` captures: anchored at the start, each greedy group maximal |
| Validators.FoundGroupsMatch | backend/utils/validators.py:80-81 | groups found by the spans satisfy the pattern |
| Validators.MatchedGroupsFound | backend/utils/validators.py:80-81 | groups the pattern captures are the ones the spans find |
| Validators.GroupsOfRepoUrl | backend/utils/validators.py:80-81 | on `https://github.com/<owner>/<repo>` the captured groups are that owner and repository |
| Validators.ExtractRepoInfo | backend/utils/validators.py:77-89 | none exactly when the pattern does not match at the start; otherwise the owner group and the repository group with every `.git` deleted |
| Validators.ExtractRepoInfoStrippingSuffix | backend/utils/validators.py:77-89 | the same match, with only a trailing `.git` removed from the repository group |
| Validators.RepoInfoOfDjango | tests/test_validators.py:108-113 | `https://github.com/django/django.git` gives owner `django`, repository `django` |
| Validators.RepoInfoOfReact | tests/test_validators.py:115-120 | `https://github.com/facebook/react` gives owner `facebook`, repository `react` |
| Validators.RepoInfoOfOtherHost | tests/test_validators.py:122-124 | `https://invalid.com/user/repo` gives none |
| Validators.ReplaceDeletesInnerGit | backend/utils/validators.py:86 | `https://github.com/octo/octo.github.io` is reported as repository `octohub.io` |
| Validators.SuffixStripKeepsInnerGit | backend/utils/validators.py:86 | with suffix stripping the same URL keeps repository `octo.github.io` |
| ScriptGenerator.SystemdService | backend/utils/script_generator.py:233-250 | the unit holds its environment line and the `ExecStart=` line of its command |
| ScriptGenerator.ServiceSection | backend/utils/script_generator.py:226-251 | the section extends its base text and holds the service's environment and `ExecStart=` lines |
| ScriptGenerator.InstallHeader | backend/utils/script_generator.py:26-39 | the install header starts with `#!/bin/bash\nset -e` and names the framework as given |
| ScriptGenerator.PythonInstall | backend/utils/script_generator.py:65-95 | the Python toolchain, ending with the django, flask or fastapi packages for exactly those names; the toolchain alone iff the name is none of them |
| ScriptGenerator.JavascriptInstall | backend/utils/script_generator.py:97-116 | Node.js, plus yarn exactly for react, vue and nextjs |
| ScriptGenerator.PhpInstall | backend/utils/script_generator.py:118-139 | PHP and Composer, plus the Laravel installer exactly for `laravel` |
| ScriptGenerator.FirewallTrailer | backend/utils/script_generator.py:51-61 | opens `{port}/tcp` and `22/tcp` and ends with the completion line |
| ScriptGenerator.GenerateInstallScript | backend/utils/script_generator.py:7-63 | fails with `Framework non supporté: <f>` iff the framework is not registered; otherwise starts with the shebang, names the framework, holds the install section of its registry language, opens its registry port and SSH, and ends with the completion line |
| ScriptGenerator.DeployHeader | backend/utils/script_generator.py:174-193 | the deploy header starts with the shebang, announces the port and holds `git clone <url> app` |
| ScriptGenerator.DeployTrailer | backend/utils/script_generator.py:205-208 | the trailer's last line announces the port |
| ScriptGenerator.PythonDeploy | backend/utils/script_generator.py:212-299 | a venv with the requirements, then gunicorn on `wsgi:application` for django, gunicorn on `app:app` for flask, uvicorn for fastapi, all on the port; any other name gets the venv section alone |
| ScriptGenerator.JavascriptDeploy | backend/utils/script_generator.py:301-384 | react and vue run `serve -s build -l <port>`; nextjs runs `npm start` with `PORT=<port>`; every other name runs `node server.js` with `PORT=<port>` |
| ScriptGenerator.PhpDeploy | backend/utils/script_generator.py:386-429 | empty iff the name is not `laravel`; for laravel an nginx site listening on the port |
| ScriptGenerator.JavaDeploy | backend/utils/script_generator.py:431-458 | empty iff the name is not `springboot`; for springboot a service running the jar on the port |
| ScriptGenerator.GenerateDeployScript | backend/utils/script_generator.py:153-210 | fails with `Framework non supporté: <f>` iff the framework is not registered; otherwise starts with the shebang, announces the registry port, clones the URL into `app`, holds the deploy section of the registry language and ends by announcing the port |
| ScriptGenerator.InstallIgnoresDeploymentType | backend/utils/script_generator.py:7-63 | the install script does not depend on the deployment type |
| ScriptGenerator.DeployIgnoresDeploymentType | backend/utils/script_generator.py:153-210 | the deploy script does not depend on the deployment type |
| ScriptGenerator.MixedCaseReactRunsNodeServer | backend/utils/script_generator.py:166-203 | `React` is supported, yet its deploy script runs `node server.js` |
| ScriptGenerator.MixedCaseFlaskGetsNoPackages | backend/utils/script_generator.py:42-93 | `Flask` is registered as Python on port 5000, yet gets neither the flask packages nor a service |
| Database.StatusNamesDistinct | backend/models/database.py:37 | two statuses stored under the same name are the same status, so a query on the column's text selects exactly the rows in that status |
| Database.Deployment.constructor | backend/api/deployment.py:43-52 | a new row has status `pending`, both timestamps at the creation instant, and no Proxmox, error or log columns |
| Database.Deployment.MarkCreating | backend/services/deployment_service.py:45 | only the status changes, to `creating` |
| Database.Deployment.RecordTerraformOutput | backend/services/deployment_service.py:55 | only `terraform_output` changes |
| Database.Deployment.RecordVm | backend/services/deployment_service.py:62-64 | only the Proxmox id, IP address and node change |
| Database.Deployment.MarkRunning | backend/services/deployment_service.py:81-85 | only the log, status `running` and `deployed_at` change |
| Database.Deployment.MarkFailed | backend/services/deployment_service.py:93-94 | only status `failed` and the error message change |
| Database.Deployment.Touch | backend/services/deployment_service.py:186 | only `updated_at` changes |
| Database.Deployment.MarkDeleted | backend/api/deployment.py:109-110 | only status `deleted` and `updated_at` change |
| Deployments.WorkspaceDir | backend/services/deployment_service.py:154-157 | the workspace path is the work directory, then the separator `os.path.join` adds (none after an empty directory or a trailing slash), then the leaf `deployment-<id>` with the id in decimal |
| Deployments.WorkspaceDirsDistinct | backend/services/terraform_service.py:23 | two deployments never share a workspace directory |
| Deployments.DefaultWorkspaceOf7 | backend/services/deployment_service.py:154-157 | with the default work directory, deployment 7 lives in `./terraform/workspaces/deployment-7` |
| Deployments.ReadyFrom | backend/services/deployment_service.py:104-119 | the loop's answer from its k-th test of the condition on: true at the first probe that connects while time is left, false once the timeout is reached |
| Deployments.Ready | backend/services/deployment_service.py:97-121 | the loop's answer from its first test, the elapsed time counted from the first clock reading |
| Deployments.WaitForVmReady | backend/services/deployment_service.py:97-121 | true iff the VM has an address and the specification `Ready` answers true; without an address every probe raises and the wait can only time out |
| Deployments.ReadyFromMeansProbeSucceeds | backend/services/deployment_service.py:104-119 | from any iteration on, the loop answers true iff some later probe connects before the timeout |
| Deployments.ReadyMeansProbeSucceeds | backend/services/deployment_service.py:97-121 | true iff some probe of port 22 returns 0 while less than `timeout` seconds have elapsed; false only once the timeout is reached |
| Deployments.ReadyAtFirstProbe | backend/services/deployment_service.py:104-114 | no time left at the first test gives false; a first probe that connects in time gives true |
| Deployments.InstallFramework | backend/services/deployment_service.py:123-130 | `_install_framework` raises iff `generate_install_script` does, with the same message, and otherwise reports the framework installed |
| Deployments.DeployApplication | backend/services/deployment_service.py:132-142 | `_deploy_application` raises iff `generate_deploy_script` does, with the same message, and otherwise reports the repository deployed |
| Deployments.CompleteRun | backend/services/deployment_service.py:70-95 | after the VM exists: ends `running` or `failed`, changes only status, error, log and deployment instant, and a failure keeps the log and instant |
| Deployments.ProvisionRun | backend/services/deployment_service.py:49-95 | the Terraform steps keep the request columns, log and instant; they fail with an error message exactly when provisioning does not reach the outputs |
| Deployments.DeployRun | backend/services/deployment_service.py:41-95 | a run ends `running` or `failed`, and its last event is the commit of its final row |
| Deployments.StepsInOrder | backend/services/deployment_service.py:45-71 | the events are `creating` committed, create workspace, apply, read outputs, wait, cut after the step that ended the run, then the final commit |
| Deployments.RunningIffEveryStepSucceeds | backend/services/deployment_service.py:49-86 | `running` iff the workspace is made, apply succeeds, the VM has an address and answers there in time, and the framework is supported |
| Deployments.ApplyOutputRecorded | backend/services/deployment_service.py:53-95 | apply's output is stored whether or not apply succeeded; a failed apply fails the run with a message that ends with that output |
| Deployments.OutputsCopied | backend/services/deployment_service.py:61-64 | past a successful apply the Proxmox id and IP are the outputs' (a missing key gives none) and the node is the configured one |
| Deployments.RunningRecord | backend/services/deployment_service.py:81-86 | on success, the row has an IP address, log = install log + blank line + deploy log, `deployed_at = now`, and the error message is untouched |
| Deployments.RunKeepsRequest | backend/services/deployment_service.py:41-95 | a run never changes the row's id, request columns or timestamps of creation and update |
| Deployments.FailedRecord | backend/services/deployment_service.py:91-95 | a failed run has an error message and never a new log or deployment instant |
| Deployments.TimeoutFails | backend/services/deployment_service.py:70-71 | a VM that is not ready, or that has no address, fails the run with the timeout message |
| Deployments.UnsupportedFrameworkFailsLate | backend/services/deployment_service.py:73-95 | an unsupported framework fails only after the VM exists, with the generator's message, keeping the VM id |
| Deployments.ErrorMessageIffFailed | backend/services/deployment_service.py:91-95 | starting without an error message, a run leaves one iff it fails |
| Deployments.DestroyReply | backend/services/deployment_service.py:144-168 | not found gives `(False, "Déploiement introuvable")`; no workspace gives `(True, "Déploiement détruit")`; otherwise success iff Terraform destroy succeeds, with `Erreur Terraform: <output>` on failure |
| Text.Lower | backend/utils/config.py:70 | same length, each character lowered (ASCII capitals and the Kelvin sign; everything else kept) |
| Text.LowerIdempotent | backend/utils/config.py:70 | lowering twice is lowering once |
| Text.RemoveAll | backend/utils/validators.py:86 | `s.replace(t, '')` is never longer than `s` |
| Text.RemoveAllWithoutOccurrence | backend/utils/validators.py:86 | a string without an occurrence of `t` is unchanged |
| Text.RemoveAllDropsLeading | backend/utils/validators.py:86 | an occurrence of `t` at the front is deleted |
| Text.RemoveAllKeepsClearPrefix | backend/utils/validators.py:86 | characters that cannot start an occurrence of `t` are kept, in order |
| Deployments.DeploymentService.constructor | backend/services/deployment_service.py:20-22 | an empty table, no workspace, an empty history |
| Deployments.DeploymentService.Add | backend/api/deployment.py:54-55 | the row is stored under its id, its creation is committed, and nothing else changes |
| Deployments.DeploymentService.Deploy | backend/services/deployment_service.py:31-95 | an unknown id changes nothing; otherwise the row and the history become what `DeployRun` gives, and the workspace directory exists unless `os.makedirs` raised |
| Deployments.DeploymentService.RunDeployment | backend/services/deployment_service.py:41-95 | the `try` block leaves the row and history as `DeployRun` says, and the workspace directory exists unless `os.makedirs` raised |
| Deployments.DeploymentService.Provision | backend/services/deployment_service.py:49-64 | the Terraform steps leave the row as `ProvisionRun` says, answer whether the outputs were reached, and create the workspace directory unless `os.makedirs` raised |
| Deployments.DeploymentService.CompleteDeployment | backend/services/deployment_service.py:70-95 | wait result, install and deploy leave the row as `CompleteRun` says |
| Deployments.DeploymentService.Destroy | backend/services/deployment_service.py:144-168 | answers `DestroyReply`, changes no row, and calls Terraform destroy exactly when the row exists and its workspace directory exists |
| Deployments.DeploymentService.Restart | backend/services/deployment_service.py:170-194 | unknown id gives the not-found reply; otherwise the reboot is asked with the row's node and VM id, and only a successful one changes the row, only its `updated_at`, and commits |
| Deployments.DeploymentService.Delete | backend/api/deployment.py:97-122 | destroys; on success the row becomes `deleted` with a new `updated_at` and is committed, otherwise it is unchanged and the destroy message is returned |

## Left out

- Threading: `deploy_async` runs `_deploy` on a daemon thread; the model runs it synchronously.
- Real I/O: sockets, sleeping, Terraform, Proxmox and the database session become values passed in; `db.session.commit()` is an event in the ghost history, and commits never fail.
- Terraform's HCL generation, `terraform init` and the parsing of `terraform output` (backend/services/terraform_service.py): only their answers are modelled. `create_workspace` is split at `os.makedirs`: a failure there leaves no directory, a later failure leaves the directory on disk.
- The SQLAlchemy `onupdate` of `updated_at`: the real column is refreshed at every commit. `_deploy`'s contracts state that it never writes `updated_at` itself.
- Logging, the Flask routes other than the creation and DELETE handlers, HTTP status codes, `to_dict`, the app factory, the frontend and the CLI script.
- The creation handler: modelled only as the `Deployment` constructor and `DeploymentService.Add`. Its default name is `Validators.DefaultName`, with the rendered clock passed in.
- Environment variables: the limits are their defaults; `PROXMOX_NODE` and `TERRAFORM_WORK_DIR` are fields of the service.
- The `except` branches of `destroy` and `restart`: `restart_vm` catches its own exceptions and answers `False`, and the only call in `destroy` that can raise is Terraform's destroy, which `TerraformRun.Raised` covers.
- Python regex quirks: `\w` is read as ASCII (Python's is Unicode-aware), and `$` is taken to end the string (Python's also matches before a final newline).
- Python type quirks: `str.lower` is modelled for ASCII letters and the Kelvin sign only; other Unicode case mappings are not modelled.
- Request values that are floats, lists or objects are one `Other` case that only carries its truthiness.
- Deployments.InstallFramework and Deployments.DeployApplication: the generated script is discarded by the source, so the model checks the registry directly; their contracts prove that this raises exactly when the generators raise.
- Deployments.DeploymentService.RunDeployment: the history gets the run's events when the run ends, not one at a time as the commits happen; the order of the events is the source's.
- ScriptGenerator.GenerateInstallScript: the contract states the first line, the framework banner, the language section, the firewall rules and the last line; that the header, the language section and the firewall trailer come in that order is not stated beyond the first and last lines.
- ScriptGenerator.GenerateDeployScript: the contract states the first line, the port announcement, the clone line, the language section and the last line; the order of the header, the language section and the trailer is not stated beyond the first and last lines.
- The other script generator members: their contents are stated as containment of the lines that matter (shebang, banner, clone line, port lines, firewall rules, `ExecStart=` lines), not character by character.
- Text.RemoveAll: its contract only bounds the length of the result; what the deletion keeps and removes is stated by `Text.RemoveAllWithoutOccurrence`, `Text.RemoveAllDropsLeading` and `Text.RemoveAllKeepsClearPrefix`.
- The request validation unit tests on full request maps (tests/test_validators.py:52-103) are covered by the general contract of `Validators.ValidateDeploymentRequest` and not restated as separate examples.

## Findings

| source | as written | input that shows it | evidently intended | confidence | as-written member | corrected member |
|---|---|---|---|---|---|---|
| backend/utils/validators.py:86 | `match.group(2).replace('.git', '')` deletes every `.git` in the repository name | `https://github.com/octo/octo.github.io` gives repository `octohub.io` | remove only a trailing `.git`, as `sanitize_github_url` does; the unit tests only exercise the suffix | not executed | Validators.ReplaceDeletesInnerGit | Validators.ExtractRepoInfoStrippingSuffix |

Design choices of the source that the model keeps as they are:

- `destroy` never removes the workspace directory, so a second `destroy` calls Terraform again.
- A default name is never checked against the name rule; a framework spelled with the Kelvin sign gives one that breaks it (`Validators.KelvinFlaskDefaultName`).
- The framework is only checked by the script generators, after the VM has been provisioned (`Deployments.UnsupportedFrameworkFailsLate`).
- The framework-specific branches of the generators compare the name as written, while the registry lowers it (`ScriptGenerator.MixedCaseReactRunsNodeServer`, `ScriptGenerator.MixedCaseFlaskGetsNoPackages`).
