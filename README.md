# Muicebot sandbox plugin: a verified model of its core

The Muicebot sandbox plugin lets a chat model run Python code in a throw-away
Docker container. The user's uploaded files are copied in, and files the code
announces with `<output>…</output>` tags are handed back to the chat. This
project models the decision and bookkeeping logic of the plugin and proves
properties about it. The Docker runtime, the filesystem and the chat framework
are replaced by inputs or small stand-ins.

The modules follow the repository:

- `Models` (`models.dfy`): the framework's `Resource`, `Option` and bytes.
- `Strings` (`strings.dfy`): the parts of Python's `str` the code relies on.
  These are `find`, `in`, ASCII `lower`, `replace(c, "")`, `join` and decimal
  formatting. `Split` is not used by the code. It is the inverse of `join` in
  the round-trip lemmas: `SplitJoin`, `RequirementsRoundTrip`,
  `WslPathSplitsBack` and `BindSplitsBack`.
- `Seqs` (`seqs.dfy`): the first element of a sequence with a property, used
  by the build-log loop. It also holds `ScriptAt`, the k-th answer of the
  scripted Docker client.
- `Utils` (`utils.dfy`): `convert_path_to_wsl` and `read_attachment`, modelled
  once for the two identical copies of `utils.py`.
- `Docker` (`docker.dfy`): the engine in `docker.py`, modelled once for both
  copies. A `Variant` selects the image version (`v1.2` or `v1.1`) and the
  empty-log text: the placeholder `(容器无返回或容器执行超时)` or `""`. This
  module has three parts:
  - **Output extractor.** `FindAll` is the scan `re.findall(r"<output>(.*?)</output>", log, re.DOTALL)`
    performs: at each position, an opener with a closer somewhere after it is
    matched up to the nearest closer, and the scan continues after it.
  - **Image provisioning.** `_build_image` is the method `Sandbox.BuildImage`.
    It is recursive like the source and is proved against the function
    `BuildFrom`.
  - **Container lifecycle.** `run_sandbox` is the method `Sandbox.RunSandbox`
    with its helpers, proved against `SandboxRun` and `ContainerRun`.

  The Docker client is the class `DockerClient`. Its k-th image listing and
  k-th build stream are scripted, and so is every container call. It records
  each call it receives in `trace`, so the contracts state the exact sequence
  of runtime calls.
- `Plugin` (`plugin.dfy`): the two module-level maps of `__init__.py`
  (`_file_ids`, `_output_files`) as the fields of the class `SessionStore`,
  with the method forms of:
  - `collect_files`;
  - `add_system_prompt`;
  - `check_if_outputs`;
  - the staging and bookkeeping of `run_python_code`.

A `Docker` member cites one copy of `docker.py`, but it models both copies.
Their lines correspond as follows:
- `_build_image`: sandbox 48-89, runner 44-83;
- `_extract_output_file`: sandbox 91-106, runner 85-100;
- `run_sandbox`: sandbox 108-173, runner 102-157.

Two consequences of the code are worth stating up front:
- **Bodies are kept untrimmed.** Each captured body is joined to the
  execution directory as it is (`docker.py:104`), whitespace and newlines
  included. `ExtractTagged` proves this form.
- **Delete happens on one path only.** `delete` is not in a `finally`
  (`docker.py:166`). It is called only once the log has been fetched, so a
  create, start, wait or log call that raises leaves the container in place.
  `DeleteIffLogFetched` proves exactly that.

Some definitions carry no contract of their own. Each is defined by its body
and characterised by the rows named with it:
- `Docker.ExtractOutputFiles` (`_extract_output_file`, sandbox `docker.py:91-106`):
  ExtractIsFullScan, NoOpenerNoOutputs, ExtractTagged, TwoTagExample.
- `Docker.CacheHit` and `Docker.FirstTag` (`docker.py:56-60`): CacheHitIff,
  Sandbox.FindCachedImage, CacheHitSkipsBuild.
- `Docker.IsFailureLine` (`docker.py:75-80`): FailureLineIff,
  EntryWithoutStreamIsSkipped, LowerCaseErrorIsNoFailure.
- `Docker.BuildFrom` (`docker.py:48-89`): the provisioning rows from
  CacheHitSkipsBuild to BuildRaisesIffEveryAttemptFails, and Sandbox.BuildImage.
- `Docker.CreateConfig` (`docker.py:120-131`): WindowsBindSplitsBack,
  Sandbox.RunContainer.
- `Docker.ErrorReply` (`docker.py:169-173`): ErrorReplyShape, RunOutcome.
- `Docker.LogText` (sandbox `docker.py:158`, runner `docker.py:143`):
  RunOutcome, SilentContainer.
- `Docker.ContainerRun`, `Docker.AfterStart` and `Docker.Collect`
  (`docker.py:116-173`): RunOps, RunFollowsLifecycle, KillIffTimedOut,
  KillOutcomeIgnored, DeleteIffLogFetched, RunOutcome, SilentContainer, and
  the methods Sandbox.RunContainer, AwaitAndCollect and CollectLog.
- `Docker.SandboxRun` (`docker.py:108-173`): SandboxRaisesIffBuildRaises,
  Sandbox.RunSandbox.
- `Plugin.FileId` and `Plugin.FileIds` (`__init__.py:111`): FileIdInjective,
  FileIdsDistinct, CollectedLookup.
- `Plugin.Register`, `Plugin.Tags` and `Plugin.Collected` (`__init__.py:108-113`):
  RegisterLookup, RegisterFrame, TagsPrefix, TagOfEach, CollectedLookup,
  CollectedFrame, CollectedHasFiles, SessionStore.CollectFiles.
- `Plugin.HasFiles` (`__init__.py:119`): CollectedHasFiles,
  SessionStore.AddSystemPrompt.
- `Plugin.Pending` (`__init__.py:133`): OutputsReachCompletion,
  SessionStore.CheckIfOutputs.
- `Plugin.Entry` and `Plugin.Stage` (`__init__.py:81-87`):
  StageStopsAtFirstFailure, StageSticks, SessionStore.StageAttachments.
- `Plugin.StopReply`, `Plugin.RunReply` and `Plugin.StoreOutputs`
  (`__init__.py:82-100`): OutputsReachCompletion, SessionStore.RunPythonCode.
- `Utils.Rest` (`utils.py:25`): ConvertPathToWsl, WslPathSplitsBack.

## Model

| member | source | states |
|---|---|---|
| `Strings.Find` | muicebot_plugin_sandbox/docker.py:97 | `find` returns -1 or an index at or after the start where the pattern occurs |
| `Strings.FindIsFirst` | muicebot_plugin_sandbox/docker.py:97-98 | no occurrence lies before the index `find` reports, and none at all when it reports -1 |
| `Strings.ContainsIff` | muicebot_plugin_sandbox/docker.py:80 | `pat in s` holds exactly when `pat` occurs somewhere in `s` |
| `Strings.Lower` | muicebot_plugin_sandbox/utils.py:24 | `lower()` keeps the length, lower-cases every ASCII capital, keeps every other character, and leaves no capital |
| `Strings.RemoveAll` | muicebot_plugin_sandbox/utils.py:24 | `replace(":", "")` leaves no `:` and keeps only characters of the text; a text without `:` is unchanged |
| `Strings.RemoveAllCounts` | muicebot_plugin_sandbox/utils.py:24 | every character other than the removed one is kept as often as it occurs |
| `Strings.RemoveAllAppend` | muicebot_plugin_sandbox/utils.py:24 | removal splits over concatenation, so what is kept stays in its order |
| `Strings.RemoveAllChar` | muicebot_plugin_sandbox/utils.py:24 | a single character is dropped when it is the removed one and kept otherwise; with RemoveAllAppend this fixes the result of every text |
| `Strings.JoinAvoids` | muicebot_plugin_sandbox/utils.py:26 | joining pieces without a character by a separator without it gives a text without it |
| `Strings.SplitJoin` | muicebot_plugin_sandbox/__init__.py:91 | splitting the parts joined by a separator gives the parts back when none contains it |
| `Strings.NatToString` | muicebot_plugin_sandbox/__init__.py:111 | the decimal form of a number is a non-empty string of digits, one digit exactly below 10, with no leading zero except for 0 itself |
| `Strings.NatToStringValue` | muicebot_plugin_sandbox/__init__.py:111 | the digits denote the number: reading them back left to right gives `n` |
| `Strings.NatToStringInjective` | muicebot_plugin_sandbox/__init__.py:111 | different numbers have different decimal forms |
| `Seqs.FirstIndex` | muicebot_plugin_sandbox/docker.py:74-81 | the index found has the property and no element before it has it; -1 means no element has it |
| `Utils.MountDrive` | muicebot_plugin_sandbox/utils.py:24 | the drive segment holds no `:` and no capital, holds the characters of the lower-cased drive, each as often, except every `:`, and is the lower-cased drive itself when that has no `:` |
| `Utils.LowerKeepsColons` | muicebot_plugin_sandbox/utils.py:24 | lower-casing neither creates nor removes a `:` |
| `Utils.MountDriveOfDriveLetter` | muicebot_plugin_runner/utils.py:21 | a drive such as "C:" is mounted as its lower-case letter |
| `Utils.ConvertPathToWsl` | muicebot_plugin_sandbox/utils.py:21-28 | on Windows the result is `/mnt/`, the mount drive, `/` and the non-anchor parts joined by `/`; elsewhere it is the resolved path text |
| `Utils.WslPathOfDriveRoot` | muicebot_plugin_runner/utils.py:21-23 | with no part beyond the anchor the translation is `/mnt/<drive>/` |
| `Utils.WslPathSplitsBack` | muicebot_plugin_runner/utils.py:22-23 | the Windows translation splits on `/` into "", "mnt", the drive and exactly the non-anchor parts, in order |
| `Utils.WslPathHasNoColon` | muicebot_plugin_sandbox/utils.py:24-26 | when no part beyond the anchor holds a `:`, the Windows translation holds none |
| `Utils.ReadAttachment` | muicebot_plugin_sandbox/utils.py:8-18 | raw bytes come back unchanged; a path string yields the file's bytes, or a failure when there is no such file; a stream yields what remains after its position |
| `Docker.FindAll` | muicebot_plugin_sandbox/docker.py:100-101 | every match the scan reports lies inside the log, opener before closer, at or after the start |
| `Docker.FindAllMatchesAreNearest` | muicebot_plugin_sandbox/docker.py:100-101 | each reported match is an opener followed by the nearest closer after it (non-greedy) |
| `Docker.FindAllInOrder` | muicebot_plugin_runner/docker.py:92-93 | the matches come in order of appearance and do not overlap |
| `Docker.FindAllIsLeftmost` | muicebot_plugin_sandbox/docker.py:100-101 | no match could start in any stretch between the reported matches, so they are the leftmost non-overlapping ones |
| `Docker.NoOpenerNoMatches` | muicebot_plugin_runner/docker.py:89-93 | a log without `<output>` yields no matches in the full scan |
| `Docker.ExtractIsFullScan` | muicebot_plugin_sandbox/docker.py:97-104 | the short-circuit on a missing opener gives the same result as the full scan: one file resource per match, in order |
| `Docker.NoOpenerNoOutputs` | muicebot_plugin_sandbox/docker.py:97-98 | a log without the substring `<output>` gives no outputs |
| `Docker.NoCloserIff` | muicebot_plugin_sandbox/docker.py:100 | "no closer occurs in the body" is Python's `"</output>" not in body` |
| `Docker.BodyHasNoCloser` | muicebot_plugin_sandbox/docker.py:100-101 | a captured body never contains `</output>` |
| `Docker.UnclosedOpenerContributesNothing` | muicebot_plugin_runner/docker.py:92-93 | an opener with no closer after it yields nothing: every match opens and closes before it |
| `Docker.ExtractTagged` | muicebot_plugin_sandbox/docker.py:100-104 | for a log made of text containing no `<` between tags whose bodies contain no `</output>` (bodies may span newlines), extraction gives back every body, untrimmed and in order, as a file resource at `exec_dir / body`; other logs are covered by FindAllMatchesAreNearest and FindAllIsLeftmost |
| `Docker.TwoTagExample` | muicebot_plugin_runner/docker.py:92-98 | two tags between plain text give two file resources in order of appearance |
| `Docker.CacheHitIff` | muicebot_plugin_sandbox/docker.py:56-60 | the engine's reference is never empty, so an image without tags never hits: a listing hits exactly when some image has tags and its first is the reference |
| `Docker.EntryWithoutStreamIsSkipped` | muicebot_plugin_runner/docker.py:68-70 | a build-log entry without a "stream" key is never a failure |
| `Docker.FailureLineIff` | muicebot_plugin_sandbox/docker.py:80 | a stream entry is a failure exactly when "Exception" or "Error" occurs in its text |
| `Docker.LowerCaseErrorIsNoFailure` | muicebot_plugin_runner/docker.py:74 | the failure test is case-sensitive: "error: retrying" is no failure |
| `Docker.CacheHitSkipsBuild` | muicebot_plugin_sandbox/docker.py:56-60 | when a listed image's first tag is the engine's reference, provisioning lists once, submits no build and does not raise |
| `Docker.CleanStreamCompletes` | muicebot_plugin_sandbox/docker.py:74-81 | after a miss, a stream without a failure entry is read to its end and provisioning completes without raising, after one build |
| `Docker.LastFailureRaises` | muicebot_plugin_sandbox/docker.py:83-85 | the first failure entry with no retry left raises, and reading stops right after it |
| `Docker.RetryStep` | muicebot_plugin_runner/docker.py:77-83 | a failed attempt with retries left is followed by provisioning with one retry fewer, from the state it left |
| `Docker.FailureRestarts` | muicebot_plugin_sandbox/docker.py:86-89 | on a failure with retries left, reading stops right after the failure entry, the rest of the stream stays unread, and the next attempt starts again with a listing |
| `Docker.BuildStartsWithListing` | muicebot_plugin_sandbox/docker.py:56 | provisioning always starts with an image listing and only extends the trace |
| `Docker.BuildsBounded` | muicebot_plugin_sandbox/docker.py:48-89 | at most `total_retry + 1` builds are submitted and at most `total_retry + 1` listings are made |
| `Docker.BuildRaisesIffEveryAttemptFails` | muicebot_plugin_runner/docker.py:44-83 | provisioning raises exactly when every one of its `total_retry + 1` attempts misses the cache and meets a failure |
| `Docker.BindSplitsBack` | muicebot_plugin_sandbox/docker.py:124 | a bind source without `:` splits back out of `source:/workspace:rw` as source, target and mode |
| `Docker.WindowsBindSplitsBack` | muicebot_plugin_sandbox/docker.py:119-124 | on Windows the translated execution directory is the whole source part of the container's bind, when its parts hold no `:` |
| `Docker.ErrorReplyShape` | muicebot_plugin_sandbox/docker.py:169-173 | every error reply begins with "❌ Error: " and carries no outputs; after a non-timeout exception the rest of the reply is exactly the exception's text |
| `Docker.RunOps` | muicebot_plugin_sandbox/docker.py:116-167 | the runtime calls stop right after the first call that raises; a run whose wait and log succeed makes the whole lifecycle |
| `Docker.RunFollowsLifecycle` | muicebot_plugin_runner/docker.py:110-151 | the calls are always a non-empty prefix of create, start, wait, (kill), log, delete |
| `Docker.KillIffTimedOut` | muicebot_plugin_sandbox/docker.py:138-151 | the container is killed exactly when it was created and started and the wait timed out |
| `Docker.KillOutcomeIgnored` | muicebot_plugin_runner/docker.py:133-139 | whether the kill succeeds changes neither the calls nor the result |
| `Docker.DeleteIffLogFetched` | muicebot_plugin_sandbox/docker.py:157-167 | delete is called exactly when the log was fetched, then as the last call of the full lifecycle; the error paths skip it |
| `Docker.RunOutcome` | muicebot_plugin_runner/docker.py:141-157 | a run that completes returns the log and what was extracted from it; otherwise the reply for the first exception, with no outputs |
| `Docker.SilentContainer` | muicebot_plugin_runner/docker.py:142-144 | without log chunks the log is the variant's empty-log text and there are no outputs |
| `Docker.SandboxRaisesIffBuildRaises` | muicebot_plugin_sandbox/docker.py:114-116 | `run_sandbox` raises exactly when provisioning raises, always with the `RuntimeError` message "镜像构建失败！", and then the client is left as provisioning left it: no container call is made |
| `Docker.Sandbox.constructor` | muicebot_plugin_sandbox/docker.py:23-24 | the sandbox drives the given client |
| `Docker.Sandbox.FindCachedImage` | muicebot_plugin_sandbox/docker.py:56-60 | the loop finds a hit exactly when some listed image's first tag is the engine's reference |
| `Docker.Sandbox.ReadBuildLog` | muicebot_plugin_sandbox/docker.py:74-81 | the stream is read up to and including its first failure entry (or to its end), and the result says whether there was one |
| `Docker.Sandbox.Attempt` | muicebot_plugin_runner/docker.py:50-75 | one pass: list, and on a miss submit a build and read its log, with exactly that effect on the client |
| `Docker.Sandbox.BuildImage` | muicebot_plugin_sandbox/docker.py:48-89 | the client's new state and whether it raised are those of `BuildFrom` |
| `Docker.Sandbox.RunContainer` | muicebot_plugin_runner/docker.py:110-157 | the `try` block and its two handlers perform the calls of `ContainerRun` and return its result |
| `Docker.Sandbox.AwaitAndCollect` | muicebot_plugin_sandbox/docker.py:136-152 | the bounded wait, the kill after a timeout, then the log, as `AfterStart` |
| `Docker.Sandbox.CollectLog` | muicebot_plugin_sandbox/docker.py:157-167 | join the chunks or use the placeholder, extract, delete, as `Collect` |
| `Docker.Sandbox.RunSandbox` | muicebot_plugin_sandbox/docker.py:108-173 | the result and the client's new state are those of `SandboxRun`: provisioning first, then the container run on the translated path |
| `Plugin.BaseName` | muicebot_plugin_sandbox/__init__.py:109 | `Path(file.path).name` holds no `/` |
| `Plugin.BaseNameOfPlainName` | muicebot_plugin_sandbox/__init__.py:109 | a plain file name is its own base name, also below a directory |
| `Plugin.FileIdInjective` | muicebot_plugin_sandbox/__init__.py:111 | distinct indices or names give distinct "{i}_{name}" ids |
| `Plugin.FileIdsDistinct` | muicebot_plugin_sandbox/__init__.py:105-113 | the ids given to one message's resources never collide |
| `Plugin.RegisterLookup` | muicebot_plugin_sandbox/__init__.py:110-111 | with distinct ids, each stored resource is found under its id afterwards |
| `Plugin.RegisterFrame` | muicebot_plugin_sandbox/__init__.py:111 | storing the ids leaves every other key as it was |
| `Plugin.TagsPrefix` | muicebot_plugin_sandbox/__init__.py:112 | the tags of the first resources begin the tags of all of them |
| `Plugin.TagOfEach` | muicebot_plugin_sandbox/__init__.py:108-112 | the tag of the i-th resource follows the tags of the resources before it: one tag each, in resource order |
| `Plugin.CollectedLookup` | muicebot_plugin_sandbox/__init__.py:108-111 | after `collect_files` the i-th resource is stored under "{i}_{name}" in the message's session, overwriting an older entry with that key |
| `Plugin.CollectedFrame` | muicebot_plugin_sandbox/__init__.py:110 | `collect_files` leaves every other session as it was |
| `Plugin.CollectedHasFiles` | muicebot_plugin_sandbox/__init__.py:108-111 | a message with resources leaves its session with a non-empty file map |
| `Plugin.Prompted` | muicebot_plugin_sandbox/__init__.py:119-126 | without files the prompt is unchanged; else a non-empty prompt is extended by the separator, the explanation and a newline, and an empty one becomes the explanation |
| `Plugin.Without` | muicebot_plugin_sandbox/__init__.py:133-137 | the session's entry is removed and every other entry is kept |
| `Plugin.StageStopsAtFirstFailure` | muicebot_plugin_sandbox/__init__.py:81-87 | staging writes the requested ids in order with their contents up to the first one that is unavailable, and names why it stopped; it completes exactly when all are available |
| `Plugin.StageSticks` | muicebot_plugin_sandbox/__init__.py:81-83 | once staging stops, the later ids are not looked at |
| `Plugin.OutputsReachCompletion` | muicebot_plugin_sandbox/__init__.py:95-98 | returned files replace the session's pending outputs; without files what was pending stays; other sessions are untouched |
| `Plugin.RequirementsText` | muicebot_plugin_sandbox/__init__.py:90-93 | `requirements.txt` is written exactly for a non-empty list |
| `Plugin.RequirementsRoundTrip` | muicebot_plugin_sandbox/__init__.py:91 | reading `requirements.txt` line by line gives the items back |
| `Plugin.SessionStore.constructor` | muicebot_plugin_sandbox/__init__.py:29-32 | both maps start empty |
| `Plugin.SessionStore.CollectFiles` | muicebot_plugin_sandbox/__init__.py:103-113 | the message gains one `<file>` tag per resource, in order; the file map becomes `Collected`; the outputs map is unchanged |
| `Plugin.SessionStore.AddSystemPrompt` | muicebot_plugin_sandbox/__init__.py:116-126 | the system prompt becomes `Prompted` of the old one, with files exactly when the session has a non-empty map |
| `Plugin.SessionStore.CheckIfOutputs` | muicebot_plugin_sandbox/__init__.py:129-137 | the completion gains exactly the session's pending outputs, and the session is removed from both maps |
| `Plugin.SessionStore.StageAttachments` | muicebot_plugin_sandbox/__init__.py:81-87 | the loop over the requested ids computes `Stage` |
| `Plugin.SessionStore.RunPythonCode` | muicebot_plugin_sandbox/__init__.py:64-100 | a failed staging replies before any runtime call, with the client and the outputs unchanged; otherwise the workspace, the reply (a build failure propagates with its message), the client's state and the outputs map are those of the sandbox run, and the file map is never changed |

## Left out

- The Docker transport (`aiodocker`) is left out. The client is a scripted stand-in, and a failure of `images.list()` or `images.build()` itself is not modelled.
- `_build_context` is left out. It packs a directory into a tar stream, which is filesystem I/O; the build request only records the tag.
- Time is left out: `perf_counter` and the deadline of `wait_for`. Whether the wait exits, times out or raises is an input.
- `Docker.WaitOutcome`: the model assumes the exception semantics of Python 3.11 and later, where the `wait_for` deadline raises the builtin `TimeoutError` that both `except TimeoutError` clauses catch (sandbox `docker.py:145`, runner `docker.py:133`). On 3.10 and earlier that exception is `asyncio.TimeoutError`. It would reach `except Exception` (`docker.py:172`), and the run would reply "❌ Error: " with no kill, no log and no delete. The timed-out run on those versions is not modelled.
- Logging is left out. So are the different kill diagnostics of the two copies, which differ only in what they log.
- `run_wrapper.py` and `config.py` are not part of this model. The network mode is a parameter; the wait timeout and the base URL appear only through their effect.
- `tempfile.mkdtemp`, `mkdir`, `write_text` and `write_bytes` are not modelled as filesystem effects. The execution directory is a parameter, and what the tool writes is the value `Workspace`.
- `event.get_session_id()` becomes the parameter `session`, and `Resource.get_file()` the parameter `fileOf`. The files `Path.read_bytes` can read are the map `files`.
- `Path.resolve()` is an input (`ResolvedPath`): its drive, parts and text. No path normalisation, symbolic links or Windows backslashes are modelled. `BaseName` takes the name after the last `/`, skipping empty pieces and ".".
- `Strings.Lower`: does not model Unicode case mapping, only ASCII letters, because drive letters are ASCII.
- `Utils.ReadAttachment`: does not model that `read()` moves the stream's position. The model assumes every `get_file()` call (`fileOf`) returns a stream at its position 0. A resource stays in `_file_ids` until `check_if_outputs` pops the session, so it can be read again: by a second `run_python_code` call in the same completion, or when an id is listed twice. If `get_file()` handed back the same stream both times, the second `read()` would give b"" and an empty attachment would be written. That case is not modelled.
- `Docker.Sandbox.BuildImage`: takes a non-negative retry budget. Python's `not total_retry` would let a negative one recurse forever, but the code only ever passes 3 and counts down to 0.
- `Docker.Image`: a missing `RepoTags` (None) and an empty one are both the empty list, since the code treats them alike.
- `Plugin.ModelRequest`: `system` set to `None` and to "" are both the empty prompt, since the code treats them alike.
- `Docker.FindAll`: models only the scan of the one pattern the code uses; there is no general regular-expression engine.
- The `assert sandbox_manager` at the start of `run_python_code` is left out. The started sandbox is a parameter instead.
- Exceptions from `convert_path_to_wsl` or from writing the workspace are not modelled; the model assumes those calls succeed.
- Concurrency between hooks of different requests is not modelled. Each hook runs as one step over the two maps.
