/** The plugin's session bookkeeping around the sandbox: two module-level
    maps, session -> (file id -> uploaded resource) and session -> output
    resources of the last run, and the four hooks that read and update them
    (`collect_files`, `add_system_prompt`, `check_if_outputs` and the
    `run_python_code` tool). */
module Plugin {
  import opened Models
  import opened Strings
  import Utils
  import Docker

  // ---------------------------------------------------------------------
  // File names and file ids

  /** The resource's path as a string; an `exec_dir / body` join is
      written with one '/'. */
  function PathString(p: FilePath): string
  {
    match p
    case PathText(t) => t
    case Child(d, r) => d + "/" + r
  }

  /** The last piece that names something, skipping the empty pieces and
      "." that pathlib drops; "" when there is none. */
  function LastName(pieces: seq<string>): (r: string)
    ensures r == "" || r in pieces
  {
    if pieces == [] then ""
    else
      var last := pieces[|pieces| - 1];
      if last == "" || last == "." then LastName(pieces[..|pieces| - 1]) else last
  }

  /** `Path(file.path).name`. */
  function BaseName(p: FilePath): (r: string)
    ensures '/' !in r
  {
    LastName(Split(PathString(p), '/'))
  }

  /** A plain file name is its own base name, also below a directory. */
  lemma BaseNameOfPlainName(dir: string, n: string)
    requires '/' !in n && n != "" && n != "."
    ensures BaseName(PathText(n)) == n
    ensures BaseName(Child(dir, n)) == n
  {
    SplitPrefix(n, "", '/');
    assert n + "" == n;
    SplitAppend(dir, '/', n);
    assert dir + "/" + n == dir + ['/'] + n;
  }

  /** The id `collect_files` gives the resource at index `i`: "{i}_{name}". */
  function FileId(i: nat, name: string): string
  {
    NatToString(i) + "_" + name
  }

  /** Distinct indices or names give distinct ids: the digits end at the
      first '_'. */
  lemma FileIdInjective(i: nat, x: string, j: nat, y: string)
    requires FileId(i, x) == FileId(j, y)
    ensures i == j && x == y
  {
    var a, b := NatToString(i), NatToString(j);
    var s := FileId(i, x);
    assert s == a + ("_" + x) && s == b + ("_" + y);
    FindFirstChar(s, '_', 0, |a|);
    FindFirstChar(s, '_', 0, |b|);
    assert a == s[..|a|] == b;
    assert x == s[|a| + 1..] == y;
    NatToStringInjective(i, j);
  }

  /** The tag appended to the message for a file id. */
  function FileTag(id: string): string
  {
    "<file>" + id + "</file>"
  }

  /** The ids `collect_files` gives the resources of a message, by index. */
  function FileIds(rs: seq<Resource>): (ids: seq<string>)
    ensures |ids| == |rs|
    ensures forall i :: 0 <= i < |rs| ==> ids[i] == FileId(i, BaseName(rs[i].path))
  {
    seq(|rs|, i requires 0 <= i < |rs| => FileId(i, BaseName(rs[i].path)))
  }

  /** No two entries of `ids` are equal. */
  predicate Distinct(ids: seq<string>)
  {
    forall i, j :: 0 <= i < j < |ids| ==> ids[i] != ids[j]
  }

  /** The ids of one message never collide. */
  lemma FileIdsDistinct(rs: seq<Resource>)
    ensures Distinct(FileIds(rs))
  {
    var ids := FileIds(rs);
    forall i, j | 0 <= i < j < |ids| ensures ids[i] != ids[j] {
      if ids[i] == ids[j] {
        FileIdInjective(i, BaseName(rs[i].path), j, BaseName(rs[j].path));
      }
    }
  }

  /** A session's file map, or what `setdefault` creates for a new one. */
  function UserFiles(store: map<string, map<string, Resource>>, session: string): map<string, Resource>
  {
    if session in store then store[session] else map[]
  }

  /** `m` after storing the first `n` resources of `rs`, each under its
      entry of `ids`, in order. */
  function Register(m: map<string, Resource>, rs: seq<Resource>, ids: seq<string>, n: nat): map<string, Resource>
    requires n <= |rs| == |ids|
  {
    if n == 0 then m else Register(m, rs, ids, n - 1)[ids[n - 1] := rs[n - 1]]
  }

  /** The tags appended to the message for the first `n` ids, in order. */
  function Tags(ids: seq<string>, n: nat): string
    requires n <= |ids|
  {
    if n == 0 then "" else Tags(ids, n - 1) + FileTag(ids[n - 1])
  }

  /** With distinct ids, each of the first `n` resources can be found
      under its id afterwards: no resource overwrites another. */
  lemma {:induction false} RegisterLookup(m: map<string, Resource>, rs: seq<Resource>, ids: seq<string>, n: nat, i: nat)
    requires i < n <= |rs| == |ids| && Distinct(ids)
    ensures ids[i] in Register(m, rs, ids, n) && Register(m, rs, ids, n)[ids[i]] == rs[i]
  {
    if i < n - 1 {
      RegisterLookup(m, rs, ids, n - 1, i);
    }
  }

  /** Registering only adds the ids: any other key keeps whether it is
      present and what it maps to. */
  lemma {:induction false} RegisterFrame(m: map<string, Resource>, rs: seq<Resource>, ids: seq<string>, n: nat, k: string)
    requires n <= |rs| == |ids|
    requires forall i :: 0 <= i < n ==> ids[i] != k
    ensures k in Register(m, rs, ids, n) <==> k in m
    ensures k in m ==> Register(m, rs, ids, n)[k] == m[k]
  {
    if n > 0 {
      RegisterFrame(m, rs, ids, n - 1, k);
    }
  }

  /** The tags of the first `i` ids begin the tags of the first `n`. */
  lemma {:induction false} TagsPrefix(ids: seq<string>, i: nat, n: nat)
    requires i <= n <= |ids|
    ensures Tags(ids, i) <= Tags(ids, n)
    decreases n - i
  {
    if i < n {
      TagsPrefix(ids, i + 1, n);
    }
  }

  /** Appending the next tag to a text ending in the first `i` tags. */
  lemma AppendTag(text: string, ids: seq<string>, i: nat, id: string)
    requires i < |ids| && id == ids[i]
    ensures text + Tags(ids, i) + FileTag(id) == text + Tags(ids, i + 1)
  {
  }

  /** The tag of the `i`-th id follows the tags of the ids before it: one
      tag per resource, in resource order. */
  lemma TagOfEach(ids: seq<string>, i: nat)
    requires i < |ids|
    ensures At(Tags(ids, |ids|), FileTag(ids[i]), |Tags(ids, i)|)
  {
    TagsPrefix(ids, i + 1, |ids|);
    var t, q, tag := Tags(ids, |ids|), |Tags(ids, i)|, FileTag(ids[i]);
    assert Tags(ids, i + 1) == Tags(ids, i) + tag;
    assert t[q..q + |tag|] == Tags(ids, i + 1)[q..];
  }

  /** The file map after `collect_files` has handled the first `n`
      resources: untouched while there were none (no entry is created);
      otherwise the session's map, created if needed, holds them. */
  function Collected(store: map<string, map<string, Resource>>, session: string, rs: seq<Resource>, ids: seq<string>, n: nat): map<string, map<string, Resource>>
    requires n <= |rs| == |ids|
  {
    if n == 0 then store else store[session := Register(UserFiles(store, session), rs, ids, n)]
  }

  /** After `collect_files` every resource of the message is stored under
      "{i}_{name}" in the message's session. */
  lemma CollectedLookup(store: map<string, map<string, Resource>>, session: string, rs: seq<Resource>, i: nat)
    requires i < |rs|
    ensures session in Collected(store, session, rs, FileIds(rs), |rs|)
    ensures FileId(i, BaseName(rs[i].path)) in Collected(store, session, rs, FileIds(rs), |rs|)[session]
    ensures Collected(store, session, rs, FileIds(rs), |rs|)[session][FileId(i, BaseName(rs[i].path))] == rs[i]
  {
    FileIdsDistinct(rs);
    RegisterLookup(UserFiles(store, session), rs, FileIds(rs), |rs|, i);
  }

  /** `collect_files` leaves every other session as it was. */
  lemma CollectedFrame(store: map<string, map<string, Resource>>, session: string, rs: seq<Resource>, s: string)
    requires s != session
    ensures s in Collected(store, session, rs, FileIds(rs), |rs|) <==> s in store
    ensures s in store ==> Collected(store, session, rs, FileIds(rs), |rs|)[s] == store[s]
  {
  }

  /** One more resource: the session's map, created if needed, gets it
      under its id. */
  lemma CollectedStep(store: map<string, map<string, Resource>>, session: string, rs: seq<Resource>, ids: seq<string>, i: nat)
    requires i < |rs| == |ids|
    ensures var before := Collected(store, session, rs, ids, i);
      Collected(store, session, rs, ids, i + 1) == before[session := UserFiles(before, session)[ids[i] := rs[i]]]
  {
    var u := UserFiles(store, session);
    assert Register(u, rs, ids, i + 1) == Register(u, rs, ids, i)[ids[i] := rs[i]];
    if i == 0 {
      assert Register(u, rs, ids, 0) == u;
    } else {
      assert UserFiles(Collected(store, session, rs, ids, i), session) == Register(u, rs, ids, i);
    }
  }

  // ---------------------------------------------------------------------
  // The system prompt

  const Separator: string := "\n\n---\n"
  const FilePrompt: string := "除此之外，你还将收到由<file>id_filename.suffix</file>的文件标签，标签中的内容可用于调用工具对这些文件进行操作"

  /** `not _file_ids.get(session)` fails: the session has an entry and it
      is not empty. */
  predicate HasFiles(store: map<string, map<string, Resource>>, session: string)
  {
    session in store && store[session] != map[]
  }

  /** The system prompt after `add_system_prompt`: unchanged without files;
      otherwise a non-empty prompt is kept and the separator, the
      explanation and a newline follow it, and an empty one is replaced by
      the explanation. */
  function Prompted(system: string, files: bool): (r: string)
    ensures !files ==> r == system
    ensures files ==> system <= r
    ensures files && system == "" ==> r == FilePrompt
    ensures files && system != "" ==>
      && |r| == |system| + |Separator| + |FilePrompt| + 1
      && r[|system|..|system| + |Separator|] == Separator
      && At(r, FilePrompt, |system| + |Separator|)
      && r[|r| - 1] == '\n'
  {
    if !files then system
    else if system != "" then
      var r := system + Separator + FilePrompt + "\n";
      assert r == system + (Separator + (FilePrompt + "\n"));
      assert r[|system|..] == Separator + (FilePrompt + "\n");
      assert r[|system|..|system| + |Separator|] == r[|system|..][..|Separator|];
      assert r[|system| + |Separator|..|system| + |Separator| + |FilePrompt|] == r[|system|..][|Separator|..|Separator| + |FilePrompt|];
      r
    else FilePrompt
  }

  /** A message with resources gives its session files, so the next
      completion's system prompt mentions them. */
  lemma CollectedHasFiles(store: map<string, map<string, Resource>>, session: string, rs: seq<Resource>)
    requires rs != []
    ensures HasFiles(Collected(store, session, rs, FileIds(rs), |rs|), session)
  {
    FileIdsDistinct(rs);
    RegisterLookup(UserFiles(store, session), rs, FileIds(rs), |rs|, 0);
  }

  // ---------------------------------------------------------------------
  // Cleanup after a completion

  /** What `pop(session, None)` takes out of a map of outputs, `[]` for none. */
  function Pending(outs: map<string, seq<Resource>>, session: string): (r: seq<Resource>)
    ensures session !in outs ==> r == []
    ensures session in outs ==> r == outs[session]
  {
    if session in outs then outs[session] else []
  }

  /** `m` without the session's entry; every other entry is kept. */
  function Without<V>(m: map<string, V>, session: string): (r: map<string, V>)
    ensures session !in r
    ensures forall k :: k != session ==> (k in r <==> k in m)
    ensures forall k :: k in r ==> r[k] == m[k]
  {
    m - {session}
  }

  // ---------------------------------------------------------------------
  // `run_python_code`

  /** An attachment written into the execution directory. */
  datatype Attachment = Attachment(name: string, content: seq<byte>)

  /** Why staging the attachments stopped. */
  datatype Stop =
    | Complete
    | NoSession          // `_file_ids[session_id]` raises KeyError
    | UnknownId(id: string)
    | Unreadable(id: string)   // `read_attachment` raises: the path names no file

  /** The attachments written and why the loop over the requested ids
      stopped. */
  datatype Staging = Staging(written: seq<Attachment>, stop: Stop)

  /** The session's map, when the session has one. */
  function Entry(store: map<string, map<string, Resource>>, session: string): (r: Option<map<string, Resource>>)
    ensures r.Some? <==> session in store
    ensures r.Some? ==> r.value == store[session]
  {
    if session in store then Some(store[session]) else None
  }

  /** What `read_attachment` makes of the resource an id names. */
  function Content(m: map<string, Resource>, id: string, fileOf: Resource -> Utils.FileObject, files: map<string, seq<byte>>): Option<seq<byte>>
    requires id in m
  {
    Utils.ReadAttachment(fileOf(m[id]), files)
  }

  /** The id names a readable resource of the session. */
  predicate Available(m: Option<map<string, Resource>>, id: string, fileOf: Resource -> Utils.FileObject, files: map<string, seq<byte>>)
  {
    m.Some? && id in m.value && Content(m.value, id, fileOf, files).Some?
  }

  /** The loop over `file_ids or []`: each id is looked up in the session's
      map and its content written, and the first id that cannot be ends the
      run before the sandbox. */
  function Stage(m: Option<map<string, Resource>>, ids: seq<string>, fileOf: Resource -> Utils.FileObject, files: map<string, seq<byte>>): Staging
    decreases |ids|
  {
    if ids == [] then Staging([], Complete)
    else
      var prev := Stage(m, ids[..|ids| - 1], fileOf, files);
      var id := ids[|ids| - 1];
      if !prev.stop.Complete? then prev
      else if m.None? then Staging(prev.written, NoSession)
      else if id !in m.value then Staging(prev.written, UnknownId(id))
      else
        var c := Content(m.value, id, fileOf, files);
        if c.None? then Staging(prev.written, Unreadable(id))
        else Staging(prev.written + [Attachment(id, c.value)], Complete)
  }

  /** Staging stops at the first id that is not available: the ids before
      it are all written, in order and with their contents, and the reason
      names that id; it completes exactly when every id is available. */
  lemma {:induction false} StageStopsAtFirstFailure(m: Option<map<string, Resource>>, ids: seq<string>, fileOf: Resource -> Utils.FileObject, files: map<string, seq<byte>>)
    ensures var st := Stage(m, ids, fileOf, files);
      var k := |st.written|;
      && k <= |ids|
      && (forall j :: 0 <= j < k ==>
            (Available(m, ids[j], fileOf, files) && st.written[j] == Attachment(ids[j], Content(m.value, ids[j], fileOf, files).value)))
      && (st.stop.Complete? <==> k == |ids|)
      && (k < |ids| ==> !Available(m, ids[k], fileOf, files))
      && (k < |ids| && m.None? ==> st.stop == NoSession)
      && (k < |ids| && m.Some? && ids[k] !in m.value ==> st.stop == UnknownId(ids[k]))
      && (k < |ids| && m.Some? && ids[k] in m.value ==> st.stop == Unreadable(ids[k]))
    decreases |ids|
  {
    if ids != [] {
      var front := ids[..|ids| - 1];
      StageStopsAtFirstFailure(m, front, fileOf, files);
      assert forall j :: 0 <= j < |front| ==> front[j] == ids[j];
    }
  }

  /** Once staging has stopped, later ids are not looked at. */
  lemma {:induction false} StageSticks(m: Option<map<string, Resource>>, ids: seq<string>, i: nat, fileOf: Resource -> Utils.FileObject, files: map<string, seq<byte>>)
    requires i <= |ids| && !Stage(m, ids[..i], fileOf, files).stop.Complete?
    ensures Stage(m, ids, fileOf, files) == Stage(m, ids[..i], fileOf, files)
    decreases |ids| - i
  {
    if i < |ids| {
      var front := ids[..|ids| - 1];
      assert front[..i] == ids[..i];
      StageSticks(m, front, i, fileOf, files);
    } else {
      assert ids[..i] == ids;
    }
  }

  /** What the tool hands back: a reply text for the model, or an
      exception that leaves the tool. */
  datatype Failure = SessionKeyError | AttachmentMissing(id: string) | BuildFailed(message: string)
  datatype Reply = Answer(text: string) | Raised(failure: Failure)

  const UnknownIdReply: string := "Files ID 不存在！"

  /** The reply when staging stops early. */
  function StopReply(stop: Stop): (r: Reply)
    requires !stop.Complete?
    ensures stop.UnknownId? <==> r == Answer(UnknownIdReply)
    ensures stop.NoSession? <==> r == Raised(SessionKeyError)
    ensures stop.Unreadable? <==> r.Raised? && r.failure.AttachmentMissing?
    ensures stop.Unreadable? ==> r.failure.id == stop.id
  {
    match stop
    case NoSession => Raised(SessionKeyError)
    case UnknownId(_) => Answer(UnknownIdReply)
    case Unreadable(id) => Raised(AttachmentMissing(id))
  }

  /** The reply after the sandbox ran: its log text, unchanged, or the build
      failure propagating. */
  function RunReply(o: Docker.SandboxOutcome): (r: Reply)
    ensures o.Returned? ==> r == Answer(o.log)
    ensures o.BuildRaised? ==> r == Raised(BuildFailed(o.message))
  {
    if o.Returned? then Answer(o.log) else Raised(BuildFailed(o.message))
  }

  /** The outputs map after a run: the session's entry is replaced only
      when the run returned files. */
  function StoreOutputs(outs: map<string, seq<Resource>>, session: string, o: Docker.SandboxOutcome): map<string, seq<Resource>>
  {
    if o.Returned? && o.outputs != [] then outs[session := o.outputs] else outs
  }

  /** The files a run returns are what the next completion of the session
      receives; without files, what was pending stays pending; no other
      session is affected. */
  lemma OutputsReachCompletion(outs: map<string, seq<Resource>>, session: string, o: Docker.SandboxOutcome)
    ensures o.Returned? && o.outputs != [] ==> Pending(StoreOutputs(outs, session, o), session) == o.outputs
    ensures !(o.Returned? && o.outputs != []) ==> Pending(StoreOutputs(outs, session, o), session) == Pending(outs, session)
    ensures forall s :: s != session ==> Pending(StoreOutputs(outs, session, o), s) == Pending(outs, s)
  {
  }

  /** `requirements.txt`: written only for a non-empty list, as the items
      joined by newlines. */
  function RequirementsText(requirements: Option<seq<string>>): (r: Option<string>)
    ensures r.Some? <==> requirements.Some? && requirements.value != []
  {
    if requirements.Some? && requirements.value != [] then Some(Join(requirements.value, "\n")) else None
  }

  /** Reading `requirements.txt` line by line gives the items back, when no
      item holds a newline. */
  lemma RequirementsRoundTrip(items: seq<string>)
    requires items != []
    requires forall i :: 0 <= i < |items| ==> '\n' !in items[i]
    ensures Split(RequirementsText(Some(items)).value, '\n') == items
  {
    SplitJoin(items, '\n');
  }

  /** The execution directory as the tool leaves it: the code, the
      attachments written, and `requirements.txt` if it was written. */
  datatype Workspace = Workspace(code: string, attachments: seq<Attachment>, requirements: Option<string>)

  function IdsOf(fileIds: Option<seq<string>>): seq<string>
  {
    if fileIds.Some? then fileIds.value else []
  }

  // ---------------------------------------------------------------------
  // The framework objects the hooks receive

  class Message {
    var message: string
    const resources: seq<Resource>

    constructor (message: string, resources: seq<Resource>)
      ensures this.message == message && this.resources == resources
    {
      this.message := message;
      this.resources := resources;
    }
  }

  class ModelRequest {
    /** `request.system`; `None` and "" are both the empty prompt. */
    var system: string

    constructor (system: string)
      ensures this.system == system
    {
      this.system := system;
    }
  }

  class ModelCompletions {
    var resources: seq<Resource>

    constructor (resources: seq<Resource>)
      ensures this.resources == resources
    {
      this.resources := resources;
    }
  }

  // ---------------------------------------------------------------------
  // The two maps and the hooks

  class SessionStore {
    /** `_file_ids`. */
    var fileIds: map<string, map<string, Resource>>
    /** `_output_files`. */
    var outputFiles: map<string, seq<Resource>>

    constructor ()
      ensures fileIds == map[] && outputFiles == map[]
    {
      fileIds, outputFiles := map[], map[];
    }

    /** `collect_files`: number the message's resources from 0, store each
        under "{i}_{name}" in the session's map and append its tag to the
        message text. */
    method CollectFiles(message: Message, session: string)
      modifies this, message
      ensures message.message == old(message.message) + Tags(FileIds(message.resources), |message.resources|)
      ensures fileIds == Collected(old(fileIds), session, message.resources, FileIds(message.resources), |message.resources|)
      ensures outputFiles == old(outputFiles)
    {
      var rs := message.resources;
      ghost var ids := FileIds(rs);
      var i := 0;
      while i < |rs|
        invariant 0 <= i <= |rs|
        invariant message.message == old(message.message) + Tags(ids, i)
        invariant fileIds == Collected(old(fileIds), session, rs, ids, i)
        invariant outputFiles == old(outputFiles)
      {
        var userFiles := if session in fileIds then fileIds[session] else map[];
        var id := FileId(i, BaseName(rs[i].path));
        assert id == ids[i];
        CollectedStep(old(fileIds), session, rs, ids, i);
        AppendTag(old(message.message), ids, i, id);
        fileIds := fileIds[session := userFiles[id := rs[i]]];
        message.message := message.message + FileTag(id);
        i := i + 1;
      }
    }

    /** `add_system_prompt`. */
    method AddSystemPrompt(request: ModelRequest, session: string)
      modifies request
      ensures request.system == Prompted(old(request.system), HasFiles(fileIds, session))
    {
      if !(session in fileIds && fileIds[session] != map[]) {
        return;
      }
      if request.system != "" {
        request.system := request.system + Separator;
        request.system := request.system + FilePrompt + "\n";
      } else {
        request.system := FilePrompt;
      }
    }

    /** `check_if_outputs`: hand the session's pending outputs to the
        completion and forget the session in both maps. */
    method CheckIfOutputs(completions: ModelCompletions, session: string)
      modifies this, completions
      ensures completions.resources == old(completions.resources) + Pending(old(outputFiles), session)
      ensures outputFiles == Without(old(outputFiles), session)
      ensures fileIds == Without(old(fileIds), session)
    {
      var outputs: seq<Resource> := [];
      if session in outputFiles {
        outputs := outputFiles[session];
        outputFiles := outputFiles - {session};
      }
      if outputs != [] {
        completions.resources := completions.resources + outputs;
      }
      fileIds := fileIds - {session};
    }

    /** The loop of `run_python_code` over the requested ids: look each
        up in the session's map and read its content, stopping at the
        first that fails. */
    method StageAttachments(session: string, ids: seq<string>, fileOf: Resource -> Utils.FileObject, files: map<string, seq<byte>>)
      returns (st: Staging)
      ensures st == Stage(Entry(fileIds, session), ids, fileOf, files)
    {
      ghost var m := Entry(fileIds, session);
      var written: seq<Attachment> := [];
      var i := 0;
      while i < |ids|
        invariant 0 <= i <= |ids|
        invariant Stage(m, ids[..i], fileOf, files) == Staging(written, Complete)
      {
        ghost var next := ids[..i + 1];
        assert next[..i] == ids[..i] && next[i] == ids[i];
        var stop: Stop := Complete;
        if session !in fileIds {
          stop := NoSession;
        } else if ids[i] !in fileIds[session] {
          stop := UnknownId(ids[i]);
        } else {
          var content := Utils.ReadAttachment(fileOf(fileIds[session][ids[i]]), files);
          if content.None? {
            stop := Unreadable(ids[i]);
          } else {
            written := written + [Attachment(ids[i], content.value)];
          }
        }
        if !stop.Complete? {
          assert Stage(m, next, fileOf, files) == Staging(written, stop);
          StageSticks(m, ids, i + 1, fileOf, files);
          return Staging(written, stop);
        }
        i := i + 1;
      }
      assert ids[..i] == ids;
      return Staging(written, Complete);
    }

    /** `run_python_code`: stage the requested attachments, write the
        requirements, run the sandbox and remember the files it returned. */
    method RunPythonCode(sandbox: Docker.Sandbox, session: string, code: string,
                         requested: Option<seq<string>>, requirements: Option<seq<string>>,
                         execDir: string, resolved: Utils.ResolvedPath, system: Utils.System,
                         fileOf: Resource -> Utils.FileObject, files: map<string, seq<byte>>)
      returns (reply: Reply, ws: Workspace)
      modifies this, sandbox.client
      ensures fileIds == old(fileIds)
      ensures var st := Stage(Entry(old(fileIds), session), IdsOf(requested), fileOf, files);
        !st.stop.Complete? ==>
          && reply == StopReply(st.stop)
          && ws == Workspace(code, st.written, None)
          && outputFiles == old(outputFiles)
          && sandbox.client.State() == old(sandbox.client.State())
      ensures var st := Stage(Entry(old(fileIds), session), IdsOf(requested), fileOf, files);
        var r := Docker.SandboxRun(sandbox.variant, sandbox.network, sandbox.Provisioning(), sandbox.client.container,
                                   Utils.ConvertPathToWsl(system, resolved), execDir, old(sandbox.client.State()));
        st.stop.Complete? ==>
          && ws == Workspace(code, st.written, RequirementsText(requirements))
          && reply == RunReply(r.outcome)
          && sandbox.client.State() == r.state
          && outputFiles == StoreOutputs(old(outputFiles), session, r.outcome)
    {
      var st := StageAttachments(session, IdsOf(requested), fileOf, files);
      if !st.stop.Complete? {
        return StopReply(st.stop), Workspace(code, st.written, None);
      }
      var written := st.written;
      ws := Workspace(code, written, RequirementsText(requirements));
      var outcome := sandbox.RunSandbox(execDir, resolved, system);
      if outcome.Returned? {
        if outcome.outputs != [] {
          outputFiles := outputFiles[session := outcome.outputs];
        }
        reply := Answer(outcome.log);
      } else {
        reply := Raised(BuildFailed(outcome.message));
      }
    }
  }
}
