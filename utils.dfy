/** Host-side helpers: translating the execution directory into the path
    the container runtime expects as a bind-mount source, and reading the
    bytes of an uploaded attachment. Both plugin copies of `utils.py`
    implement the same logic, so it is modelled once. */
module Utils {
  import opened Models
  import opened Strings

  /** What `platform.system()` reports; only "Windows" is distinguished. */
  datatype System = Windows | OtherSystem(name: string)

  /** What `Path.resolve()` yields for a directory: its `drive` ("C:" on
      Windows, "" elsewhere), its `parts` (the anchor first) and `str()`. */
  datatype ResolvedPath = ResolvedPath(drive: string, parts: seq<string>, text: string)

  /** The drive as it appears under /mnt/: lower-cased, every ':' removed. */
  function MountDrive(drive: string): (d: string)
    ensures ':' !in d
    ensures forall i :: 0 <= i < |d| ==> !('A' <= d[i] <= 'Z')
    ensures multiset(d) == multiset(Lower(drive))[':' := 0]
    ensures ':' !in drive ==> d == Lower(drive)
  {
    LowerKeepsColons(drive);
    RemoveAllCounts(Lower(drive), ':');
    RemoveAll(Lower(drive), ':')
  }

  /** Lower-casing neither creates nor removes a ':'. */
  lemma LowerKeepsColons(s: string)
    ensures ':' in Lower(s) <==> ':' in s
  {
    var r := Lower(s);
    forall i | 0 <= i < |s| ensures r[i] == ':' <==> s[i] == ':' {
      if 'A' <= s[i] <= 'Z' {
        assert r[i] as int == s[i] as int + 32;
      }
    }
  }

  /** A Windows drive such as "C:" is mounted as the lower-case letter. */
  lemma MountDriveOfDriveLetter(x: char)
    requires 'A' <= x <= 'Z'
    ensures MountDrive([x, ':']) == [(x as int + 32) as char]
  {
    var l := Lower([x, ':']);
    assert l == [l[0]] + [l[1]] && l[1] == ':';
    RemoveAllAppend([l[0]], [l[1]], ':');
    RemoveAllChar(l[0], ':');
    RemoveAllChar(l[1], ':');
  }

  /** `parts[1:]`: everything after the anchor (empty when there is none). */
  function Rest(parts: seq<string>): (r: seq<string>)
    ensures |parts| > 0 ==> parts == [parts[0]] + r
    ensures |parts| == 0 ==> r == []
  {
    if |parts| == 0 then [] else parts[1..]
  }

  /** The layout of "/mnt/" + d + "/" + j. */
  lemma MountPathShape(d: string, j: string)
    ensures var r := "/mnt/" + d + "/" + j;
      && |r| == 6 + |d| + |j|
      && r[..5] == "/mnt/"
      && r[5..5 + |d|] == d
      && r[5 + |d|] == '/'
      && r[6 + |d|..] == j
  {
    var r := "/mnt/" + d + "/" + j;
    assert r == "/mnt/" + (d + ("/" + j));
    assert r[5..] == d + ("/" + j);
    assert r[5..5 + |d|] == r[5..][..|d|];
    assert r[6 + |d|..] == r[5..][|d| + 1..];
  }

  /** `convert_path_to_wsl`: on Windows, /mnt/<drive>/ followed by the
      non-anchor parts joined by '/'; elsewhere the resolved path text. */
  function ConvertPathToWsl(system: System, path: ResolvedPath): (r: string)
    ensures system.Windows? ==>
      var d := MountDrive(path.drive);
      && |r| >= 6 + |d|
      && r[..5] == "/mnt/"
      && r[5..5 + |d|] == d
      && r[5 + |d|] == '/'
      && r[6 + |d|..] == Join(Rest(path.parts), "/")
    ensures !system.Windows? ==> r == path.text
  {
    if system.Windows? then
      var d, joined := MountDrive(path.drive), Join(Rest(path.parts), "/");
      MountPathShape(d, joined);
      "/mnt/" + d + "/" + joined
    else
      path.text
  }

  /** With no parts beyond the anchor, the translation ends in /mnt/<drive>/. */
  lemma WslPathOfDriveRoot(path: ResolvedPath)
    requires |path.parts| <= 1
    ensures ConvertPathToWsl(Windows, path) == "/mnt/" + MountDrive(path.drive) + "/"
  {
  }

  /** "/mnt/" + d + "/" + the parts joined by '/' splits back on '/'. */
  lemma SplitMountPath(d: string, rest: seq<string>)
    requires |rest| >= 1 && '/' !in d
    requires forall i :: 0 <= i < |rest| ==> '/' !in rest[i]
    ensures Split("/mnt/" + d + "/" + Join(rest, "/"), '/') == ["", "mnt", d] + rest
  {
    var parts := ["", "mnt", d] + rest;
    forall i | 0 <= i < |parts| ensures '/' !in parts[i] {
      if i >= 3 { assert parts[i] == rest[i - 3]; }
    }
    var tail := Join(rest, "/");
    assert Join(parts[2..], "/") == d + "/" + tail by {
      assert parts[2..][1..] == rest;
    }
    assert Join(parts[1..], "/") == "mnt" + "/" + (d + "/" + tail) by {
      assert parts[1..][1..] == parts[2..];
    }
    assert Join(parts, "/") == "/mnt/" + d + "/" + tail;
    SplitJoin(parts, '/');
  }

  /** The Windows translation splits back on '/' into "", "mnt", the mount
      drive and then exactly the non-anchor parts, in order. */
  lemma WslPathSplitsBack(path: ResolvedPath)
    requires |path.parts| >= 2
    requires '/' !in MountDrive(path.drive)
    requires forall i :: 1 <= i < |path.parts| ==> '/' !in path.parts[i]
    ensures Split(ConvertPathToWsl(Windows, path), '/') == ["", "mnt", MountDrive(path.drive)] + path.parts[1..]
  {
    var rest := path.parts[1..];
    forall i | 0 <= i < |rest| ensures '/' !in rest[i] {
      assert rest[i] == path.parts[i + 1];
    }
    SplitMountPath(MountDrive(path.drive), rest);
  }

  /** With no ':' in the parts beyond the anchor, the Windows translation
      holds no ':' at all, since the drive's colon is removed. */
  lemma WslPathHasNoColon(path: ResolvedPath)
    requires forall i :: 1 <= i < |path.parts| ==> ':' !in path.parts[i]
    ensures ':' !in ConvertPathToWsl(Windows, path)
  {
    var rest := Rest(path.parts);
    forall i | 0 <= i < |rest| ensures ':' !in rest[i] {
      assert rest[i] == path.parts[i + 1];
    }
    JoinAvoids(rest, "/", ':');
    var d, j := MountDrive(path.drive), Join(rest, "/");
    var r := ConvertPathToWsl(Windows, path);
    assert r == "/mnt/" + d + "/" + j;
    forall k | 0 <= k < |r| ensures r[k] != ':' {
      if k < 5 { assert r[k] == "/mnt/"[k]; }
      else if k < 5 + |d| { assert r[k] == d[k - 5]; }
      else if k > 5 + |d| { assert r[k] == j[k - 6 - |d|]; }
    }
  }

  /** What `Resource.get_file()` hands back: a path string, an in-memory
      stream with its read position, or raw bytes. */
  datatype FileObject = PathString(path: string) | BytesIO(buffer: seq<byte>, position: nat) | RawBytes(data: seq<byte>)

  /** `read_attachment`: raw bytes are returned as they are, a path is read
      from `files` (None when no such file exists, where Python raises), and
      a stream yields what remains after its position. */
  function ReadAttachment(obj: FileObject, files: map<string, seq<byte>>): (r: Option<seq<byte>>)
    ensures obj.RawBytes? ==> r == Some(obj.data)
    ensures obj.PathString? ==> (r.Some? <==> obj.path in files) && (r.Some? ==> r.value == files[obj.path])
    ensures obj.BytesIO? ==> r.Some?
    ensures obj.BytesIO? && obj.position <= |obj.buffer| ==> obj.buffer == obj.buffer[..obj.position] + r.value
    ensures obj.BytesIO? && obj.position >= |obj.buffer| ==> r == Some([])
  {
    match obj
    case PathString(p) => if p in files then Some(files[p]) else None
    case BytesIO(buffer, position) => Some(if position <= |buffer| then buffer[position..] else [])
    case RawBytes(data) => Some(data)
  }
}
