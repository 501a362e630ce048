/** Two small commands of the Tauri back end: listing serial port names and
    describing a file. Port enumeration and file metadata come from the
    operating system and are inputs here; paths use the `/` separator. */
module HostCommands {
  import opened Wrappers

  type U64 = x: int | 0 <= x < 0x1_0000_0000_0000_0000

  /** What port enumeration reports for one port; only the name is used. */
  datatype PortInfo = PortInfo(portName: string)

  /** The serial port names, one per enumerated port in enumeration order;
      an enumeration error gives an empty list rather than an error. */
  function SerialPortList<E>(ports: Result<seq<PortInfo>, E>): (names: seq<string>)
    ensures ports.Err? ==> names == []
    ensures ports.Ok? ==> |names| == |ports.value|
    ensures ports.Ok? ==> forall i :: 0 <= i < |names| ==> names[i] == ports.value[i].portName
  {
    match ports
    case Err(_) => []
    case Ok(list) => seq(|list|, i requires 0 <= i < |list| => list[i].portName)
  }

  /** Index of the first `/` in the path, or its length when it has none. */
  function FirstSeparator(path: string): (i: nat)
    ensures i <= |path|
    ensures forall j :: 0 <= j < i ==> path[j] != '/'
    ensures i < |path| ==> path[i] == '/'
  {
    if |path| == 0 || path[0] == '/' then 0 else 1 + FirstSeparator(path[1..])
  }

  /** The path split at every `/`; consecutive separators give empty pieces. */
  function Pieces(path: string): (r: seq<string>)
    ensures |r| >= 1
    decreases |path|
  {
    var i := FirstSeparator(path);
    if i == |path| then [path] else [path[..i]] + Pieces(path[i + 1..])
  }

  /** A path without separators is a single piece. */
  lemma PiecesOfPlain(path: string)
    requires '/' !in path
    ensures Pieces(path) == [path]
  {
  }

  lemma {:induction false} PiecesOfJoin(dir: string, rest: string)
    ensures Pieces(dir + "/" + rest) == Pieces(dir) + Pieces(rest)
    decreases |dir|
  {
    var joined := dir + "/" + rest;
    var i := FirstSeparator(dir);
    if i == |dir| {
      assert joined[i] == '/';
      assert forall j :: 0 <= j < i ==> joined[j] == dir[j];
      assert FirstSeparator(joined) == i;
      assert joined[..i] == dir && joined[i + 1..] == rest;
    } else {
      assert joined[i] == '/';
      assert FirstSeparator(joined) == i;
      assert joined[..i] == dir[..i];
      assert joined[i + 1..] == dir[i + 1..] + "/" + rest;
      PiecesOfJoin(dir[i + 1..], rest);
    }
  }

  lemma {:induction false} PiecesHaveNoSeparator(path: string, piece: string)
    requires piece in Pieces(path)
    ensures '/' !in piece
    decreases |path|
  {
    var i := FirstSeparator(path);
    if i < |path| && piece != path[..i] {
      PiecesHaveNoSeparator(path[i + 1..], piece);
    }
  }

  /** A piece that names something: not empty and not the current directory. */
  predicate IsComponent(piece: string) {
    piece != "" && piece != "."
  }

  /** The path's components: its pieces without empty and `.` pieces. */
  function Components(pieces: seq<string>): (r: seq<string>)
    ensures forall c :: c in r ==> IsComponent(c) && c in pieces
  {
    if |pieces| == 0 then []
    else (if IsComponent(pieces[0]) then [pieces[0]] else []) + Components(pieces[1..])
  }

  lemma {:induction false} ComponentsAppend(a: seq<string>, b: seq<string>)
    ensures Components(a + b) == Components(a) + Components(b)
    decreases |a|
  {
    if |a| == 0 {
      assert a + b == b;
    } else {
      assert (a + b)[1..] == a[1..] + b;
      ComponentsAppend(a[1..], b);
    }
  }

  /** A plain file name: one component that is neither `.` nor `..`. */
  predicate IsPlainName(name: string) {
    name != "" && name != "." && name != ".." && '/' !in name
  }

  /** The final component of a path, as long as it is a plain name; nothing
      for a path that is empty, the root, or ends in `..`. Trailing
      separators and `.` components are skipped. */
  function FileName(path: string): (r: Option<string>)
    ensures r.Some? ==> IsPlainName(r.value)
  {
    var cs := Components(Pieces(path));
    if |cs| == 0 || cs[|cs| - 1] == ".." then None
    else
      var last := cs[|cs| - 1];
      assert last in Pieces(path);
      assert '/' !in last by { PiecesHaveNoSeparator(path, last); }
      Some(last)
  }

  /** A plain name on its own is its own file name. */
  lemma FileNameOfPlainName(name: string)
    requires IsPlainName(name)
    ensures FileName(name) == Some(name)
  {
    PiecesOfPlain(name);
    assert Components([name]) == [name] + Components([]);
  }

  /** The file name of `dir/name` is `name`, whatever the directory part. */
  lemma FileNameOfJoin(dir: string, name: string)
    requires IsPlainName(name)
    ensures FileName(dir + "/" + name) == Some(name)
  {
    PiecesOfJoin(dir, name);
    PiecesOfPlain(name);
    ComponentsAppend(Pieces(dir), [name]);
    assert Components([name]) == [name] + Components([]);
  }

  /** A final piece that is empty or `.` is skipped, so appending one
      does not change the file name. */
  lemma FileNameSkipsNonComponent(path: string, piece: string)
    requires piece == "" || piece == "."
    ensures FileName(path + "/" + piece) == FileName(path)
  {
    PiecesOfJoin(path, piece);
    PiecesOfPlain(piece);
    ComponentsAppend(Pieces(path), [piece]);
    assert Components([piece]) == [] + Components([]);
  }

  /** A trailing separator does not change the file name. */
  lemma FileNameIgnoresTrailingSeparator(path: string)
    ensures FileName(path + "/") == FileName(path)
  {
    FileNameSkipsNonComponent(path, "");
    assert path + "/" + "" == path + "/";
  }

  /** A path ending in `..` has no file name. */
  lemma FileNameOfParentIsNone(dir: string)
    ensures FileName(dir + "/..") == None
  {
    PiecesOfJoin(dir, "..");
    PiecesOfPlain("..");
    assert dir + "/" + ".." == dir + "/..";
    ComponentsAppend(Pieces(dir), [".."]);
    assert Components([".."]) == [".."] + Components([]);
  }

  /** The empty path and the root have no file name. */
  lemma FileNameOfEmptyAndRoot()
    ensures FileName("") == None
    ensures FileName("/") == None
  {
    PiecesOfPlain("");
    assert Components([""]) == [] + Components([]);
    PiecesOfJoin("", "");
    assert "" + "/" + "" == "/";
    assert Components(["", ""]) == [] + Components([""]);
  }

  /** What the file system reports for a path; `createTime` is already the
      creation (or else modification) time in whole seconds since the epoch,
      or 0 when neither is available. */
  datatype Metadata = Metadata(isDir: bool, isFile: bool, len: U64, createTime: U64)

  datatype FileInfo = FileInfo(name: string, isDir: bool, isFile: bool, len: U64, createTime: U64)

  /** The file description: named after the path's file name (or the whole
      path when it has none), with the metadata's fields, or all-false and
      zero fields when metadata cannot be read. */
  function GetFileInfo<E>(path: string, metadata: Result<Metadata, E>): (info: FileInfo)
    ensures FileName(path).Some? ==> info.name == FileName(path).value
    ensures FileName(path).None? ==> info.name == path
    ensures metadata.Err? ==> !info.isDir && !info.isFile && info.len == 0 && info.createTime == 0
    ensures metadata.Ok? ==> info.isDir == metadata.value.isDir && info.isFile == metadata.value.isFile &&
                             info.len == metadata.value.len && info.createTime == metadata.value.createTime
  {
    var name := FileName(path).UnwrapOr(path);
    match metadata
    case Ok(m) => FileInfo(name, m.isDir, m.isFile, m.len, m.createTime)
    case Err(_) => FileInfo(name, false, false, 0, 0)
  }
}
