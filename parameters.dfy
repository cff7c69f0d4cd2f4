/** camserver/params/parameters.go: the --device name=path list and the server's
    parameters. */
module CamserverParams {
  import opened Base

  /** A configured camera: the name it is served under and its device path. */
  datatype VideoFile = VideoFile(name: string, path: string)

  /** strings.Index(s, string(c)) for a character that occurs in s: the first position. */
  function IndexOf(s: string, c: char): (i: nat)
    requires c in s
    ensures i < |s| && s[i] == c && c !in s[..i]
  {
    if s[0] == c then 0
    else
      assert s[1..][IndexOf(s[1..], c)] == c;
      assert s[..IndexOf(s[1..], c) + 1] == [s[0]] + s[1..][..IndexOf(s[1..], c)];
      1 + IndexOf(s[1..], c)
  }

  /** The entry Set makes of "name=path". */
  function SplitEntry(str: string): (f: VideoFile)
    requires '=' in str
  {
    var index := IndexOf(str, '=');
    VideoFile(str[..index], str[index + 1..])
  }

  /** Set cuts at the first '=': the name holds no '=', the path may, and putting them
      back together with '=' gives the argument again. */
  lemma SplitEntryRoundTrip(str: string)
    requires '=' in str
    ensures '=' !in SplitEntry(str).name
    ensures SplitEntry(str).name + "=" + SplitEntry(str).path == str
  {
    var index := IndexOf(str, '=');
    assert str == str[..index] + [str[index]] + str[index + 1..];
  }

  /** The entry for a name without '=' and any path is read back as it was. */
  lemma SplitEntryOfJoin(name: string, path: string)
    requires '=' !in name
    ensures '=' in name + "=" + path
    ensures SplitEntry(name + "=" + path) == VideoFile(name, path)
  {
    var str := name + "=" + path;
    assert str[|name|] == '=';
    assert str[..|name|] == name;
    var index := IndexOf(str, '=');
    assert index <= |name| ==> str[index] == (str[..|name|] + ['='])[index];
    assert index == |name|;
    assert str[|name| + 1..] == path;
  }

  /** videofiles_parser: the flag.Value collecting every --device argument. */
  class VideofilesParser {
    var files: seq<VideoFile>

    constructor ()
      ensures files == []
    {
      files := [];
    }

    /** Set appends the entry for "name=path" and returns nil. Without an '=' the
        index is -1 and the Go code panics on str[:index]. */
    method Set(str: string) returns (err: Option<Error>)
      requires '=' in str
      modifies this
      ensures files == old(files) + [SplitEntry(str)]
      ensures err.None?
    {
      var index := IndexOf(str, '=');
      var name := str[..index];
      var file := str[index + 1..];
      var videofile := VideoFile(name, file);
      files := files + [videofile];
      return None;
    }
  }

  datatype Params = Params(port: nat, files: seq<VideoFile>)

  const DEFAULT_PORT: nat := 8989

  /** The position of the first file with this name, or |files| when there is none. */
  function FirstNamed(files: seq<VideoFile>, name: string): (k: nat)
    ensures k <= |files|
    ensures forall j :: 0 <= j < k ==> files[j].name != name
    ensures k < |files| ==> files[k].name == name
    decreases |files|
  {
    if files == [] then 0
    else if files[0].name == name then 0
    else
      var k := FirstNamed(files[1..], name);
      assert forall j :: 1 <= j < |files| ==> files[j] == files[1..][j - 1];
      1 + k
  }

  /** GetVideoFile: the first file with the name and true, or the zero VideoFile and
      false when no file has it. */
  method GetVideoFile(p: Params, name: string) returns (f: VideoFile, found: bool)
    ensures found <==> exists j :: 0 <= j < |p.files| && p.files[j].name == name
    ensures found ==> f == p.files[FirstNamed(p.files, name)]
    ensures !found ==> f == VideoFile("", "")
  {
    for i := 0 to |p.files|
      invariant forall j :: 0 <= j < i ==> p.files[j].name != name
    {
      if p.files[i].name == name {
        assert FirstNamed(p.files, name) == i;
        return p.files[i], true;
      }
    }
    return VideoFile("", ""), false;
  }

  /** The part of ParseParams this model keeps: `files` is what the --device
      arguments produced and `port` the --port value, if given. */
  function ParseParams(files: seq<VideoFile>, port: Option<nat>): (r: Result<Params, Error>)
    ensures r.Failure? <==> files == []
    ensures r.Failure? ==> r.error == NoVideoDevice
    ensures r.Success? ==> r.value.files == files && r.value.port == port.GetOr(DEFAULT_PORT)
  {
    if |files| == 0 then Failure(NoVideoDevice) else Success(Params(port.GetOr(DEFAULT_PORT), files))
  }

  /** Without --port the server listens on 8989. */
  lemma DefaultPort(files: seq<VideoFile>)
    requires files != []
    ensures ParseParams(files, None) == Success(Params(8989, files))
  {
  }
}
