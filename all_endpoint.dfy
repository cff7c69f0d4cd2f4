/** camserver/all_endpoint.go: trimming the NUL padding off the strings a device
    reports, and the per-camera record the "all cameras" endpoint builds. */
module CamserverAll {
  import opened Base
  import opened V4l2
  import opened CamserverParams

  const NUL: char := '\0'

  predicate AllNul(s: string) {
    forall i :: 0 <= i < |s| ==> s[i] == NUL
  }

  /** Neither the first nor the last character is NUL. */
  predicate NoEdgeNul(s: string) {
    s == [] || (s[0] != NUL && s[|s| - 1] != NUL)
  }

  function TrimLeft(s: string): (r: string)
    ensures |r| <= |s| && r == s[|s| - |r|..]
    ensures AllNul(s[..|s| - |r|])
    ensures r == [] || r[0] != NUL
    decreases |s|
  {
    if s != [] && s[0] == NUL then
      var r := TrimLeft(s[1..]);
      assert s[1..][..|s| - 1 - |r|] == s[1..|s| - |r|];
      r
    else s
  }

  function TrimRight(s: string): (r: string)
    ensures |r| <= |s| && r == s[..|r|]
    ensures AllNul(s[|r|..])
    ensures r == [] || r[|r| - 1] != NUL
    decreases |s|
  {
    if s != [] && s[|s| - 1] == NUL then
      var r := TrimRight(s[..|s| - 1]);
      assert s[..|s| - 1][|r|..] == s[|r|..|s| - 1];
      r
    else s
  }

  /** trim: strings.Trim(value, "\x00"), every leading and every trailing NUL removed. */
  function Trim(value: string): (r: string)
    ensures NoEdgeNul(r)
  {
    var left := TrimLeft(value);
    var r := TrimRight(left);
    assert r != [] ==> r[0] == left[0];
    r
  }

  /** The input is a run of NULs, the result, and another run of NULs: the result is
      the contiguous middle of the input, interior NULs included. */
  lemma TrimIsInfix(value: string)
    ensures exists i, j ::
      0 <= i <= j <= |value| && Trim(value) == value[i..j] && AllNul(value[..i]) && AllNul(value[j..])
  {
    var left := TrimLeft(value);
    var r := TrimRight(left);
    var i := |value| - |left|;
    var j := i + |r|;
    assert value[i..j] == left[..|r|];
    assert value[j..] == left[|r|..];
  }

  /** A string with no NUL at either end is left as it is. */
  lemma TrimKeepsUnpadded(value: string)
    requires NoEdgeNul(value)
    ensures Trim(value) == value
  {
  }

  /** Trimming twice is trimming once. */
  lemma TrimIdempotent(value: string)
    ensures Trim(Trim(value)) == Trim(value)
  {
    TrimKeepsUnpadded(Trim(value));
  }

  /** A string of NULs only trims to the empty string. */
  lemma TrimAllNul(value: string)
    requires AllNul(value)
    ensures Trim(value) == ""
  {
  }

  /** A NUL between two non-NUL characters survives. */
  lemma TrimKeepsInteriorNul(a: string, b: string)
    requires NoEdgeNul(a) && NoEdgeNul(b) && a != [] && b != []
    ensures Trim(a + [NUL] + b) == a + [NUL] + b
  {
    var s := a + [NUL] + b;
    assert s[0] == a[0] && s[|s| - 1] == b[|b| - 1];
  }

  /** The string Go makes of a NUL-padded byte array: one character per byte. */
  function Text(bytes: seq<Byte>): (s: string)
    ensures |s| == |bytes| && forall i :: 0 <= i < |bytes| ==> s[i] as int == bytes[i]
  {
    seq(|bytes|, i requires 0 <= i < |bytes| => bytes[i] as char)
  }

  /** camera_info */
  datatype CameraInfo = CameraInfo(name: string, file: string, driver: string, card: string, businfo: string, version: Uint32)

  /** readCameraInfo for one configured camera. `device` is what opening the device file
      gave: its capabilities, or the text "%v" renders of the error. */
  function ReadCameraInfo(file: VideoFile, device: Result<V4l2Capability, string>): (info: CameraInfo)
    ensures info.name == file.name && info.file == file.path
    ensures device.Failure? ==> info == CameraInfo(file.name, file.path, "cannot load: " + device.error, "", "", 0)
    ensures device.Success? ==>
      NoEdgeNul(info.driver) && NoEdgeNul(info.card) && NoEdgeNul(info.businfo)
      && info.version == device.value.version as int
    ensures device.Success? ==>
      info.driver == Trim(Text(device.value.driver)) && info.card == Trim(Text(device.value.card))
      && info.businfo == Trim(Text(device.value.busInfo))
  {
    if device.Failure? then CameraInfo(file.name, file.path, "cannot load: " + device.error, "", "", 0)
    else
      var cap := device.value;
      CameraInfo(file.name, file.path, Trim(Text(cap.driver)), Trim(Text(cap.card)), Trim(Text(cap.busInfo)), cap.version as int)
  }
}
