/** Virtio-fs volume specs, "/host:/guest[,opt...]" (pkg/filesystem/virtio.go). */
module VolumeSpecs {
  import opened Text

  datatype Volume = Volume(source: string, target: string, readOnly: bool)

  /** What the guest is told of a volume; the tag is a digest of the target. */
  datatype Mount = Mount(readOnly: bool, tag: string, source: string, target: string, kind: string)

  /** strings.SplitN(volume, ":", 2) */
  function PathsFromVolume(volume: string): (paths: seq<string>)
    ensures 1 <= |paths| <= 2
  {
    if ':' in volume then [Before(volume, ':'), After(volume, ':')] else [volume]
  }

  function ExtractSourcePath(paths: seq<string>): string
    requires |paths| > 0
  {
    if |paths| > 1 then paths[0] else Before(paths[0], ',')
  }

  function ExtractTargetPath(paths: seq<string>): string
    requires |paths| > 0
  {
    if |paths| > 1 then Before(paths[1], ',') else Before(paths[0], ',')
  }

  predicate IsAccessToken(o: string) {
    o == "ro" || o == "rw"
  }

  /** The declarative reading of an option list: its last "ro"/"rw" token is "ro". */
  ghost predicate LastAccessIsRo(opts: seq<string>) {
    exists i :: 0 <= i < |opts| && opts[i] == "ro" &&
                forall j :: i < j < |opts| ==> !IsAccessToken(opts[j])
  }

  /** Options of a volume: the comma-separated tokens after the first comma of the last part. */
  function OptionTokens(paths: seq<string>): seq<string>
    requires |paths| > 0
  {
    var last := paths[|paths| - 1];
    if ',' in last then Split(After(last, ','), ',') else []
  }

  lemma LastAccessStep(opts: seq<string>, o: string)
    ensures o == "ro" ==> LastAccessIsRo(opts + [o])
    ensures o == "rw" ==> !LastAccessIsRo(opts + [o])
    ensures !IsAccessToken(o) ==> (LastAccessIsRo(opts + [o]) <==> LastAccessIsRo(opts))
  {
    var more := opts + [o];
    if o == "ro" {
      assert more[|opts|] == "ro";
    }
    if !IsAccessToken(o) && LastAccessIsRo(opts) {
      var i :| 0 <= i < |opts| && opts[i] == "ro" && forall j :: i < j < |opts| ==> !IsAccessToken(opts[j]);
      assert more[i] == "ro";
    }
    if LastAccessIsRo(more) {
      var i :| 0 <= i < |more| && more[i] == "ro" && forall j :: i < j < |more| ==> !IsAccessToken(more[j]);
      if i < |opts| {
        assert !IsAccessToken(more[|opts|]);
        assert forall j :: i < j < |opts| ==> more[j] == opts[j];
      }
    }
  }

  /** The access after reading the options in order. */
  function AccessAfter(opts: seq<string>): bool {
    if opts == [] then false
    else if opts[|opts| - 1] == "rw" then false
    else if opts[|opts| - 1] == "ro" then true
    else AccessAfter(opts[..|opts| - 1])
  }

  lemma AccessStep(opts: seq<string>, i: nat)
    requires i < |opts|
    ensures AccessAfter(opts[..i + 1]) ==
      if opts[i] == "rw" then false else if opts[i] == "ro" then true else AccessAfter(opts[..i])
  {
    assert opts[..i + 1][..i] == opts[..i];
  }

  lemma {:induction false} AccessIsLast(opts: seq<string>)
    ensures AccessAfter(opts) <==> LastAccessIsRo(opts)
  {
    if opts != [] {
      var init, last := opts[..|opts| - 1], opts[|opts| - 1];
      AccessIsLast(init);
      LastAccessStep(init, last);
      assert opts == init + [last];
    }
  }

  method ExtractMountOptions(paths: seq<string>) returns (readOnly: bool)
    requires |paths| > 0
    ensures readOnly <==> LastAccessIsRo(OptionTokens(paths))
  {
    var last := paths[|paths| - 1];
    if ',' !in last {
      return false;
    }
    readOnly := false;
    var opts := Split(After(last, ','), ',');
    AccessIsLast(opts);
    var i := 0;
    while i < |opts|
      invariant 0 <= i <= |opts|
      invariant readOnly == AccessAfter(opts[..i])
    {
      AccessStep(opts, i);
      if opts[i] == "rw" {
        readOnly := false;
      } else if opts[i] == "ro" {
        readOnly := true;
      }
      i := i + 1;
    }
    assert opts[..i] == opts;
  }

  ghost function VolumeOf(volume: string): Volume {
    var paths := PathsFromVolume(volume);
    Volume(ExtractSourcePath(paths), ExtractTargetPath(paths), LastAccessIsRo(OptionTokens(paths)))
  }

  method SplitVolume(volume: string) returns (v: Volume)
    ensures v == VolumeOf(volume)
  {
    var paths := PathsFromVolume(volume);
    var ro := ExtractMountOptions(paths);
    v := Volume(ExtractSourcePath(paths), ExtractTargetPath(paths), ro);
  }

  /** The documented command-line form. */
  function Print(v: Volume): string {
    v.source + ":" + v.target + (if v.readOnly then ",ro" else "")
  }

  lemma RoundTripOptions(target: string, readOnly: bool)
    requires ',' !in target
    ensures var tail := target + (if readOnly then ",ro" else "");
            && Before(tail, ',') == target
            && (LastAccessIsRo(if ',' in tail then Split(After(tail, ','), ',') else []) <==> readOnly)
  {
    if readOnly {
      var tail := target + ",ro";
      assert tail == target + [','] + "ro";
      CutJoin(target, ',', "ro");
      assert tail[|target|] == ',';
      var opts := Split("ro", ',');
      assert opts == ["ro"];
      assert opts[0] == "ro";
    } else {
      assert target + "" == target;
      CutNone(target, ',');
    }
  }

  /** Parsing undoes printing exactly for a colon-free source and a comma-free target. */
  lemma RoundTrip(v: Volume)
    ensures VolumeOf(Print(v)) == v <==> ':' !in v.source && ',' !in v.target
  {
    var tail := v.target + (if v.readOnly then ",ro" else "");
    var s := Print(v);
    assert s == v.source + [':'] + tail;
    assert s[|v.source|] == ':';
    if ':' !in v.source {
      CutJoin(v.source, ':', tail);
      assert PathsFromVolume(s) == [v.source, tail];
      if ',' !in v.target {
        RoundTripOptions(v.target, v.readOnly);
      } else {
        assert ',' !in Before(tail, ',');
      }
    } else {
      assert ':' !in Before(s, ':');
    }
  }

  /** A spec without a colon mounts a directory at its own path. */
  lemma SinglePath(path: string)
    requires ':' !in path && ',' !in path
    ensures VolumeOf(path) == Volume(path, path, false) && VolumeOf(path + ",ro") == Volume(path, path, true)
  {
    RoundTripOptions(path, true);
    RoundTripOptions(path, false);
    assert path + "" == path;
    assert ':' !in path + ",ro";
  }

  /** The specs that name a volume, in order. */
  function NonEmpty(specs: seq<string>): seq<string> {
    if specs == [] then []
    else NonEmpty(specs[..|specs| - 1]) + (if specs[|specs| - 1] == "" then [] else [specs[|specs| - 1]])
  }

  /** No spec that names a volume is left out or moved. */
  lemma {:induction false} NonEmptyConcat(a: seq<string>, b: seq<string>)
    ensures NonEmpty(a + b) == NonEmpty(a) + NonEmpty(b)
    ensures forall s :: NonEmpty([s]) == if s == "" then [] else [s]
  {
    if b == [] {
      assert a + b == a;
    } else {
      var init := b[..|b| - 1];
      assert (a + b)[..|a + b| - 1] == a + init;
      NonEmptyConcat(a, init);
    }
  }

  function ToMount(v: Volume, digest: string -> string): Mount {
    Mount(v.readOnly, digest(v.target), v.source, v.target, "virtiofs")
  }

  /** The mount list parses the non-empty specs one by one, in their order. */
  method CmdLineMountToMounts(specs: seq<string>, digest: string -> string) returns (mounts: seq<Mount>)
    ensures |mounts| == |NonEmpty(specs)|
    ensures forall i :: 0 <= i < |mounts| ==>
      var v := VolumeOf(NonEmpty(specs)[i]);
      mounts[i] == Mount(v.readOnly, digest(v.target), v.source, v.target, "virtiofs")
  {
    mounts := [];
    var i := 0;
    while i < |specs|
      invariant 0 <= i <= |specs|
      invariant |mounts| == |NonEmpty(specs[..i])|
      invariant forall k :: 0 <= k < |mounts| ==> mounts[k] == ToMount(VolumeOf(NonEmpty(specs[..i])[k]), digest)
    {
      assert specs[..i + 1][..i] == specs[..i];
      if specs[i] != "" {
        var v := SplitVolume(specs[i]);
        mounts := mounts + [ToMount(v, digest)];
      }
      i := i + 1;
    }
    assert specs[..i] == specs;
  }
}
