/** Raw-disk specs, "<path>[,version=<v>][,uuid=<u>][,mnt=<m>]" (pkg/librevm/config.go). */
module DiskSpecs {
  import opened Text
  import opened Wrappers

  const VAR_DATA_DISK_UUID := "162cf68f-93c7-49ad-be53-45ed0e9fe42b"
  const VAR_DISK_MOUNT_POINT := "/var"
  const DEFAULT_RAW_DISK_VERSION := "v1-0-0-ovm"

  datatype RawDisk = RawDisk(path: string, uuid: string, mnt: string, version: string)

  /** unicode.ToLower, as far as it can produce ASCII: besides A-Z, the dotted capital I (U+0130)
      and the Kelvin sign (U+212A) lower to ASCII letters. */
  function ToLowerRune(c: char): char {
    if 'A' <= c <= 'Z' then (c as int + 32) as char
    else if c as int == 0x130 then 'i'
    else if c as int == 0x212A then 'k'
    else c
  }

  /** Simple case folding, as far as strings.EqualFold can match ASCII: besides A-Z, the long s
      (U+017F) and the Kelvin sign fold to ASCII letters, and the dotted capital I does not. */
  function FoldRune(c: char): char {
    if 'A' <= c <= 'Z' then (c as int + 32) as char
    else if c as int == 0x17F then 's'
    else if c as int == 0x212A then 'k'
    else c
  }

  function MapRunes(f: char -> char, s: string): (r: string)
    ensures |r| == |s| && forall i :: 0 <= i < |s| ==> r[i] == f(s[i])
  {
    seq(|s|, i requires 0 <= i < |s| => f(s[i]))
  }

  function ToLower(s: string): string { MapRunes(ToLowerRune, s) }

  /** strings.EqualFold(s, lowercase ASCII literal) */
  predicate EqualFold(s: string, lit: string) { MapRunes(FoldRune, s) == lit }

  /** The key and value of one comma-separated option; None for text without "=". */
  function OptionOf(part: string): Option<(string, string)> {
    var t := Trim(part);
    if '=' in t then Some((Trim(Before(t, '=')), Trim(After(t, '=')))) else None
  }

  /** Does this option set `key` for `WithDisk`? */
  predicate Sets(part: string, key: string) {
    OptionOf(part).Some? && ToLower(OptionOf(part).value.0) == key
  }

  function Setting(key: string): string -> bool {
    (part: string) => Sets(part, key)
  }

  /** Does this option set the version for `WithVarDataDisk`, which ignores blank values? */
  predicate SetsVarVersion(part: string) {
    && OptionOf(part).Some?
    && EqualFold(OptionOf(part).value.0, "version")
    && OptionOf(part).value.1 != ""
  }

  function ValueOf(part: string): string {
    if OptionOf(part).Some? then OptionOf(part).value.1 else ""
  }

  /** The value of the last matching option, or `absent` when none matches. */
  function LastValue(opts: seq<string>, matches: string -> bool, absent: string): string {
    if opts == [] then absent
    else if matches(opts[|opts| - 1]) then ValueOf(opts[|opts| - 1])
    else LastValue(opts[..|opts| - 1], matches, absent)
  }

  /** Later options win: an option followed by no other match decides the value. */
  lemma {:induction false} LastValueIsLast(opts: seq<string>, matches: string -> bool, absent: string, i: nat)
    requires i < |opts| && matches(opts[i]) && forall j :: i < j < |opts| ==> !matches(opts[j])
    ensures LastValue(opts, matches, absent) == ValueOf(opts[i])
  {
    if i < |opts| - 1 {
      LastValueIsLast(opts[..|opts| - 1], matches, absent, i);
    }
  }

  lemma {:induction false} LastValueAbsent(opts: seq<string>, matches: string -> bool, absent: string)
    requires forall i :: 0 <= i < |opts| ==> !matches(opts[i])
    ensures LastValue(opts, matches, absent) == absent
  {
    if opts != [] {
      LastValueAbsent(opts[..|opts| - 1], matches, absent);
    }
  }

  function OrElse(s: string, d: string): string { if s == "" then d else s }

  /** The body of the option loop of `WithDisk`. */
  function ApplyOption(raw: RawDisk, part: string): RawDisk {
    match OptionOf(part)
    case None => raw
    case Some((key, val)) =>
      match ToLower(key)
      case "uuid" => raw.(uuid := val)
      case "version" => raw.(version := val)
      case "mnt" => raw.(mnt := val)
      case _ => raw
  }

  /** The last value of each key. */
  function LastOfEach(path: string, opts: seq<string>): RawDisk {
    RawDisk(path, LastValue(opts, Setting("uuid"), ""), LastValue(opts, Setting("mnt"), ""), LastValue(opts, Setting("version"), ""))
  }

  function FillDefaults(raw: RawDisk, newUUID: string): RawDisk {
    raw.(version := OrElse(raw.version, DEFAULT_RAW_DISK_VERSION), uuid := OrElse(raw.uuid, newUUID))
  }

  /** What one `WithDisk` spec means: the last value of each key, then the defaults. */
  function DiskOf(spec: string, newUUID: string): Option<RawDisk> {
    var t := Trim(spec);
    if t == "" then None else
      var parts := Split(t, ',');
      Some(FillDefaults(LastOfEach(Trim(parts[0]), parts[1..]), newUUID))
  }

  /** One iteration of the outer loop of `WithDisk`; `newUUID` is what uuid.NewString would return. */
  method ParseDisk(spec: string, newUUID: string) returns (d: Option<RawDisk>)
    requires newUUID != ""
    ensures d == DiskOf(spec, newUUID)
    ensures d.Some? ==> d.value.version != "" && d.value.uuid != ""
  {
    var t := Trim(spec);
    if t == "" {
      return None;
    }
    var parts := Split(t, ',');
    var raw := RawDisk(Trim(parts[0]), "", "", "");
    ghost var opts := parts[1..];
    var i := 1;
    while i < |parts|
      invariant 1 <= i <= |parts|
      invariant raw == LastOfEach(Trim(parts[0]), opts[..i - 1])
    {
      assert opts[..i][..i - 1] == opts[..i - 1];
      raw := ApplyOption(raw, parts[i]);
      i := i + 1;
    }
    assert opts[..i - 1] == opts;
    return Some(FillDefaults(raw, newUUID));
  }

  // --- Printing and reading back -------------------------------------------

  /** An option as a user may type it: any spelling of the key that lowers to a known one. */
  datatype Typed = Typed(key: string, val: string)

  predicate Plain(s: string) { Trimmed(s) && ',' !in s }

  predicate WellTyped(o: Typed) {
    && Plain(o.key) && '=' !in o.key && Plain(o.val)
    && ToLower(o.key) in {"uuid", "version", "mnt"}
  }

  function PrintOption(o: Typed): string { o.key + ['='] + o.val }

  function PrintParts(path: string, opts: seq<Typed>): (parts: seq<string>)
    ensures |parts| == 1 + |opts| && parts[0] == path
    ensures forall i :: 0 <= i < |opts| ==> parts[1..][i] == PrintOption(opts[i])
  {
    [path] + seq(|opts|, i requires 0 <= i < |opts| => PrintOption(opts[i]))
  }

  function PrintDisk(path: string, opts: seq<Typed>): string { Join(PrintParts(path, opts), ',') }

  function Field(d: RawDisk, key: string): string {
    if key == "uuid" then d.uuid else if key == "version" then d.version else d.mnt
  }

  /** The value that the typed options give a key: its field, or nothing when the key is left out. */
  ghost function TypedValue(opts: seq<Typed>, d: RawDisk, key: string): string {
    if exists i :: 0 <= i < |opts| && ToLower(opts[i].key) == key then Field(d, key) else ""
  }

  /** The options say what `d` holds, once each, and what they leave out is at its default. */
  ghost predicate Describes(opts: seq<Typed>, d: RawDisk, newUUID: string) {
    && (forall i :: 0 <= i < |opts| ==> WellTyped(opts[i]) && opts[i].val == Field(d, ToLower(opts[i].key)))
    && (forall i, j :: 0 <= i < j < |opts| ==> ToLower(opts[i].key) != ToLower(opts[j].key))
    && (TypedValue(opts, d, "uuid") == d.uuid || d.uuid == newUUID)
    && (TypedValue(opts, d, "version") == d.version || d.version == DEFAULT_RAW_DISK_VERSION)
    && TypedValue(opts, d, "mnt") == d.mnt
  }

  lemma OptionReadsBack(o: Typed)
    requires WellTyped(o)
    ensures OptionOf(PrintOption(o)) == Some((o.key, o.val))
    ensures ',' !in PrintOption(o)
    ensures PrintOption(o) != "" && Trimmed(PrintOption(o))
  {
    var s := PrintOption(o);
    assert s[|o.key|] == '=' && !IsSpace('=');
    assert |o.key| > 0 by { assert |ToLower(o.key)| > 0; }
    assert o.val != "" ==> s[|s| - 1] == o.val[|o.val| - 1];
    TrimTrims(s);
    TrimTrims(o.key);
    TrimTrims(o.val);
    CutJoin(o.key, '=', o.val);
  }

  lemma {:induction false} JoinEnds(parts: seq<string>)
    requires |parts| > 1
    requires Trimmed(parts[0])
    requires forall i :: 1 <= i < |parts| ==> parts[i] != "" && Trimmed(parts[i])
    ensures Join(parts, ',') != "" && Trimmed(Join(parts, ','))
  {
    var s := Join(parts, ',');
    assert !IsSpace(',');
    var tail := parts[1..];
    var rest := Join(tail, ',');
    assert s == parts[0] + [','] + rest;
    if |parts| > 2 {
      JoinEnds(tail);
    } else {
      assert rest == tail[0] == parts[1];
    }
    assert s[|s| - 1] == rest[|rest| - 1];
  }

  lemma {:induction false} TypedLastValue(parts: seq<string>, opts: seq<Typed>, d: RawDisk, key: string)
    requires forall i :: 0 <= i < |opts| ==> WellTyped(opts[i]) && opts[i].val == Field(d, ToLower(opts[i].key))
    requires forall i, j :: 0 <= i < j < |opts| ==> ToLower(opts[i].key) != ToLower(opts[j].key)
    requires |parts| == |opts| && forall i :: 0 <= i < |opts| ==> parts[i] == PrintOption(opts[i])
    ensures LastValue(parts, Setting(key), "") == TypedValue(opts, d, key)
  {
    forall i | 0 <= i < |opts|
      ensures ValueOf(parts[i]) == opts[i].val
      ensures Setting(key)(parts[i]) <==> ToLower(opts[i].key) == key
    {
      OptionReadsBack(opts[i]);
    }
    if k :| 0 <= k < |opts| && ToLower(opts[k].key) == key {
      LastValueIsLast(parts, Setting(key), "", k);
    } else {
      LastValueAbsent(parts, Setting(key), "");
    }
  }

  lemma PrintedSplits(path: string, opts: seq<Typed>)
    requires Plain(path) && (path != "" || opts != [])
    requires forall i :: 0 <= i < |opts| ==> WellTyped(opts[i])
    ensures var s := PrintDisk(path, opts);
            s != "" && Trim(s) == s && Split(s, ',') == PrintParts(path, opts)
  {
    var parts := PrintParts(path, opts);
    forall i | 1 <= i < |parts|
      ensures ',' !in parts[i] && parts[i] != "" && Trimmed(parts[i])
    {
      assert parts[i] == parts[1..][i - 1];
      OptionReadsBack(opts[i - 1]);
    }
    if opts != [] {
      JoinEnds(parts);
    }
    TrimTrims(PrintDisk(path, opts));
    SplitJoin(parts, ',');
  }

  /** However the options are ordered and the keys spelled, `WithDisk` recovers the disk that was printed. */
  lemma PrintedDiskReadsBack(d: RawDisk, opts: seq<Typed>, newUUID: string)
    requires Plain(d.path) && (d.path != "" || opts != [])
    requires d.uuid != "" && d.version != "" && Describes(opts, d, newUUID)
    ensures DiskOf(PrintDisk(d.path, opts), newUUID) == Some(d)
  {
    PrintedSplits(d.path, opts);
    TrimTrims(d.path);
    var parts := PrintParts(d.path, opts);
    TypedLastValue(parts[1..], opts, d, "uuid");
    TypedLastValue(parts[1..], opts, d, "version");
    TypedLastValue(parts[1..], opts, d, "mnt");
  }

  /** Blanks around an option, its key and its value do not matter. */
  lemma OptionIgnoresBlanks(key: string, val: string, a: string, b: string, c: string, d: string)
    requires Trimmed(key) && key != "" && '=' !in key && Trimmed(val)
    requires AllBlank(a) && AllBlank(b) && AllBlank(c) && AllBlank(d)
    ensures OptionOf(a + key + b + "=" + c + val + d) == Some((key, val))
  {
    var inner, pad := if val == "" then "" else c, if val == "" then c + d else d;
    var t := (key + b) + ['='] + (inner + val);
    assert a + key + b + "=" + c + val + d == a + t + pad;
    PaddedCut(key, b, '=', inner, val);
    TrimPads(a, t, pad);
  }

  // --- The var disk ----------------------------------------------------------

  /** What a `WithVarDataDisk` spec means; None leaves the configured disk alone. */
  function VarDiskOf(spec: string): Option<RawDisk> {
    var t := Trim(spec);
    var parts := Split(t, ',');
    if t == "" || Trim(parts[0]) == "" then None
    else Some(RawDisk(Trim(parts[0]), VAR_DATA_DISK_UUID, VAR_DISK_MOUNT_POINT,
                      LastValue(parts[1..], SetsVarVersion, DEFAULT_RAW_DISK_VERSION)))
  }

  method ParseVarDisk(spec: string) returns (d: Option<RawDisk>)
    ensures d == VarDiskOf(spec)
    ensures d.Some? ==> d.value.version != "" && d.value.uuid != ""
  {
    var t := Trim(spec);
    if t == "" {
      return None;
    }
    var parts := Split(t, ',');
    var path := Trim(parts[0]);
    if path == "" {
      return None;
    }
    var version := DEFAULT_RAW_DISK_VERSION;
    ghost var opts := parts[1..];
    var i := 1;
    while i < |parts|
      invariant 1 <= i <= |parts|
      invariant version != ""
      invariant version == LastValue(opts[..i - 1], SetsVarVersion, DEFAULT_RAW_DISK_VERSION)
    {
      assert opts[..i][..i - 1] == opts[..i - 1];
      var part := Trim(parts[i]);
      if '=' in part && EqualFold(Trim(Before(part, '=')), "version") && Trim(After(part, '=')) != "" {
        version := Trim(After(part, '='));
      }
      i := i + 1;
    }
    assert opts[..i - 1] == opts;
    return Some(RawDisk(path, VAR_DATA_DISK_UUID, VAR_DISK_MOUNT_POINT, version));
  }

  /** A printed var-disk spec reads back with the last version that is not blank, whatever its other options. */
  lemma PrintedVarDiskReadsBack(path: string, opts: seq<Typed>, i: nat)
    requires Plain(path) && path != "" && forall j :: 0 <= j < |opts| ==> WellTyped(opts[j])
    requires i < |opts| && EqualFold(opts[i].key, "version") && opts[i].val != ""
    requires forall j :: i < j < |opts| ==> !EqualFold(opts[j].key, "version") || opts[j].val == ""
    ensures VarDiskOf(PrintDisk(path, opts)) == Some(RawDisk(path, VAR_DATA_DISK_UUID, "/var", opts[i].val))
  {
    PrintedSplits(path, opts);
    TrimTrims(path);
    var parts := PrintParts(path, opts)[1..];
    forall j | 0 <= j < |opts| ensures OptionOf(parts[j]) == Some((opts[j].key, opts[j].val)) {
      OptionReadsBack(opts[j]);
    }
    LastValueIsLast(parts, SetsVarVersion, DEFAULT_RAW_DISK_VERSION, i);
  }

  /** Without one it has the default version; without a path it is no disk. */
  lemma BareVarDiskReadsBack(path: string)
    requires Plain(path)
    ensures VarDiskOf(path) == if path == "" then None else Some(RawDisk(path, VAR_DATA_DISK_UUID, "/var", "v1-0-0-ovm"))
  {
    TrimTrims(path);
    if path != "" {
      SplitJoin([path], ',');
      LastValueAbsent([], SetsVarVersion, DEFAULT_RAW_DISK_VERSION);
    }
  }

  // --- Where the two parsers differ ------------------------------------------------

  const DOTTED_I := 0x130 as char
  const LONG_S := 0x17F as char

  /** Where ToLower and EqualFold agree on the letters of "version". */
  lemma RunesAgree(c: char)
    ensures c != DOTTED_I && c != LONG_S ==> ToLowerRune(c) == FoldRune(c)
    ensures ToLowerRune(DOTTED_I) == 'i' && FoldRune(DOTTED_I) == DOTTED_I
    ensures ToLowerRune(LONG_S) == LONG_S && FoldRune(LONG_S) == 's'
  {
  }

  /** A key that one parser takes for "version" is taken by both exactly if it has neither a dotted capital I
      (U+0130), which only WithDisk takes, nor a long s (U+017F), which only WithVarDataDisk takes. */
  lemma SpellingsAgreeIff(key: string)
    requires ToLower(key) == "version" || EqualFold(key, "version")
    ensures ToLower(key) == "version" && EqualFold(key, "version") <==> DOTTED_I !in key && LONG_S !in key
  {
    var lower, fold := ToLower(key), MapRunes(FoldRune, key);
    assert forall c :: c in "version" ==> c != DOTTED_I && c != LONG_S;
    forall i | 0 <= i < |key| ensures lower[i] == fold[i] <==> key[i] != DOTTED_I && key[i] != LONG_S {
      RunesAgree(key[i]);
    }
    if DOTTED_I !in key && LONG_S !in key {
      assert lower == fold;
    } else {
      var i :| 0 <= i < |key| && (key[i] == DOTTED_I || key[i] == LONG_S);
      assert lower[i] != fold[i];
    }
  }

  /** The same for whole options: with a value that is not blank, both parsers take the version from it or neither,
      exactly unless its key is one of those spellings. */
  lemma ParsersAgreeIff(part: string)
    requires OptionOf(part).Some? && ValueOf(part) != ""
    ensures var key := OptionOf(part).value.0;
            (Sets(part, "version") <==> SetsVarVersion(part)) <==>
            !(ToLower(key) == "version" || EqualFold(key, "version")) || (DOTTED_I !in key && LONG_S !in key)
  {
    var key := OptionOf(part).value.0;
    if ToLower(key) == "version" || EqualFold(key, "version") {
      SpellingsAgreeIff(key);
    }
  }

  /** They disagree in both directions. */
  lemma KeySpellingsDiffer()
    ensures ToLower(['v', 'e', 'r', 's', DOTTED_I, 'o', 'n']) == "version"
    ensures !EqualFold(['v', 'e', 'r', 's', DOTTED_I, 'o', 'n'], "version")
    ensures ToLower(['v', 'e', 'r', LONG_S, 'i', 'o', 'n']) != "version"
    ensures EqualFold(['v', 'e', 'r', LONG_S, 'i', 'o', 'n'], "version")
  {
    var dotted, long := ['v', 'e', 'r', 's', DOTTED_I, 'o', 'n'], ['v', 'e', 'r', LONG_S, 'i', 'o', 'n'];
    assert ToLower(dotted) == "version" && MapRunes(FoldRune, long) == "version";
    assert MapRunes(FoldRune, dotted)[4] == DOTTED_I && ToLower(long)[3] == LONG_S;
  }
}
