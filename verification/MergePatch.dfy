/** JSON merge patch, section 2 of RFC 7396, which PATCH /vmconfig applies to the machine's JSON form. */
module MergePatch {

  datatype Json = Null | Bool(b: bool) | Num(n: real) | Str(s: string) | Arr(items: seq<Json>) | Obj(members: map<string, Json>)

  function MembersOf(j: Json): map<string, Json> {
    if j.Obj? then j.members else map[]
  }

  function Member(j: Json, name: string): Json {
    if name in MembersOf(j) then MembersOf(j)[name] else Null
  }

  /** Null-valued members of the patch delete, others merge; a patch that is not an object replaces. */
  function Merge(target: Json, patch: Json): Json
    decreases patch
  {
    if !patch.Obj? then patch
    else
      Obj(map name | name in MembersOf(target).Keys + patch.members.Keys &&
                     !(name in patch.members && patch.members[name] == Null)
          :: if name in patch.members then Merge(Member(target, name), patch.members[name])
             else MembersOf(target)[name])
  }

  /** The loop of the RFC's pseudocode, over the patch's members in any order. */
  method ApplyPatch(target: Json, patch: Json) returns (r: Json)
    ensures r == Merge(target, patch)
    decreases patch
  {
    if !patch.Obj? {
      return patch;
    }
    var result := MembersOf(target);
    var todo := patch.members.Keys;
    while todo != {}
      invariant todo <= patch.members.Keys
      invariant forall name :: name in todo || name !in patch.members ==>
        (name in result <==> name in MembersOf(target)) && (name in result ==> result[name] == MembersOf(target)[name])
      invariant forall name :: name in patch.members && name !in todo ==>
        (name in result <==> patch.members[name] != Null) &&
        (name in result ==> result[name] == Merge(Member(target, name), patch.members[name]))
      decreases todo
    {
      var name :| name in todo;
      var value := patch.members[name];
      if value == Null {
        result := result - {name};
      } else {
        var merged := ApplyPatch(if name in result then result[name] else Null, value);
        result := result[name := merged];
      }
      todo := todo - {name};
    }
    r := Obj(result);
    assert result == Merge(target, patch).members;
  }

  // --- What a patch does at any depth ------------------------------------------------

  /** The value at a path of member names. */
  function Lookup(j: Json, path: seq<string>): (v: (bool, Json)) {
    if path == [] then (true, j)
    else if path[0] in MembersOf(j) then Lookup(MembersOf(j)[path[0]], path[1..])
    else (false, Null)
  }

  /** The patch, followed along the path, runs out of members before the path ends. */
  predicate LeavesAlone(patch: Json, path: seq<string>) {
    patch.Obj? && path != [] &&
    (path[0] in patch.members ==> LeavesAlone(patch.members[path[0]], path[1..]))
  }

  /** The patch, followed along the path, gives a value that is not an object. */
  predicate Assigns(patch: Json, path: seq<string>, v: Json) {
    if path == [] then patch == v && !v.Obj?
    else patch.Obj? && path[0] in patch.members && Assigns(patch.members[path[0]], path[1..], v)
  }

  lemma {:induction false} PatchFrame(target: Json, patch: Json, path: seq<string>)
    requires LeavesAlone(patch, path)
    ensures Lookup(Merge(target, patch), path) == Lookup(target, path)
    decreases path
  {
    var name := path[0];
    if name in patch.members {
      var p := patch.members[name];
      PatchFrame(Member(target, name), p, path[1..]);
      assert Lookup(Null, path[1..]) == (false, Null);
    }
  }

  /** Null removes the value at the path, anything else is found there afterwards. */
  lemma {:induction false} PatchEffect(target: Json, patch: Json, path: seq<string>, v: Json)
    requires Assigns(patch, path, v) && path != []
    ensures Lookup(Merge(target, patch), path) == if v == Null then (false, Null) else (true, v)
    decreases path
  {
    var name := path[0];
    if |path| > 1 {
      PatchEffect(Member(target, name), patch.members[name], path[1..], v);
    } else {
      assert path[1..] == [];
    }
  }

  /** Repeating a patch changes nothing more. */
  lemma {:induction false} PatchIdempotent(target: Json, patch: Json)
    ensures Merge(Merge(target, patch), patch) == Merge(target, patch)
    decreases patch
  {
    if patch.Obj? {
      var once, twice := Merge(target, patch).members, Merge(Merge(target, patch), patch).members;
      forall name | name in once ensures name in twice && twice[name] == once[name] {
        if name in patch.members {
          PatchIdempotent(Member(target, name), patch.members[name]);
        }
      }
      assert twice.Keys == once.Keys;
    }
  }

  /** No object at any depth has a null member. */
  ghost predicate NullFree(j: Json) {
    j.Obj? ==> forall name :: name in j.members ==> j.members[name] != Null && NullFree(j.members[name])
  }

  lemma {:induction false} PatchKeepsNullFree(target: Json, patch: Json)
    requires NullFree(target)
    ensures NullFree(Merge(target, patch))
    decreases patch
  {
    if patch.Obj? {
      var m := Merge(target, patch).members;
      forall name | name in m ensures m[name] != Null && NullFree(m[name]) {
        if name in patch.members {
          PatchKeepsNullFree(Member(target, name), patch.members[name]);
        }
      }
    }
  }
}
