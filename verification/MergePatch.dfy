/** Merging a configuration patch into a configuration, against section 2 of RFC 7396. */
module MergePatch {

  /** A decoded JSON value; `Scalar` stands for strings, numbers, booleans and arrays. */
  datatype Json = Null | Scalar(text: string) | Object(members: map<string, Json>)

  type Members = map<string, Json>

  /* ---- what the code computes ---- */

  predicate BothObjects(dst: Members, src: Members, k: string) {
    k in src && src[k].Object? && k in dst && dst[k].Object?
  }

  predicate Deletes(src: Members, k: string) {
    k in src && src[k].Null?
  }

  /** Nulls delete, objects over objects merge, everything else overwrites. */
  function Merged(dst: Members, src: Members): Members
    decreases Object(src)
  {
    map k | k in dst.Keys + src.Keys && !Deletes(src, k) ::
      if k !in src then dst[k]
      else if BothObjects(dst, src, k) then
        assert Object(src[k].members) == src[k] == Object(src).members[k];
        Object(Merged(dst[k].members, src[k].members))
      else src[k]
  }

  lemma MergedEntry(dst: Members, src: Members, k: string)
    ensures k in Merged(dst, src) <==> (k in dst || k in src) && !Deletes(src, k)
    ensures k in Merged(dst, src) ==>
      Merged(dst, src)[k] ==
        if k !in src then dst[k]
        else if BothObjects(dst, src, k) then Object(Merged(dst[k].members, src[k].members))
        else src[k]
  {
  }

  /* ---- what RFC 7396 says ---- */

  datatype Target = Missing | Present(value: Json)

  function TargetAt(m: Members, k: string): Target {
    if k in m then Present(m[k]) else Missing
  }

  /** A target that is no object counts as an empty one. */
  function TargetMembers(target: Target): Members {
    if target.Present? && target.value.Object? then target.value.members else map[]
  }

  /** MergePatch of section 2 of RFC 7396. */
  function Patched(target: Target, patch: Json): Json
    decreases patch
  {
    match patch
    case Object(p) =>
      var t := TargetMembers(target);
      Object(map k | k in t.Keys + p.Keys && !Deletes(p, k) :: if k in p then Patched(TargetAt(t, k), p[k]) else t[k])
    case _ => patch
  }

  lemma PatchedEntry(target: Target, p: Members, k: string)
    ensures Patched(target, Object(p)).Object?
    ensures var t, r := TargetMembers(target), Patched(target, Object(p)).members;
      (k in r <==> (k in t || k in p) && !Deletes(p, k)) &&
      (k in r ==> r[k] == if k in p then Patched(TargetAt(t, k), p[k]) else t[k])
  {
  }

  /* ---- when the two agree ---- */

  /** No object in the patch, at any depth of objects, holds a null. */
  predicate NoNulls(p: Json)
    decreases p
  {
    p.Object? ==> forall k :: k in p.members ==> !p.members[k].Null? && NoNulls(p.members[k])
  }

  /** No patch object that holds a null lies over a target that is missing or no object. */
  predicate Clean(dst: Members, src: Members)
    decreases Object(src)
  {
    forall k :: k in src && src[k].Object? ==>
      assert Object(src[k].members) == src[k] == Object(src).members[k];
      if BothObjects(dst, src, k) then Clean(dst[k].members, src[k].members) else NoNulls(src[k])
  }

  predicate CleanAt(dst: Members, src: Members, k: string) {
    k in src && src[k].Object? ==>
      if BothObjects(dst, src, k) then Clean(dst[k].members, src[k].members) else NoNulls(src[k])
  }

  lemma CleanIsEverywhere(dst: Members, src: Members)
    ensures Clean(dst, src) <==> forall k :: CleanAt(dst, src, k)
  {
    hide NoNulls;
    forall k | CleanAt(dst, src, k) && k in src && src[k].Object?
      ensures if BothObjects(dst, src, k) then Clean(dst[k].members, src[k].members) else NoNulls(src[k])
    {
    }
  }

  lemma NoNullsIsEverywhere(p: Members)
    ensures NoNulls(Object(p)) <==> forall k :: k in p ==> !p[k].Null? && NoNulls(p[k])
  {
  }

  /** Applied to nothing, the standard's patch is the patch itself if and only if it holds no null. */
  lemma {:induction false} PatchedOntoNothing(target: Target, patch: Json)
    requires TargetMembers(target) == map[]
    ensures Patched(target, patch) == patch <==> NoNulls(patch)
    decreases patch
  {
    hide TargetMembers, Patched, NoNulls;
    match patch
    case Object(p) =>
      var r := Patched(target, patch);
      PatchedEntry(target, p, "");
      NoNullsIsEverywhere(p);
      forall k | k in p
        ensures (k in r.members && r.members[k] == p[k]) <==> !p[k].Null? && NoNulls(p[k])
      {
        PatchedEntry(target, p, k);
        assert p[k] == patch.members[k];
        MissingIsNothing();
        PatchedOntoNothing(Missing, p[k]);
      }
      forall k ensures k in r.members ==> k in p {
        PatchedEntry(target, p, k);
      }
      if NoNulls(patch) {
        assert r.members == p;
      }
    case _ =>
      PatchedScalar(target, patch);
  }

  lemma MissingIsNothing()
    ensures TargetMembers(Missing) == map[] && forall k :: TargetAt(map[], k) == Missing
  {
  }

  lemma PatchedScalar(target: Target, patch: Json)
    requires !patch.Object?
    ensures Patched(target, patch) == patch && NoNulls(patch)
  {
  }

  /** The code computes the standard's result exactly on the clean patches. */
  lemma {:induction false} MergeIsMergePatch(dst: Members, src: Members)
    ensures Object(Merged(dst, src)) == Patched(Present(Object(dst)), Object(src)) <==> Clean(dst, src)
    decreases Object(src)
  {
    hide Merged, Patched, Clean, NoNulls, CleanAt;
    var a, r := Merged(dst, src), Patched(Present(Object(dst)), Object(src));
    PatchedEntry(Present(Object(dst)), src, "");
    var b := r.members;
    CleanIsEverywhere(dst, src);
    forall k ensures (k in a <==> k in b) && (k in a ==> (a[k] == b[k] <==> CleanAt(dst, src, k))) {
      MergedEntry(dst, src, k);
      PatchedEntry(Present(Object(dst)), src, k);
      if k in a && k in src && src[k].Object? {
        assert src[k] == Object(src).members[k];
        EntriesAgree(dst, src, k);
      } else {
        OtherEntriesAgree(dst, src, k);
      }
    }
    forall k | k !in a ensures CleanAt(dst, src, k) {
      MergedEntry(dst, src, k);
      OtherEntriesAgree(dst, src, k);
    }
    if Clean(dst, src) {
      assert a == b;
    }
  }

  lemma OtherEntriesAgree(dst: Members, src: Members, k: string)
    requires k in src ==> !src[k].Object?
    ensures CleanAt(dst, src, k)
    ensures k in src ==> Patched(TargetAt(dst, k), src[k]) == src[k]
  {
  }

  function ObjectEntry(dst: Members, src: Members, k: string): Json
    requires k in src
  {
    if BothObjects(dst, src, k) then Object(Merged(dst[k].members, src[k].members)) else src[k]
  }

  lemma EntriesAgree(dst: Members, src: Members, k: string)
    requires k in src && src[k].Object?
    ensures ObjectEntry(dst, src, k) == Patched(TargetAt(dst, k), src[k]) <==> CleanAt(dst, src, k)
    decreases Object(src), 0
  {
    hide Merged, Patched, Clean, NoNulls;
    if BothObjects(dst, src, k) {
      assert Object(src[k].members) == src[k] == Object(src).members[k];
      MergeIsMergePatch(dst[k].members, src[k].members);
      assert Object(dst[k].members) == dst[k];
    } else {
      PatchedOntoNothing(TargetAt(dst, k), src[k]);
    }
  }

  /* ---- applying a patch twice ---- */

  lemma {:induction false} MergedOntoItself(m: Members)
    ensures Merged(m, m) == m <==> NoNulls(Object(m))
    decreases Object(m)
  {
    hide Merged, NoNulls;
    NoNullsIsEverywhere(m);
    var a := Merged(m, m);
    forall k ensures (k in a ==> k in m) && (k in m ==> ((k in a && a[k] == m[k]) <==> !m[k].Null? && NoNulls(m[k]))) {
      MergedEntry(m, m, k);
      if k in m && m[k].Object? {
        assert Object(m[k].members) == m[k] == Object(m).members[k];
        MergedOntoItself(m[k].members);
      } else if k in m {
        PatchedScalar(Missing, m[k]);
      }
    }
    if NoNulls(Object(m)) {
      assert a == m;
    }
  }

  /** Merging the same patch again changes nothing exactly when the patch is clean. */
  lemma {:induction false} MergeIsIdempotent(dst: Members, src: Members)
    ensures Merged(Merged(dst, src), src) == Merged(dst, src) <==> Clean(dst, src)
    decreases Object(src)
  {
    hide Merged, Clean, NoNulls, CleanAt;
    var once := Merged(dst, src);
    var twice := Merged(once, src);
    CleanIsEverywhere(dst, src);
    forall k ensures (k in twice <==> k in once) && (k in once ==> (twice[k] == once[k] <==> CleanAt(dst, src, k))) {
      MergedEntry(dst, src, k);
      MergedEntry(once, src, k);
      if k in once && k in src && src[k].Object? {
        SecondEntry(dst, src, k);
      } else if k in once {
        OtherEntriesAgree(dst, src, k);
      }
    }
    forall k | k !in once ensures CleanAt(dst, src, k) {
      MergedEntry(dst, src, k);
      OtherEntriesAgree(dst, src, k);
    }
    if Clean(dst, src) {
      assert twice == once;
    }
  }

  lemma SecondEntry(dst: Members, src: Members, k: string)
    requires k in src && src[k].Object? && k in Merged(dst, src)
    ensures Object(Merged(ObjectEntry(dst, src, k).members, src[k].members)) == ObjectEntry(dst, src, k)
       <==> CleanAt(dst, src, k)
    decreases Object(src), 0
  {
    hide Merged, Clean, NoNulls;
    assert Object(src[k].members) == src[k] == Object(src).members[k];
    if BothObjects(dst, src, k) {
      MergeIsIdempotent(dst[k].members, src[k].members);
    } else {
      MergedOntoItself(src[k].members);
    }
  }

  /* ---- paths ---- */

  function ValueAt(m: Members, path: seq<string>): Target
    requires path != []
    decreases |path|
  {
    if path[0] !in m then Missing
    else if |path| == 1 then Present(m[path[0]])
    else if m[path[0]].Object? then ValueAt(m[path[0]].members, path[1..])
    else Missing
  }

  /** The patch says nothing at the path, nor at a place the path goes through. */
  predicate Unmentioned(src: Members, path: seq<string>)
    requires path != []
    decreases |path|
  {
    path[0] !in src || (|path| > 1 && src[path[0]].Object? && Unmentioned(src[path[0]].members, path[1..]))
  }

  lemma {:induction false} UnmentionedIsMissing(src: Members, path: seq<string>)
    requires path != [] && Unmentioned(src, path)
    ensures ValueAt(src, path) == Missing
    decreases |path|
  {
    if path[0] in src {
      UnmentionedIsMissing(src[path[0]].members, path[1..]);
    }
  }

  /** Every path the patch does not mention keeps its value, clean patch or not. */
  lemma {:induction false} UnmentionedStays(dst: Members, src: Members, path: seq<string>)
    requires path != [] && Unmentioned(src, path)
    ensures ValueAt(Merged(dst, src), path) == ValueAt(dst, path)
    decreases |path|
  {
    hide Merged;
    var k := path[0];
    MergedEntry(dst, src, k);
    if BothObjects(dst, src, k) {
      UnmentionedStays(dst[k].members, src[k].members, path[1..]);
    } else if k in src {
      UnmentionedIsMissing(src[k].members, path[1..]);
    }
  }

  /** Every scalar the patch holds is at its path in the result. */
  lemma {:induction false} ScalarsAreSet(dst: Members, src: Members, path: seq<string>)
    requires path != [] && ValueAt(src, path).Present? && ValueAt(src, path).value.Scalar?
    ensures ValueAt(Merged(dst, src), path) == ValueAt(src, path)
    decreases |path|
  {
    hide Merged;
    var k := path[0];
    MergedEntry(dst, src, k);
    if BothObjects(dst, src, k) && |path| > 1 {
      ScalarsAreSet(dst[k].members, src[k].members, path[1..]);
    }
  }

  lemma {:induction false} NoNullOnPath(p: Members, path: seq<string>)
    requires path != [] && NoNulls(Object(p))
    ensures ValueAt(p, path) != Present(Null)
    decreases |path|
  {
    hide NoNulls;
    NoNullsIsEverywhere(p);
    if path[0] in p && |path| > 1 && p[path[0]].Object? {
      assert Object(p[path[0]].members) == p[path[0]];
      NoNullOnPath(p[path[0]].members, path[1..]);
    }
  }

  /** A clean patch leaves nothing at the paths where it holds a null. */
  lemma {:induction false} NullsAreRemoved(dst: Members, src: Members, path: seq<string>)
    requires path != [] && Clean(dst, src) && ValueAt(src, path) == Present(Null)
    ensures ValueAt(Merged(dst, src), path) == Missing
    decreases |path|
  {
    hide Merged, Clean, NoNulls;
    var k := path[0];
    MergedEntry(dst, src, k);
    CleanIsEverywhere(dst, src);
    assert CleanAt(dst, src, k);
    if |path| > 1 {
      if BothObjects(dst, src, k) {
        NullsAreRemoved(dst[k].members, src[k].members, path[1..]);
      } else {
        assert Object(src[k].members) == src[k];
        NoNullOnPath(src[k].members, path[1..]);
      }
    }
  }

  /** Where an object holds a null. */
  lemma {:induction false} PathToNull(p: Members) returns (path: seq<string>)
    requires !NoNulls(Object(p))
    ensures path != [] && ValueAt(p, path) == Present(Null)
    decreases Object(p)
  {
    hide NoNulls;
    NoNullsIsEverywhere(p);
    var k :| k in p && !(!p[k].Null? && NoNulls(p[k]));
    if p[k].Null? {
      path := [k];
    } else {
      if !p[k].Object? {
        PatchedScalar(Missing, p[k]);
        assert false;
      }
      assert Object(p[k].members) == p[k] == Object(p).members[k];
      var rest := PathToNull(p[k].members);
      path := [k] + rest;
    }
  }

  /** A patch that is not clean puts one of its nulls into the configuration. */
  lemma {:induction false} NullMaySurvive(dst: Members, src: Members) returns (path: seq<string>)
    requires !Clean(dst, src)
    ensures path != [] && ValueAt(src, path) == Present(Null) == ValueAt(Merged(dst, src), path)
    decreases Object(src)
  {
    hide Merged, Clean, NoNulls, CleanAt;
    CleanIsEverywhere(dst, src);
    var k :| !CleanAt(dst, src, k);
    DirtyAt(dst, src, k);
    MergedEntry(dst, src, k);
    assert Object(src[k].members) == src[k] == Object(src).members[k];
    var rest;
    if BothObjects(dst, src, k) {
      rest := NullMaySurvive(dst[k].members, src[k].members);
    } else {
      rest := PathToNull(src[k].members);
    }
    path := [k] + rest;
  }

  lemma DirtyAt(dst: Members, src: Members, k: string)
    requires !CleanAt(dst, src, k)
    ensures k in src && src[k].Object?
    ensures if BothObjects(dst, src, k) then !Clean(dst[k].members, src[k].members) else !NoNulls(src[k])
  {
  }

  /** So the clean patches are exactly those whose every null deletes. */
  lemma CleanMeansNullsDelete(dst: Members, src: Members)
    ensures Clean(dst, src) <==>
      forall path :: path != [] && ValueAt(src, path) == Present(Null) ==> ValueAt(Merged(dst, src), path) == Missing
  {
    hide Merged, Clean, ValueAt;
    if Clean(dst, src) {
      forall path | path != [] && ValueAt(src, path) == Present(Null)
        ensures ValueAt(Merged(dst, src), path) == Missing
      {
        NullsAreRemoved(dst, src, path);
      }
    } else {
      var path := NullMaySurvive(dst, src);
    }
  }
}
