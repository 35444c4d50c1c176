/** JSON merge patch (backend/internal/gaming/merge.go) against the algorithm of
    section 2 of RFC 7396. */
module MergePatch {
  datatype Json =
    | Null
    | Bool(b: bool)
    | Num(n: real)
    | Str(s: string)
    | Arr(items: seq<Json>)
    | Obj(members: map<string, Json>)

  /** The members of an object, none for any other value. */
  function Members(value: Json): map<string, Json> {
    if value.Obj? then value.members else map[]
  }

  /** The reference algorithm: a patch that is no object replaces the target; an
      object patches the target's members, null removing a member. */
  function Rfc7396(target: Json, patch: Json): Json
    decreases patch
  {
    if !patch.Obj? then patch
    else
      var members := Members(target);
      Obj(map name | name in members.Keys + patch.members.Keys
          && !(name in patch.members && patch.members[name].Null?) ::
            if name in patch.members
            then Rfc7396(if name in members then members[name] else Null, patch.members[name])
            else members[name])
  }

  /** The merge of the source: members are taken from the patch one by one in an
      order nobody fixes, and nested objects are merged in place. */
  method Merge(target: map<string, Json>, patch: map<string, Json>) returns (merged: map<string, Json>)
    ensures Obj(merged) == Rfc7396(Obj(target), Obj(patch))
    ensures forall name :: name !in patch ==>
              (name in merged <==> name in target) && (name in merged ==> merged[name] == target[name])
    decreases Obj(patch)
  {
    merged := target;
    var names := patch.Keys;
    while names != {}
      invariant names <= patch.Keys
      invariant forall name :: name in merged <==>
                  if name in patch && name !in names then !patch[name].Null? else name in target
      invariant forall name <- merged :: merged[name] ==
                  if name in patch && name !in names
                  then Rfc7396(if name in target then target[name] else Null, patch[name])
                  else target[name]
      decreases names
    {
      var key :| key in names;
      names := names - {key};
      var value := patch[key];
      if value.Null? {
        merged := merged - {key};
        continue;
      }
      if value.Obj? {
        var existing := if key in merged && merged[key].Obj? then merged[key].members else map[];
        assert value < Obj(patch);
        var inner := Merge(existing, value.members);
        merged := merged[key := Obj(inner)];
        continue;
      }
      merged := merged[key := value];
    }
  }

  // ---- what a merge does, path by path ----

  /** The value at a path of member names. */
  function At(value: Json, path: seq<string>): Json
    decreases |path|
  {
    if path == [] then value
    else if path[0] in Members(value) then At(Members(value)[path[0]], path[1..])
    else Null
  }

  /** There is something at the path. */
  predicate Has(value: Json, path: seq<string>)
    decreases |path|
  {
    path == [] || (path[0] in Members(value) && Has(Members(value)[path[0]], path[1..]))
  }

  /** The patch says nothing of the path: it leaves the patch at an object that lacks the next name. */
  predicate Unmentioned(patch: Json, path: seq<string>)
    decreases |path|
  {
    path != [] && patch.Obj? && (path[0] in patch.members ==> Unmentioned(patch.members[path[0]], path[1..]))
  }

  /** What the patch does not mention stays; where it names a value, the value is set;
      where it names null, or passes through a value or null, nothing is left; and where
      it goes on there is an object. */
  lemma {:induction false} MergedAt(target: Json, patch: Json, path: seq<string>)
    requires patch.Obj? && path != []
    ensures var merged := Rfc7396(target, patch);
            if Unmentioned(patch, path)
            then Has(merged, path) == Has(target, path) && At(merged, path) == At(target, path)
            else if !Has(patch, path) || At(patch, path).Null? then !Has(merged, path)
            else Has(merged, path)
                 && if At(patch, path).Obj? then At(merged, path).Obj? else At(merged, path) == At(patch, path)
    decreases |path|
  {
    var name, rest, merged := path[0], path[1..], Rfc7396(target, patch);
    var before := if name in Members(target) then Members(target)[name] else Null;
    assert name in merged.members <==>
           if name in patch.members then !patch.members[name].Null? else name in Members(target);
    if name in patch.members {
      var after := patch.members[name];
      assert !after.Null? ==> merged.members[name] == Rfc7396(before, after);
      if after.Obj? && rest != [] {
        MergedAt(before, after, rest);
        Stepped(Null, rest);
      }
    } else {
      assert name in merged.members ==> merged.members[name] == before;
    }
    Stepped(merged, path);
    Stepped(target, path);
    Stepped(patch, path);
    hide Rfc7396, Has, At, Unmentioned;
  }

  lemma Stepped(value: Json, path: seq<string>)
    requires path != []
    ensures if path[0] in Members(value)
            then var next := Members(value)[path[0]];
              Has(value, path) == Has(next, path[1..]) && At(value, path) == At(next, path[1..])
            else !Has(value, path) && At(value, path) == Null
    ensures Unmentioned(value, path) <==>
              value.Obj? && (path[0] in value.members ==>
                               && value.members[path[0]].Obj? && |path| > 1
                               && Unmentioned(value.members[path[0]], path[1..]))
  {
  }


  /** Applying a patch again changes nothing. */
  lemma {:induction false} MergeIdempotent(target: Json, patch: Json)
    ensures Rfc7396(Rfc7396(target, patch), patch) == Rfc7396(target, patch)
    decreases patch
  {
    if patch.Obj? {
      var once := Rfc7396(target, patch);
      var twice := Rfc7396(once, patch);
      forall name | name in once.members ensures name in twice.members && twice.members[name] == once.members[name] {
        if name in patch.members {
          MergeIdempotent(if name in Members(target) then Members(target)[name] else Null, patch.members[name]);
        }
      }
      assert twice.members == once.members;
    }
  }

  /** Two patches touch disjoint paths: whatever both mention is an object in both,
      in which they are disjoint again. */
  ghost predicate DisjointPaths(p: Json, q: Json)
    decreases p
  {
    && p.Obj? && q.Obj?
    && forall name :: name in p.members && name in q.members ==> DisjointPaths(p.members[name], q.members[name])
  }

  /** A stored change replayed after another edit gives what the other order gives. */
  lemma {:induction false} DisjointPatchesCommute(target: Json, p: Json, q: Json)
    requires DisjointPaths(p, q)
    ensures Rfc7396(Rfc7396(target, p), q) == Rfc7396(Rfc7396(target, q), p)
    decreases p
  {
    var pq, qp := Rfc7396(Rfc7396(target, p), q), Rfc7396(Rfc7396(target, q), p);
    forall name | name in p.members && name in q.members
      ensures name in pq.members && name in qp.members && pq.members[name] == qp.members[name]
    {
      DisjointPatchesCommute(if name in Members(target) then Members(target)[name] else Null, p.members[name],
                             q.members[name]);
    }
    assert pq.members.Keys == qp.members.Keys;
    assert pq.members == qp.members;
  }
}
