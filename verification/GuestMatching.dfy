/** Pairing the guests of a planned device with those of its host
    (backend/internal/proxmox/reconcile.go, matchGuests). */
module GuestMatching {
  import opened Wrappers
  import opened Matching

  datatype MatchedBy = ById | ByName

  /** Index in actual to index in planned, and how the match was made. */
  datatype Match = Match(planned: nat, how: MatchedBy)

  predicate IdFits(plan: PlannedGuest, guest: Guest) {
    plan.vmid > 0 && plan.vmid == guest.vmid
  }

  /** A guest linked to another id is that other guest, whatever it is called. */
  predicate NameFits(plan: PlannedGuest, guest: Guest) {
    NormalizeName(guest.name) != "" && plan.vmid == 0 && NormalizeName(plan.name) == NormalizeName(guest.name)
  }

  predicate MatchFits(plan: PlannedGuest, guest: Guest, how: MatchedBy) {
    if how.ById? then IdFits(plan, guest) else NameFits(plan, guest)
  }

  ghost predicate Sound(planned: seq<PlannedGuest>, actual: seq<Guest>, pairs: map<nat, Match>) {
    && (forall a <- pairs :: a < |actual| && pairs[a].planned < |planned|
                             && MatchFits(planned[pairs[a].planned], actual[a], pairs[a].how))
    && (forall a, b :: a in pairs && b in pairs && pairs[a].planned == pairs[b].planned ==> a == b)
  }

  ghost function UsedBy(pairs: map<nat, Match>): set<nat> {
    set a | a in pairs :: pairs[a].planned
  }

  /** The first planned guest that is not used and fits. */
  method FirstUnused(planned: seq<PlannedGuest>, guest: Guest, used: set<nat>, how: MatchedBy) returns (p: Option<nat>)
    ensures p.Some? ==> p.value < |planned| && p.value !in used && MatchFits(planned[p.value], guest, how)
    ensures p.None? ==> forall q :: 0 <= q < |planned| && MatchFits(planned[q], guest, how) ==> q in used
  {
    for q := 0 to |planned|
      invariant forall r :: 0 <= r < q && MatchFits(planned[r], guest, how) ==> r in used
    {
      if q !in used && MatchFits(planned[q], guest, how) {
        return Some(q);
      }
    }
    return None;
  }

  lemma MatchMore(planned: seq<PlannedGuest>, actual: seq<Guest>, pairs: map<nat, Match>, a: nat, m: Match)
    requires Sound(planned, actual, pairs) && a !in pairs && a < |actual| && m.planned < |planned|
    requires m.planned !in UsedBy(pairs) && MatchFits(planned[m.planned], actual[a], m.how)
    ensures Sound(planned, actual, pairs[a := m]) && UsedBy(pairs[a := m]) == UsedBy(pairs) + {m.planned}
  {
    var more := pairs[a := m];
    forall q ensures q in UsedBy(more) <==> q in UsedBy(pairs) || q == m.planned {
      assert more[a].planned == m.planned;
      if b :| b in pairs && pairs[b].planned == q {
        assert more[b].planned == q;
      }
    }
  }

  /** A round over the running guests that have no match yet. */
  method MatchRound(planned: seq<PlannedGuest>, actual: seq<Guest>, how: MatchedBy, pairs: map<nat, Match>)
    returns (pairs': map<nat, Match>)
    requires Sound(planned, actual, pairs)
    ensures Sound(planned, actual, pairs')
    ensures forall a <- pairs :: a in pairs' && pairs'[a] == pairs[a]
    ensures forall a <- pairs' :: a !in pairs ==> pairs'[a].how == how
    ensures forall a, p ::
              0 <= a < |actual| && a !in pairs' && 0 <= p < |planned| && MatchFits(planned[p], actual[a], how) ==>
                p in UsedBy(pairs')
  {
    hide MatchFits;
    pairs' := pairs;
    var used := set a | a in pairs :: pairs[a].planned;
    for a := 0 to |actual|
      invariant Sound(planned, actual, pairs') && used == UsedBy(pairs')
      invariant forall b <- pairs :: b in pairs' && pairs'[b] == pairs[b]
      invariant forall b <- pairs' :: b !in pairs ==> pairs'[b].how == how && b < a
      invariant forall b, p ::
                  0 <= b < a && b !in pairs' && 0 <= p < |planned| && MatchFits(planned[p], actual[b], how) ==>
                    p in used
    {
      if a in pairs' {
        continue;
      }
      var p := FirstUnused(planned, actual[a], used, how);
      if p.Some? {
        MatchMore(planned, actual, pairs', a, Match(p.value, how));
        pairs' := pairs'[a := Match(p.value, how)];
        used := used + {p.value};
      }
    }
  }

  // ---- how many matches by name ----

  /** The running guests of a name that were not matched by id. */
  ghost function Running(actual: seq<Guest>, pairs: map<nat, Match>, name: string): set<nat> {
    set a | 0 <= a < |actual| && NormalizeName(actual[a].name) == name && !(a in pairs && pairs[a].how == ById)
  }

  /** The planned guests of a name that were never imported. */
  ghost function Unlinked(planned: seq<PlannedGuest>, name: string): set<nat> {
    set p | 0 <= p < |planned| && NormalizeName(planned[p].name) == name && planned[p].vmid == 0
  }

  ghost function MatchedByName(actual: seq<Guest>, pairs: map<nat, Match>, name: string): set<nat> {
    set a | 0 <= a < |actual| && a in pairs && pairs[a].how == ByName && NormalizeName(actual[a].name) == name
  }

  function Min(a: nat, b: nat): nat { if a < b then a else b }

  lemma {:induction false} InjectiveImage(pairs: map<nat, Match>, s: set<nat>)
    requires forall a <- s :: a in pairs
    requires forall a, b :: a in s && b in s && pairs[a].planned == pairs[b].planned ==> a == b
    ensures |set a | a in s :: pairs[a].planned| == |s|
  {
    var image := set a | a in s :: pairs[a].planned;
    if s == {} {
      assert image == {};
    } else {
      var x :| x in s;
      var rest := s - {x};
      InjectiveImage(pairs, rest);
      var smaller := set a | a in rest :: pairs[a].planned;
      assert image == smaller + {pairs[x].planned};
      assert pairs[x].planned !in smaller;
    }
  }

  lemma SubsetSize(some: set<nat>, all: set<nat>)
    requires some <= all
    ensures |some| <= |all| && (|some| == |all| ==> some == all)
  {
    assert all == some + (all - some);
  }

  /** Neither side has one of the name left over while the other has one too. */
  ghost predicate NamesExhausted(planned: seq<PlannedGuest>, actual: seq<Guest>, pairs: map<nat, Match>) {
    forall a, p :: 0 <= a < |actual| && a !in pairs && 0 <= p < |planned| && NameFits(planned[p], actual[a]) ==>
      p in UsedBy(pairs)
  }

  lemma NameCount(planned: seq<PlannedGuest>, actual: seq<Guest>, pairs: map<nat, Match>, name: string)
    requires Sound(planned, actual, pairs) && NamesExhausted(planned, actual, pairs) && name != ""
    ensures |MatchedByName(actual, pairs, name)| == Min(|Running(actual, pairs, name)|, |Unlinked(planned, name)|)
  {
    hide NormalizeName;
    var matched, running, unlinked := MatchedByName(actual, pairs, name), Running(actual, pairs, name),
      Unlinked(planned, name);
    var image := set a | a in matched :: pairs[a].planned;
    InjectiveImage(pairs, matched);
    assert matched <= running && image <= unlinked;
    SubsetSize(matched, running);
    SubsetSize(image, unlinked);
    if matched != running {
      var a :| a in running && a !in matched;
      assert a !in pairs;
      forall p | p in unlinked ensures p in image {
        assert NameFits(planned[p], actual[a]);
        assert p in UsedBy(pairs);
        var b :| b in pairs && pairs[b].planned == p;
        assert b in matched;
      }
      assert image == unlinked;
    }
  }

  /** A guest whose id is planned has it, unless another guest of that id does. */
  ghost predicate IdsTaken(planned: seq<PlannedGuest>, actual: seq<Guest>, pairs: map<nat, Match>) {
    forall a, p :: 0 <= a < |actual| && 0 <= p < |planned| && IdFits(planned[p], actual[a]) ==>
      (a in pairs && pairs[a].how == ById) || exists b :: b in pairs && pairs[b] == Match(p, ById)
  }

  /** By every name as many are matched as the rarer side has. */
  ghost predicate NamesBalanced(planned: seq<PlannedGuest>, actual: seq<Guest>, pairs: map<nat, Match>) {
    forall name :: name != "" ==>
      |MatchedByName(actual, pairs, name)| == Min(|Running(actual, pairs, name)|, |Unlinked(planned, name)|)
  }

  /** One to one, fitting, and as large as can be. */
  ghost predicate WellMatched(planned: seq<PlannedGuest>, actual: seq<Guest>, pairs: map<nat, Match>) {
    Sound(planned, actual, pairs) && IdsTaken(planned, actual, pairs) && NamesBalanced(planned, actual, pairs)
  }

  /** First by the id a guest was imported from, then by name. No guest is matched
      twice, every match fits, a guest whose id is planned and free is never left,
      and by name as many are matched as the rarer side has. */
  method MatchGuests(planned: seq<PlannedGuest>, actual: seq<Guest>) returns (pairs: map<nat, Match>)
    ensures WellMatched(planned, actual, pairs)
  {
    hide NormalizeName, Running, Unlinked, MatchedByName;
    pairs := MatchRound(planned, actual, ById, map[]);
    ghost var byId := pairs;
    pairs := MatchRound(planned, actual, ByName, pairs);
    forall a, p | 0 <= a < |actual| && 0 <= p < |planned| && IdFits(planned[p], actual[a])
      && !(a in pairs && pairs[a].how == ById)
      ensures exists b :: b in pairs && pairs[b] == Match(p, ById)
    {
      assert a !in byId && MatchFits(planned[p], actual[a], ById);
      var b :| b in byId && byId[b].planned == p;
      assert pairs[b] == Match(p, ById);
    }
    forall name | name != ""
      ensures |MatchedByName(actual, pairs, name)| == Min(|Running(actual, pairs, name)|, |Unlinked(planned, name)|)
    {
      assert forall a, p :: 0 <= a < |actual| && a !in pairs && 0 <= p < |planned| ==>
        (NameFits(planned[p], actual[a]) ==> MatchFits(planned[p], actual[a], ByName));
      NameCount(planned, actual, pairs, name);
    }
  }
}
