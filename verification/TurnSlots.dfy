/** The one turn a user may have running (backend/internal/assistant/agent.go, Prepare
    and the release at the end of Run). */
module TurnSlots {
  import opened Text

  const MAX_USER_MESSAGE_CHARS := 8000
  const MAX_THREAD_MESSAGES := 160

  /** What the services a turn needs say to a request. */
  datatype Services = Services(hasCredentials: bool, ownsBuild: bool, threadWorks: bool, history: nat,
                               hasProvider: bool)

  datatype Outcome = Ready(turn: nat, text: string) | MessageInvalid | Refused | Busy | ThreadFull | Failed

  predicate Acceptable(text: string, s: Services) {
    0 < |TrimSpace(text)| <= MAX_USER_MESSAGE_CHARS && s.hasCredentials && s.ownsBuild
  }

  class Agent<User(==, !new), Build(==, !new)> {
    var running: map<User, Build>
    /** The turns that were prepared and have not ended yet. */
    ghost var turns: map<nat, (User, Build)>
    var next: nat

    /** A slot is held exactly while a turn of its user is alive, and no user has two. */
    ghost predicate Valid()
      reads this
    {
      && (forall t <- turns :: t < next && turns[t].0 in running && running[turns[t].0] == turns[t].1)
      && (forall u <- running :: Held(u))
      && (forall s, t :: s in turns && t in turns && s != t ==> turns[s].0 != turns[t].0)
    }

    ghost predicate Held(user: User)
      reads this
    {
      exists t :: t in turns && turns[t].0 == user
    }

    constructor ()
      ensures Valid() && running == map[] && turns == map[]
    {
      running, turns, next := map[], map[], 0;
    }

    /** Validates a request and reserves the user's slot; every refusal leaves all
        slots as they were. */
    method Prepare(user: User, build: Build, text: string, s: Services) returns (outcome: Outcome)
      requires Valid()
      modifies this
      ensures Valid()
      ensures outcome.Ready? <==>
                Acceptable(text, s) && user !in old(running) && s.threadWorks && s.history < MAX_THREAD_MESSAGES
                  && s.hasProvider
      ensures outcome.Ready? ==>
                && outcome == Ready(old(next), TrimSpace(text))
                && running == old(running)[user := build] && turns == old(turns)[old(next) := (user, build)]
      ensures !outcome.Ready? ==> running == old(running) && turns == old(turns)
      ensures outcome.Busy? <==> Acceptable(text, s) && user in old(running)
    {
      hide TrimSpace;
      var trimmed := TrimSpace(text);
      if trimmed == "" || |trimmed| > MAX_USER_MESSAGE_CHARS {
        return MessageInvalid;
      }
      if !s.hasCredentials || !s.ownsBuild {
        return Refused;
      }
      if user in running {
        return Busy;
      }
      running := running[user := build];
      if !s.threadWorks || s.history >= MAX_THREAD_MESSAGES || !s.hasProvider {
        running := running - {user};
        assert running == old(running);
        return if s.threadWorks && s.history >= MAX_THREAD_MESSAGES then ThreadFull else Failed;
      }
      turns := turns[next := (user, build)];
      next := next + 1;
      assert turns[next - 1].0 == user;
      forall u | u in old(running)
        ensures Held(u)
      {
        assert old(Held(u));
        var t :| t in old(turns) && old(turns)[t].0 == u;
        assert turns[t].0 == u;
      }
      return Ready(next - 1, trimmed);
    }

    /** The end of a turn, however it ends: its user's slot is free again, no other is. */
    method Release(ghost turn: nat, user: User)
      requires Valid() && turn in turns && turns[turn].0 == user
      modifies this
      ensures Valid()
      ensures running == old(running) - {user} && turns == old(turns) - {turn}
    {
      running := running - {user};
      turns := turns - {turn};
      forall u | u in running
        ensures Held(u)
      {
        assert old(Held(u));
        var t :| t in old(turns) && old(turns)[t].0 == u;
        assert t != turn && turns[t].0 == u;
      }
    }
  }

  // ---- requests of many users at once ----

  datatype Phase = Preparing | Running

  /** A request that holds a slot: it is still being checked, or its turn runs. */
  datatype Holder<User, Build> = Holder(user: User, build: Build, phase: Phase)

  datatype Slots<!User(==), Build> = Slots(running: map<User, Build>, requests: map<nat, Holder<User, Build>>)

  /** The atomic moments of requests: taking the slot if it is free, giving it back
      after a refusal, starting the turn, and ending it. */
  datatype Step<User, Build> =
    | Reserve(request: nat, user: User, build: Build)
    | Refuse(request: nat)
    | Start(request: nat)
    | End(request: nat)

  function Free<User, Build>(s: Slots<User, Build>, r: nat): Slots<User, Build>
    requires r in s.requests
  {
    Slots(s.running - {s.requests[r].user}, s.requests - {r})
  }

  function Next<User, Build>(s: Slots<User, Build>, step: Step<User, Build>): Slots<User, Build> {
    match step
    case Reserve(r, user, build) =>
      if r in s.requests || user in s.running then s
      else Slots(s.running[user := build], s.requests[r := Holder(user, build, Preparing)])
    case Refuse(r) => if r in s.requests && s.requests[r].phase == Preparing then Free(s, r) else s
    case Start(r) =>
      if r in s.requests && s.requests[r].phase == Preparing
        then s.(requests := s.requests[r := s.requests[r].(phase := Running)]) else s
    case End(r) => if r in s.requests && s.requests[r].phase == Running then Free(s, r) else s
  }

  function StateAt<User, Build>(steps: seq<Step<User, Build>>, n: nat): Slots<User, Build>
    requires n <= |steps|
  {
    if n == 0 then Slots(map[], map[]) else Next(StateAt(steps, n - 1), steps[n - 1])
  }

  ghost predicate Holds<User, Build>(s: Slots<User, Build>, user: User) {
    exists r :: r in s.requests && s.requests[r].user == user
  }

  ghost predicate OneEach<User(!new), Build>(s: Slots<User, Build>) {
    && (forall r <- s.requests ::
          s.requests[r].user in s.running && s.running[s.requests[r].user] == s.requests[r].build)
    && (forall q, r :: q in s.requests && r in s.requests && q != r ==> s.requests[q].user != s.requests[r].user)
    && (forall user <- s.running :: Holds(s, user))
  }

  lemma ReserveKeepsOneEach<User(!new), Build>(s: Slots<User, Build>, r: nat, user: User, build: Build)
    requires OneEach(s) && r !in s.requests && user !in s.running
    ensures OneEach(Slots(s.running[user := build], s.requests[r := Holder(user, build, Preparing)]))
  {
    var t := Slots(s.running[user := build], s.requests[r := Holder(user, build, Preparing)]);
    assert t.requests[r].user == user;
    forall u | u in s.running
      ensures Holds(t, u)
    {
      assert Holds(s, u);
      var q :| q in s.requests && s.requests[q].user == u;
      assert t.requests[q].user == u;
    }
  }

  lemma FreeKeepsOneEach<User(!new), Build>(s: Slots<User, Build>, r: nat)
    requires OneEach(s) && r in s.requests
    ensures OneEach(Free(s, r))
  {
    var t := Free(s, r);
    forall u | u in t.running
      ensures Holds(t, u)
    {
      assert Holds(s, u);
      var q :| q in s.requests && s.requests[q].user == u;
      assert t.requests[q].user == u;
    }
  }

  lemma StartKeepsOneEach<User(!new), Build>(s: Slots<User, Build>, r: nat)
    requires OneEach(s) && r in s.requests
    ensures OneEach(s.(requests := s.requests[r := s.requests[r].(phase := Running)]))
  {
    var t := s.(requests := s.requests[r := s.requests[r].(phase := Running)]);
    forall u | u in t.running
      ensures Holds(t, u)
    {
      assert Holds(s, u);
      var q :| q in s.requests && s.requests[q].user == u;
      assert t.requests[q].user == u;
    }
  }

  lemma StepKeepsOneEach<User(!new), Build>(s: Slots<User, Build>, step: Step<User, Build>)
    requires OneEach(s)
    ensures OneEach(Next(s, step))
  {
    hide OneEach, Free;
    match step
    case Reserve(r, user, build) =>
      if r !in s.requests && user !in s.running { ReserveKeepsOneEach(s, r, user, build); }
    case Refuse(r) => if r in s.requests { FreeKeepsOneEach(s, r); }
    case Start(r) => if r in s.requests { StartKeepsOneEach(s, r); }
    case End(r) => if r in s.requests { FreeKeepsOneEach(s, r); }
  }

  /** However requests interleave, a user never has two turns, being checked or
      running, and a slot is taken exactly while its user has one. */
  lemma {:induction false} NeverTwoTurns<User(!new), Build>(steps: seq<Step<User, Build>>, n: nat)
    requires n <= |steps|
    ensures OneEach(StateAt(steps, n))
  {
    if n > 0 {
      NeverTwoTurns(steps, n - 1);
      StepKeepsOneEach(StateAt(steps, n - 1), steps[n - 1]);
    }
  }
}
