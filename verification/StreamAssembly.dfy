/** Putting streamed tool calls together (backend/internal/llm/openai_compat.go,
    the loop of Stream). */
module StreamAssembly {
  import opened Wrappers
  import opened Text

  /** A piece of a tool call as the endpoint streams it; any of id, name and
      arguments may be empty. */
  datatype Fragment = Fragment(index: int, id: string, name: string, arguments: string)

  datatype PendingCall = PendingCall(id: string, name: string, arguments: string, announced: bool)

  datatype ToolCall = ToolCall(id: string, name: string, input: string)

  /** What the caller is told while a call is being written. */
  datatype Event = Start(slot: nat, name: string) | Progress(slot: nat, bytes: nat)

  // ---- the reference: which call each fragment belongs to ----

  /** The call the last fragment with this index belongs to. */
  function LastUse(fragments: seq<Fragment>, owner: seq<nat>, index: int): Option<nat>
    requires |owner| == |fragments|
  {
    if |fragments| == 0 then None
    else
      var last := |fragments| - 1;
      if fragments[last].index == index then Some(owner[last]) else LastUse(fragments[..last], owner[..last], index)
  }

  /** The last id a call was given, "" while it has none. */
  function IdOf(fragments: seq<Fragment>, owner: seq<nat>, call: nat): string
    requires |owner| == |fragments|
  {
    if |fragments| == 0 then ""
    else
      var last := |fragments| - 1;
      if owner[last] == call && |fragments[last].id| > 0 then fragments[last].id
        else IdOf(fragments[..last], owner[..last], call)
  }

  function NameOf(fragments: seq<Fragment>, owner: seq<nat>, call: nat): string
    requires |owner| == |fragments|
  {
    if |fragments| == 0 then ""
    else
      var last := |fragments| - 1;
      if owner[last] == call && |fragments[last].name| > 0 then fragments[last].name
        else NameOf(fragments[..last], owner[..last], call)
  }

  /** All arguments of a call, in the order they arrived. */
  function ArgumentsOf(fragments: seq<Fragment>, owner: seq<nat>, call: nat): string
    requires |owner| == |fragments|
  {
    if |fragments| == 0 then ""
    else
      var last := |fragments| - 1;
      ArgumentsOf(fragments[..last], owner[..last], call)
        + if owner[last] == call then fragments[last].arguments else ""
  }

  /** How many calls have begun; they are numbered in order of first appearance. */
  function Begun(owner: seq<nat>): nat {
    if |owner| == 0 then 0
    else
      var before, last := Begun(owner[..|owner| - 1]), owner[|owner| - 1];
      if last < before then before else last + 1
  }

  /** A fragment begins a call when its index is new, or when it names another id
      than the call last seen under that index. */
  predicate Begins(fragments: seq<Fragment>, owner: seq<nat>, f: Fragment)
    requires |owner| == |fragments|
  {
    var use := LastUse(fragments, owner, f.index);
    use.None? || (|f.id| > 0 && |IdOf(fragments, owner, use.value)| > 0 && IdOf(fragments, owner, use.value) != f.id)
  }

  function NextOwner(fragments: seq<Fragment>, owner: seq<nat>, f: Fragment): nat
    requires |owner| == |fragments|
  {
    if Begins(fragments, owner, f) then Begun(owner) else LastUse(fragments, owner, f.index).value
  }

  function Owners(fragments: seq<Fragment>): (owner: seq<nat>)
    ensures |owner| == |fragments|
  {
    if |fragments| == 0 then []
    else
      var front := fragments[..|fragments| - 1];
      var owner := Owners(front);
      owner + [NextOwner(front, owner, fragments[|fragments| - 1])]
  }

  // ---- one fragment more ----

  lemma OneMore(fragments: seq<Fragment>, owner: seq<nat>, f: Fragment, o: nat, call: nat)
    requires |owner| == |fragments|
    ensures var longer, owners := fragments + [f], owner + [o];
            && IdOf(longer, owners, call) == (if o == call && |f.id| > 0 then f.id else IdOf(fragments, owner, call))
            && NameOf(longer, owners, call) ==
               (if o == call && |f.name| > 0 then f.name else NameOf(fragments, owner, call))
            && ArgumentsOf(longer, owners, call) == ArgumentsOf(fragments, owner, call)
               + (if o == call then f.arguments else "")
  {
    var longer, owners := fragments + [f], owner + [o];
    assert longer[..|fragments|] == fragments && owners[..|owner|] == owner;
  }

  lemma OneUseMore(fragments: seq<Fragment>, owner: seq<nat>, f: Fragment, o: nat, index: int)
    requires |owner| == |fragments|
    ensures LastUse(fragments + [f], owner + [o], index) == if f.index == index then Some(o)
            else LastUse(fragments, owner, index)
  {
    var longer, owners := fragments + [f], owner + [o];
    assert longer[..|fragments|] == fragments && owners[..|owner|] == owner;
  }

  lemma OneOwnerMore(fragments: seq<Fragment>, f: Fragment)
    ensures Owners(fragments + [f]) == Owners(fragments) + [NextOwner(fragments, Owners(fragments), f)]
  {
    var longer := fragments + [f];
    assert longer[..|fragments|] == fragments;
  }

  lemma OneBegunMore(owner: seq<nat>, o: nat)
    ensures Begun(owner + [o]) == if o < Begun(owner) then Begun(owner) else o + 1
  {
    var longer := owner + [o];
    assert longer[..|owner|] == owner;
  }

  lemma {:induction false} UseHasBegun(fragments: seq<Fragment>, owner: seq<nat>, index: int)
    requires |owner| == |fragments|
    ensures LastUse(fragments, owner, index).Some? ==> LastUse(fragments, owner, index).value < Begun(owner)
  {
    if |fragments| > 0 {
      UseHasBegun(fragments[..|fragments| - 1], owner[..|owner| - 1], index);
    }
  }

  /** A call that has not begun has no id, name or arguments. */
  lemma {:induction false} NothingBeforeBegun(fragments: seq<Fragment>, owner: seq<nat>, call: nat)
    requires |owner| == |fragments| && Begun(owner) <= call
    ensures IdOf(fragments, owner, call) == "" && NameOf(fragments, owner, call) == ""
            && ArgumentsOf(fragments, owner, call) == ""
  {
    if |fragments| > 0 {
      NothingBeforeBegun(fragments[..|fragments| - 1], owner[..|owner| - 1], call);
    }
  }

  // ---- announcements ----

  function Starts(events: seq<Event>, slot: nat): nat {
    if |events| == 0 then 0
    else
      var last := events[|events| - 1];
      Starts(events[..|events| - 1], slot) + if last.Start? && last.slot == slot then 1 else 0
  }

  /** Every call is announced at most once and before any progress on it. */
  predicate Announced(events: seq<Event>) {
    |events| == 0
    || (var front, last := events[..|events| - 1], events[|events| - 1];
        Announced(front) && Starts(front, last.slot) == if last.Start? then 0 else 1)
  }

  lemma OneEventMore(events: seq<Event>, e: Event, slot: nat)
    ensures Starts(events + [e], slot) == Starts(events, slot) + if e.Start? && e.slot == slot then 1 else 0
    ensures Announced(events + [e]) <==> Announced(events) && Starts(events, e.slot) == if e.Start? then 0 else 1
  {
    var longer := events + [e];
    assert longer[..|events|] == events;
  }

  // ---- the loop of the source ----

  ghost predicate CallIs(call: PendingCall, fragments: seq<Fragment>, owner: seq<nat>, c: nat)
    requires |owner| == |fragments|
  {
    && call.id == IdOf(fragments, owner, c) && call.name == NameOf(fragments, owner, c)
    && call.arguments == ArgumentsOf(fragments, owner, c)
    && call.announced == (|call.name| > 0)
  }

  ghost predicate SlotIs(slotByIndex: map<int, nat>, fragments: seq<Fragment>, owner: seq<nat>, index: int)
    requires |owner| == |fragments|
  {
    LastUse(fragments, owner, index) == if index in slotByIndex then Some(slotByIndex[index]) else None
  }

  ghost predicate Tracks(calls: seq<PendingCall>, slotByIndex: map<int, nat>, fragments: seq<Fragment>,
                         owner: seq<nat>)
  {
    && |owner| == |fragments| && |calls| == Begun(owner)
    && (forall c :: 0 <= c < |calls| ==> CallIs(calls[c], fragments, owner, c))
    && (forall index :: SlotIs(slotByIndex, fragments, owner, index))
  }

  ghost predicate Told(calls: seq<PendingCall>, events: seq<Event>) {
    && Announced(events)
    && (forall c :: 0 <= c < |calls| ==> Starts(events, c) == if calls[c].announced then 1 else 0)
    && (forall c: nat :: |calls| <= c ==> Starts(events, c) == 0)
  }

  /** The call a fragment goes to, begun if need be. */
  ghost predicate Ready(calls: seq<PendingCall>, slotByIndex: map<int, nat>, slot: nat, fragments: seq<Fragment>,
                        owner: seq<nat>, f: Fragment)
  {
    && |owner| == |fragments| && slot == NextOwner(fragments, owner, f) && slot < |calls|
    && |calls| == Begun(owner + [slot])
    && (forall c :: 0 <= c < |calls| ==> CallIs(calls[c], fragments, owner, c))
    && (forall index :: SlotIs(slotByIndex, fragments + [f], owner + [slot], index))
  }

  method FindSlot(calls: seq<PendingCall>, slotByIndex: map<int, nat>, ghost fragments: seq<Fragment>,
                  ghost owner: seq<nat>, f: Fragment)
    returns (begun: seq<PendingCall>, slots: map<int, nat>, slot: nat)
    requires Tracks(calls, slotByIndex, fragments, owner)
    ensures Ready(begun, slots, slot, fragments, owner, f)
    ensures begun == calls || begun == calls + [PendingCall("", "", "", false)]
  {
    assert SlotIs(slotByIndex, fragments, owner, f.index);
    UseHasBegun(fragments, owner, f.index);
    begun, slots := calls, slotByIndex;
    slot := if f.index in slotByIndex then slotByIndex[f.index] else 0;
    if f.index !in slotByIndex || (f.id != "" && calls[slot].id != "" && calls[slot].id != f.id) {
      begun := calls + [PendingCall("", "", "", false)];
      slot := |begun| - 1;
      slots := slotByIndex[f.index := slot];
      NothingBeforeBegun(fragments, owner, slot);
    }
    OneBegunMore(owner, slot);
    forall index
      ensures SlotIs(slots, fragments + [f], owner + [slot], index)
    {
      OneUseMore(fragments, owner, f, slot, index);
      assert SlotIs(slotByIndex, fragments, owner, index);
    }
  }

  lemma FragmentWritten(calls: seq<PendingCall>, written: seq<PendingCall>, slotByIndex: map<int, nat>, slot: nat,
                        fragments: seq<Fragment>, owner: seq<nat>, f: Fragment)
    requires Ready(calls, slotByIndex, slot, fragments, owner, f) && |written| == |calls|
    requires forall c :: 0 <= c < |calls| && c != slot ==> written[c] == calls[c]
    requires var call := calls[slot];
             && written[slot].id == (if |f.id| > 0 then f.id else call.id)
             && written[slot].name == (if |f.name| > 0 then f.name else call.name)
             && written[slot].arguments == call.arguments + f.arguments
             && written[slot].announced == (|written[slot].name| > 0)
    ensures Tracks(written, slotByIndex, fragments + [f], owner + [slot])
  {
    forall c | 0 <= c < |written|
      ensures CallIs(written[c], fragments + [f], owner + [slot], c)
    {
      assert CallIs(calls[c], fragments, owner, c);
      OneMore(fragments, owner, f, slot, c);
    }
  }

  /** Announces the call once it has a name, and reports arguments written to it. */
  method Tell(calls: seq<PendingCall>, events: seq<Event>, slot: nat, added: string)
    returns (told: seq<PendingCall>, more: seq<Event>)
    requires slot < |calls| && Told(calls, events) && (calls[slot].announced ==> |calls[slot].name| > 0)
    ensures told == calls[slot := calls[slot].(announced := |calls[slot].name| > 0)]
    ensures Told(told, more)
  {
    told, more := calls, events;
    var call := calls[slot];
    if call.name != "" {
      if !call.announced {
        forall c: nat {
          OneEventMore(events, Start(slot, call.name), c);
        }
        told := calls[slot := call.(announced := true)];
        more := events + [Start(slot, call.name)];
      }
      if added != "" {
        forall c: nat {
          OneEventMore(more, Progress(slot, |call.arguments|), c);
        }
        more := more + [Progress(slot, |call.arguments|)];
      }
    }
  }

  /** One fragment of the stream. */
  method Feed(
    calls: seq<PendingCall>, slotByIndex: map<int, nat>, events: seq<Event>, ghost fragments: seq<Fragment>,
    f: Fragment)
    returns (written: seq<PendingCall>, slots: map<int, nat>, more: seq<Event>)
    requires Tracks(calls, slotByIndex, fragments, Owners(fragments)) && Told(calls, events)
    ensures Tracks(written, slots, fragments + [f], Owners(fragments + [f])) && Told(written, more)
  {
    OneOwnerMore(fragments, f);
    var begun, slot;
    begun, slots, slot := FindSlot(calls, slotByIndex, fragments, Owners(fragments), f);
    var call := begun[slot];
    assert CallIs(call, fragments, Owners(fragments), slot);
    if f.id != "" {
      call := call.(id := f.id);
    }
    if f.name != "" {
      call := call.(name := f.name);
    }
    call := call.(arguments := call.arguments + f.arguments);
    written, more := Tell(begun[slot := call], events, slot, f.arguments);
    FragmentWritten(begun, written, slots, slot, fragments, Owners(fragments), f);
  }

  /** "call_" and the number of the call, counted from one. */
  function DefaultId(call: nat): string { "call_" + Itoa(call + 1) }

  /** What is returned of a call: nothing while it has no name. */
  function Finished(id: string, name: string, arguments: string, call: nat): seq<ToolCall> {
    if |name| == 0 then []
    else
      var input := TrimSpace(arguments);
      [ToolCall(if |id| == 0 then DefaultId(call) else id, name, if |input| == 0 then "{}" else input)]
  }

  /** The first n calls of a stream, from what each of them was sent. */
  function Assembled(fragments: seq<Fragment>, owner: seq<nat>, n: nat): seq<ToolCall>
    requires |owner| == |fragments|
  {
    if n == 0 then []
    else
      Assembled(fragments, owner, n - 1)
      + Finished(IdOf(fragments, owner, n - 1), NameOf(fragments, owner, n - 1), ArgumentsOf(fragments, owner, n - 1),
                 n - 1)
  }

  /** All calls of a stream. */
  function CallsOf(fragments: seq<Fragment>): seq<ToolCall> {
    Assembled(fragments, Owners(fragments), Begun(Owners(fragments)))
  }

  method Finish(calls: seq<PendingCall>, slotByIndex: map<int, nat>, ghost fragments: seq<Fragment>,
                ghost owner: seq<nat>)
    returns (toolCalls: seq<ToolCall>)
    requires Tracks(calls, slotByIndex, fragments, owner)
    ensures toolCalls == Assembled(fragments, owner, Begun(owner))
  {
    toolCalls := [];
    for c := 0 to |calls|
      invariant toolCalls == Assembled(fragments, owner, c)
    {
      assert CallIs(calls[c], fragments, owner, c);
      if calls[c].name == "" {
        continue;
      }
      var id := calls[c].id;
      if id == "" {
        id := "call_" + Itoa(c + 1);
      }
      var arguments := TrimSpace(calls[c].arguments);
      if arguments == "" {
        arguments := "{}";
      }
      toolCalls := toolCalls + [ToolCall(id, calls[c].name, arguments)];
    }
  }

  /** A named call is announced exactly once, any other never, and always before
      progress on it. */
  ghost predicate AnnouncedEach(events: seq<Event>, fragments: seq<Fragment>, owner: seq<nat>)
    requires |owner| == |fragments|
  {
    && Announced(events)
    && (forall c: nat :: Starts(events, c) == if c < Begun(owner) && |NameOf(fragments, owner, c)| > 0 then 1 else 0)
  }

  lemma ToldEach(calls: seq<PendingCall>, slotByIndex: map<int, nat>, events: seq<Event>, fragments: seq<Fragment>,
                 owner: seq<nat>)
    requires Tracks(calls, slotByIndex, fragments, owner) && Told(calls, events)
    ensures AnnouncedEach(events, fragments, owner)
  {
    forall c: nat
      ensures Starts(events, c) == if c < Begun(owner) && |NameOf(fragments, owner, c)| > 0 then 1 else 0
    {
      if c < |calls| {
        assert CallIs(calls[c], fragments, owner, c);
      }
    }
  }

  method Stream(fragments: seq<Fragment>) returns (toolCalls: seq<ToolCall>, events: seq<Event>)
    ensures toolCalls == CallsOf(fragments)
    ensures AnnouncedEach(events, fragments, Owners(fragments))
  {
    var calls: seq<PendingCall>, slotByIndex: map<int, nat> := [], map[];
    events := [];
    for k := 0 to |fragments|
      invariant Tracks(calls, slotByIndex, fragments[..k], Owners(fragments[..k])) && Told(calls, events)
    {
      assert fragments[..k + 1] == fragments[..k] + [fragments[k]];
      calls, slotByIndex, events := Feed(calls, slotByIndex, events, fragments[..k], fragments[k]);
    }
    assert fragments[..|fragments|] == fragments;
    toolCalls := Finish(calls, slotByIndex, fragments, Owners(fragments));
    ToldEach(calls, slotByIndex, events, fragments, Owners(fragments));
  }

  // ---- assembly undoes fragmentation ----

  /** A call as the model wrote it. */
  datatype Sent = Sent(id: string, name: string, arguments: string)

  predicate PieceOf(f: Fragment, call: Sent) {
    (|f.id| == 0 || f.id == call.id) && (|f.name| == 0 || f.name == call.name)
  }

  /** Calls first appear in order of their numbers. */
  predicate InOrder(from: seq<nat>) {
    |from| == 0 || (InOrder(from[..|from| - 1]) && from[|from| - 1] <= Begun(from[..|from| - 1]))
  }

  ghost predicate PiecesOf(calls: seq<Sent>, fragments: seq<Fragment>, from: seq<nat>)
    requires |from| == |fragments|
  {
    forall i :: 0 <= i < |from| ==> from[i] < |calls| && PieceOf(fragments[i], calls[from[i]])
  }

  /** A call gets its name, its id if it has one, and all its arguments. */
  ghost predicate Complete(call: Sent, fragments: seq<Fragment>, from: seq<nat>, c: nat)
    requires |from| == |fragments|
  {
    && |call.name| > 0 && (exists i :: 0 <= i < |from| && from[i] == c && |fragments[i].name| > 0)
    && (|call.id| > 0 ==> exists i :: 0 <= i < |from| && from[i] == c && |fragments[i].id| > 0)
    && ArgumentsOf(fragments, from, c) == call.arguments
  }

  /** The fragments are pieces of the calls, all of them; from says which call each
      belongs to. */
  ghost predicate Splits(calls: seq<Sent>, fragments: seq<Fragment>, from: seq<nat>) {
    && |from| == |fragments| && InOrder(from) && Begun(from) == |calls| && PiecesOf(calls, fragments, from)
    && (forall c :: 0 <= c < |calls| ==> Complete(calls[c], fragments, from, c))
  }

  /** Pieces of several calls may be mixed when each call has an index of its own. */
  ghost predicate OneIndexEach(fragments: seq<Fragment>, from: seq<nat>)
    requires |from| == |fragments|
  {
    forall i, j :: 0 <= i < |from| && 0 <= j < |from| ==>
      (fragments[i].index == fragments[j].index <==> from[i] == from[j])
  }

  /** Or every call comes whole, under any index, with an id no other call has. */
  ghost predicate WholeCalls(fragments: seq<Fragment>, from: seq<nat>)
    requires |from| == |fragments|
  {
    && (forall i :: 0 <= i < |from| ==> from[i] == i && |fragments[i].id| > 0)
    && (forall i, j :: 0 <= i < j < |from| ==> fragments[i].id != fragments[j].id)
  }

  /** The last use of an index, by position. */
  lemma {:induction false} LastUseIs(fragments: seq<Fragment>, owner: seq<nat>, index: int)
    requires |owner| == |fragments|
    ensures var use := LastUse(fragments, owner, index);
            if use.None? then forall j :: 0 <= j < |fragments| ==> fragments[j].index != index
            else exists j :: 0 <= j < |fragments| && fragments[j].index == index && owner[j] == use.value
  {
    if |fragments| > 0 {
      var last := |fragments| - 1;
      if fragments[last].index != index {
        LastUseIs(fragments[..last], owner[..last], index);
      }
    }
  }

  /** A call's id is one its own fragments carried. */
  lemma {:induction false} IdComesFrom(fragments: seq<Fragment>, owner: seq<nat>, call: nat)
    requires |owner| == |fragments|
    ensures var id := IdOf(fragments, owner, call);
            if |id| == 0 then forall j :: 0 <= j < |fragments| && owner[j] == call ==> |fragments[j].id| == 0
            else exists j :: 0 <= j < |fragments| && owner[j] == call && fragments[j].id == id
  {
    if |fragments| > 0 {
      var last := |fragments| - 1;
      if !(owner[last] == call && |fragments[last].id| > 0) {
        IdComesFrom(fragments[..last], owner[..last], call);
      }
    }
  }

  lemma {:induction false} NameComesFrom(fragments: seq<Fragment>, owner: seq<nat>, call: nat)
    requires |owner| == |fragments|
    ensures var name := NameOf(fragments, owner, call);
            if |name| == 0 then forall j :: 0 <= j < |fragments| && owner[j] == call ==> |fragments[j].name| == 0
            else exists j :: 0 <= j < |fragments| && owner[j] == call && fragments[j].name == name
  {
    if |fragments| > 0 {
      var last := |fragments| - 1;
      if !(owner[last] == call && |fragments[last].name| > 0) {
        NameComesFrom(fragments[..last], owner[..last], call);
      }
    }
  }

  /** In order, every call begun so far has a fragment. */
  lemma {:induction false} EveryBegunSeen(from: seq<nat>, call: nat)
    requires InOrder(from) && call < Begun(from)
    ensures call in from
  {
    var front, last := from[..|from| - 1], from[|from| - 1];
    if call < Begun(front) {
      EveryBegunSeen(front, call);
    }
  }

  lemma {:induction false} SeenHasBegun(from: seq<nat>, call: nat)
    requires call in from
    ensures call < Begun(from)
  {
    var front, last := from[..|from| - 1], from[|from| - 1];
    if call != last {
      SeenHasBegun(front, call);
    }
  }

  lemma IndexedId(calls: seq<Sent>, fragments: seq<Fragment>, from: seq<nat>, call: nat)
    requires |from| == |fragments| && PiecesOf(calls, fragments, from) && call < |calls|
    ensures |IdOf(fragments, from, call)| == 0 || IdOf(fragments, from, call) == calls[call].id
  {
    IdComesFrom(fragments, from, call);
  }

  lemma UnseenIsNext(from: seq<nat>, call: nat)
    requires InOrder(from) && call <= Begun(from) && call !in from
    ensures call == Begun(from)
  {
    if call < Begun(from) {
      EveryBegunSeen(from, call);
    }
  }

  /** A piece under its call's own index goes to that call. */
  lemma IndexedOwner(calls: seq<Sent>, fragments: seq<Fragment>, from: seq<nat>, f: Fragment, call: nat)
    requires |from| == |fragments| && InOrder(from) && call <= Begun(from) && PiecesOf(calls, fragments, from)
    requires call < |calls| && PieceOf(f, calls[call])
    requires forall j :: 0 <= j < |from| ==> (fragments[j].index == f.index <==> from[j] == call)
    ensures NextOwner(fragments, from, f) == call
  {
    LastUseIs(fragments, from, f.index);
    if LastUse(fragments, from, f.index).None? {
      UnseenIsNext(from, call);
    } else {
      IndexedId(calls, fragments, from, call);
    }
  }

  lemma {:induction false} OwnersOfIndexed(calls: seq<Sent>, fragments: seq<Fragment>, from: seq<nat>)
    requires |from| == |fragments| && InOrder(from) && OneIndexEach(fragments, from) && PiecesOf(calls, fragments, from)
    ensures Owners(fragments) == from
  {
    if |fragments| > 0 {
      var last := |fragments| - 1;
      var front, owner := fragments[..last], from[..last];
      OwnersOfIndexed(calls, front, owner);
      IndexedOwner(calls, front, owner, fragments[last], from[last]);
      assert from == owner + [from[last]];
    }
  }

  lemma WholeIdOf(fragments: seq<Fragment>, from: seq<nat>, p: nat)
    requires |from| == |fragments| && WholeCalls(fragments, from) && p < |fragments|
    ensures IdOf(fragments, from, p) == fragments[p].id
  {
    IdComesFrom(fragments, from, p);
  }

  lemma {:induction false} WholeBegun(from: seq<nat>)
    requires forall i :: 0 <= i < |from| ==> from[i] == i
    ensures Begun(from) == |from|
  {
    if |from| > 0 {
      WholeBegun(from[..|from| - 1]);
    }
  }

  lemma {:induction false} OwnersOfWhole(fragments: seq<Fragment>, from: seq<nat>)
    requires |from| == |fragments| && WholeCalls(fragments, from)
    ensures Owners(fragments) == from
  {
    if |fragments| > 0 {
      var last := |fragments| - 1;
      var front, owner, f := fragments[..last], from[..last], fragments[last];
      assert WholeCalls(front, owner);
      OwnersOfWhole(front, owner);
      WholeBegun(owner);
      LastUseIs(front, owner, f.index);
      var use := LastUse(front, owner, f.index);
      if use.Some? {
        assert use.value < last && front[use.value] == fragments[use.value];
        WholeIdOf(front, owner, use.value);
      }
      assert Begins(front, owner, f);
      assert from == owner + [from[last]];
    }
  }

  /** What becomes of a call that was sent. */
  function Received(call: Sent, number: nat): ToolCall {
    var input := TrimSpace(call.arguments);
    ToolCall(if |call.id| == 0 then DefaultId(number) else call.id, call.name, if |input| == 0 then "{}" else input)
  }

  function ReceivedAll(calls: seq<Sent>, n: nat): seq<ToolCall>
    requires n <= |calls|
  {
    if n == 0 then [] else ReceivedAll(calls, n - 1) + [Received(calls[n - 1], n - 1)]
  }

  ghost predicate ReadsAs(fragments: seq<Fragment>, from: seq<nat>, c: nat, call: Sent)
    requires |from| == |fragments|
  {
    && IdOf(fragments, from, c) == call.id && NameOf(fragments, from, c) == call.name
    && ArgumentsOf(fragments, from, c) == call.arguments && |call.name| > 0
  }

  lemma PieceReads(calls: seq<Sent>, fragments: seq<Fragment>, from: seq<nat>, c: nat)
    requires |from| == |fragments| && PiecesOf(calls, fragments, from) && c < |calls|
             && Complete(calls[c], fragments, from, c)
    ensures ReadsAs(fragments, from, c, calls[c])
  {
    IdComesFrom(fragments, from, c);
    NameComesFrom(fragments, from, c);
  }

  lemma CallReceived(fragments: seq<Fragment>, from: seq<nat>, c: nat, call: Sent)
    requires |from| == |fragments| && ReadsAs(fragments, from, c, call)
    ensures Finished(IdOf(fragments, from, c), NameOf(fragments, from, c), ArgumentsOf(fragments, from, c), c) ==
            [Received(call, c)]
  {
  }

  lemma {:induction false} AssembledReceives(calls: seq<Sent>, fragments: seq<Fragment>, from: seq<nat>, n: nat)
    requires |from| == |fragments| && n <= |calls|
    requires forall c :: 0 <= c < n ==> ReadsAs(fragments, from, c, calls[c])
    ensures Assembled(fragments, from, n) == ReceivedAll(calls, n)
  {
    hide ReadsAs;
    if n > 0 {
      AssembledReceives(calls, fragments, from, n - 1);
      CallReceived(fragments, from, n - 1, calls[n - 1]);
    }
  }

  // ---- exactly which fragmentations are undone ----

  /** The last fragment under an index. */
  ghost predicate LastUnder(fragments: seq<Fragment>, j: int, index: int) {
    0 <= j < |fragments| && fragments[j].index == index && forall m :: j < m < |fragments| ==>
      fragments[m].index != index
  }

  ghost predicate Unused(fragments: seq<Fragment>, index: int) {
    forall j :: 0 <= j < |fragments| ==> fragments[j].index != index
  }

  /** A fragment so far has told the call's id. */
  ghost predicate IdTold(fragments: seq<Fragment>, from: seq<nat>, call: nat)
    requires |from| == |fragments|
  {
    exists m :: 0 <= m < |fragments| && from[m] == call && |fragments[m].id| > 0
  }

  ghost predicate AllAmong(from: seq<nat>, n: nat) { forall i :: 0 <= i < |from| ==> from[i] < n }

  /** A later fragment of a call comes while its index still stands for that call; a
      first fragment comes under an unused index, or with an id that tells it apart
      from the call the index stood for. */
  ghost predicate Distinct(calls: seq<Sent>, fragments: seq<Fragment>, from: seq<nat>, f: Fragment, call: nat)
    requires |from| == |fragments| && AllAmong(from, |calls|)
  {
    || (exists j :: LastUnder(fragments, j, f.index) && from[j] == call)
    || (call !in from
        && (Unused(fragments, f.index)
            || exists j ::
                 && LastUnder(fragments, j, f.index) && IdTold(fragments, from, from[j])
                 && |f.id| > 0 && f.id != calls[from[j]].id))
  }

  ghost predicate Separated(calls: seq<Sent>, fragments: seq<Fragment>, from: seq<nat>)
    requires |from| == |fragments| && PiecesOf(calls, fragments, from)
  {
    |from| == 0
    || (var last := |from| - 1;
        PiecesFront(calls, fragments, from);
        Separated(calls, fragments[..last], from[..last])
        && Distinct(calls, fragments[..last], from[..last], fragments[last], from[last]))
  }

  lemma PiecesFront(calls: seq<Sent>, fragments: seq<Fragment>, from: seq<nat>)
    requires |from| == |fragments| && |from| > 0 && PiecesOf(calls, fragments, from)
    ensures PiecesOf(calls, fragments[..|from| - 1], from[..|from| - 1])
    ensures AllAmong(from[..|from| - 1], |calls|)
    ensures from[|from| - 1] < |calls| && PieceOf(fragments[|from| - 1], calls[from[|from| - 1]])
  {
  }

  lemma {:induction false} LastUseUnder(fragments: seq<Fragment>, owner: seq<nat>, index: int)
    requires |owner| == |fragments|
    ensures var use := LastUse(fragments, owner, index);
            if use.None? then Unused(fragments, index) else exists j ::
              LastUnder(fragments, j, index) && owner[j] == use.value
  {
    if |fragments| > 0 {
      var last := |fragments| - 1;
      if fragments[last].index != index {
        LastUseUnder(fragments[..last], owner[..last], index);
        if LastUse(fragments[..last], owner[..last], index).Some? {
          var j :| LastUnder(fragments[..last], j, index)
            && owner[..last][j] == LastUse(fragments[..last], owner[..last], index).value;
          assert LastUnder(fragments, j, index);
        }
      } else {
        assert LastUnder(fragments, last, index);
      }
    }
  }

  lemma LastUnderOnce(fragments: seq<Fragment>, i: int, j: int, index: int)
    requires LastUnder(fragments, i, index) && LastUnder(fragments, j, index)
    ensures i == j && !Unused(fragments, index)
  {
  }

  lemma TellsId(calls: seq<Sent>, fragments: seq<Fragment>, from: seq<nat>, call: nat)
    requires |from| == |fragments| && PiecesOf(calls, fragments, from) && call < |calls|
    ensures |IdOf(fragments, from, call)| > 0 <==> IdTold(fragments, from, call)
    ensures |IdOf(fragments, from, call)| > 0 ==> IdOf(fragments, from, call) == calls[call].id
  {
    IdComesFrom(fragments, from, call);
  }

  /** When the index was last used by a given call. */
  lemma UsedOwner(calls: seq<Sent>, fragments: seq<Fragment>, from: seq<nat>, f: Fragment, call: nat, j: int)
    requires |from| == |fragments| && InOrder(from) && PiecesOf(calls, fragments, from) && AllAmong(from, |calls|)
    requires call <= Begun(from) && call < |calls| && PieceOf(f, calls[call])
    requires LastUnder(fragments, j, f.index) && LastUse(fragments, from, f.index) == Some(from[j])
    ensures NextOwner(fragments, from, f) == call <==> Distinct(calls, fragments, from, f, call)
  {
    TellsId(calls, fragments, from, from[j]);
    SeenHasBegun(from, from[j]);
    if call in from {
      SeenHasBegun(from, call);
    } else {
      UnseenIsNext(from, call);
    }
    forall i | LastUnder(fragments, i, f.index)
      ensures i == j && !Unused(fragments, f.index)
    {
      LastUnderOnce(fragments, i, j, f.index);
    }
    assert !Unused(fragments, f.index);
  }

  lemma DistinctOwner(calls: seq<Sent>, fragments: seq<Fragment>, from: seq<nat>, f: Fragment, call: nat)
    requires |from| == |fragments| && InOrder(from) && PiecesOf(calls, fragments, from) && AllAmong(from, |calls|)
    requires call <= Begun(from) && call < |calls| && PieceOf(f, calls[call])
    ensures NextOwner(fragments, from, f) == call <==> Distinct(calls, fragments, from, f, call)
  {
    LastUseUnder(fragments, from, f.index);
    var use := LastUse(fragments, from, f.index);
    if use.Some? {
      var j :| LastUnder(fragments, j, f.index) && from[j] == use.value;
      UsedOwner(calls, fragments, from, f, call, j);
    } else if call in from {
      SeenHasBegun(from, call);
    } else {
      UnseenIsNext(from, call);
    }
  }

  /** Fragments are given back to the calls they are pieces of exactly when the
      pieces are separated in this way. */
  lemma {:induction false} OwnersOfSeparated(calls: seq<Sent>, fragments: seq<Fragment>, from: seq<nat>)
    requires |from| == |fragments| && InOrder(from) && PiecesOf(calls, fragments, from)
    ensures Owners(fragments) == from <==> Separated(calls, fragments, from)
  {
    if |from| > 0 {
      var last := |from| - 1;
      var front, owner := fragments[..last], from[..last];
      PiecesFront(calls, fragments, from);
      OwnersOfSeparated(calls, front, owner);
      assert from == owner + [from[last]];
      if Owners(front) == owner {
        DistinctOwner(calls, front, owner, fragments[last], from[last]);
      } else {
        assert Owners(fragments)[..last] == Owners(front);
      }
    }
  }

  /** One index per call separates the pieces, and so do distinct ids of whole calls. */
  lemma BothShapesSeparate(calls: seq<Sent>, fragments: seq<Fragment>, from: seq<nat>)
    requires |from| == |fragments| && InOrder(from) && PiecesOf(calls, fragments, from)
    requires OneIndexEach(fragments, from) || WholeCalls(fragments, from)
    ensures Separated(calls, fragments, from)
  {
    OwnersOfSeparated(calls, fragments, from);
    if OneIndexEach(fragments, from) {
      OwnersOfIndexed(calls, fragments, from);
    } else {
      OwnersOfWhole(fragments, from);
    }
  }

  /** Assembly undoes fragmentation: each call arrives once, in order of first
      appearance, with its concatenated and trimmed arguments. */
  lemma StreamReceives(calls: seq<Sent>, fragments: seq<Fragment>, from: seq<nat>)
    requires Splits(calls, fragments, from) && Separated(calls, fragments, from)
    ensures CallsOf(fragments) == ReceivedAll(calls, |calls|)
  {
    OwnersOfSeparated(calls, fragments, from);
    hide Separated, PiecesOf, Complete, Owners;
    forall c | 0 <= c < |calls|
      ensures ReadsAs(fragments, from, c, calls[c])
    {
      PieceReads(calls, fragments, from, c);
    }
    AssembledReceives(calls, fragments, from, |calls|);
  }
}
