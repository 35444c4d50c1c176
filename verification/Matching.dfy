/** Which planned device a Proxmox host is, and which planned guest a running one
    (backend/internal/proxmox/reconcile.go, PairHosts and matchGuests). */
module Matching {
  import opened Wrappers

  type Id = string

  datatype PlannedGuest = PlannedGuest(id: Id, name: string, cpus: real, memoryMb: nat, diskGb: real, status: string,
                                       vmid: int)

  datatype PlannedHost = PlannedHost(
    id: Id, name: string, cpus: real, ramGb: real, storageGb: real, proxmoxNode: string, itemId: string,
    guests: seq<PlannedGuest>)

  datatype Node = Node(name: string, threads: nat, memoryMb: nat, diskGb: real)

  datatype Guest = Guest(vmid: int, name: string, node: string, template: bool, status: string, cpus: real,
                         memoryMb: nat, diskGb: real)

  datatype PairedBy = Nothing | Choice | Link | Inventory | Name

  /** What a host is: a device of the plan, left out, or new. */
  datatype Pairing = Pairing(planned: Option<Id>, reason: PairedBy, skip: bool)

  const CHOICE_SKIP := "skip"
  const CHOICE_NEW := "new"

  function Lookup(table: map<string, string>, key: string): string {
    if key in table then table[key] else ""
  }

  /** Lower case of the characters whose lower case is a letter from a to z. */
  function Lower(c: char): char {
    if 'A' <= c <= 'Z' then c + ('a' - 'A') else if c == '\U{212A}' then 'k' else if c == '\U{0130}' then 'i' else c
  }

  /** The letters and digits of a name, in lower case. */
  function NormalizeName(name: string): string {
    if name == "" then ""
    else
      var c := Lower(name[|name| - 1]);
      NormalizeName(name[..|name| - 1]) + if 'a' <= c <= 'z' || '0' <= c <= '9' then [c] else ""
  }

  /** The character is this letter or digit, or its upper case; the Kelvin sign counts
      as k and the dotted capital I as i. */
  predicate Stands(c: char, key: char) {
    || (c == key && ('a' <= c <= 'z' || '0' <= c <= '9'))
    || ('A' <= c <= 'Z' && key as int == c as int + 32)
    || (c == '\U{212A}' && key == 'k') || (c == '\U{0130}' && key == 'i')
  }

  predicate IsLetterOrDigit(c: char) {
    'a' <= c <= 'z' || 'A' <= c <= 'Z' || '0' <= c <= '9' || c == '\U{212A}' || c == '\U{0130}'
  }

  /** The key spells the letters and digits of the name, in order and without case. */
  predicate Spells(name: string, key: string) {
    if name == "" then key == ""
    else if IsLetterOrDigit(name[0]) then |key| > 0 && Stands(name[0], key[0]) && Spells(name[1..], key[1..])
    else Spells(name[1..], key)
  }

  lemma {:induction false} SpellsMore(name: string, key: string, c: char, more: string)
    requires Spells(name, key)
    requires if IsLetterOrDigit(c) then |more| == 1 && Stands(c, more[0]) else more == ""
    ensures Spells(name + [c], key + more)
  {
    if name == "" {
      assert name + [c] == [c] && key + more == more;
    } else {
      assert (name + [c])[1..] == name[1..] + [c];
      if IsLetterOrDigit(name[0]) {
        assert (key + more)[1..] == key[1..] + more;
        SpellsMore(name[1..], key[1..], c, more);
      } else {
        SpellsMore(name[1..], key, c, more);
      }
    }
  }

  /** Names are compared by their letters and digits alone. */
  lemma {:induction false} NormalizeNameSpells(name: string)
    ensures Spells(name, NormalizeName(name))
  {
    if name != "" {
      var front, c := name[..|name| - 1], name[|name| - 1];
      NormalizeNameSpells(front);
      assert name == front + [c];
      SpellsMore(front, NormalizeName(front), c, if IsLetterOrDigit(c) then [Lower(c)] else "");
    }
  }

  // ---- hosts ----

  /** Why a host may be a device: the plan names it, both stand for one inventory
      item, or their names are equal. */
  predicate Fits(reason: PairedBy, itemNode: map<string, string>, node: Node, host: PlannedHost) {
    match reason
    case Link => host.proxmoxNode != "" && host.proxmoxNode == node.name
    case Inventory => host.itemId != "" && Lookup(itemNode, host.itemId) == node.name
    case Name => NormalizeName(node.name) != "" && NormalizeName(host.name) == NormalizeName(node.name)
    case _ => false
  }

  ghost predicate IsPlanned(planned: seq<PlannedHost>, id: Id) {
    exists h :: h in planned && h.id == id
  }

  ghost predicate HasNode(nodes: seq<Node>, name: string) {
    exists n :: n in nodes && n.name == name
  }

  /** No device is given to two hosts; taken lists the devices given away. */
  ghost predicate OneToOne(pairs: map<string, Pairing>, taken: set<Id>) {
    && (forall m, n :: m in pairs && n in pairs && pairs[m].planned.Some? && pairs[m].planned == pairs[n].planned ==>
        m == n)
    && (forall n :: n in pairs && pairs[n].planned.Some? ==> pairs[n].planned.value in taken)
    && (forall id :: id in taken ==> exists n :: n in pairs && pairs[n].planned == Some(id))
  }

  /** Each pairing has the reason it names. */
  ghost predicate Reasoned(nodes: seq<Node>, planned: seq<PlannedHost>, itemNode: map<string, string>,
                           choices: map<string, string>,
                           name: string, p: Pairing)
  {
    match p.reason
    case Nothing => p == Pairing(None, Nothing, false)
    case Choice =>
      if p.skip then p.planned.None? && Lookup(choices, name) == CHOICE_SKIP
      else if p.planned.None? then Lookup(choices, name) == CHOICE_NEW
      else
        var choice := p.planned.value;
        ChosenDevice(Lookup(choices, name)) && Lookup(choices, name) == choice && IsPlanned(planned, choice)
    case _ =>
      && !p.skip && p.planned.Some?
      && exists n, h ::
           n in nodes && n.name == name && h in planned && h.id == p.planned.value && Fits(p.reason, itemNode, n, h)
  }

  ghost predicate AllReasoned(nodes: seq<Node>, planned: seq<PlannedHost>, itemNode: map<string, string>,
                              choices: map<string, string>,
                              pairs: map<string, Pairing>)
  {
    forall n <- pairs :: HasNode(nodes, n) && Reasoned(nodes, planned, itemNode, choices, n, pairs[n])
  }

  predicate ChosenDevice(choice: string) {
    choice != "" && choice != CHOICE_SKIP && choice != CHOICE_NEW
  }

  /** What the owner chose for a host is done; of several hosts given one device, one gets it. */
  ghost predicate Honoured(planned: seq<PlannedHost>, choices: map<string, string>, pairs: map<string, Pairing>,
                           name: string)
  {
    var choice := Lookup(choices, name);
    && (choice == CHOICE_SKIP ==> name in pairs && pairs[name] == Pairing(None, Choice, true))
    && (choice == CHOICE_NEW ==> name in pairs && pairs[name] == Pairing(None, Choice, false))
    && (ChosenDevice(choice) && IsPlanned(planned, choice) ==>
          exists m :: m in pairs && Lookup(choices, m) == choice && pairs[m] == Pairing(Some(choice), Choice, false))
  }

  /** One of the first n hosts was given this choice. */
  ghost predicate ChosenBefore(nodes: seq<Node>, choices: map<string, string>, n: nat, choice: string)
    requires n <= |nodes|
  {
    exists j :: 0 <= j < n && Lookup(choices, nodes[j].name) == choice
  }

  /** The host gets the planned device chosen for it. */
  ghost predicate Served(planned: seq<PlannedHost>, choices: map<string, string>, pairs: map<string, Pairing>,
                         name: string)
  {
    var choice := Lookup(choices, name);
    ChosenDevice(choice) && IsPlanned(planned, choice) ==>
      name in pairs && pairs[name] == Pairing(Some(choice), Choice, false)
  }

  /** A device chosen for several of the first n hosts goes to the first of them. */
  ghost predicate FirstServed(nodes: seq<Node>, planned: seq<PlannedHost>, choices: map<string, string>,
                              pairs: map<string, Pairing>, n: nat)
    requires n <= |nodes|
  {
    forall i :: 0 <= i < n && !ChosenBefore(nodes, choices, i, Lookup(choices, nodes[i].name)) ==>
      Served(planned, choices, pairs, nodes[i].name)
  }

  lemma StaysServed(nodes: seq<Node>, planned: seq<PlannedHost>, choices: map<string, string>,
                    pairs: map<string, Pairing>,
                    more: map<string, Pairing>, n: nat)
    requires n <= |nodes| && FirstServed(nodes, planned, choices, pairs, n) && Kept(pairs, more)
    ensures FirstServed(nodes, planned, choices, more, n)
  {
    forall i | 0 <= i < n && !ChosenBefore(nodes, choices, i, Lookup(choices, nodes[i].name))
      ensures Served(planned, choices, more, nodes[i].name)
    {
      assert Served(planned, choices, pairs, nodes[i].name);
    }
  }

  /** A pairing replaces at most one without a device. */
  lemma PairedMore(pairs: map<string, Pairing>, taken: set<Id>, name: string, p: Pairing)
    requires OneToOne(pairs, taken)
    requires name in pairs ==> pairs[name].planned.None?
    requires p.planned.Some? ==> p.planned.value !in taken
    ensures OneToOne(pairs[name := p], if p.planned.Some? then taken + {p.planned.value} else taken)
  {
    var more, all := pairs[name := p], if p.planned.Some? then taken + {p.planned.value} else taken;
    forall id | id in all ensures exists n :: n in more && more[n].planned == Some(id) {
      if p.planned == Some(id) {
        assert more[name].planned == Some(id);
      } else {
        var n :| n in pairs && pairs[n].planned == Some(id);
        assert more[n].planned == Some(id);
      }
    }
  }

  lemma StaysHonoured(planned: seq<PlannedHost>, choices: map<string, string>, pairs: map<string, Pairing>,
                      more: map<string, Pairing>,
                      name: string)
    requires Honoured(planned, choices, pairs, name)
    requires forall n :: n in pairs && pairs[n].reason == Choice ==> n in more && more[n] == pairs[n]
    ensures Honoured(planned, choices, more, name)
  {
    var choice := Lookup(choices, name);
    if ChosenDevice(choice) && IsPlanned(planned, choice) {
      var m :| m in pairs && Lookup(choices, m) == choice && pairs[m] == Pairing(Some(choice), Choice, false);
      assert m in more;
    }
  }

  lemma ReasonedMore(nodes: seq<Node>, planned: seq<PlannedHost>, itemNode: map<string, string>,
                     choices: map<string, string>, pairs: map<string, Pairing>, name: string, p: Pairing)
    requires AllReasoned(nodes, planned, itemNode, choices, pairs) && HasNode(nodes, name)
    requires Reasoned(nodes, planned, itemNode, choices, name, p)
    ensures AllReasoned(nodes, planned, itemNode, choices, pairs[name := p])
  {
    hide Reasoned, HasNode;
  }

  lemma PairIsReasoned(nodes: seq<Node>, planned: seq<PlannedHost>, itemNode: map<string, string>,
                       choices: map<string, string>, pairs: map<string, Pairing>, taken: set<Id>, name: string)
    requires AllReasoned(nodes, planned, itemNode, choices, pairs) && OneToOne(pairs, taken) && name in pairs
    ensures Reasoned(nodes, planned, itemNode, choices, name, pairs[name])
    ensures pairs[name].planned.Some? ==> pairs[name].planned.value in taken
  {
    hide Reasoned, HasNode;
  }

  lemma HolderOf(pairs: map<string, Pairing>, taken: set<Id>, id: Id) returns (name: string)
    requires OneToOne(pairs, taken) && id in taken
    ensures name in pairs && pairs[name].planned == Some(id)
  {
    name :| name in pairs && pairs[name].planned == Some(id);
  }

  /** One host's choice; a device another host already got is not given again. */
  method PairChoice(nodes: seq<Node>, planned: seq<PlannedHost>, itemNode: map<string, string>,
                    choices: map<string, string>,
                    name: string, pairs: map<string, Pairing>, taken: set<Id>)
    returns (pairs': map<string, Pairing>, taken': set<Id>)
    requires OneToOne(pairs, taken) && AllReasoned(nodes, planned, itemNode, choices, pairs) && HasNode(nodes, name)
    requires forall n <- pairs :: pairs[n].reason == Choice
    ensures OneToOne(pairs', taken') && AllReasoned(nodes, planned, itemNode, choices, pairs')
    ensures forall n <- pairs' :: pairs'[n].reason == Choice
    ensures forall n <- pairs :: n in pairs' && pairs'[n] == pairs[n]
    ensures Honoured(planned, choices, pairs', name)
    ensures taken' <= taken + {Lookup(choices, name)}
    ensures Lookup(choices, name) !in taken ==> Served(planned, choices, pairs', name)
  {
    hide OneToOne, AllReasoned, Fits, HasNode, IsPlanned;
    pairs', taken' := pairs, taken;
    var choice := Lookup(choices, name);
    if name in pairs {
      PairIsReasoned(nodes, planned, itemNode, choices, pairs, taken, name);
    }
    if choice == CHOICE_SKIP {
      PairedMore(pairs, taken, name, Pairing(None, Choice, true));
      ReasonedMore(nodes, planned, itemNode, choices, pairs, name, Pairing(None, Choice, true));
      pairs' := pairs[name := Pairing(None, Choice, true)];
    } else if choice == CHOICE_NEW {
      PairedMore(pairs, taken, name, Pairing(None, Choice, false));
      ReasonedMore(nodes, planned, itemNode, choices, pairs, name, Pairing(None, Choice, false));
      pairs' := pairs[name := Pairing(None, Choice, false)];
    } else if choice != "" {
      var known := Knows(planned, choice);
      if known && choice !in taken {
        var p := Pairing(Some(choice), Choice, false);
        PairedMore(pairs, taken, name, p);
        ReasonedMore(nodes, planned, itemNode, choices, pairs, name, p);
        pairs', taken' := pairs[name := p], taken + {choice};
      } else if known {
        ghost var m := HolderOf(pairs, taken, choice);
        PairIsReasoned(nodes, planned, itemNode, choices, pairs, taken, m);
      }
    }
  }

  lemma OneMoreServed(nodes: seq<Node>, planned: seq<PlannedHost>, choices: map<string, string>,
                      pairs: map<string, Pairing>, taken: set<Id>,
                      more: map<string, Pairing>, all: set<Id>, i: nat)
    requires i < |nodes| && FirstServed(nodes, planned, choices, pairs, i) && Kept(pairs, more)
    requires forall id <- taken :: ChosenBefore(nodes, choices, i, id)
    requires all <= taken + {Lookup(choices, nodes[i].name)}
    requires Lookup(choices, nodes[i].name) !in taken ==> Served(planned, choices, more, nodes[i].name)
    ensures FirstServed(nodes, planned, choices, more, i + 1)
    ensures forall id <- all :: ChosenBefore(nodes, choices, i + 1, id)
  {
    hide Served;
    StaysServed(nodes, planned, choices, pairs, more, i);
    forall id | id in all
      ensures ChosenBefore(nodes, choices, i + 1, id)
    {
      if id in taken {
        var j :| 0 <= j < i && Lookup(choices, nodes[j].name) == id;
      } else {
        assert Lookup(choices, nodes[i].name) == id;
      }
    }
  }

  lemma Present(nodes: seq<Node>, i: nat)
    requires i < |nodes|
    ensures HasNode(nodes, nodes[i].name)
  {
  }

  /** The choices of the first n hosts are settled. */
  ghost predicate SettledFor(nodes: seq<Node>, planned: seq<PlannedHost>, itemNode: map<string, string>,
                             choices: map<string, string>,
                             pairs: map<string, Pairing>, taken: set<Id>, n: nat)
    requires n <= |nodes|
  {
    && OneToOne(pairs, taken) && AllReasoned(nodes, planned, itemNode, choices, pairs)
    && (forall m <- pairs :: pairs[m].reason == Choice)
    && (forall j :: 0 <= j < n ==> Honoured(planned, choices, pairs, nodes[j].name))
    && FirstServed(nodes, planned, choices, pairs, n)
    && (forall id <- taken :: ChosenBefore(nodes, choices, n, id))
  }

  method SettleNext(nodes: seq<Node>, planned: seq<PlannedHost>, itemNode: map<string, string>,
                    choices: map<string, string>,
                    pairs: map<string, Pairing>, taken: set<Id>, i: nat)
    returns (pairs': map<string, Pairing>, taken': set<Id>)
    requires i < |nodes| && SettledFor(nodes, planned, itemNode, choices, pairs, taken, i)
    ensures SettledFor(nodes, planned, itemNode, choices, pairs', taken', i + 1)
  {
    hide OneToOne, AllReasoned, Honoured, FirstServed, ChosenBefore, Served, HasNode;
    Present(nodes, i);
    pairs', taken' := PairChoice(nodes, planned, itemNode, choices, nodes[i].name, pairs, taken);
    OneMoreServed(nodes, planned, choices, pairs, taken, pairs', taken', i);
    forall j | 0 <= j < i ensures Honoured(planned, choices, pairs', nodes[j].name) {
      StaysHonoured(planned, choices, pairs, pairs', nodes[j].name);
    }
  }

  /** The owner's choices. */
  method PairChoices(nodes: seq<Node>, planned: seq<PlannedHost>, itemNode: map<string, string>,
                     choices: map<string, string>)
    returns (pairs: map<string, Pairing>, taken: set<Id>)
    ensures OneToOne(pairs, taken) && AllReasoned(nodes, planned, itemNode, choices, pairs)
    ensures forall n <- pairs :: pairs[n].reason == Choice
    ensures forall n <- nodes :: Honoured(planned, choices, pairs, n.name)
    ensures FirstServed(nodes, planned, choices, pairs, |nodes|)
  {
    pairs, taken := map[], {};
    for i := 0 to |nodes|
      invariant SettledFor(nodes, planned, itemNode, choices, pairs, taken, i)
    {
      pairs, taken := SettleNext(nodes, planned, itemNode, choices, pairs, taken, i);
    }
  }

  method Knows(planned: seq<PlannedHost>, id: Id) returns (known: bool)
    ensures known <==> IsPlanned(planned, id)
  {
    for i := 0 to |planned|
      invariant forall j :: 0 <= j < i ==> planned[j].id != id
    {
      if planned[i].id == id {
        return true;
      }
    }
    return false;
  }

  /** A free device that fits a host. */
  ghost predicate FreeFit(reason: PairedBy, itemNode: map<string, string>, planned: seq<PlannedHost>, taken: set<Id>,
                          node: Node)
  {
    exists h :: h in planned && h.id !in taken && Fits(reason, itemNode, node, h)
  }

  method FirstFit(reason: PairedBy, itemNode: map<string, string>, planned: seq<PlannedHost>, taken: set<Id>,
                  node: Node)
    returns (fit: Option<PlannedHost>)
    ensures fit.Some? ==> fit.value in planned && fit.value.id !in taken && Fits(reason, itemNode, node, fit.value)
    ensures fit.None? ==> !FreeFit(reason, itemNode, planned, taken, node)
  {
    for i := 0 to |planned|
      invariant forall j :: 0 <= j < i ==> planned[j].id in taken || !Fits(reason, itemNode, node, planned[j])
    {
      if planned[i].id !in taken && Fits(reason, itemNode, node, planned[i]) {
        return Some(planned[i]);
      }
    }
    return None;
  }

  /** What one pass leaves: earlier pairings stand, and no unpaired host has a free
      device that fits for this reason. */
  ghost predicate Passed(nodes: seq<Node>, planned: seq<PlannedHost>, itemNode: map<string, string>, reason: PairedBy,
                         pairs: map<string, Pairing>, taken: set<Id>)
  {
    forall n <- nodes :: n.name !in pairs ==> !FreeFit(reason, itemNode, planned, taken, n)
  }

  ghost predicate Kept(pairs: map<string, Pairing>, more: map<string, Pairing>) {
    forall n <- pairs :: n in more && more[n] == pairs[n]
  }

  /** Earlier pairings stand and new ones have this reason. */
  ghost predicate Extends(pairs: map<string, Pairing>, more: map<string, Pairing>, reason: PairedBy) {
    && Kept(pairs, more)
    && (forall n <- more :: n !in pairs ==> more[n].reason == reason)
  }

  method PassHost(nodes: seq<Node>, planned: seq<PlannedHost>, itemNode: map<string, string>,
                  choices: map<string, string>, reason: PairedBy,
                  pairs: map<string, Pairing>, taken: set<Id>, node: Node)
    returns (pairs': map<string, Pairing>, taken': set<Id>)
    requires reason.Link? || reason.Inventory? || reason.Name?
    requires OneToOne(pairs, taken) && AllReasoned(nodes, planned, itemNode, choices, pairs) && node in nodes
             && node.name !in pairs
    ensures OneToOne(pairs', taken') && AllReasoned(nodes, planned, itemNode, choices, pairs')
    ensures taken <= taken' && Extends(pairs, pairs', reason)
    ensures node.name !in pairs' ==> !FreeFit(reason, itemNode, planned, taken', node)
  {
    pairs', taken' := pairs, taken;
    var fit := FirstFit(reason, itemNode, planned, taken, node);
    if fit.Some? {
      var p := Pairing(Some(fit.value.id), reason, false);
      PairedMore(pairs, taken, node.name, p);
      assert HasNode(nodes, node.name) && Reasoned(nodes, planned, itemNode, choices, node.name, p);
      pairs', taken' := pairs[node.name := p], taken + {fit.value.id};
    }
  }

  lemma StaysWithoutFit(reason: PairedBy, itemNode: map<string, string>, planned: seq<PlannedHost>, taken: set<Id>,
                        more: set<Id>, node: Node)
    requires taken <= more && !FreeFit(reason, itemNode, planned, taken, node)
    ensures !FreeFit(reason, itemNode, planned, more, node)
  {
  }

  /** One pass over the hosts that are not paired yet, in order. */
  method Pass(nodes: seq<Node>, planned: seq<PlannedHost>, itemNode: map<string, string>, choices: map<string, string>,
              reason: PairedBy,
              pairs: map<string, Pairing>, taken: set<Id>)
    returns (pairs': map<string, Pairing>, taken': set<Id>)
    requires reason.Link? || reason.Inventory? || reason.Name?
    requires OneToOne(pairs, taken) && AllReasoned(nodes, planned, itemNode, choices, pairs)
    ensures OneToOne(pairs', taken') && AllReasoned(nodes, planned, itemNode, choices, pairs')
    ensures Extends(pairs, pairs', reason)
    ensures Passed(nodes, planned, itemNode, reason, pairs', taken')
  {
    pairs', taken' := pairs, taken;
    for i := 0 to |nodes|
      invariant OneToOne(pairs', taken') && AllReasoned(nodes, planned, itemNode, choices, pairs')
      invariant Extends(pairs, pairs', reason)
      invariant forall j :: 0 <= j < i && nodes[j].name !in pairs' ==>
                  !FreeFit(reason, itemNode, planned, taken', nodes[j])
    {
      if nodes[i].name in pairs' {
        continue;
      }
      ghost var before, had := pairs', taken';
      pairs', taken' := PassHost(nodes, planned, itemNode, choices, reason, pairs', taken', nodes[i]);
      forall j | 0 <= j < i && nodes[j].name !in pairs' ensures !FreeFit(reason, itemNode, planned, taken', nodes[j]) {
        assert nodes[j].name !in before;
        StaysWithoutFit(reason, itemNode, planned, had, taken', nodes[j]);
      }
    }
  }

  /** A host paired for a weaker reason had no free device for a stronger one:
      every device that fits it better went to a host with a better reason. */
  ghost predicate BetterTaken(planned: seq<PlannedHost>, itemNode: map<string, string>, pairs: map<string, Pairing>,
                              n: Node, reason: PairedBy,
                              better: set<PairedBy>)
  {
    forall h :: h in planned && Fits(reason, itemNode, n, h) ==>
      exists m :: m in pairs && pairs[m].planned == Some(h.id) && pairs[m].reason in better
  }

  ghost predicate Prioritised(planned: seq<PlannedHost>, itemNode: map<string, string>, pairs: map<string, Pairing>,
                              n: Node)
    requires n.name in pairs
  {
    var reason := pairs[n.name].reason;
    && (reason in {Inventory, Name, Nothing} ==> BetterTaken(planned, itemNode, pairs, n, Link, {Choice, Link}))
    && (reason in {Name, Nothing} ==> BetterTaken(planned, itemNode, pairs, n, Inventory, {Choice, Link, Inventory}))
    && (reason == Nothing ==> BetterTaken(planned, itemNode, pairs, n, Name, {Choice, Link, Inventory, Name}))
  }

  lemma PassedMeansTaken(nodes: seq<Node>, planned: seq<PlannedHost>, itemNode: map<string, string>, reason: PairedBy,
                         pairs: map<string, Pairing>, taken: set<Id>, final: map<string, Pairing>, n: Node,
                         better: set<PairedBy>)
    requires OneToOne(pairs, taken) && Passed(nodes, planned, itemNode, reason, pairs, taken)
    requires n in nodes && n.name !in pairs
    requires Kept(pairs, final)
    requires ReasonsIn(pairs, better)
    ensures BetterTaken(planned, itemNode, final, n, reason, better)
  {
    forall h | h in planned && Fits(reason, itemNode, n, h)
      ensures exists m :: m in final && final[m].planned == Some(h.id) && final[m].reason in better
    {
      assert !FreeFit(reason, itemNode, planned, taken, n);
      assert h.id in taken;
      var m :| m in pairs && pairs[m].planned == Some(h.id);
      assert m in final;
    }
  }

  /** Which planned device each host is. No device is given twice, every choice is
      honoured, every pairing has its reason, and reasons are tried in order until
      no undecided host is left beside a free device that fits. */
  method PairHosts(nodes: seq<Node>, planned: seq<PlannedHost>, itemNode: map<string, string>,
                   choices: map<string, string>)
    returns (pairs: map<string, Pairing>)
    ensures forall name :: name in pairs <==> HasNode(nodes, name)
    ensures forall m, n ::
              m in pairs && n in pairs && pairs[m].planned.Some? && pairs[m].planned == pairs[n].planned ==> m == n
    ensures AllReasoned(nodes, planned, itemNode, choices, pairs)
    ensures forall n <- nodes :: Honoured(planned, choices, pairs, n.name)
    ensures FirstServed(nodes, planned, choices, pairs, |nodes|)
    ensures forall n <- nodes :: n.name in pairs && Prioritised(planned, itemNode, pairs, n)
  {
    var taken: set<Id>;
    pairs, taken := PairChoices(nodes, planned, itemNode, choices);
    ghost var chosen := pairs;
    pairs, taken := Pass(nodes, planned, itemNode, choices, Link, pairs, taken);
    ghost var linked, takenByLink := pairs, taken;
    pairs, taken := Pass(nodes, planned, itemNode, choices, Inventory, pairs, taken);
    ghost var stocked, takenByItem := pairs, taken;
    pairs, taken := Pass(nodes, planned, itemNode, choices, Name, pairs, taken);
    ghost var named, takenByName := pairs, taken;
    pairs := FillUnpaired(nodes, planned, itemNode, choices, pairs, taken);
    assert Extends(named, pairs, Nothing);
    AllHonoured(nodes, planned, choices, chosen, linked, stocked, named, pairs);
    assert Kept(chosen, pairs);
    StaysServed(nodes, planned, choices, chosen, pairs, |nodes|);
    forall n | n in nodes ensures n.name in pairs && Prioritised(planned, itemNode, pairs, n) {
      assert HasNode(nodes, n.name);
      PriorityKept(nodes, planned, itemNode, chosen, linked, takenByLink, stocked, takenByItem, named, takenByName,
                   pairs, n);
    }
  }

  lemma AllHonoured(nodes: seq<Node>, planned: seq<PlannedHost>, choices: map<string, string>,
                    chosen: map<string, Pairing>,
                    linked: map<string, Pairing>, stocked: map<string, Pairing>, named: map<string, Pairing>,
                    pairs: map<string, Pairing>)
    requires forall n <- nodes :: Honoured(planned, choices, chosen, n.name)
    requires Extends(chosen, linked, Link) && Extends(linked, stocked, Inventory)
    requires Extends(stocked, named, Name) && Extends(named, pairs, Nothing)
    ensures forall n <- nodes :: Honoured(planned, choices, pairs, n.name)
  {
    forall n | n in nodes ensures Honoured(planned, choices, pairs, n.name) {
      StaysHonoured(planned, choices, chosen, pairs, n.name);
    }
  }

  ghost predicate ReasonsIn(pairs: map<string, Pairing>, reasons: set<PairedBy>) {
    forall m <- pairs :: pairs[m].reason in reasons
  }

  lemma ReasonsMore(pairs: map<string, Pairing>, more: map<string, Pairing>, reason: PairedBy, reasons: set<PairedBy>,
                    all: set<PairedBy>)
    requires ReasonsIn(pairs, reasons) && Extends(pairs, more, reason) && reasons + {reason} <= all
    ensures ReasonsIn(more, all)
  {
  }

  lemma PriorityKept(nodes: seq<Node>, planned: seq<PlannedHost>, itemNode: map<string, string>,
                     chosen: map<string, Pairing>, linked: map<string, Pairing>, takenByLink: set<Id>,
                     stocked: map<string, Pairing>, takenByItem: set<Id>, named: map<string, Pairing>,
                     takenByName: set<Id>,
                     pairs: map<string, Pairing>, n: Node)
    requires n in nodes && n.name in pairs && forall m <- chosen :: chosen[m].reason == Choice
    requires Extends(chosen, linked, Link) && OneToOne(linked, takenByLink)
             && Passed(nodes, planned, itemNode, Link, linked, takenByLink)
    requires Extends(linked, stocked, Inventory) && OneToOne(stocked, takenByItem)
             && Passed(nodes, planned, itemNode, Inventory, stocked, takenByItem)
    requires Extends(stocked, named, Name) && OneToOne(named, takenByName)
             && Passed(nodes, planned, itemNode, Name, named, takenByName)
    requires Extends(named, pairs, Nothing)
    ensures Prioritised(planned, itemNode, pairs, n)
  {
    assert Kept(stocked, pairs) && Kept(linked, pairs);
    assert ReasonsIn(chosen, {Choice});
    ReasonsMore(chosen, linked, Link, {Choice}, {Choice, Link});
    ReasonsMore(linked, stocked, Inventory, {Choice, Link}, {Choice, Link, Inventory});
    ReasonsMore(stocked, named, Name, {Choice, Link, Inventory}, {Choice, Link, Inventory, Name});
    if n.name !in linked {
      PassedMeansTaken(nodes, planned, itemNode, Link, linked, takenByLink, pairs, n, {Choice, Link});
    }
    if n.name !in stocked {
      PassedMeansTaken(nodes, planned, itemNode, Inventory, stocked, takenByItem, pairs, n, {Choice, Link, Inventory});
    }
    if n.name !in named {
      PassedMeansTaken(nodes, planned, itemNode, Name, named, takenByName, pairs, n, {Choice, Link, Inventory, Name});
    }
  }

  method FillUnpaired(nodes: seq<Node>, ghost planned: seq<PlannedHost>, ghost itemNode: map<string, string>,
                      ghost choices: map<string, string>,
                      pairs: map<string, Pairing>, ghost taken: set<Id>)
    returns (all: map<string, Pairing>)
    requires OneToOne(pairs, taken) && AllReasoned(nodes, planned, itemNode, choices, pairs)
    ensures OneToOne(all, taken) && AllReasoned(nodes, planned, itemNode, choices, all)
    ensures forall name :: name in all <==> HasNode(nodes, name)
    ensures forall name <- all :: all[name] == if name in pairs then pairs[name] else Pairing(None, Nothing, false)
  {
    hide OneToOne;
    all := pairs;
    for i := 0 to |nodes|
      invariant OneToOne(all, taken) && AllReasoned(nodes, planned, itemNode, choices, all)
      invariant forall name :: name in all <==> name in pairs || HasNode(nodes[..i], name)
      invariant forall name <- all :: all[name] == if name in pairs then pairs[name] else Pairing(None, Nothing, false)
    {
      assert nodes[..i + 1] == nodes[..i] + [nodes[i]];
      assert HasNode(nodes, nodes[i].name);
      if nodes[i].name !in all {
        PairedMore(all, taken, nodes[i].name, Pairing(None, Nothing, false));
        all := all[nodes[i].name := Pairing(None, Nothing, false)];
      }
    }
    assert nodes[..|nodes|] == nodes;
  }
}
