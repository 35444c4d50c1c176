/** Stored assistant messages and the conversation rebuilt from them
    (backend/internal/assistant/agent.go, ConversationFromMessages and answersAll). */
module Conversation {
  import opened Wrappers

  datatype Part =
    | TextPart(text: string)
    | ContextPart(text: string)
    | CallPart(id: string, name: string, input: string)
    | ResultPart(id: string, name: string, content: string, isError: bool)
    | ProposalPart(proposalId: string)
    | NoticePart(text: string)

  datatype Role = User | Assistant | Tool | OtherRole

  /** A stored message. native is the provider's own form of an assistant message. */
  datatype Row = Row(seqNo: nat, role: Role, provider: string, model: string, parts: seq<Part>, native: Option<string>,
                     interrupted: bool)

  datatype ToolCall = ToolCall(id: string, name: string, input: string)
  datatype ToolResult = ToolResult(id: string, name: string, content: string, isError: bool)

  /** A message as the model sees it. */
  datatype Message = Message(role: Role, text: string, calls: seq<ToolCall>, results: seq<ToolResult>,
                             native: Option<string>, nativeFor: string)

  // ---- what one row holds ----

  /** The visible text and the context of a user message, empty pieces left out. */
  function Join(texts: seq<string>): string {
    if texts == [] then ""
    else if |texts| == 1 then texts[0]
    else Join(texts[..|texts| - 1]) + "\n\n" + texts[|texts| - 1]
  }

  function UserTexts(parts: seq<Part>): seq<string> {
    if parts == [] then []
    else
      var p := parts[|parts| - 1];
      UserTexts(parts[..|parts| - 1]) + if (p.ContextPart? || p.TextPart?) && p.text != "" then [p.text] else []
  }

  function ReplyText(parts: seq<Part>): string {
    if parts == [] then ""
    else
      var p := parts[|parts| - 1];
      ReplyText(parts[..|parts| - 1]) + if p.TextPart? then p.text else ""
  }

  function Calls(parts: seq<Part>): seq<ToolCall> {
    if parts == [] then []
    else
      var p := parts[|parts| - 1];
      Calls(parts[..|parts| - 1]) + if p.CallPart? then [ToolCall(p.id, p.name, p.input)] else []
  }

  function Results(parts: seq<Part>): seq<ToolResult> {
    if parts == [] then []
    else
      var p := parts[|parts| - 1];
      Results(parts[..|parts| - 1]) + if p.ResultPart? then [ToolResult(p.id, p.name, p.content, p.isError)] else []
  }

  predicate Answers(results: seq<ToolResult>, calls: seq<ToolCall>) {
    forall c <- calls :: exists r <- results :: r.id == c.id
  }

  /** What a row contributes when no calls tie it to a neighbour. */
  function Alone(row: Row): Option<Message> {
    match row.role
    case User =>
      var texts := UserTexts(row.parts);
      if |texts| == 0 then None else Some(Message(User, Join(texts), [], [], None, ""))
    case Assistant =>
      var text := ReplyText(row.parts);
      if |text| == 0 then None
      else if row.interrupted || |Calls(row.parts)| > 0 then Some(Message(Assistant, text, [], [], None, ""))
      else Some(Message(Assistant, text, [], [], row.native, row.provider + "/" + row.model))
    case Tool => None
    case OtherRole => None
  }

  /** What it contributes as one half of calls and their answers. */
  function Joined(row: Row): Message {
    if row.role == Tool then Message(Tool, "", [], Results(row.parts), None, "")
    else Message(Assistant, ReplyText(row.parts), Calls(row.parts), [], row.native, row.provider + "/" + row.model)
  }

  /** A row read on its own: the calls it would keep, the answers it holds, and
      its two possible contributions. */
  datatype Entry = Entry(asks: seq<ToolCall>, answers: Option<seq<ToolResult>>, alone: Option<Message>, joined: Message)

  function Decode(row: Row): Entry {
    Entry(if row.role == Assistant && !row.interrupted then Calls(row.parts) else [],
          if row.role == Tool then Some(Results(row.parts)) else None,
          Alone(row), Joined(row))
  }

  function Mapped<A, B>(f: A -> B, s: seq<A>): (mapped: seq<B>)
    ensures |mapped| == |s|
  {
    if |s| == 0 then [] else Mapped(f, s[..|s| - 1]) + [f(s[|s| - 1])]
  }

  lemma {:induction false} MappedAt<A, B>(f: A -> B, s: seq<A>, i: nat)
    requires i < |s|
    ensures Mapped(f, s)[i] == f(s[i])
  {
    if i < |s| - 1 {
      MappedAt(f, s[..|s| - 1], i);
    }
  }

  lemma {:induction false} MappedJoins<A, B>(f: A -> B, s: seq<A>, t: seq<A>)
    ensures Mapped(f, s + t) == Mapped(f, s) + Mapped(f, t)
  {
    if |t| == 0 {
      assert s + t == s;
    } else {
      var front, last := t[..|t| - 1], t[|t| - 1];
      MappedJoins(f, s, front);
      var whole := s + t;
      assert whole[..|whole| - 1] == s + front && whole[|whole| - 1] == last;
    }
  }

  function DecodeAll(rows: seq<Row>): (entries: seq<Entry>)
    ensures |entries| == |rows|
  {
    Mapped(Decode, rows)
  }

  lemma DecodeAt(rows: seq<Row>, i: nat)
    requires i < |rows|
    ensures DecodeAll(rows)[i] == Decode(rows[i])
  {
    MappedAt(Decode, rows, i);
  }

  // ---- the reference: what each row contributes, seen from its neighbours ----

  /** Calls are kept when the assistant was not interrupted and the very next row
      answers every one of them. */
  predicate KeepsCalls(entries: seq<Entry>, i: int) {
    && 0 <= i < |entries| - 1 && |entries[i].asks| > 0
    && entries[i + 1].answers.Some? && Answers(entries[i + 1].answers.value, entries[i].asks)
  }

  function Contribution(entries: seq<Entry>, i: nat): seq<Message>
    requires i < |entries|
  {
    if KeepsCalls(entries, i) || KeepsCalls(entries, i - 1) then [entries[i].joined]
    else if entries[i].alone.Some? then [entries[i].alone.value]
    else []
  }

  function ReplayUpTo(entries: seq<Entry>, n: nat): seq<Message>
    requires n <= |entries|
  {
    if n == 0 then [] else ReplayUpTo(entries, n - 1) + Contribution(entries, n - 1)
  }

  function ReplayEntries(entries: seq<Entry>): seq<Message> { ReplayUpTo(entries, |entries|) }

  function Replay(rows: seq<Row>): seq<Message> { ReplayEntries(DecodeAll(rows)) }

  /** The last message of a conversation asks for tools. */
  predicate AwaitsResults(conversation: seq<Message>) {
    |conversation| > 0 && |conversation[|conversation| - 1].calls| > 0
  }

  /** What is known of any row that was read. */
  predicate Sound(e: Entry) {
    && (e.alone.Some? ==> |e.alone.value.calls| == 0 && e.alone.value.role != Tool && e.answers.None?)
    && (|e.asks| > 0 ==> e.answers.None? && e.joined.role == Assistant && e.joined.calls == e.asks)
    && (e.answers.Some? ==> e.joined.role == Tool && |e.joined.calls| == 0 && e.joined.results == e.answers.value)
  }

  lemma DecodeSound(row: Row)
    ensures Sound(Decode(row))
  {
  }

  ghost predicate AllSound(entries: seq<Entry>) {
    forall i :: 0 <= i < |entries| ==> Sound(entries[i])
  }

  lemma DecodeAllSound(rows: seq<Row>)
    ensures AllSound(DecodeAll(rows))
  {
    forall i | 0 <= i < |rows|
      ensures Sound(DecodeAll(rows)[i])
    {
      DecodeAt(rows, i);
      DecodeSound(rows[i]);
    }
  }

  /** The conversation awaits results exactly after a row whose calls are kept. */
  lemma {:induction false} AwaitsOnlyKept(entries: seq<Entry>, n: nat)
    requires n <= |entries| && AllSound(entries)
    ensures AwaitsResults(ReplayUpTo(entries, n)) <==> KeepsCalls(entries, n - 1)
    ensures KeepsCalls(entries, n - 1) ==> ReplayUpTo(entries, n)[|ReplayUpTo(entries, n)| - 1] == entries[n - 1].joined
  {
    if n > 0 {
      AwaitsOnlyKept(entries, n - 1);
      assert Sound(entries[n - 1]);
      var before, added := ReplayUpTo(entries, n - 1), Contribution(entries, n - 1);
      if |added| == 0 {
        assert before + added == before;
      }
    }
  }

  lemma AwaitsAt(entries: seq<Entry>, n: nat)
    requires n <= |entries| && AllSound(entries)
    ensures AwaitsResults(ReplayUpTo(entries, n)) <==> KeepsCalls(entries, n - 1)
  {
    AwaitsOnlyKept(entries, n);
  }

  // ---- the loop of the source ----

  method JoinTexts(parts: seq<Part>) returns (texts: seq<string>)
    ensures texts == UserTexts(parts)
  {
    texts := [];
    for k := 0 to |parts|
      invariant texts == UserTexts(parts[..k])
    {
      assert parts[..k + 1][..k] == parts[..k];
      if (parts[k].ContextPart? || parts[k].TextPart?) && parts[k].text != "" {
        texts := texts + [parts[k].text];
      }
    }
    assert parts[..|parts|] == parts;
  }

  method ReadReply(parts: seq<Part>) returns (text: string, calls: seq<ToolCall>)
    ensures text == ReplyText(parts) && calls == Calls(parts)
  {
    text, calls := "", [];
    for k := 0 to |parts|
      invariant text == ReplyText(parts[..k]) && calls == Calls(parts[..k])
    {
      assert parts[..k + 1][..k] == parts[..k];
      match parts[k] {
        case TextPart(t) => text := text + t;
        case CallPart(id, name, input) => calls := calls + [ToolCall(id, name, input)];
        case _ =>
      }
    }
    assert parts[..|parts|] == parts;
  }

  method ReadResults(parts: seq<Part>) returns (results: seq<ToolResult>)
    ensures results == Results(parts)
  {
    results := [];
    for k := 0 to |parts|
      invariant results == Results(parts[..k])
    {
      assert parts[..k + 1][..k] == parts[..k];
      if parts[k].ResultPart? {
        results := results + [ToolResult(parts[k].id, parts[k].name, parts[k].content, parts[k].isError)];
      }
    }
    assert parts[..|parts|] == parts;
  }

  method AnswersEvery(row: Row, calls: seq<ToolCall>) returns (all: bool)
    ensures all == (row.role == Tool && Answers(Results(row.parts), calls))
  {
    if row.role != Tool {
      return false;
    }
    var results := ReadResults(row.parts);
    var answered := set r | r in results :: r.id;
    for c := 0 to |calls|
      invariant forall d :: 0 <= d < c ==> exists r <- results :: r.id == calls[d].id
    {
      if calls[c].id !in answered {
        assert forall r <- results :: r.id in answered;
        return false;
      }
    }
    return true;
  }

  /** An assistant row, looking one row ahead for the answers to its calls. */
  method ReplayReply(rows: seq<Row>, ghost entries: seq<Entry>, i: nat, conversation: seq<Message>)
    returns (longer: seq<Message>)
    requires i < |rows| && rows[i].role == Assistant && entries == DecodeAll(rows)
    ensures longer == conversation + Contribution(entries, i)
  {
    DecodeAt(rows, i);
    if i + 1 < |rows| {
      DecodeAt(rows, i + 1);
    }
    if i > 0 {
      DecodeAt(rows, i - 1);
    }
    longer := conversation;
    var row := rows[i];
    var text, calls := ReadReply(row.parts);
    var message := Message(Assistant, text, calls, [], None, "");
    var answered := |calls| == 0;
    if !answered && i + 1 < |rows| {
      answered := AnswersEvery(rows[i + 1], calls);
    }
    if answered && !row.interrupted {
      message := message.(native := row.native, nativeFor := row.provider + "/" + row.model);
    } else {
      message := message.(calls := []);
    }
    if |message.text| > 0 || |message.calls| > 0 {
      longer := conversation + [message];
    }
  }

  /** One row of the thread. */
  method ReplayRow(rows: seq<Row>, ghost entries: seq<Entry>, i: nat, conversation: seq<Message>)
    returns (longer: seq<Message>)
    requires i < |rows| && entries == DecodeAll(rows)
    requires AwaitsResults(conversation) <==> KeepsCalls(entries, i - 1)
    ensures longer == conversation + Contribution(entries, i)
  {
    DecodeAt(rows, i);
    if i + 1 < |rows| {
      DecodeAt(rows, i + 1);
    }
    if i > 0 {
      DecodeAt(rows, i - 1);
    }
    longer := conversation;
    var row := rows[i];
    match row.role {
      case User =>
        var texts := JoinTexts(row.parts);
        if |texts| > 0 {
          longer := conversation + [Message(User, Join(texts), [], [], None, "")];
        }
      case Assistant =>
        longer := ReplayReply(rows, entries, i, conversation);
      case Tool =>
        if |conversation| > 0 && |conversation[|conversation| - 1].calls| > 0 {
          var results := ReadResults(row.parts);
          longer := conversation + [Message(Tool, "", [], results, None, "")];
        }
      case OtherRole =>
    }
  }

  ghost predicate ReplaysFirst(conversation: seq<Message>, entries: seq<Entry>, n: nat) {
    n <= |entries| && conversation == ReplayUpTo(entries, n)
  }

  method ReplayNext(rows: seq<Row>, ghost entries: seq<Entry>, i: nat, conversation: seq<Message>)
    returns (longer: seq<Message>)
    requires i < |rows| && entries == DecodeAll(rows) && ReplaysFirst(conversation, entries, i)
    ensures ReplaysFirst(longer, entries, i + 1)
  {
    DecodeAllSound(rows);
    AwaitsAt(entries, i);
    longer := ReplayRow(rows, entries, i, conversation);
  }

  /** Rebuilds the conversation the model gets from the stored rows. */
  method ConversationFromMessages(rows: seq<Row>) returns (conversation: seq<Message>)
    ensures conversation == Replay(rows)
  {
    ghost var entries := DecodeAll(rows);
    conversation := [];
    for i := 0 to |rows|
      invariant ReplaysFirst(conversation, entries, i)
    {
      conversation := ReplayNext(rows, entries, i, conversation);
    }
  }

  // ---- well-formed for any rows ----

  /** What providers demand: calls are answered by the very next message, every one
      of them, and results follow only calls. */
  ghost predicate CallsAnswered(conversation: seq<Message>, i: nat)
    requires i < |conversation|
  {
    |conversation[i].calls| > 0 ==>
      && conversation[i].role == Assistant && i + 1 < |conversation| && conversation[i + 1].role == Tool
      && Answers(conversation[i + 1].results, conversation[i].calls)
  }

  ghost predicate ResultsAsked(conversation: seq<Message>, i: nat)
    requires i < |conversation|
  {
    conversation[i].role == Tool ==> i > 0 && |conversation[i - 1].calls| > 0
  }

  ghost predicate WellFormed(conversation: seq<Message>) {
    && (forall i {:trigger CallsAnswered(conversation, i)} :: 0 <= i < |conversation| ==>
        CallsAnswered(conversation, i))
    && (forall i {:trigger ResultsAsked(conversation, i)} :: 0 <= i < |conversation| ==> ResultsAsked(conversation, i))
  }

  /** The same while the last message may still wait for its results. */
  ghost predicate WellFormedSoFar(conversation: seq<Message>) {
    && (forall i {:trigger CallsAnswered(conversation, i)} :: 0 <= i < |conversation| - 1 ==>
        CallsAnswered(conversation, i))
    && (forall i {:trigger ResultsAsked(conversation, i)} :: 0 <= i < |conversation| ==> ResultsAsked(conversation, i))
    && (AwaitsResults(conversation) ==> conversation[|conversation| - 1].role == Assistant)
  }

  /** The message may come next: results exactly where they are awaited, calls only from the assistant. */
  ghost predicate Follows(conversation: seq<Message>, m: Message) {
    && (AwaitsResults(conversation) ==> m.role == Tool && Answers(m.results, conversation[|conversation| - 1].calls))
    && (m.role == Tool ==> AwaitsResults(conversation))
    && (|m.calls| > 0 ==> m.role == Assistant)
  }

  /** A message that fits after the last keeps the conversation well formed. */
  lemma AppendWellFormed(conversation: seq<Message>, m: Message)
    requires WellFormedSoFar(conversation) && Follows(conversation, m)
    ensures WellFormedSoFar(conversation + [m])
  {
    var longer := conversation + [m];
    forall i | 0 <= i < |longer| - 1
      ensures CallsAnswered(longer, i)
    {
      if i < |conversation| - 1 {
        assert CallsAnswered(conversation, i);
      }
    }
    forall i | 0 <= i < |longer|
      ensures ResultsAsked(longer, i)
    {
      if i < |conversation| {
        assert ResultsAsked(conversation, i);
      }
    }
  }

  /** What a row contributes may come next. */
  lemma ContributionFollows(entries: seq<Entry>, i: nat, before: seq<Message>)
    requires i < |entries| && AllSound(entries)
    requires AwaitsResults(before) <==> KeepsCalls(entries, i - 1)
    requires KeepsCalls(entries, i - 1) ==> before[|before| - 1] == entries[i - 1].joined
    ensures var added := Contribution(entries, i); added == [] || (added == [added[0]] && Follows(before, added[0]))
  {
    assert Sound(entries[i]);
    if i > 0 {
      assert Sound(entries[i - 1]);
    }
  }

  lemma NothingWellFormed()
    ensures WellFormedSoFar([])
  {
  }

  lemma {:induction false} ReplayWellFormedSoFar(entries: seq<Entry>, n: nat)
    requires n <= |entries| && AllSound(entries)
    ensures WellFormedSoFar(ReplayUpTo(entries, n))
  {
    hide WellFormedSoFar, Contribution, AllSound, KeepsCalls, Follows, AwaitsResults;
    if n == 0 {
      NothingWellFormed();
    } else {
      ReplayWellFormedSoFar(entries, n - 1);
      AwaitsOnlyKept(entries, n - 1);
      var before, added := ReplayUpTo(entries, n - 1), Contribution(entries, n - 1);
      ContributionFollows(entries, n - 1, before);
      if |added| == 0 {
        assert before + added == before;
      } else {
        AppendWellFormed(before, added[0]);
      }
    }
  }

  /** Replay is well formed whatever is stored, also when a thread is cut off
      between any two writes. */
  lemma ReplayWellFormed(rows: seq<Row>)
    ensures WellFormed(Replay(rows))
  {
    DecodeAllSound(rows);
    ReplayWellFormedSoFar(DecodeAll(rows), |rows|);
    AwaitsOnlyKept(DecodeAll(rows), |rows|);
  }

  // ---- replay of a longer thread ----

  /** A row contributes the same before any rows that do not start with results. */
  lemma ContributionBefore(entries: seq<Entry>, more: seq<Entry>, i: nat)
    requires i < |entries| && (more == [] || more[0].answers.None?)
    ensures Contribution(entries + more, i) == Contribution(entries, i)
  {
    var all := entries + more;
    assert all[i] == entries[i];
    if i > 0 {
      assert all[i - 1] == entries[i - 1];
    }
    if i + 1 < |entries| {
      assert all[i + 1] == entries[i + 1];
    } else if more != [] {
      assert all[i + 1] == more[0];
    }
  }

  lemma ContributionAfter(entries: seq<Entry>, more: seq<Entry>, i: nat)
    requires i < |more| && more[0].answers.None?
    ensures Contribution(entries + more, |entries| + i) == Contribution(more, i)
  {
    var all := entries + more;
    assert all[|entries| + i] == more[i];
    if i > 0 {
      assert all[|entries| + i - 1] == more[i - 1];
    }
    if i + 1 < |more| {
      assert all[|entries| + i + 1] == more[i + 1];
    }
  }

  lemma {:induction false} PrefixReplays(entries: seq<Entry>, more: seq<Entry>, n: nat)
    requires n <= |entries| && (more == [] || more[0].answers.None?)
    ensures ReplayUpTo(entries + more, n) == ReplayUpTo(entries, n)
  {
    hide Contribution;
    if n > 0 {
      PrefixReplays(entries, more, n - 1);
      ContributionBefore(entries, more, n - 1);
    }
  }

  lemma Regroup<T>(a: seq<T>, b: seq<T>, c: seq<T>)
    ensures (a + b) + c == a + (b + c)
    ensures a + [] == a
  {
  }

  lemma {:induction false} SuffixReplays(entries: seq<Entry>, more: seq<Entry>, n: nat)
    requires n <= |more| && (more == [] || more[0].answers.None?)
    ensures ReplayUpTo(entries + more, |entries| + n)
            == ReplayUpTo(entries, |entries|) + ReplayUpTo(more, n)
  {
    hide Contribution;
    if n == 0 {
      PrefixReplays(entries, more, |entries|);
      Regroup(ReplayUpTo(entries, |entries|), [], []);
    } else {
      SuffixReplays(entries, more, n - 1);
      ContributionAfter(entries, more, n - 1);
      Regroup(ReplayUpTo(entries, |entries|), ReplayUpTo(more, n - 1), Contribution(more, n - 1));
    }
  }

  lemma EntriesDistribute(entries: seq<Entry>, more: seq<Entry>)
    requires more == [] || more[0].answers.None?
    ensures ReplayEntries(entries + more) == ReplayEntries(entries) + ReplayEntries(more)
  {
    SuffixReplays(entries, more, |more|);
  }

  /** Rows that do not start with tool results replay on their own, despite the
      look at the next row. */
  lemma ReplayDistributes(rows: seq<Row>, more: seq<Row>)
    requires more == [] || more[0].role != Tool
    ensures Replay(rows + more) == Replay(rows) + Replay(more)
  {
    MappedJoins(Decode, rows, more);
    if more != [] {
      DecodeAt(more, 0);
    }
    EntriesDistribute(DecodeAll(rows), DecodeAll(more));
  }
}
