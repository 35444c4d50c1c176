/** One turn of the assistant: the stored thread (backend/internal/services/
    assistant_thread_service.go, Append) and the loop that talks to the model
    (backend/internal/assistant/agent.go, Turn.Run). */
module AssistantTurn {
  import opened Wrappers
  import opened Text
  import opened Conversation
  import ReplayContents

  const MAX_AGENT_STEPS := 12

  // ---- what storing does to a message ----

  function CleanPart(p: Part): Part {
    match p
    case TextPart(text) => TextPart(WithoutNul(text))
    case ContextPart(text) => ContextPart(WithoutNul(text))
    case CallPart(id, name, input) => CallPart(WithoutNul(id), WithoutNul(name), WithoutNul(input))
    case ResultPart(id, name, content, isError) =>
      ResultPart(WithoutNul(id), WithoutNul(name), WithoutNul(content), isError)
    case ProposalPart(id) => ProposalPart(WithoutNul(id))
    case NoticePart(text) => NoticePart(WithoutNul(text))
  }

  function CleanParts(parts: seq<Part>): seq<Part> { Mapped(CleanPart, parts) }

  /** The provider's own form is kept as it is or not at all. */
  function CleanNative(native: Option<string>): Option<string> {
    if native.Some? && '\0' in native.value then None else native
  }

  function CleanCall(c: ToolCall): ToolCall { ToolCall(WithoutNul(c.id), WithoutNul(c.name), WithoutNul(c.input)) }

  function CleanResult(r: ToolResult): ToolResult {
    ToolResult(WithoutNul(r.id), WithoutNul(r.name), WithoutNul(r.content), r.isError)
  }

  function CleanCalls(calls: seq<ToolCall>): seq<ToolCall> { Mapped(CleanCall, calls) }

  function CleanResults(results: seq<ToolResult>): seq<ToolResult> { Mapped(CleanResult, results) }

  /** A message as it comes back from storage. */
  function CleanMessage(m: Message): Message {
    Message(m.role, WithoutNul(m.text), CleanCalls(m.calls), CleanResults(m.results), CleanNative(m.native),
            m.nativeFor)
  }

  function LastSeq(rows: seq<Row>): nat {
    if rows == [] then 0
    else
      var last := LastSeq(rows[..|rows| - 1]);
      if rows[|rows| - 1].seqNo > last then rows[|rows| - 1].seqNo else last
  }

  /** A message to store. */
  datatype Draft = Draft(role: Role, provider: string, model: string, parts: seq<Part>, native: Option<string>,
                         interrupted: bool)

  function Stored(rows: seq<Row>, d: Draft): Row {
    Row(LastSeq(rows) + 1, d.role, d.provider, d.model, CleanParts(d.parts), CleanNative(d.native), d.interrupted)
  }

  ghost predicate Numbered(rows: seq<Row>) {
    forall i, j :: 0 <= i < j < |rows| ==> rows[i].seqNo < rows[j].seqNo
  }

  lemma {:induction false} LastSeqBounds(rows: seq<Row>, i: nat)
    requires i < |rows|
    ensures rows[i].seqNo <= LastSeq(rows)
  {
    if i < |rows| - 1 {
      LastSeqBounds(rows[..|rows| - 1], i);
    }
  }

  class Thread {
    var rows: seq<Row>

    constructor ()
      ensures rows == []
    {
      rows := [];
    }

    /** Stores the next message of the thread, unless the database fails. */
    method Append(d: Draft, works: bool) returns (stored: Option<Row>)
      requires Numbered(rows)
      modifies this
      ensures stored == if works then Some(Stored(old(rows), d)) else None
      ensures rows == if works then old(rows) + [Stored(old(rows), d)] else old(rows)
      ensures Numbered(rows)
    {
      if !works {
        return None;
      }
      var parts := [];
      for k := 0 to |d.parts|
        invariant parts == CleanParts(d.parts[..k])
      {
        ghost var next := d.parts[..k + 1];
        assert next[..k] == d.parts[..k] && next[k] == d.parts[k];
        parts := parts + [CleanPart(d.parts[k])];
      }
      assert d.parts[..|d.parts|] == d.parts;
      var row := Row(LastSeq(rows) + 1, d.role, d.provider, d.model, parts, CleanNative(d.native), d.interrupted);
      forall i | 0 <= i < |rows|
        ensures rows[i].seqNo < row.seqNo
      {
        LastSeqBounds(rows, i);
      }
      rows := rows + [row];
      return Some(row);
    }
  }

  /** The stored part is of the same kind and says the same, NUL characters left out. */
  predicate StoredAs(p: Part, q: Part) {
    match p
    case TextPart(text) => q == TextPart(WithoutNul(text))
    case ContextPart(text) => q == ContextPart(WithoutNul(text))
    case CallPart(id, name, input) => q == CallPart(WithoutNul(id), WithoutNul(name), WithoutNul(input))
    case ResultPart(id, name, content, isError) =>
      q == ResultPart(WithoutNul(id), WithoutNul(name), WithoutNul(content), isError)
    case ProposalPart(id) => q == ProposalPart(WithoutNul(id))
    case NoticePart(text) => q == NoticePart(WithoutNul(text))
  }

  /** A message reads back part by part, and unchanged when no NUL character is in it. */
  lemma StoredTells(rows: seq<Row>, d: Draft)
    ensures var row := Stored(rows, d);
            && row.role == d.role && row.provider == d.provider && row.model == d.model
               && row.interrupted == d.interrupted
            && (forall r <- rows :: r.seqNo < row.seqNo)
            && |row.parts| == |d.parts| && (forall i :: 0 <= i < |d.parts| ==> StoredAs(d.parts[i], row.parts[i]))
            && (row.native == d.native || (row.native.None? && '\0' in d.native.value))
  {
    forall i | 0 <= i < |d.parts|
      ensures StoredAs(d.parts[i], CleanParts(d.parts)[i])
    {
      MappedAt(CleanPart, d.parts, i);
    }
    forall r | r in rows
      ensures r.seqNo <= LastSeq(rows)
    {
      var i :| 0 <= i < |rows| && rows[i] == r;
      LastSeqBounds(rows, i);
    }
  }

  // ---- a round: one model call and what follows it ----

  datatype Stop = EndTurn | ToolUse | MaxTokens | Refusal

  datatype Outcome = Outcome(content: string, isError: bool, proposal: Option<string>)

  /** A tool call as the model wrote it, whose input need not be JSON, and what
      running the tool comes to. */
  datatype Request = Request(id: string, name: string, input: string, validJson: bool, outcome: Outcome)

  datatype Answer =
    | Failed(written: string)
    | Replied(text: string, stop: Stop, requests: seq<Request>, native: Option<string>)

  /** What the world does in one round: the model's answer, whether each write to
      the thread succeeds, and whether the turn is stopped. */
  datatype Round = Round(answer: Answer, notice: string, stores: bool, storesResults: bool, stopped: bool)

  datatype Setup = Setup(provider: string, model: string)

  function ProviderId(setup: Setup): string { setup.provider + "/" + setup.model }

  function Recorded(r: Request): ToolCall { ToolCall(r.id, r.name, if r.validJson then r.input else "{}") }

  function RecordedCalls(requests: seq<Request>): seq<ToolCall> { Mapped(Recorded, requests) }

  function ResultOf(r: Request): ToolResult { ToolResult(r.id, r.name, r.outcome.content, r.outcome.isError) }

  function ResultsOf(requests: seq<Request>): seq<ToolResult> { Mapped(ResultOf, requests) }

  function TextParts(text: string): seq<Part> { if |text| == 0 then [] else [TextPart(text)] }

  function CallPartOf(c: ToolCall): Part { CallPart(c.id, c.name, c.input) }

  function ReplyParts(text: string, requests: seq<Request>): seq<Part> {
    if |requests| == 0 then TextParts(text)
    else ReplyParts(text, requests[..|requests| - 1]) + [CallPartOf(Recorded(requests[|requests| - 1]))]
  }

  function OutcomeParts(r: Request): seq<Part> {
    var o := r.outcome;
    [ResultPart(r.id, r.name, o.content, o.isError)] + if o.proposal.Some? then [ProposalPart(o.proposal.value)] else []
  }

  function ToolParts(requests: seq<Request>): seq<Part> {
    if |requests| == 0 then [] else ToolParts(requests[..|requests| - 1]) + OutcomeParts(requests[|requests| - 1])
  }

  predicate CutOff(stop: Stop) { stop == MaxTokens || stop == Refusal }

  /** The turn goes on with another model call. */
  predicate GoesOn(r: Round) {
    && r.answer.Replied? && !CutOff(r.answer.stop) && |r.answer.requests| > 0
    && r.stores && r.storesResults && !r.stopped
  }

  function ReplyDraft(setup: Setup, parts: seq<Part>, native: Option<string>, interrupted: bool): Draft {
    Draft(Assistant, setup.provider, setup.model, parts, native, interrupted)
  }

  datatype Writes = Nothing | One(message: Draft) | Two(message: Draft, next: Draft)

  /** The messages a round stores. */
  function Written(setup: Setup, r: Round): Writes {
    match r.answer
    case Failed(written) =>
      if r.stores && !Blank(written) then One(ReplyDraft(setup, [TextPart(written)], None, true)) else Nothing
    case Replied(text, stop, requests, native) =>
      if !r.stores then Nothing
      else if CutOff(stop) then One(ReplyDraft(setup, TextParts(text) + [NoticePart(r.notice)], None, true))
      else if |requests| == 0 || !r.storesResults then One(AskingDraft(setup, text, requests, native))
      else Two(AskingDraft(setup, text, requests, native), ResultsDraft(requests))
  }

  function Store(rows: seq<Row>, w: Writes): seq<Row> {
    match w
    case Nothing => rows
    case One(d) => rows + [Stored(rows, d)]
    case Two(d, e) =>
      var longer := rows + [Stored(rows, d)];
      longer + [Stored(longer, e)]
  }

  /** What the model is sent next after a round that goes on. */
  function LiveMessages(setup: Setup, r: Round): seq<Message>
    requires GoesOn(r)
  {
    [Message(Assistant, r.answer.text, RecordedCalls(r.answer.requests), [], r.answer.native, ProviderId(setup)),
     Message(Tool, "", [], ResultsOf(r.answer.requests), None, "")]
  }

  /** The same messages, up to NUL characters and provider forms that hold one. */
  ghost predicate Agrees(live: seq<Message>, replayed: seq<Message>) {
    |live| == |replayed|
    && (|live| == 0
        || var last := |live| - 1;
           (replayed[last] == live[last] || replayed[last] == CleanMessage(live[last]))
             && Agrees(live[..last], replayed[..last]))
  }

  lemma AgreesOneMore(live: seq<Message>, replayed: seq<Message>, m: Message)
    requires Agrees(live, replayed)
    ensures Agrees(live + [m], replayed + [CleanMessage(m)])
  {
    var longer, again := live + [m], replayed + [CleanMessage(m)];
    assert longer[..|live|] == live && again[..|replayed|] == replayed;
  }

  lemma {:induction false} AgreesItself(live: seq<Message>)
    ensures Agrees(live, live)
  {
    if |live| > 0 {
      AgreesItself(live[..|live| - 1]);
    }
  }

  /** Agreement, message by message. */
  lemma {:induction false} AgreesEach(live: seq<Message>, replayed: seq<Message>)
    requires Agrees(live, replayed)
    ensures |live| == |replayed|
    ensures forall i :: 0 <= i < |live| ==> replayed[i] == live[i] || replayed[i] == CleanMessage(live[i])
  {
    if |live| > 0 {
      AgreesEach(live[..|live| - 1], replayed[..|replayed| - 1]);
    }
  }

  // ---- what the next replay makes of a round ----

  // Parts are read one by one.

  function TextOf(p: Part): string { if p.TextPart? then p.text else "" }

  function CallOf(p: Part): seq<ToolCall> { if p.CallPart? then [ToolCall(p.id, p.name, p.input)] else [] }

  function ResultIn(p: Part): seq<ToolResult> {
    if p.ResultPart? then [ToolResult(p.id, p.name, p.content, p.isError)] else []
  }

  lemma ReadLast(front: seq<Part>, p: Part)
    ensures ReplyText(front + [p]) == ReplyText(front) + TextOf(p)
    ensures Calls(front + [p]) == Calls(front) + CallOf(p)
    ensures Results(front + [p]) == Results(front) + ResultIn(p)
  {
    var parts := front + [p];
    assert parts[..|parts| - 1] == front && parts[|parts| - 1] == p;
  }

  lemma MappedLast<A, B>(f: A -> B, front: seq<A>, last: A)
    ensures Mapped(f, front + [last]) == Mapped(f, front) + [f(last)]
  {
    var whole := front + [last];
    assert whole[..|whole| - 1] == front && whole[|whole| - 1] == last;
  }

  lemma CleanOne(p: Part)
    ensures TextOf(CleanPart(p)) == WithoutNul(TextOf(p))
    ensures CallOf(CleanPart(p)) == CleanCalls(CallOf(p))
    ensures ResultIn(CleanPart(p)) == CleanResults(ResultIn(p))
  {
    if p.CallPart? {
      MappedLast(CleanCall, [], ToolCall(p.id, p.name, p.input));
      assert [] + CallOf(p) == CallOf(p);
    }
    if p.ResultPart? {
      MappedLast(CleanResult, [], ToolResult(p.id, p.name, p.content, p.isError));
      assert [] + ResultIn(p) == ResultIn(p);
    }
  }

  lemma {:induction false} CleanReads(parts: seq<Part>)
    ensures ReplyText(CleanParts(parts)) == WithoutNul(ReplyText(parts))
    ensures Calls(CleanParts(parts)) == CleanCalls(Calls(parts))
    ensures Results(CleanParts(parts)) == CleanResults(Results(parts))
  {
    if |parts| > 0 {
      var front, last := parts[..|parts| - 1], parts[|parts| - 1];
      CleanReads(front);
      MappedLast(CleanPart, front, last);
      assert parts == front + [last];
      ReadLast(CleanParts(front), CleanPart(last));
      ReadLast(front, last);
      CleanOne(last);
      WithoutNulJoins(ReplyText(front), TextOf(last));
      MappedJoins(CleanCall, Calls(front), CallOf(last));
      MappedJoins(CleanResult, Results(front), ResultIn(last));
    }
  }

  lemma {:induction false} ReplyPartsRead(text: string, requests: seq<Request>)
    ensures ReplyText(ReplyParts(text, requests)) == text
    ensures Calls(ReplyParts(text, requests)) == RecordedCalls(requests)
  {
    if |requests| == 0 {
      ReadLast([], TextPart(text));
      assert [] + [TextPart(text)] == [TextPart(text)];
    } else {
      var front, last := requests[..|requests| - 1], requests[|requests| - 1];
      ReplyPartsRead(text, front);
      ReadLast(ReplyParts(text, front), CallPartOf(Recorded(last)));
      MappedLast(Recorded, front, last);
      assert requests == front + [last];
    }
  }

  lemma ResultsOfOutcome(front: seq<Part>, r: Request)
    ensures Results(front + OutcomeParts(r)) == Results(front) + [ResultOf(r)]
  {
    var o := r.outcome;
    var result := ResultPart(r.id, r.name, o.content, o.isError);
    ReadLast(front, result);
    if o.proposal.Some? {
      ReadLast(front + [result], ProposalPart(o.proposal.value));
      assert front + OutcomeParts(r) == (front + [result]) + [ProposalPart(o.proposal.value)];
    }
  }

  lemma {:induction false} ToolPartsRead(requests: seq<Request>)
    ensures Results(ToolParts(requests)) == ResultsOf(requests)
  {
    if |requests| > 0 {
      var front, last := requests[..|requests| - 1], requests[|requests| - 1];
      ToolPartsRead(front);
      ResultsOfOutcome(ToolParts(front), last);
    }
  }

  /** The i-th request's result is stored whole, with its proposal right behind it. */
  lemma {:induction false} ToolPartsTell(requests: seq<Request>, i: nat) returns (at: nat)
    requires i < |requests|
    ensures var r, parts := requests[i], ToolParts(requests);
            && at < |parts| && parts[at] == ResultPart(r.id, r.name, r.outcome.content, r.outcome.isError)
            && |ReplayContents.Before(parts, at)| == i
            && (r.outcome.proposal.Some? ==>
                  at + 1 < |parts| && parts[at + 1] == ProposalPart(r.outcome.proposal.value))
            && (r.outcome.proposal.None? ==> at + 1 == |parts| || parts[at + 1].ResultPart?)
  {
    var front, last := requests[..|requests| - 1], requests[|requests| - 1];
    var parts := ToolParts(requests);
    assert parts == ToolParts(front) + OutcomeParts(last);
    if i < |front| {
      at := ToolPartsTell(front, i);
      ReplayContents.BeforeStays(ToolParts(front), OutcomeParts(last), at);
    } else {
      at := |ToolParts(front)|;
      ResultsCounted(front);
      ReplayContents.BeforeStays(ToolParts(front), OutcomeParts(last), at);
    }
  }

  lemma {:induction false} ResultsCounted(requests: seq<Request>)
    ensures |ReplayContents.Before(ToolParts(requests), |ToolParts(requests)|)| == |requests|
  {
    ToolPartsRead(requests);
    assert ToolParts(requests)[..|ToolParts(requests)|] == ToolParts(requests);
  }

  function TextOnly(text: string): seq<Message> {
    if |text| == 0 then [] else [Message(Assistant, text, [], [], None, "")]
  }

  /** A single stored reply: its calls are forgotten, since nothing answers them. */
  lemma OneReplyReplays(row: Row)
    requires row.role == Assistant
    ensures Replay([row]) ==
            if row.interrupted || |Calls(row.parts)| > 0 then TextOnly(ReplyText(row.parts))
            else if |ReplyText(row.parts)| == 0 then []
            else [Message(Assistant, ReplyText(row.parts), [], [], row.native, row.provider + "/" + row.model)]
  {
    var entries := DecodeAll([row]);
    DecodeAt([row], 0);
    assert ReplayUpTo(entries, 1) == ReplayUpTo(entries, 0) + Contribution(entries, 0);
  }

  /** A stored reply with the results of its calls. */
  lemma AnsweredReplyReplays(row: Row, results: Row)
    requires row.role == Assistant && !row.interrupted && |Calls(row.parts)| > 0
    requires results.role == Tool && Answers(Results(results.parts), Calls(row.parts))
    ensures Replay([row, results]) ==
            [Message(Assistant, ReplyText(row.parts), Calls(row.parts), [], row.native, row.provider + "/" + row.model),
             Message(Tool, "", [], Results(results.parts), None, "")]
  {
    var entries := DecodeAll([row, results]);
    DecodeAt([row, results], 0);
    DecodeAt([row, results], 1);
    assert KeepsCalls(entries, 0);
    assert ReplayUpTo(entries, 2) == ReplayUpTo(entries, 1) + Contribution(entries, 1);
    assert ReplayUpTo(entries, 1) == ReplayUpTo(entries, 0) + Contribution(entries, 0);
  }

  /** What a later turn remembers of a round. */
  function Remembered(setup: Setup, r: Round): seq<Message> {
    match r.answer
    case Failed(written) => if r.stores && !Blank(written) then TextOnly(WithoutNul(written)) else []
    case Replied(text, stop, requests, native) =>
      if !r.stores then []
      else if CutOff(stop) || (|requests| > 0 && !r.storesResults) then TextOnly(WithoutNul(text))
      else if |requests| == 0 then
        if |WithoutNul(text)| == 0 then []
        else [CleanMessage(Message(Assistant, text, [], [], native, ProviderId(setup)))]
      else
        [CleanMessage(Message(Assistant, text, RecordedCalls(requests), [], native, ProviderId(setup))),
         CleanMessage(Message(Tool, "", [], ResultsOf(requests), None, ""))]
  }

  /** Every recorded call has its result, also after both were stored. */
  lemma ResultsAnswer(requests: seq<Request>)
    ensures Answers(CleanResults(ResultsOf(requests)), CleanCalls(RecordedCalls(requests)))
  {
    var results, calls := CleanResults(ResultsOf(requests)), CleanCalls(RecordedCalls(requests));
    forall c | c in calls
      ensures exists r <- results :: r.id == c.id
    {
      var i :| 0 <= i < |calls| && calls[i] == c;
      MappedAt(CleanCall, RecordedCalls(requests), i);
      MappedAt(Recorded, requests, i);
      MappedAt(CleanResult, ResultsOf(requests), i);
      MappedAt(ResultOf, requests, i);
      assert results[i] in results && results[i].id == c.id;
    }
  }

  lemma ReplyReplays(rows: seq<Row>, d: Draft)
    requires d.role == Assistant && (d.interrupted || |Calls(d.parts)| > 0)
    ensures Replay(rows + [Stored(rows, d)]) == Replay(rows) + TextOnly(WithoutNul(ReplyText(d.parts)))
  {
    CleanReads(d.parts);
    ReplayDistributes(rows, [Stored(rows, d)]);
    OneReplyReplays(Stored(rows, d));
  }

  lemma FinalReplyReplays(setup: Setup, rows: seq<Row>, text: string, native: Option<string>)
    ensures Replay(rows + [Stored(rows, AskingDraft(setup, text, [], native))]) ==
            Replay(rows) + if |WithoutNul(text)| == 0 then []
                           else [CleanMessage(Message(Assistant, text, [], [], native, ProviderId(setup)))]
  {
    var d := AskingDraft(setup, text, [], native);
    ReplyPartsRead(text, []);
    CleanReads(d.parts);
    ReplayDistributes(rows, [Stored(rows, d)]);
    OneReplyReplays(Stored(rows, d));
  }

  function AskingDraft(setup: Setup, text: string, requests: seq<Request>, native: Option<string>): Draft {
    ReplyDraft(setup, ReplyParts(text, requests), native, false)
  }

  function ResultsDraft(requests: seq<Request>): Draft {
    Draft(Tool, "", "", ToolParts(requests), None, false)
  }

  lemma AskingReads(setup: Setup, rows: seq<Row>, text: string, requests: seq<Request>, native: Option<string>)
    ensures var parts := Stored(rows, AskingDraft(setup, text, requests, native)).parts;
            ReplyText(parts) == WithoutNul(text) && Calls(parts) == CleanCalls(RecordedCalls(requests))
  {
    ReplyPartsRead(text, requests);
    CleanReads(ReplyParts(text, requests));
  }

  lemma ResultsRead(rows: seq<Row>, requests: seq<Request>)
    ensures Results(Stored(rows, ResultsDraft(requests)).parts) == CleanResults(ResultsOf(requests))
  {
    ToolPartsRead(requests);
    CleanReads(ToolParts(requests));
  }

  lemma PairReplays(rows: seq<Row>, row: Row, results: Row)
    requires row.role == Assistant && !row.interrupted && |Calls(row.parts)| > 0
    requires results.role == Tool && Answers(Results(results.parts), Calls(row.parts))
    ensures Replay(rows + [row] + [results]) == Replay(rows) +
            [Message(Assistant, ReplyText(row.parts), Calls(row.parts), [], row.native, row.provider + "/" + row.model),
             Message(Tool, "", [], Results(results.parts), None, "")]
  {
    ReplayDistributes(rows, [row, results]);
    AnsweredReplyReplays(row, results);
    assert rows + [row] + [results] == rows + [row, results];
  }

  lemma CleanLive(text: string, calls: seq<ToolCall>, results: seq<ToolResult>, native: Option<string>,
                  nativeFor: string)
    ensures CleanMessage(Message(Assistant, text, calls, [], native, nativeFor)) ==
            Message(Assistant, WithoutNul(text), CleanCalls(calls), [], CleanNative(native), nativeFor)
    ensures CleanMessage(Message(Tool, "", [], results, None, "")) ==
            Message(Tool, "", [], CleanResults(results), None, "")
  {
    assert CleanCalls([]) == [] && CleanResults([]) == [];
  }

  lemma AnsweredReplays(
    setup: Setup, rows: seq<Row>, text: string, requests: seq<Request>, native: Option<string>, asked: Row, answer: Row)
    requires |requests| > 0
    requires asked == Stored(rows, AskingDraft(setup, text, requests, native))
    requires answer == Stored(rows + [asked], ResultsDraft(requests))
    ensures Replay(rows + [asked] + [answer]) ==
            Replay(rows) + [CleanMessage(Message(Assistant, text, RecordedCalls(requests), [], native,
                                                 ProviderId(setup))),
                            CleanMessage(Message(Tool, "", [], ResultsOf(requests), None, ""))]
  {
    AskingReads(setup, rows, text, requests, native);
    ResultsRead(rows + [asked], requests);
    ResultsAnswer(requests);
    CleanLive(text, RecordedCalls(requests), ResultsOf(requests), native, ProviderId(setup));
    PairReplays(rows, asked, answer);
  }

  lemma TextReads(text: string, notice: string)
    ensures ReplyText([TextPart(text)]) == text
    ensures ReplyText(TextParts(text) + [NoticePart(notice)]) == text
  {
    ReadLast([], TextPart(text));
    assert [] + [TextPart(text)] == [TextPart(text)];
    ReadLast(TextParts(text), NoticePart(notice));
  }

  lemma AskedRoundReplays(setup: Setup, rows: seq<Row>, r: Round)
    requires r.answer.Replied? && !CutOff(r.answer.stop) && r.stores && |r.answer.requests| > 0
    ensures Replay(Store(rows, Written(setup, r))) == Replay(rows) + Remembered(setup, r)
  {
    var text, requests, native := r.answer.text, r.answer.requests, r.answer.native;
    var d := AskingDraft(setup, text, requests, native);
    if r.storesResults {
      var asked := Stored(rows, d);
      AnsweredReplays(setup, rows, text, requests, native, asked, Stored(rows + [asked], ResultsDraft(requests)));
    } else {
      ReplyPartsRead(text, requests);
      ReplyReplays(rows, d);
    }
  }

  /** After any round, finished or cut off between two writes, replay continues
      the conversation with exactly what is remembered of it. */
  lemma RoundReplays(setup: Setup, rows: seq<Row>, r: Round)
    ensures Replay(Store(rows, Written(setup, r))) == Replay(rows) + Remembered(setup, r)
  {
    var written := Written(setup, r);
    if written.Nothing? {
      Regroup(Replay(rows), [], []);
    } else if r.answer.Failed? {
      TextReads(r.answer.written, "");
      ReplyReplays(rows, written.message);
    } else if CutOff(r.answer.stop) {
      TextReads(r.answer.text, r.notice);
      ReplyReplays(rows, written.message);
    } else if |r.answer.requests| == 0 {
      assert r.answer.requests == [];
      FinalReplyReplays(setup, rows, r.answer.text, r.answer.native);
    } else {
      AskedRoundReplays(setup, rows, r);
    }
  }

  lemma AgreesGrows(setup: Setup, live: seq<Message>, replayed: seq<Message>, r: Round)
    requires Agrees(live, replayed) && GoesOn(r)
    ensures Agrees(live + LiveMessages(setup, r), replayed + Remembered(setup, r))
  {
    var more := LiveMessages(setup, r);
    AgreesOneMore(live, replayed, more[0]);
    AgreesOneMore(live + [more[0]], replayed + [CleanMessage(more[0])], more[1]);
    assert live + more == (live + [more[0]]) + [more[1]];
    assert replayed + Remembered(setup, r) == (replayed + [CleanMessage(more[0])]) + [CleanMessage(more[1])];
  }

  // ---- the loop ----

  method RecordReply(text: string, requests: seq<Request>) returns (parts: seq<Part>, recorded: seq<ToolCall>)
    ensures parts == ReplyParts(text, requests) && recorded == RecordedCalls(requests)
  {
    parts := [];
    if text != "" {
      parts := [TextPart(text)];
    }
    recorded := [];
    for k := 0 to |requests|
      invariant parts == ReplyParts(text, requests[..k]) && recorded == RecordedCalls(requests[..k])
    {
      ghost var next := requests[..k + 1];
      assert next[..k] == requests[..k] && next[k] == requests[k];
      var call := ToolCall(requests[k].id, requests[k].name, requests[k].input);
      if !requests[k].validJson {
        call := call.(input := "{}");
      }
      recorded := recorded + [call];
      parts := parts + [CallPart(call.id, call.name, call.input)];
    }
    assert requests[..|requests|] == requests;
  }

  method RunTools(requests: seq<Request>) returns (parts: seq<Part>, results: seq<ToolResult>)
    ensures parts == ToolParts(requests) && results == ResultsOf(requests)
  {
    parts, results := [], [];
    for k := 0 to |requests|
      invariant parts == ToolParts(requests[..k]) && results == ResultsOf(requests[..k])
    {
      ghost var next := requests[..k + 1];
      assert next[..k] == requests[..k] && next[k] == requests[k];
      var outcome := requests[k].outcome;
      ghost var before := parts;
      parts := parts + [ResultPart(requests[k].id, requests[k].name, outcome.content, outcome.isError)];
      results := results + [ToolResult(requests[k].id, requests[k].name, outcome.content, outcome.isError)];
      if outcome.proposal.Some? {
        parts := parts + [ProposalPart(outcome.proposal.value)];
      }
      assert parts == before + OutcomeParts(requests[k]);
    }
    assert requests[..|requests|] == requests;
  }

  method RunRound(thread: Thread, setup: Setup, r: Round, conversation: seq<Message>)
    returns (longer: seq<Message>, goesOn: bool)
    requires Numbered(thread.rows)
    modifies thread
    ensures Numbered(thread.rows)
    ensures thread.rows == Store(old(thread.rows), Written(setup, r))
    ensures goesOn == GoesOn(r)
    ensures goesOn ==> longer == conversation + LiveMessages(setup, r)
  {
    longer, goesOn := conversation, false;
    ghost var rows := thread.rows;
    match r.answer {
      case Failed(written) =>
        TrimSpaceBlank(written);
        if TrimSpace(written) != "" {
          var _ := thread.Append(ReplyDraft(setup, [TextPart(written)], None, true), r.stores);
        }
      case Replied(text, stop, requests, native) =>
        if stop == MaxTokens || stop == Refusal {
          var parts := [];
          if text != "" {
            parts := [TextPart(text)];
          }
          parts := parts + [NoticePart(r.notice)];
          var _ := thread.Append(ReplyDraft(setup, parts, None, true), r.stores);
          return;
        }
        longer, goesOn := RunReply(thread, setup, r, conversation);
    }
  }

  method RunReply(thread: Thread, setup: Setup, r: Round, conversation: seq<Message>)
    returns (longer: seq<Message>, goesOn: bool)
    requires Numbered(thread.rows) && r.answer.Replied? && !CutOff(r.answer.stop)
    modifies thread
    ensures Numbered(thread.rows)
    ensures thread.rows == Store(old(thread.rows), Written(setup, r))
    ensures goesOn == GoesOn(r)
    ensures goesOn ==> longer == conversation + LiveMessages(setup, r)
  {
    hide Numbered, Stored, RecordedCalls, ResultsOf;
    longer, goesOn := conversation, false;
    var requests := r.answer.requests;
    ghost var rows := thread.rows;
    var parts, recorded := RecordReply(r.answer.text, requests);
    var asking := ReplyDraft(setup, parts, r.answer.native, false);
    var stored := thread.Append(asking, r.stores);
    if stored.None? {
      return;
    }
    longer := conversation + [Message(Assistant, r.answer.text, recorded, [], r.answer.native, ProviderId(setup))];
    if |requests| == 0 {
      return;
    }
    var toolParts, results := RunTools(requests);
    var answer := Draft(Tool, "", "", toolParts, None, false);
    stored := thread.Append(answer, r.storesResults);
    if stored.None? {
      return;
    }
    longer := longer + [Message(Tool, "", [], results, None, "")];
    goesOn := !r.stopped;
  }

  // ---- the whole turn ----

  function UserDraft(contextNote: string, text: string): Draft {
    Draft(User, "", "", [ContextPart(contextNote), TextPart(text)], None, false)
  }

  function NoticeDraft(setup: Setup, notice: string): Draft {
    ReplyDraft(setup, [NoticePart(notice)], None, true)
  }

  /** The thread after the first n rounds of a turn. */
  function RowsAfter(setup: Setup, start: seq<Row>, rounds: seq<Round>, n: nat): seq<Row>
    requires n <= |rounds|
  {
    if n == 0 then start
    else
      var rows := RowsAfter(setup, start, rounds, n - 1);
      Store(rows, Written(setup, rounds[n - 1]))
  }

  function RememberedOf(setup: Setup, rounds: seq<Round>, n: nat): seq<Message>
    requires n <= |rounds|
  {
    if n == 0 then [] else RememberedOf(setup, rounds, n - 1) + Remembered(setup, rounds[n - 1])
  }

  lemma OneRoundMore(setup: Setup, rows: seq<Row>, r: Round, before: seq<Message>, remembered: seq<Message>)
    requires Replay(rows) == before + remembered
    ensures Replay(Store(rows, Written(setup, r))) == before + (remembered + Remembered(setup, r))
  {
    hide Written, Store, Remembered, Replay;
    RoundReplays(setup, rows, r);
    Regroup(before, remembered, Remembered(setup, r));
  }

  /** A later turn starts from the earlier conversation, the user's message and
      what is remembered of each round, nothing else. */
  lemma {:induction false} TurnReplays(setup: Setup, start: seq<Row>, rounds: seq<Round>, n: nat)
    requires n <= |rounds|
    ensures Replay(RowsAfter(setup, start, rounds, n)) == Replay(start) + RememberedOf(setup, rounds, n)
  {
    hide Written, Store, Remembered, Replay, Stored;
    if n == 0 {
      Regroup(Replay(start), [], []);
    } else {
      TurnReplays(setup, start, rounds, n - 1);
      var rows, remembered := RowsAfter(setup, start, rounds, n - 1), RememberedOf(setup, rounds, n - 1);
      OneRoundMore(setup, rows, rounds[n - 1], Replay(start), remembered);
    }
  }

  /** The closing notice of a turn that ran out of steps is for the user alone. */
  lemma NoticeIsForgotten(setup: Setup, rows: seq<Row>, notice: string)
    ensures Replay(rows + [Stored(rows, NoticeDraft(setup, notice))]) == Replay(rows)
  {
    TextReads("", notice);
    assert TextParts("") + [NoticePart(notice)] == [NoticePart(notice)];
    ReplyReplays(rows, NoticeDraft(setup, notice));
    assert Replay(rows) + [] == Replay(rows);
  }

  /** What was sent in the k-th model call agrees with replaying the thread as it was then. */
  ghost predicate FaithfulAt(messages: seq<Message>, setup: Setup, start: seq<Row>, rounds: seq<Round>, k: nat) {
    k <= |rounds| && Agrees(messages, Replay(RowsAfter(setup, start, rounds, k)))
  }

  ghost predicate Faithful(sent: seq<seq<Message>>, setup: Setup, start: seq<Row>, rounds: seq<Round>) {
    forall k :: 0 <= k < |sent| ==> FaithfulAt(sent[k], setup, start, rounds, k)
  }

  lemma FaithfulGrows(sent: seq<seq<Message>>, setup: Setup, start: seq<Row>, rounds: seq<Round>, next: seq<Message>)
    requires Faithful(sent, setup, start, rounds) && FaithfulAt(next, setup, start, rounds, |sent|)
    ensures Faithful(sent + [next], setup, start, rounds)
  {
  }

  /** The first n rounds all go on. */
  ghost predicate AllGoOn(rounds: seq<Round>, n: nat)
    requires n <= |rounds|
  {
    n == 0 || (AllGoOn(rounds, n - 1) && GoesOn(rounds[n - 1]))
  }

  /** How far a turn got: the messages of every model call, and the thread. */
  ghost predicate TurnSoFar(setup: Setup, start: seq<Row>, rounds: seq<Round>, sent: seq<seq<Message>>,
                            rows: seq<Row>)
  {
    && |sent| <= |rounds| && rows == RowsAfter(setup, start, rounds, |sent|)
    && Faithful(sent, setup, start, rounds)
  }

  /** A turn is over after n rounds: the last one does not go on, or it is the
      last one allowed. */
  ghost predicate EndsAfter(rounds: seq<Round>, n: nat, outOfSteps: bool) {
    && 0 < n <= |rounds| && AllGoOn(rounds, n - 1)
    && (if outOfSteps then n == MAX_AGENT_STEPS && GoesOn(rounds[n - 1]) else !GoesOn(rounds[n - 1]))
  }

  /** One more round keeps the live conversation and the replay in step. */
  lemma StepsAgree(setup: Setup, start: seq<Row>, rounds: seq<Round>, n: nat, live: seq<Message>)
    requires n < |rounds| && Agrees(live, Replay(RowsAfter(setup, start, rounds, n))) && GoesOn(rounds[n])
    ensures Agrees(live + LiveMessages(setup, rounds[n]), Replay(RowsAfter(setup, start, rounds, n + 1)))
  {
    var rows := RowsAfter(setup, start, rounds, n);
    AgreesGrows(setup, live, Replay(rows), rounds[n]);
    RoundReplays(setup, rows, rounds[n]);
  }

  /** One round of the loop. */
  method RunStep(
    thread: Thread, setup: Setup, ghost start: seq<Row>, rounds: seq<Round>, sent: seq<seq<Message>>,
    conversation: seq<Message>)
    returns (longer: seq<Message>, goesOn: bool)
    requires Numbered(thread.rows) && |sent| < |rounds| && TurnSoFar(setup, start, rounds, sent, thread.rows)
    requires Agrees(conversation, Replay(thread.rows))
    modifies thread
    ensures Numbered(thread.rows) && TurnSoFar(setup, start, rounds, sent + [conversation], thread.rows)
    ensures goesOn == GoesOn(rounds[|sent|])
    ensures goesOn ==> Agrees(longer, Replay(thread.rows))
    ensures goesOn ==> FollowedBy(setup, rounds[|sent|], conversation, longer)
  {
    hide Written, Store, Remembered, LiveMessages, GoesOn, Agrees, Replay, Numbered, FollowedBy;
    FaithfulGrows(sent, setup, start, rounds, conversation);
    longer, goesOn := RunRound(thread, setup, rounds[|sent|], conversation);
    if goesOn {
      LiveFollows(setup, rounds[|sent|], conversation);
      StepsAgree(setup, start, rounds, |sent|, conversation);
    }
  }

  /** The loop of a turn, from the user's message to its last round. */
  method RunRounds(thread: Thread, setup: Setup, ghost start: seq<Row>, rounds: seq<Round>, first: seq<Message>)
    returns (sent: seq<seq<Message>>, outOfSteps: bool)
    requires |rounds| == MAX_AGENT_STEPS && Numbered(thread.rows) && thread.rows == start
             && Agrees(first, Replay(start))
    modifies thread
    ensures Numbered(thread.rows) && TurnSoFar(setup, start, rounds, sent, thread.rows)
    ensures EndsAfter(rounds, |sent|, outOfSteps)
    ensures sent[0] == first && Chained(setup, rounds, sent)
  {
    hide Written, Store, GoesOn, Agrees, Replay, Numbered, FollowedBy;
    var conversation := first;
    sent, outOfSteps := [], false;
    for step := 0 to MAX_AGENT_STEPS
      invariant |sent| == step && Numbered(thread.rows)
      invariant TurnSoFar(setup, start, rounds, sent, thread.rows)
      invariant AllGoOn(rounds, step)
      invariant Agrees(conversation, Replay(thread.rows))
      invariant Chained(setup, rounds, sent)
      invariant if step == 0 then conversation == first
                else sent[0] == first && FollowedBy(setup, rounds[step - 1], sent[step - 1], conversation)
    {
      var longer, goesOn := RunStep(thread, setup, start, rounds, sent, conversation);
      sent := sent + [conversation];
      conversation := longer;
      if !goesOn {
        return;
      }
    }
    outOfSteps := true;
  }

  /** The message as it reads after being stored: NUL characters are gone, and so is a
      provider's form that holds one. */
  ghost predicate ReadsBack(m: Message, q: Message) {
    && q.role == m.role && q.text == WithoutNul(m.text) && q.nativeFor == m.nativeFor
    && q.native == (if m.native.Some? && '\0' in m.native.value then None else m.native)
    && |q.calls| == |m.calls| && |q.results| == |m.results|
    && (forall i :: 0 <= i < |m.calls| ==>
          var c := m.calls[i]; q.calls[i] == ToolCall(WithoutNul(c.id), WithoutNul(c.name), WithoutNul(c.input)))
    && (forall i :: 0 <= i < |m.results| ==>
          var r := m.results[i];
          q.results[i] == ToolResult(WithoutNul(r.id), WithoutNul(r.name), WithoutNul(r.content), r.isError))
  }

  lemma CleanReadsBack(m: Message)
    ensures ReadsBack(m, CleanMessage(m))
  {
    forall i | 0 <= i < |m.calls|
      ensures CleanCalls(m.calls)[i] == CleanCall(m.calls[i])
    {
      MappedAt(CleanCall, m.calls, i);
    }
    forall i | 0 <= i < |m.results|
      ensures CleanResults(m.results)[i] == CleanResult(m.results[i])
    {
      MappedAt(CleanResult, m.results, i);
    }
  }

  /** Message by message, what was sent is what replay gives, or it was stored since. */
  ghost predicate SameMessages(live: seq<Message>, replayed: seq<Message>) {
    |live| == |replayed| && forall i :: 0 <= i < |live| ==> replayed[i] == live[i] || ReadsBack(live[i], replayed[i])
  }

  lemma FaithfulEach(setup: Setup, start: seq<Row>, rounds: seq<Round>, sent: seq<seq<Message>>)
    requires |sent| <= |rounds| && Faithful(sent, setup, start, rounds)
    ensures forall k :: 0 <= k < |sent| ==> SameMessages(sent[k], Replay(RowsAfter(setup, start, rounds, k)))
  {
    hide Agrees, Replay, RowsAfter;
    forall k | 0 <= k < |sent|
      ensures SameMessages(sent[k], Replay(RowsAfter(setup, start, rounds, k)))
    {
      assert FaithfulAt(sent[k], setup, start, rounds, k);
      EachReadsBack(sent[k], Replay(RowsAfter(setup, start, rounds, k)));
    }
  }

  lemma EachReadsBack(live: seq<Message>, replayed: seq<Message>)
    requires Agrees(live, replayed)
    ensures SameMessages(live, replayed)
  {
    AgreesEach(live, replayed);
    hide Agrees, ReadsBack, CleanMessage;
    forall i | 0 <= i < |live| && replayed[i] != live[i]
      ensures ReadsBack(live[i], replayed[i])
    {
      CleanReadsBack(live[i]);
    }
  }

  /** The first call: the thread so far, and the user's message with the context put
      before it. */
  ghost predicate OpensWith(history: seq<Row>, contextNote: string, text: string, first: seq<Message>) {
    var parts := [ContextPart(WithoutNul(contextNote)), TextPart(WithoutNul(text))];
    if ReplayContents.Silent(parts) then first == Replay(history)
    else
      && |first| > 0 && first[..|first| - 1] == Replay(history)
      && var m := first[|first| - 1];
         && m == Message(User, m.text, [], [], None, "") && ReplayContents.Spelled(parts, m.text)
         && (WithoutNul(text) != "" ==> ReplayContents.EndsIn(m.text, WithoutNul(text)))
  }

  lemma UserMessageOpens(history: seq<Row>, contextNote: string, text: string)
    ensures OpensWith(history, contextNote, text, Replay(history + [Stored(history, UserDraft(contextNote, text))]))
  {
    var d := UserDraft(contextNote, text);
    var row := Stored(history, d);
    var parts := [ContextPart(WithoutNul(contextNote)), TextPart(WithoutNul(text))];
    StoredTells(history, d);
    assert StoredAs(d.parts[0], row.parts[0]) && StoredAs(d.parts[1], row.parts[1]);
    assert row.parts == parts;
    hide Replay, Stored, WithoutNul;
    ReplayContents.UserRowReplays(history, row);
    if WithoutNul(text) != "" {
      var first := Replay(history + [row]);
      assert [parts[0]] + [parts[1]] == parts && parts[1] in parts;
      ReplayContents.SpelledEnds([parts[0]], parts[1], first[|first| - 1].text);
    }
  }

  /** One call and the next: the reply as the model gave it, its calls with their
      arguments or an empty object, and the result of every call in order. */
  ghost predicate FollowedBy(setup: Setup, r: Round, before: seq<Message>, after: seq<Message>) {
    && r.answer.Replied? && |after| == |before| + 2 && after[..|before|] == before
    && var a, t, qs := after[|before|], after[|before| + 1], r.answer.requests;
       && a == Message(Assistant, r.answer.text, a.calls, [], r.answer.native, setup.provider + "/" + setup.model)
       && t == Message(Tool, "", [], t.results, None, "")
       && |a.calls| == |qs| && |t.results| == |qs|
       && forall i :: 0 <= i < |qs| ==>
            && a.calls[i] == ToolCall(qs[i].id, qs[i].name, if qs[i].validJson then qs[i].input else "{}")
            && t.results[i] == ToolResult(qs[i].id, qs[i].name, qs[i].outcome.content, qs[i].outcome.isError)
  }

  lemma LiveFollows(setup: Setup, r: Round, before: seq<Message>)
    requires GoesOn(r)
    ensures FollowedBy(setup, r, before, before + LiveMessages(setup, r))
  {
    var qs := r.answer.requests;
    forall i | 0 <= i < |qs|
      ensures RecordedCalls(qs)[i] == Recorded(qs[i]) && ResultsOf(qs)[i] == ResultOf(qs[i])
    {
      MappedAt(Recorded, qs, i);
      MappedAt(ResultOf, qs, i);
    }
  }

  /** Every call sends what the one before sent and what came of it. */
  ghost predicate Chained(setup: Setup, rounds: seq<Round>, sent: seq<seq<Message>>) {
    |sent| <= |rounds| && forall k :: 0 <= k < |sent| - 1 ==> FollowedBy(setup, rounds[k], sent[k], sent[k + 1])
  }

  /** One turn, driven by what the world does in each round. At every model call
      the live conversation is, message by message, what replaying the rows stored so
      far gives. The first call ends in the user's message, and each further one adds
      the reply and the results of its calls. */
  method Run(
    thread: Thread, setup: Setup, history: seq<Row>, contextNote: string, text: string, storesUser: bool,
    rounds: seq<Round>,
    notice: string, storesNotice: bool) returns (sent: seq<seq<Message>>)
    requires |rounds| == MAX_AGENT_STEPS && Numbered(thread.rows) && history == thread.rows
    modifies thread
    ensures Numbered(thread.rows)
    ensures !storesUser ==> sent == [] && thread.rows == history
    ensures storesUser ==>
              var start := history + [Stored(history, UserDraft(contextNote, text))];
              && 0 < |sent| <= MAX_AGENT_STEPS
              && var rows, outOfSteps := RowsAfter(setup, start, rounds, |sent|), GoesOn(rounds[|sent| - 1]);
              && TurnSoFar(setup, start, rounds, sent, rows) && EndsAfter(rounds, |sent|, outOfSteps)
              && OpensWith(history, contextNote, text, sent[0]) && Chained(setup, rounds, sent)
              && (forall k :: 0 <= k < |sent| ==> SameMessages(sent[k], Replay(RowsAfter(setup, start, rounds, k))))
              && thread.rows == if outOfSteps && storesNotice then rows + [Stored(rows, NoticeDraft(setup, notice))]
                 else rows
  {
    hide Written, Store, GoesOn, Agrees, SameMessages, Replay, Numbered, OpensWith, FollowedBy;
    UserMessageOpens(history, contextNote, text);
    sent := [];
    var stored := thread.Append(UserDraft(contextNote, text), storesUser);
    if stored.None? {
      return;
    }
    ghost var start := thread.rows;
    var conversation := ConversationFromMessages(history + [stored.value]);
    AgreesItself(conversation);
    var outOfSteps: bool;
    sent, outOfSteps := RunRounds(thread, setup, start, rounds, conversation);
    FaithfulEach(setup, start, rounds, sent);
    if outOfSteps {
      var _ := thread.Append(NoticeDraft(setup, notice), storesNotice);
    }
  }
}
