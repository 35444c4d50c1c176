/** What replay gives, part by part: which text, calls and results of the stored rows
    the model sees (backend/internal/assistant/agent.go, ConversationFromMessages). */
module ReplayContents {
  import opened Conversation
  import opened Wrappers

  // ---- reading the parts of a row, first to last ----

  /** What the user wrote, or what was put before it. */
  predicate Speaks(p: Part) {
    match p
    case TextPart(text) => text != ""
    case ContextPart(text) => text != ""
    case _ => false
  }

  ghost predicate Silent(parts: seq<Part>) {
    forall p <- parts :: !Speaks(p)
  }

  /** The text is that of the speaking parts in order, with a blank line between two. */
  ghost predicate Spelled(parts: seq<Part>, text: string) {
    if |parts| == 0 then text == ""
    else if !Speaks(parts[0]) then Spelled(parts[1..], text)
    else if Silent(parts[1..]) then text == parts[0].text
    else parts[0].text + "\n\n" <= text && Spelled(parts[1..], text[|parts[0].text| + 2..])
  }

  /** The text is that of the text parts in order, run together. */
  ghost predicate Told(parts: seq<Part>, text: string) {
    if |parts| == 0 then text == ""
    else if parts[0].TextPart? then parts[0].text <= text && Told(parts[1..], text[|parts[0].text|..])
    else Told(parts[1..], text)
  }

  /** The calls are those of the call parts in order. */
  ghost predicate Asked(parts: seq<Part>, calls: seq<ToolCall>) {
    if |parts| == 0 then calls == []
    else
      match parts[0]
      case CallPart(id, name, input) =>
        |calls| > 0 && calls[0] == ToolCall(id, name, input) && Asked(parts[1..], calls[1..])
      case _ => Asked(parts[1..], calls)
  }

  /** The results are those of the result parts in order. */
  ghost predicate Brought(parts: seq<Part>, results: seq<ToolResult>) {
    if |parts| == 0 then results == []
    else
      match parts[0]
      case ResultPart(id, name, content, isError) =>
        && |results| > 0 && results[0] == ToolResult(id, name, content, isError)
        && Brought(parts[1..], results[1..])
      case _ => Brought(parts[1..], results)
  }

  lemma {:induction false} UserTextsFrom(p: Part, parts: seq<Part>)
    ensures UserTexts([p] + parts) == (if Speaks(p) then [p.text] else []) + UserTexts(parts)
  {
    var all := [p] + parts;
    if |parts| == 0 {
      assert all == [p] && all[..0] == [];
    } else {
      var front := parts[..|parts| - 1];
      UserTextsFrom(p, front);
      assert all[..|all| - 1] == [p] + front && all[|all| - 1] == parts[|parts| - 1];
    }
  }

  lemma {:induction false} JoinFrom(text: string, texts: seq<string>)
    requires |texts| > 0
    ensures Join([text] + texts) == text + "\n\n" + Join(texts)
  {
    var all := [text] + texts;
    if |texts| == 1 {
      assert all[..|all| - 1] == [text] && all[1] == texts[0];
    } else {
      var front := texts[..|texts| - 1];
      JoinFrom(text, front);
      assert all[..|all| - 1] == [text] + front && all[|all| - 1] == texts[|texts| - 1];
    }
  }

  lemma {:induction false} UserTextsSpelled(parts: seq<Part>)
    ensures Spelled(parts, Join(UserTexts(parts)))
    ensures UserTexts(parts) == [] <==> Silent(parts)
  {
    if |parts| > 0 {
      var p, rest := parts[0], parts[1..];
      UserTextsSpelled(rest);
      UserTextsFrom(p, rest);
      assert parts == [p] + rest;
      assert Silent(parts) <==> !Speaks(p) && Silent(rest);
      if Speaks(p) && !Silent(rest) {
        JoinFrom(p.text, UserTexts(rest));
        var text := Join(UserTexts(parts));
        assert text[|p.text| + 2..] == Join(UserTexts(rest));
      } else if Speaks(p) {
        assert [p.text] + [] == [p.text];
      } else {
        assert [] + UserTexts(rest) == UserTexts(rest);
      }
    }
  }

  lemma {:induction false} TextFrom(p: Part, parts: seq<Part>)
    ensures ReplyText([p] + parts) == (if p.TextPart? then p.text else "") + ReplyText(parts)
  {
    var all := [p] + parts;
    if |parts| == 0 {
      assert all == [p] && all[..0] == [];
    } else {
      var front := parts[..|parts| - 1];
      TextFrom(p, front);
      assert all[..|all| - 1] == [p] + front && all[|all| - 1] == parts[|parts| - 1];
    }
  }

  lemma {:induction false} CallsFrom(p: Part, parts: seq<Part>)
    ensures Calls([p] + parts) == (if p.CallPart? then [ToolCall(p.id, p.name, p.input)] else []) + Calls(parts)
  {
    var all := [p] + parts;
    if |parts| == 0 {
      assert all == [p] && all[..0] == [];
    } else {
      var front := parts[..|parts| - 1];
      CallsFrom(p, front);
      assert all[..|all| - 1] == [p] + front && all[|all| - 1] == parts[|parts| - 1];
    }
  }

  lemma {:induction false} ResultsFrom(p: Part, parts: seq<Part>)
    ensures Results([p] + parts) ==
            (if p.ResultPart? then [ToolResult(p.id, p.name, p.content, p.isError)] else []) + Results(parts)
  {
    var all := [p] + parts;
    if |parts| == 0 {
      assert all == [p] && all[..0] == [];
    } else {
      var front := parts[..|parts| - 1];
      ResultsFrom(p, front);
      assert all[..|all| - 1] == [p] + front && all[|all| - 1] == parts[|parts| - 1];
    }
  }

  lemma {:induction false} PartsTell(parts: seq<Part>)
    ensures Told(parts, ReplyText(parts)) && Asked(parts, Calls(parts)) && Brought(parts, Results(parts))
  {
    if |parts| > 0 {
      var p, rest := parts[0], parts[1..];
      PartsTell(rest);
      TextFrom(p, rest);
      CallsFrom(p, rest);
      ResultsFrom(p, rest);
      assert parts == [p] + rest;
      hide ReplyText, Calls, Results;
      if p.TextPart? {
        assert ReplyText(parts)[|p.text|..] == ReplyText(rest);
      } else {
        assert "" + ReplyText(rest) == ReplyText(rest);
      }
      if p.CallPart? {
        assert Calls(parts)[1..] == Calls(rest);
      } else {
        assert [] + Calls(rest) == Calls(rest);
      }
      if p.ResultPart? {
        assert Results(parts)[1..] == Results(rest);
      } else {
        assert [] + Results(rest) == Results(rest);
      }
    }
  }

  /** The results among the first parts. */
  function Before(parts: seq<Part>, n: nat): seq<ToolResult>
    requires n <= |parts|
  {
    Results(parts[..n])
  }

  lemma BeforeStays(parts: seq<Part>, more: seq<Part>, n: nat)
    requires n <= |parts|
    ensures Before(parts + more, n) == Before(parts, n)
  {
    assert (parts + more)[..n] == parts[..n];
  }

  // ---- which parts count, seen from the rows beside it ----

  predicate HasCalls(row: Row) {
    exists p <- row.parts :: p.CallPart?
  }

  /** The assistant finished the row, asked for tools in it, and the very next row has
      a result for every one of its calls. */
  predicate Finished(rows: seq<Row>, i: int) {
    && 0 <= i < |rows| - 1 && rows[i].role == Assistant && !rows[i].interrupted && HasCalls(rows[i])
    && rows[i + 1].role == Tool
    && forall p <- rows[i].parts :: p.CallPart? ==> exists q <- rows[i + 1].parts :: q.ResultPart? && q.id == p.id
  }

  /** What the i-th row gives of the conversation. */
  ghost predicate Gives(rows: seq<Row>, i: nat, given: seq<Message>)
    requires i < |rows|
  {
    var row, m := rows[i], if |given| == 1 then given[0] else Message(OtherRole, "", [], [], None, "");
    match row.role
    case User =>
      if Silent(row.parts) then given == []
      else given == [m] && m == Message(User, m.text, [], [], None, "") && Spelled(row.parts, m.text)
    case Assistant =>
      if Finished(rows, i) then
        && given == [m] && m == Message(Assistant, m.text, m.calls, [], row.native, row.provider + "/" + row.model)
        && Told(row.parts, m.text) && Asked(row.parts, m.calls)
      else if Told(row.parts, "") then given == []
      else if row.interrupted || HasCalls(row) then
        given == [m] && m == Message(Assistant, m.text, [], [], None, "") && Told(row.parts, m.text)
      else
        && given == [m] && m == Message(Assistant, m.text, [], [], row.native, row.provider + "/" + row.model)
        && Told(row.parts, m.text)
    case Tool =>
      if Finished(rows, i - 1) then
        given == [m] && m == Message(Tool, "", [], m.results, None, "") && Brought(row.parts, m.results)
      else given == []
    case OtherRole => given == []
  }

  lemma {:induction false} ToldOnce(parts: seq<Part>, s: string, t: string)
    requires Told(parts, s) && Told(parts, t)
    ensures s == t
  {
    if |parts| > 0 {
      if parts[0].TextPart? {
        var n := |parts[0].text|;
        ToldOnce(parts[1..], s[n..], t[n..]);
        assert s == s[..n] + s[n..] && t == t[..n] + t[n..];
      } else {
        ToldOnce(parts[1..], s, t);
      }
    }
  }

  lemma {:induction false} CallsHold(parts: seq<Part>)
    ensures forall c :: c in Calls(parts) <==> exists p <- parts :: p.CallPart? && c == ToolCall(p.id, p.name, p.input)
    ensures forall r :: r in Results(parts) <==>
              exists p <- parts :: p.ResultPart? && r == ToolResult(p.id, p.name, p.content, p.isError)
  {
    if |parts| > 0 {
      var front, last := parts[..|parts| - 1], parts[|parts| - 1];
      CallsHold(front);
      assert parts == front + [last];
    }
  }

  lemma SomeCalls(parts: seq<Part>)
    ensures |Calls(parts)| > 0 <==> exists p <- parts :: p.CallPart?
  {
    CallsHold(parts);
    if |Calls(parts)| > 0 {
      assert Calls(parts)[0] in Calls(parts);
    }
    if p :| p in parts && p.CallPart? {
      assert ToolCall(p.id, p.name, p.input) in Calls(parts);
    }
  }

  lemma AnswersMean(results: seq<Part>, calls: seq<Part>)
    ensures Answers(Results(results), Calls(calls)) <==>
              forall p <- calls :: p.CallPart? ==> exists q <- results :: q.ResultPart? && q.id == p.id
  {
    CallsHold(results);
    CallsHold(calls);
    hide Results, Calls;
    if Answers(Results(results), Calls(calls)) {
      forall p | p in calls && p.CallPart?
        ensures exists q <- results :: q.ResultPart? && q.id == p.id
      {
        var c := ToolCall(p.id, p.name, p.input);
        assert c in Calls(calls);
        var r :| r in Results(results) && r.id == c.id;
      }
    }
    if forall p <- calls :: p.CallPart? ==> exists q <- results :: q.ResultPart? && q.id == p.id {
      forall c | c in Calls(calls)
        ensures exists r <- Results(results) :: r.id == c.id
      {
        var p :| p in calls && p.CallPart? && c == ToolCall(p.id, p.name, p.input);
        var q :| q in results && q.ResultPart? && q.id == p.id;
        assert ToolResult(q.id, q.name, q.content, q.isError) in Results(results);
      }
    }
  }

  lemma FinishedKeeps(rows: seq<Row>, i: int)
    ensures Finished(rows, i) <==> KeepsCalls(DecodeAll(rows), i)
  {
    if 0 <= i < |rows| - 1 {
      DecodeAt(rows, i);
      DecodeAt(rows, i + 1);
      SomeCalls(rows[i].parts);
      AnswersMean(rows[i + 1].parts, rows[i].parts);
      hide Calls, Results, Answers, Alone, Joined;
    }
  }

  lemma ReplyGives(rows: seq<Row>, i: nat)
    requires i < |rows| && rows[i].role == Assistant
    ensures Gives(rows, i, Contribution(DecodeAll(rows), i))
  {
    var row := rows[i];
    DecodeAt(rows, i);
    FinishedKeeps(rows, i);
    FinishedKeeps(rows, i - 1);
    PartsTell(row.parts);
    SomeCalls(row.parts);
    if Told(row.parts, "") {
      ToldOnce(row.parts, "", ReplyText(row.parts));
    }
    hide DecodeAll, KeepsCalls, UserTexts, Join, ReplyText, Calls, Results, Told, Asked, Brought, Spelled, Silent;
  }

  lemma RowGives(rows: seq<Row>, i: nat)
    requires i < |rows|
    ensures Gives(rows, i, Contribution(DecodeAll(rows), i))
  {
    var row := rows[i];
    if row.role == Assistant {
      ReplyGives(rows, i);
    } else {
      DecodeAt(rows, i);
      FinishedKeeps(rows, i);
      FinishedKeeps(rows, i - 1);
      UserTextsSpelled(row.parts);
      PartsTell(row.parts);
      hide DecodeAll, KeepsCalls, UserTexts, Join, ReplyText, Calls, Results, Told, Asked, Brought, Spelled, Silent;
    }
  }

  /** The messages that rows give, one row after the other. */
  function Flat(given: seq<seq<Message>>): seq<Message> {
    if |given| == 0 then [] else Flat(given[..|given| - 1]) + given[|given| - 1]
  }

  lemma {:induction false} FlatReplays(entries: seq<Entry>, given: seq<seq<Message>>, n: nat)
    requires n <= |entries| && |given| == |entries|
    requires forall i :: 0 <= i < |entries| ==> given[i] == Contribution(entries, i)
    ensures Flat(given[..n]) == ReplayUpTo(entries, n)
  {
    hide Contribution;
    if n > 0 {
      FlatReplays(entries, given, n - 1);
      assert given[..n][..n - 1] == given[..n - 1];
    }
  }

  /** Replay is what the rows give, in order: of a user row one message with all it says,
      of a reply its text, with its calls when they were answered, of tool results what
      the calls before them brought, and nothing else. */
  lemma ReplayGives(rows: seq<Row>) returns (given: seq<seq<Message>>)
    ensures |given| == |rows| && Replay(rows) == Flat(given)
    ensures forall i :: 0 <= i < |rows| ==> Gives(rows, i, given[i])
  {
    var entries := DecodeAll(rows);
    given := seq(|rows|, i requires 0 <= i < |rows| => Contribution(entries, i));
    FlatReplays(entries, given, |rows|);
    assert given[..|rows|] == given;
    forall i | 0 <= i < |rows|
      ensures Gives(rows, i, given[i])
    {
      RowGives(rows, i);
    }
  }

  // ---- a user's message ----

  ghost predicate EndsIn(text: string, end: string) {
    |end| <= |text| && text[|text| - |end|..] == end
  }

  /** The last part that speaks ends the message. */
  lemma {:induction false} SpelledEnds(parts: seq<Part>, p: Part, text: string)
    requires Speaks(p) && Spelled(parts + [p], text)
    ensures EndsIn(text, p.text)
  {
    var all := parts + [p];
    if |parts| == 0 {
      assert all == [p] && all[1..] == [];
    } else {
      assert all[1..] == parts[1..] + [p] && all[0] == parts[0];
      if Speaks(parts[0]) {
        assert p in all[1..];
        var rest := text[|parts[0].text| + 2..];
        SpelledEnds(parts[1..], p, rest);
        assert text[|text| - |p.text|..] == rest[|rest| - |p.text|..];
      } else {
        SpelledEnds(parts[1..], p, text);
      }
    }
  }

  /** A thread that ends with a user's row replays as what came before and that message. */
  lemma UserRowReplays(rows: seq<Row>, row: Row)
    requires row.role == User
    ensures var replayed := Replay(rows + [row]);
            if Silent(row.parts) then replayed == Replay(rows)
            else && |replayed| == |Replay(rows)| + 1 && replayed[..|replayed| - 1] == Replay(rows)
                 && var m := replayed[|replayed| - 1];
                    m == Message(User, m.text, [], [], None, "") && Spelled(row.parts, m.text)
  {
    ReplayDistributes(rows, [row]);
    RowGives([row], 0);
    var entries := DecodeAll([row]);
    assert ReplayUpTo(entries, 1) == ReplayUpTo(entries, 0) + Contribution(entries, 0);
    hide Replay, Contribution, Spelled, Silent;
  }
}
