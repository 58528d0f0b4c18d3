/** Chat transcripts: the history sanitiser and what it guarantees to providers. */
module Transcript {
  import opened Lists

  datatype Role = System | User | Assistant | Tool | Other(name: string)

  /** A chat message; `calls` are the ids of an assistant's tool calls, `callId` the call a tool answers. */
  datatype Message = Message(role: Role, content: string, calls: seq<string>, callId: string)

  predicate IsCall(m: Message) {
    m.role == Assistant && m.calls != []
  }

  predicate IsTool(m: Message) {
    m.role == Tool
  }

  predicate MayPrecedeCall(r: Role) {
    r == User || r == Tool
  }

  /** How many tool messages the list starts with. */
  function ToolRun(s: seq<Message>): (n: nat)
    ensures n <= |s| && (forall i :: 0 <= i < n ==> IsTool(s[i])) && (n < |s| ==> !IsTool(s[n]))
  {
    if s != [] && IsTool(s[0]) then 1 + ToolRun(s[1..]) else 0
  }

  predicate Answers(tools: seq<Message>, id: string) {
    exists t :: t in tools && t.callId == id
  }

  predicate Answered(call: Message, tools: seq<Message>) {
    forall id :: id in call.calls ==> Answers(tools, id)
  }

  /** Every tool message stands in a run behind a call, and every call is answered by the run behind it. */
  predicate Paired(s: seq<Message>) {
    if s == [] then true
    else if IsCall(s[0]) then
      var n := ToolRun(s[1..]);
      Answered(s[0], s[1..1 + n]) && Paired(s[1 + n..])
    else !IsTool(s[0]) && Paired(s[1..])
  }

  /** Every call follows a user or tool message; `prev` is the role in front of the list, if any. */
  predicate CallsFollow(prev: Role, s: seq<Message>)
    decreases |s|
  {
    s == [] || ((IsCall(s[0]) ==> MayPrecedeCall(prev)) && CallsFollow(s[0].role, s[1..]))
  }

  /** What strict providers accept as history: the system message stands in front of it. */
  predicate WellFormed(s: seq<Message>) {
    Paired(s) && CallsFollow(System, s) && forall i :: 0 <= i < |s| ==> s[i].role != System
  }

  /** A list is its first message, the tool messages behind it, and the rest. */
  lemma GroupOf(s: seq<Message>) returns (tools: seq<Message>, rest: seq<Message>)
    requires s != []
    ensures tools == s[1..1 + ToolRun(s[1..])] && rest == s[1 + ToolRun(s[1..])..]
    ensures s[1..] == tools + rest && s == [s[0]] + (tools + rest)
    ensures forall i :: 0 <= i < |tools| ==> IsTool(tools[i])
    ensures rest == [] || !IsTool(rest[0])
  {
    var n := ToolRun(s[1..]);
    tools, rest := s[1..1 + n], s[1 + n..];
    assert forall i :: 0 <= i < n ==> tools[i] == s[1..][i];
    assert rest != [] ==> rest[0] == s[1..][n];
  }

  /* ---- what the predicates mean, message by message ---- */

  /** The messages s[lo..hi) are all tool messages. */
  predicate ToolsBetween(s: seq<Message>, lo: int, hi: int)
    requires 0 <= lo && hi <= |s|
  {
    forall k :: lo <= k < hi ==> IsTool(s[k])
  }

  ghost predicate BehindCall(s: seq<Message>, i: int)
    requires 0 <= i < |s|
  {
    exists j :: 0 <= j < i && IsCall(s[j]) && ToolsBetween(s, j + 1, i)
  }

  ghost predicate AnsweredAt(s: seq<Message>, i: int, id: string)
    requires 0 <= i < |s|
  {
    exists k :: i < k < |s| && IsTool(s[k]) && s[k].callId == id && ToolsBetween(s, i + 1, k)
  }

  /** The same requirement by positions: no orphan tool message, no unanswered call. */
  ghost predicate PairedByPosition(s: seq<Message>) {
    && (forall i :: 0 <= i < |s| && IsTool(s[i]) ==> BehindCall(s, i))
    && (forall i, id :: 0 <= i < |s| && IsCall(s[i]) && id in s[i].calls ==> AnsweredAt(s, i, id))
  }

  lemma {:induction false} PairedMeans(s: seq<Message>)
    ensures Paired(s) <==> PairedByPosition(s)
  {
    if s != [] {
      if IsCall(s[0]) {
        var tools, rest := GroupOf(s);
        PairedMeans(rest);
        hide PairedByPosition, AnsweredAt, ToolRun;
        GroupByPosition(s, |tools|);
      } else if !IsTool(s[0]) {
        PairedMeans(s[1..]);
        hide Paired, Answered, BehindCall, AnsweredAt;
        RestByPosition(s, 0);
      }
    }
  }

  lemma {:induction false} GroupByPosition(s: seq<Message>, n: nat)
    requires s != [] && IsCall(s[0]) && n == ToolRun(s[1..])
    ensures PairedByPosition(s) <==> Answered(s[0], s[1..1 + n]) && PairedByPosition(s[1 + n..])
  {
    assert forall i :: 1 <= i < 1 + n ==> s[i] == s[1..][i - 1];
    assert 1 + n < |s| ==> s[1 + n] == s[1..][n];
    if Answered(s[0], s[1..1 + n]) {
      RestByPosition(s, n);
    } else {
      var id :| id in s[0].calls && !Answers(s[1..1 + n], id);
      assert !AnsweredAt(s, 0, id);
    }
  }

  /** With a good first group, the positions of the rest decide. */
  lemma RestByPosition(s: seq<Message>, n: nat)
    requires 1 + n <= |s| && ToolsBetween(s, 1, 1 + n) && (1 + n < |s| && IsCall(s[0]) ==> !IsTool(s[1 + n]))
    requires (IsCall(s[0]) && Answered(s[0], s[1..1 + n])) || (!IsCall(s[0]) && !IsTool(s[0]) && n == 0)
    ensures PairedByPosition(s) <==> PairedByPosition(s[1 + n..])
  {
    var rest, d := s[1 + n..], 1 + n;
    forall id | id in s[0].calls && IsCall(s[0])
      ensures AnsweredAt(s, 0, id)
    {
      var t :| t in s[1..1 + n] && t.callId == id;
      var k :| 0 <= k < n && s[1..1 + n][k] == t;
      assert s[1 + k] == t;
    }
    forall i | 0 < i <= n
      ensures BehindCall(s, i)
    {
      assert ToolsBetween(s, 0 + 1, i);
    }
    forall i | 0 <= i < |rest|
      ensures IsTool(rest[i]) ==> (BehindCall(s, i + d) <==> BehindCall(rest, i))
      ensures forall id :: AnsweredAt(s, i + d, id) <==> AnsweredAt(rest, i, id)
    {
      forall id {
        RestAnsweredAt(s, d, i, id);
      }
    }
    assert forall i :: d <= i < |s| ==> s[i] == rest[i - d];
    if PairedByPosition(rest) {
      forall i | 0 <= i < |s| && IsTool(s[i])
        ensures BehindCall(s, i)
      {
        if i >= d { assert BehindCall(rest, i - d); }
      }
      forall i, id | 0 <= i < |s| && IsCall(s[i]) && id in s[i].calls
        ensures AnsweredAt(s, i, id)
      {
        if i >= d { assert AnsweredAt(rest, i - d, id); }
      }
    }
    if PairedByPosition(s) {
      assert forall i :: 0 <= i < |rest| ==> rest[i] == s[i + d];
    }
  }

  lemma RestAnsweredAt(s: seq<Message>, d: nat, i: nat, id: string)
    requires d + i < |s|
    ensures AnsweredAt(s, i + d, id) <==> AnsweredAt(s[d..], i, id)
  {
    var rest := s[d..];
    assert forall k :: d <= k < |s| ==> s[k] == rest[k - d];
    if AnsweredAt(s, i + d, id) {
      var k :| i + d < k < |s| && IsTool(s[k]) && s[k].callId == id && ToolsBetween(s, i + d + 1, k);
      assert ToolsBetween(rest, i + 1, k - d);
    }
    if AnsweredAt(rest, i, id) {
      var k :| i < k < |rest| && IsTool(rest[k]) && rest[k].callId == id && ToolsBetween(rest, i + 1, k);
      assert ToolsBetween(s, i + d + 1, k + d);
    }
  }

  /* ---- the sanitiser ---- */

  /** Walking back over tool messages ends at a call. */
  predicate AfterCall(kept: seq<Message>) {
    kept != [] && var last := kept[|kept| - 1];
    if IsTool(last) then AfterCall(kept[..|kept| - 1]) else IsCall(last)
  }

  /** First pass: is `m` kept behind the messages kept so far? */
  predicate Admit(kept: seq<Message>, m: Message) {
    match m.role
    case System => false
    case Tool => AfterCall(kept)
    case Assistant => m.calls == [] || (kept != [] && MayPrecedeCall(kept[|kept| - 1].role))
    case _ => true
  }

  function FirstPass(kept: seq<Message>, history: seq<Message>): seq<Message>
    decreases |history|
  {
    if history == [] then kept
    else FirstPass(if Admit(kept, history[0]) then kept + [history[0]] else kept, history[1..])
  }

  /** The list starts with a call that the tool messages behind it do not answer. */
  predicate Dropped(s: seq<Message>)
    requires s != []
  {
    IsCall(s[0]) && !Answered(s[0], s[1..1 + ToolRun(s[1..])])
  }

  /** Second pass: unanswered calls go, with the tool messages behind them. */
  function SecondPass(s: seq<Message>): seq<Message>
    decreases |s|
  {
    if s == [] then []
    else if Dropped(s) then SecondPass(s[1 + ToolRun(s[1..])..])
    else [s[0]] + SecondPass(s[1..])
  }

  lemma SecondPassCons(s: seq<Message>)
    requires s != []
    ensures Dropped(s) ==> SecondPass(s) == SecondPass(s[1 + ToolRun(s[1..])..])
    ensures !Dropped(s) ==> SecondPass(s) == [s[0]] + SecondPass(s[1..])
  {
  }

  function Sanitized(history: seq<Message>): seq<Message> {
    SecondPass(FirstPass([], history))
  }

  method SanitizeHistoryForProvider(history: seq<Message>) returns (final: seq<Message>)
    ensures final == Sanitized(history)
  {
    if |history| == 0 {
      return history;
    }
    var sanitized := RunFirstPass(history);
    final := RunSecondPass(sanitized);
  }

  method RunFirstPass(history: seq<Message>) returns (sanitized: seq<Message>)
    ensures sanitized == FirstPass([], history)
  {
    sanitized := [];
    assert history[0..] == history;
    for m := 0 to |history|
      invariant FirstPass([], history) == FirstPass(sanitized, history[m..])
    {
      var msg := history[m];
      assert history[m..][1..] == history[m + 1..];
      match msg.role {
        case System =>
        case Tool =>
          var foundAssistant, i := false, |sanitized| - 1;
          assert sanitized[..|sanitized|] == sanitized;
          while i >= 0
            invariant -1 <= i < |sanitized|
            invariant AfterCall(sanitized) == AfterCall(sanitized[..i + 1])
          {
            assert sanitized[..i + 1][..i] == sanitized[..i];
            if sanitized[i].role != Tool {
              foundAssistant := sanitized[i].role == Assistant && |sanitized[i].calls| > 0;
              break;
            }
            i := i - 1;
          }
          if foundAssistant {
            sanitized := sanitized + [msg];
          }
        case Assistant =>
          if |msg.calls| == 0 || (|sanitized| > 0 &&
            (sanitized[|sanitized| - 1].role == User || sanitized[|sanitized| - 1].role == Tool)) {
            sanitized := sanitized + [msg];
          }
        case Other(_) =>
          sanitized := sanitized + [msg];
        case User =>
          sanitized := sanitized + [msg];
      }
    }
    assert history[|history|..] == [];
  }

  method RunSecondPass(sanitized: seq<Message>) returns (final: seq<Message>)
    ensures final == SecondPass(sanitized)
  {
    hide SecondPass, Dropped, ToolRun;
    final := [];
    var i := 0;
    assert sanitized[0..] == sanitized;
    while i < |sanitized|
      invariant 0 <= i <= |sanitized|
      invariant SecondPass(sanitized) == final + SecondPass(sanitized[i..])
    {
      SecondPassAt(sanitized, i, final);
      var msg := sanitized[i];
      NoCallNotDropped(sanitized[i..]);
      if msg.role == Assistant && |msg.calls| > 0 {
        var allFound, toolMsgCount := FindAnswers(sanitized, i);
        if !allFound {
          i := i + toolMsgCount + 1;
          continue;
        }
      }
      final := final + [msg];
      i := i + 1;
    }
    SecondPassAt(sanitized, i, final);
  }

  lemma DroppedAt(s: seq<Message>, i: nat)
    requires i < |s| && IsCall(s[i])
    ensures Dropped(s[i..]) == !Answered(s[i], s[i + 1..i + 1 + ToolRun(s[i + 1..])])
  {
    hide ToolRun, Answered;
    assert s[i..][1..] == s[i + 1..];
    assert s[i..][1..1 + ToolRun(s[i + 1..])] == s[i + 1..i + 1 + ToolRun(s[i + 1..])];
  }

  lemma NoCallNotDropped(s: seq<Message>)
    requires s != []
    ensures Dropped(s) ==> IsCall(s[0])
  {
  }

  /** One iteration of the second pass, with the messages kept so far. */
  lemma SecondPassAt(s: seq<Message>, i: nat, final: seq<Message>)
    requires i <= |s|
    ensures i == |s| ==> final + SecondPass(s[i..]) == final
    ensures i < |s| && Dropped(s[i..]) ==>
      final + SecondPass(s[i..]) == final + SecondPass(s[i + 1 + ToolRun(s[i + 1..])..])
    ensures i < |s| && !Dropped(s[i..]) ==> final + SecondPass(s[i..]) == final + [s[i]] + SecondPass(s[i + 1..])
  {
    hide *;
    if i == |s| {
      SecondPassNil();
      assert s[i..] == [];
    } else {
      SecondPassCons(s[i..]);
      assert s[i..][1..] == s[i + 1..];
      assert s[i..][1 + ToolRun(s[i + 1..])..] == s[i + 1 + ToolRun(s[i + 1..])..];
      assert final + ([s[i]] + SecondPass(s[i + 1..])) == final + [s[i]] + SecondPass(s[i + 1..]);
    }
  }

  lemma AnswersNothing()
    ensures forall id :: !Answers([], id)
  {
  }

  lemma AnswersSnoc(tools: seq<Message>, t: Message)
    ensures forall id :: Answers(tools + [t], id) <==> Answers(tools, id) || t.callId == id
  {
    assert forall x :: x in tools + [t] <==> x in tools || x == t;
    forall id | Answers(tools, id)
      ensures Answers(tools + [t], id)
    {
      var x :| x in tools && x.callId == id;
      assert x in tools + [t];
    }
    assert t in tools + [t];
  }

  /** The tool messages behind the call at `i`: how many, and whether they answer all its ids. */
  method FindAnswers(sanitized: seq<Message>, i: nat) returns (allFound: bool, toolMsgCount: nat)
    requires i < |sanitized| && IsCall(sanitized[i])
    ensures toolMsgCount == ToolRun(sanitized[i + 1..])
    ensures i + 1 + toolMsgCount <= |sanitized|
    ensures allFound == !Dropped(sanitized[i..])
  {
    hide Answers, ToolRun, Dropped;
    AnswersNothing();
    var expected: map<string, bool> := map id | id in sanitized[i].calls :: false;
    toolMsgCount := 0;
    var j := i + 1;
    assert sanitized[i + 1..j] == [];
    while j < |sanitized| && sanitized[j].role == Tool
      invariant j == i + 1 + toolMsgCount <= |sanitized|
      invariant ToolRun(sanitized[i + 1..]) == toolMsgCount + ToolRun(sanitized[j..])
      invariant j < |sanitized| && IsTool(sanitized[j]) ==> ToolRun(sanitized[j..]) == 1 + ToolRun(sanitized[j + 1..])
      invariant j == |sanitized| || !IsTool(sanitized[j]) ==> ToolRun(sanitized[j..]) == 0
      invariant forall id :: id in expected <==> id in sanitized[i].calls
      invariant forall id :: id in expected ==> expected[id] == Answers(sanitized[i + 1..j], id)
    {
      assert sanitized[i + 1..j + 1] == sanitized[i + 1..j] + [sanitized[j]];
      AnswersSnoc(sanitized[i + 1..j], sanitized[j]);
      toolMsgCount := toolMsgCount + 1;
      if sanitized[j].callId in expected {
        expected := expected[sanitized[j].callId := true];
      }
      j := j + 1;
    }
    allFound := forall id :: id in expected ==> expected[id];
    assert allFound == Answered(sanitized[i], sanitized[i + 1..j]);
    DroppedAt(sanitized, i);
  }

  /* ---- what the sanitiser guarantees ---- */

  /** The first pass as an automaton: `prev` is the role kept last, `open` says a tool message may follow. */
  predicate Admissible(prev: Role, open: bool, m: Message) {
    m.role != System && (IsTool(m) ==> open) && (IsCall(m) ==> MayPrecedeCall(prev))
  }

  function Clean(prev: Role, open: bool, h: seq<Message>): seq<Message>
    decreases |h|
  {
    if h == [] then []
    else if Admissible(prev, open, h[0]) then [h[0]] + Clean(h[0].role, IsCall(h[0]) || IsTool(h[0]), h[1..])
    else Clean(prev, open, h[1..])
  }

  predicate IsClean(prev: Role, open: bool, s: seq<Message>)
    decreases |s|
  {
    s == [] || (Admissible(prev, open, s[0]) && IsClean(s[0].role, IsCall(s[0]) || IsTool(s[0]), s[1..]))
  }

  function LastRole(kept: seq<Message>): Role {
    if kept == [] then System else kept[|kept| - 1].role
  }

  lemma {:induction false} FirstPassCleans(kept: seq<Message>, h: seq<Message>)
    ensures FirstPass(kept, h) == kept + Clean(LastRole(kept), AfterCall(kept), h)
    decreases |h|
  {
    if h != [] {
      var kept' := kept + [h[0]];
      assert kept'[..|kept|] == kept;
      assert Admit(kept, h[0]) == Admissible(LastRole(kept), AfterCall(kept), h[0]);
      if Admit(kept, h[0]) {
        FirstPassCleans(kept', h[1..]);
        assert kept' + Clean(h[0].role, AfterCall(kept'), h[1..])
            == kept + ([h[0]] + Clean(h[0].role, AfterCall(kept'), h[1..]));
      } else {
        FirstPassCleans(kept, h[1..]);
      }
    }
  }

  lemma SanitizedIs(h: seq<Message>)
    ensures Sanitized(h) == SecondPass(Clean(System, false, h))
  {
    FirstPassCleans([], h);
    assert [] + Clean(System, false, h) == Clean(System, false, h);
  }

  lemma {:induction false} CleanIsClean(prev: Role, open: bool, h: seq<Message>)
    ensures IsClean(prev, open, Clean(prev, open, h))
    ensures IsClean(prev, open, h) ==> Clean(prev, open, h) == h
    decreases |h|
  {
    if h != [] {
      if Admissible(prev, open, h[0]) {
        CleanIsClean(h[0].role, IsCall(h[0]) || IsTool(h[0]), h[1..]);
      } else {
        CleanIsClean(prev, open, h[1..]);
      }
    }
  }

  lemma {:induction false} CleanBehindTools(prev: Role, open: bool, s: seq<Message>)
    requires IsClean(prev, open, s)
    ensures IsClean(if ToolRun(s) == 0 then prev else Tool, false, s[ToolRun(s)..])
    ensures forall i :: 0 <= i < ToolRun(s) ==> s[i].role != System
    decreases |s|
  {
    if s != [] && IsTool(s[0]) {
      CleanBehindTools(Tool, true, s[1..]);
    }
  }

  lemma {:induction false} SecondPassKeepsTools(s: seq<Message>)
    ensures SecondPass(s) == s[..ToolRun(s)] + SecondPass(s[ToolRun(s)..])
    decreases |s|
  {
    hide *;
    ToolRunHead(s);
    if s != [] && IsTool(s[0]) {
      var n := ToolRun(s[1..]);
      SecondPassKeepsTools(s[1..]);
      SecondPassCons(s);
      assert s[..1 + n] == [s[0]] + s[1..][..n] && s[1 + n..] == s[1..][n..];
      assert [s[0]] + (s[1..][..n] + SecondPass(s[1 + n..])) == [s[0]] + s[1..][..n] + SecondPass(s[1 + n..]);
    } else {
      assert s[0..] == s && s[..0] == [] && [] + SecondPass(s) == SecondPass(s);
    }
  }

  lemma ToolRunHead(s: seq<Message>)
    ensures s != [] && IsTool(s[0]) ==> ToolRun(s) == 1 + ToolRun(s[1..]) && !Dropped(s)
    ensures s == [] || !IsTool(s[0]) ==> ToolRun(s) == 0
  {
  }

  lemma {:induction false} ToolRunIs(tools: seq<Message>, rest: seq<Message>)
    requires forall i :: 0 <= i < |tools| ==> IsTool(tools[i])
    requires rest == [] || !IsTool(rest[0])
    ensures ToolRun(tools + rest) == |tools|
  {
    assert forall i :: 0 <= i < |tools| ==> (tools + rest)[i] == tools[i];
    assert rest != [] ==> (tools + rest)[|tools|] == rest[0];
  }

  ghost predicate NoSystem(s: seq<Message>) {
    forall i :: 0 <= i < |s| ==> s[i].role != System
  }

  /** The second pass makes a clean list well formed, whatever may stand in front of it. */
  lemma {:induction false} SecondPassPairs(prev: Role, front: Role, s: seq<Message>)
    requires IsClean(prev, false, s) && (MayPrecedeCall(prev) ==> MayPrecedeCall(front))
    ensures Paired(SecondPass(s)) && CallsFollow(front, SecondPass(s)) && NoSystem(SecondPass(s))
    ensures SecondPass(s) == [] || !IsTool(SecondPass(s)[0])
    decreases |s|
  {
    if s == [] {
    } else if IsCall(s[0]) {
      var n := ToolRun(s[1..]);
      var rest := s[1 + n..];
      var last := if n == 0 then Assistant else Tool;
      CleanBehindTools(Assistant, true, s[1..]);
      assert s[1..][n..] == rest;
      if Answered(s[0], s[1..1 + n]) {
        SecondPassPairs(last, last, rest);
        SecondPassKeepsTools(s[1..]);
        assert s[1..][..n] == s[1..1 + n];
        GroupPairs(s[0], s[1..1 + n], SecondPass(rest));
      } else {
        SecondPassPairs(last, front, rest);
      }
    } else {
      SecondPassPairs(s[0].role, s[0].role, s[1..]);
    }
  }

  /** An answered call in front of a paired list. */
  lemma {:induction false} GroupPairs(call: Message, tools: seq<Message>, rest: seq<Message>)
    requires IsCall(call) && Answered(call, tools) && forall i :: 0 <= i < |tools| ==> IsTool(tools[i])
    requires Paired(rest) && (rest == [] || !IsTool(rest[0])) && NoSystem(rest)
    requires CallsFollow(if tools == [] then Assistant else Tool, rest)
    ensures var s := [call] + (tools + rest);
      Paired(s) && NoSystem(s) && forall front :: MayPrecedeCall(front) ==> CallsFollow(front, s)
  {
    var s := [call] + (tools + rest);
    ToolRunIs(tools, rest);
    assert s[1..] == tools + rest;
    assert s[1..1 + |tools|] == tools && s[1 + |tools|..] == rest;
    ToolsFollow(Assistant, tools, rest);
  }

  lemma {:induction false} ToolsFollow(front: Role, tools: seq<Message>, rest: seq<Message>)
    requires forall i :: 0 <= i < |tools| ==> IsTool(tools[i])
    requires CallsFollow(if tools == [] then front else Tool, rest)
    ensures CallsFollow(front, tools + rest)
    decreases |tools|
  {
    if tools == [] {
      assert tools + rest == rest;
    } else {
      ToolsFollow(Tool, tools[1..], rest);
      assert (tools + rest)[1..] == tools[1..] + rest;
    }
  }

  /** The sanitised history is what providers accept. */
  lemma SanitizedIsWellFormed(h: seq<Message>)
    ensures WellFormed(Sanitized(h))
  {
    SanitizedIs(h);
    CleanIsClean(System, false, h);
    SecondPassPairs(System, System, Clean(System, false, h));
  }

  lemma {:induction false} ToolsAreClean(prev: Role, tools: seq<Message>, rest: seq<Message>)
    requires forall i :: 0 <= i < |tools| ==> IsTool(tools[i])
    requires IsClean(if tools == [] then prev else Tool, false, rest)
    ensures IsClean(prev, true, tools + rest)
    decreases |tools|
  {
    if tools == [] {
      assert tools + rest == rest;
    } else {
      ToolsAreClean(Tool, tools[1..], rest);
      assert (tools + rest)[1..] == tools[1..] + rest;
    }
  }

  lemma {:induction false} CallsFollowBehind(prev: Role, tools: seq<Message>, rest: seq<Message>)
    requires CallsFollow(prev, tools + rest) && forall i :: 0 <= i < |tools| ==> IsTool(tools[i])
    ensures CallsFollow(if tools == [] then prev else Tool, rest)
    decreases |tools|
  {
    if tools == [] {
      assert tools + rest == rest;
    } else {
      assert (tools + rest)[1..] == tools[1..] + rest;
      CallsFollowBehind(Tool, tools[1..], rest);
    }
  }

  lemma {:induction false} WellFormedIsClean(prev: Role, s: seq<Message>)
    requires Paired(s) && CallsFollow(prev, s) && NoSystem(s)
    ensures IsClean(prev, false, s) && SecondPass(s) == s
    decreases |s|, 1
  {
    if s != [] {
      hide SecondPass, Answered, ToolRun;
      if IsCall(s[0]) {
        WellFormedGroupIsClean(prev, s);
      } else {
        WellFormedIsClean(s[0].role, s[1..]);
        SecondPassCons(s);
      }
    }
  }

  lemma WellFormedGroupIsClean(prev: Role, s: seq<Message>)
    requires s != [] && IsCall(s[0]) && Paired(s) && CallsFollow(prev, s) && NoSystem(s)
    ensures IsClean(prev, false, s) && SecondPass(s) == s
    decreases |s|, 0
  {
    var tools, rest := GroupOf(s);
    assert !Dropped(s) && Paired(rest) && CallsFollow(Assistant, tools + rest) && MayPrecedeCall(prev);
    assert NoSystem(rest);
    assert IsClean(Assistant, true, tools + rest) ==> IsClean(prev, false, s);
    hide *;
    CallsFollowBehind(Assistant, tools, rest);
    WellFormedIsClean(if tools == [] then Assistant else Tool, rest);
    AnsweredGroupStays(s[0], tools, rest);
  }

  lemma {:induction false} AnsweredGroupStays(call: Message, tools: seq<Message>, rest: seq<Message>)
    requires forall i :: 0 <= i < |tools| ==> IsTool(tools[i])
    requires rest == [] || !IsTool(rest[0])
    requires IsClean(if tools == [] then Assistant else Tool, false, rest) && SecondPass(rest) == rest
    requires IsCall(call) && !Dropped([call] + (tools + rest))
    ensures IsClean(Assistant, true, tools + rest) && SecondPass([call] + (tools + rest)) == [call] + (tools + rest)
  {
    hide *;
    var s := [call] + (tools + rest);
    assert s[1..] == tools + rest && s[0] == call;
    ToolsAreClean(Assistant, tools, rest);
    ToolRunIs(tools, rest);
    SecondPassKeepsTools(tools + rest);
    assert (tools + rest)[..|tools|] == tools && (tools + rest)[|tools|..] == rest;
    SecondPassCons(s);
  }

  /** Histories that are well formed are exactly those the sanitiser leaves alone. */
  lemma SanitizedFixesExactlyWellFormed(h: seq<Message>)
    ensures Sanitized(h) == h <==> WellFormed(h)
    ensures Sanitized(Sanitized(h)) == Sanitized(h)
  {
    SanitizedIsWellFormed(h);
    forall s | WellFormed(s)
      ensures Sanitized(s) == s
    {
      SanitizedIs(s);
      WellFormedIsClean(System, s);
      CleanIsClean(System, false, s);
    }
  }

  /* ---- what the sanitiser keeps ---- */

  /** The messages the sanitiser never drops: user messages, plain assistant messages, unknown roles. */
  function Bystanders(s: seq<Message>): seq<Message> {
    if s == [] then []
    else (if s[0].role == System || IsTool(s[0]) || IsCall(s[0]) then [] else [s[0]]) + Bystanders(s[1..])
  }

  lemma {:induction false} BystandersConcat(a: seq<Message>, b: seq<Message>)
    ensures Bystanders(a + b) == Bystanders(a) + Bystanders(b)
  {
    if a == [] {
      assert a + b == b;
    } else {
      assert (a + b)[1..] == a[1..] + b;
      BystandersConcat(a[1..], b);
    }
  }

  lemma {:induction false} CleanKeepsBystanders(prev: Role, open: bool, h: seq<Message>)
    ensures Bystanders(Clean(prev, open, h)) == Bystanders(h) && Subsequence(Clean(prev, open, h), h)
    decreases |h|
  {
    if h != [] {
      if Admissible(prev, open, h[0]) {
        CleanKeepsBystanders(h[0].role, IsCall(h[0]) || IsTool(h[0]), h[1..]);
      } else {
        CleanKeepsBystanders(prev, open, h[1..]);
        SkipHead(Clean(prev, open, h[1..]), h);
      }
    }
  }

  lemma {:induction false} SecondPassKeepsBystanders(s: seq<Message>)
    ensures Bystanders(SecondPass(s)) == Bystanders(s) && Subsequence(SecondPass(s), s)
    decreases |s|
  {
    if s == [] {
      SecondPassNil();
    } else {
      hide *;
      NoCallNotDropped(s);
      SecondPassCons(s);
      if Dropped(s) {
        var tools, rest := GroupOf(s);
        SecondPassKeepsBystanders(rest);
        DroppedGroupGoes(s, tools, rest);
        SkipHeads(SecondPass(rest), s, 1 + ToolRun(s[1..]));
      } else {
        SecondPassKeepsBystanders(s[1..]);
      }
    }
  }

  lemma DroppedGroupGoes(s: seq<Message>, tools: seq<Message>, rest: seq<Message>)
    requires s != [] && IsCall(s[0]) && s == [s[0]] + (tools + rest)
    requires forall i :: 0 <= i < |tools| ==> IsTool(tools[i])
    ensures Bystanders(s) == Bystanders(rest)
  {
    ToolsAreNoBystanders([s[0]] + tools);
    assert s == ([s[0]] + tools) + rest;
    BystandersConcat([s[0]] + tools, rest);
  }

  lemma {:induction false} ToolsAreNoBystanders(s: seq<Message>)
    requires forall i :: 0 <= i < |s| ==> IsTool(s[i]) || IsCall(s[i])
    ensures Bystanders(s) == []
  {
    if s != [] {
      ToolsAreNoBystanders(s[1..]);
    }
  }

  /** Nothing is reordered or invented, and every user and plain assistant message survives. */
  lemma SanitizedKeeps(h: seq<Message>)
    ensures Subsequence(Sanitized(h), h) && Bystanders(Sanitized(h)) == Bystanders(h)
  {
    SanitizedIs(h);
    CleanKeepsBystanders(System, false, h);
    SecondPassKeepsBystanders(Clean(System, false, h));
    SubsequenceTransitive(Sanitized(h), Clean(System, false, h), h);
  }

  lemma {:induction false} CleanUpTo(prev: Role, open: bool, x: seq<Message>, u: Message, y: seq<Message>)
    requires u.role == User
    ensures Clean(prev, open, x + [u] + y) == Clean(prev, open, x) + ([u] + Clean(User, false, y))
    decreases |x|
  {
    var h := x + [u] + y;
    if x == [] {
      assert h[0] == u && h[1..] == y;
    } else {
      assert h[0] == x[0] && h[1..] == x[1..] + [u] + y;
      if Admissible(prev, open, x[0]) {
        CleanUpTo(x[0].role, IsCall(x[0]) || IsTool(x[0]), x[1..], u, y);
      } else {
        CleanUpTo(prev, open, x[1..], u, y);
      }
    }
  }

  lemma {:induction false} SecondPassUpTo(a: seq<Message>, b: seq<Message>)
    requires b == [] || !IsTool(b[0])
    ensures SecondPass(a + b) == SecondPass(a) + SecondPass(b)
    decreases |a|
  {
    hide *;
    if a == [] {
      SecondPassNil();
      assert a + b == b && [] + SecondPass(b) == SecondPass(b);
    } else {
      ToolRunUpTo(a, b);
      DroppedUpTo(a, b);
      SecondPassCons(a);
      SecondPassCons(a + b);
      if Dropped(a) {
        SecondPassUpTo(a[1 + ToolRun(a[1..])..], b);
      } else {
        SecondPassUpTo(a[1..], b);
        assert [a[0]] + (SecondPass(a[1..]) + SecondPass(b)) == [a[0]] + SecondPass(a[1..]) + SecondPass(b);
      }
    }
  }

  lemma {:induction false} PartsOfJoined(a: seq<Message>, s: seq<Message>, t: seq<Message>, b: seq<Message>)
    requires a != [] && a[1..] == s + t
    ensures (a + b)[1..] == a[1..] + b == s + (t + b)
    ensures (a + b)[1..1 + |s|] == s && (a + b)[1 + |s|..] == t + b
  {
  }

  lemma {:induction false} ToolRunUpTo(a: seq<Message>, b: seq<Message>)
    requires a != [] && (b == [] || !IsTool(b[0]))
    ensures var n := ToolRun(a[1..]);
      ToolRun((a + b)[1..]) == n && (a + b)[1..1 + n] == a[1..1 + n] && (a + b)[1 + n..] == a[1 + n..] + b
    ensures (a + b)[1..] == a[1..] + b
  {
    hide *;
    var tools, behind := GroupOf(a);
    PartsOfJoined(a, tools, behind, b);
    assert behind + b == [] || (behind + b)[0] == (if behind == [] then b[0] else behind[0]);
    ToolRunIs(tools, behind + b);
  }

  lemma SecondPassNil()
    ensures SecondPass([]) == []
  {
  }

  lemma DroppedUpTo(a: seq<Message>, b: seq<Message>)
    requires a != [] && (b == [] || !IsTool(b[0]))
    ensures Dropped(a + b) == Dropped(a)
  {
    ToolRunUpTo(a, b);
    hide ToolRun, Answered;
  }

  /** A user message is a barrier: what stands in front of it is sanitised on its own, and so is the rest. */
  lemma UserMessagesAreBarriers(x: seq<Message>, u: Message, y: seq<Message>)
    requires u.role == User
    ensures Sanitized(x + [u] + y) == Sanitized(x) + Sanitized([u] + y)
  {
    SanitizedIs(x);
    SanitizedIs([u] + y);
    SanitizedIs(x + [u] + y);
    CleanUpTo(System, false, x, u, y);
    CleanUpTo(System, false, [], u, y);
    assert [] + [u] + y == [u] + y;
    SecondPassUpTo(Clean(System, false, x), [u] + Clean(User, false, y));
    assert [] + ([u] + Clean(User, false, y)) == [u] + Clean(User, false, y);
  }

  /** So a well-formed turn that starts with a user message survives unchanged behind any history. */
  lemma WellFormedTurnSurvives(x: seq<Message>, turn: seq<Message>)
    requires turn != [] && turn[0].role == User && WellFormed(turn)
    ensures Sanitized(x + turn) == Sanitized(x) + turn
  {
    assert turn == [turn[0]] + turn[1..];
    assert x + turn == x + [turn[0]] + turn[1..];
    UserMessagesAreBarriers(x, turn[0], turn[1..]);
    SanitizedFixesExactlyWellFormed(turn);
  }
}
