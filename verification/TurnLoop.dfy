/** One user turn: the model-call loop with its retries, compressions and tool rounds. */
module TurnLoop {
  import opened Transcript
  import Text

  /** The outcome of asking the compactor for a shorter history. */
  datatype Compaction = NoCompactor | NoResult | Failed | Kept(count: nat)

  /** What one call to the model yields. Tool outputs are arbitrary; `prompt` is the rebuilt system prompt. */
  datatype Reply =
    | Answer(content: string, reasoning: string, calls: seq<string>, outputs: seq<string>)
    | Timeout
    | ContextError(compaction: Compaction, prompt: string)
    | OtherError

  predicate IsError(r: Reply) {
    !r.Answer?
  }

  function Plain(role: Role, content: string): Message {
    Message(role, content, [], "")
  }

  /** The assistant message and the tool messages one round of tool calls appends. */
  function AssistantMessage(r: Reply): Message
    requires r.Answer?
  {
    Message(Assistant, r.content, r.calls, "")
  }

  function ToolMessage(r: Reply, i: nat): Message
    requires r.Answer? && i < |r.calls|
  {
    Message(Tool, if i < |r.outputs| then r.outputs[i] else "", [], r.calls[i])
  }

  function ToolMessages(r: Reply): seq<Message>
    requires r.Answer?
  {
    seq(|r.calls|, i requires 0 <= i < |r.calls| => ToolMessage(r, i))
  }

  function Round(r: Reply): seq<Message>
    requires r.Answer?
  {
    [AssistantMessage(r)] + ToolMessages(r)
  }

  function Decimal(n: nat): string {
    (if n < 10 then "" else Decimal(n / 10)) + [(n % 10 + '0' as int) as char]
  }

  /** Emergency compression: the first message, annotated, the younger half, and the last message. */
  function HalvedHistory(history: seq<Message>): seq<Message> {
    if |history| <= 4 then history
    else
      var conversation := history[1..|history| - 1];
      var mid := |conversation| / 2;
      var note := "\n\n[System Note: Emergency compression dropped " + Decimal(mid)
        + " oldest messages due to context limit]";
      [history[0].(content := history[0].content + note)] + conversation[mid..] + [history[|history| - 1]]
  }

  /** Emergency compression keeps the last message and the younger half, and the first message with a note. */
  lemma HalvedKeeps(history: seq<Message>)
    requires |history| > 4
    ensures var r := HalvedHistory(history);
      && |r| == (|history| + 3) / 2 && r[1..] == history[|history| + 1 - |r|..]
      && history[0].content <= r[0].content && r[0] == history[0].(content := r[0].content)
  {
    var r, n := HalvedHistory(history), |history|;
    var conversation := history[1..n - 1];
    var mid := |conversation| / 2;
    hide Decimal;
    assert r == [r[0]] + conversation[mid..] + [history[n - 1]];
    hide HalvedHistory;
    assert conversation[mid..] == history[1 + mid..n - 1];
    assert r[1..] == history[1 + mid..n - 1] + [history[n - 1]] == history[1 + mid..];
  }

  function CompressedHistory(history: seq<Message>, c: Compaction): seq<Message> {
    match c
    case NoCompactor => HalvedHistory(history)
    case NoResult => history
    case Failed => HalvedHistory(history)
    case Kept(count) => if |history| > 4 && 0 < count < |history| then history[|history| - count..] else history
  }

  /** Compression leaves at most four messages alone, always keeps the last message, and makes a longer history shorter
      except when the compactor has nothing to compact. */
  lemma CompressedIsShorter(history: seq<Message>, c: Compaction)
    ensures var r := CompressedHistory(history, c);
      && (|history| <= 4 ==> r == history)
      && (|history| > 4 ==> r != [] && r[|r| - 1] == history[|history| - 1])
      && (|history| > 4 ==> (r == history <==> c == NoResult || (c.Kept? && !(0 < c.count < |history|))))
      && (|history| > 4 && r != history ==> |r| == if c.Kept? then c.count else (|history| + 3) / 2)
  {
    if |history| > 4 {
      HalvedKeeps(history);
      hide HalvedHistory;
    }
  }

  predicate IsBlankText(s: string) {
    forall i :: 0 <= i < |s| ==> Text.IsSpace(s[i])
  }

  /** The list built from a history: one system message, the sanitised history, the user's message. */
  function Built(prompt: string, history: seq<Message>, current: string): seq<Message> {
    [Plain(System, prompt)] + Sanitized(history) + if IsBlankText(current) then [] else [Plain(User, current)]
  }

  /** The message list in hand and the stored session history. */
  datatype Turn = Turn(messages: seq<Message>, history: seq<Message>)

  function Respond(t: Turn, r: Reply): Turn {
    match r
    case Answer(_, _, calls, _) => if calls == [] then t else Turn(t.messages + Round(r), t.history + Round(r))
    case ContextError(c, prompt) =>
      var history := CompressedHistory(t.history, c);
      Turn(Built(prompt, history, ""), history)
    case _ => t
  }

  function Run(t: Turn, replies: seq<Reply>): Turn {
    if replies == [] then t else Respond(Run(t, replies[..|replies| - 1]), replies[|replies| - 1])
  }

  /** What a provider requires of a message list. */
  ghost predicate Sendable(s: seq<Message>) {
    s != [] && s[0].role == System && NoSystem(s[1..]) && Paired(s)
  }

  lemma {:induction false} PairedConcat(a: seq<Message>, b: seq<Message>)
    requires Paired(a) && Paired(b) && (b == [] || !IsTool(b[0]))
    ensures Paired(a + b)
    decreases |a|
  {
    if a == [] {
      assert a + b == b;
    } else {
      ToolRunUpTo(a, b);
      hide Answered, ToolRun;
      assert (a + b)[0] == a[0];
      if IsCall(a[0]) {
        PairedConcat(a[1 + ToolRun(a[1..])..], b);
      } else {
        PairedConcat(a[1..], b);
      }
    }
  }

  /** Every round of tool calls is an answered call. */
  lemma RoundIsPaired(r: Reply)
    requires r.Answer? && r.calls != []
    ensures Paired(Round(r)) && !IsTool(Round(r)[0]) && NoSystem(Round(r))
  {
    var tools := ToolMessages(r);
    forall id | id in r.calls
      ensures Answers(tools, id)
    {
      var i :| 0 <= i < |r.calls| && r.calls[i] == id;
      assert tools[i] == ToolMessage(r, i) && tools[i] in tools;
    }
    ToolRunIs(tools, []);
    assert tools + [] == tools;
    var s := Round(r);
    assert s[1..] == tools && s[1..1 + |tools|] == tools && s[1 + |tools|..] == [];
  }

  lemma BuiltIsSendable(prompt: string, history: seq<Message>, current: string)
    ensures Sendable(Built(prompt, history, current))
  {
    hide Sanitized;
    SanitizedIsWellFormed(history);
    var system, clean := [Plain(System, prompt)], Sanitized(history);
    var user := if IsBlankText(current) then [] else [Plain(User, current)];
    assert system[1..] == [] && (user != [] ==> user[1..] == []);
    PairedConcat(system, clean);
    PairedConcat(system + clean, user);
    assert Built(prompt, history, current)[1..] == clean + user;
  }

  /** One reply, whatever it is, leaves a list that can be sent. */
  lemma RespondKeepsSendable(t: Turn, r: Reply)
    requires Sendable(t.messages)
    ensures Sendable(Respond(t, r).messages)
  {
    match r
    case Answer(_, _, calls, _) =>
      if calls != [] {
        RoundIsPaired(r);
        PairedConcat(t.messages, Round(r));
        assert (t.messages + Round(r))[1..] == t.messages[1..] + Round(r);
      }
    case ContextError(c, prompt) => BuiltIsSendable(prompt, CompressedHistory(t.history, c), "");
    case _ =>
  }

  /** Over a whole turn, in every sequence of replies, every list handed to the provider can be sent. */
  lemma {:induction false} EveryListIsSendable(t: Turn, replies: seq<Reply>)
    requires Sendable(t.messages)
    ensures Sendable(Run(t, replies).messages)
  {
    if replies != [] {
      EveryListIsSendable(t, replies[..|replies| - 1]);
      RespondKeepsSendable(Run(t, replies[..|replies| - 1]), replies[|replies| - 1]);
    }
  }

  function Round'(r: Reply): seq<Message> {
    if r.Answer? && r.calls != [] then Round(r) else []
  }

  /** What the replies append: one round per answer with tool calls. */
  function Rounds(replies: seq<Reply>): seq<Message> {
    if replies == [] then [] else Rounds(replies[..|replies| - 1]) + Round'(replies[|replies| - 1])
  }

  lemma {:induction false} RunAppendsRounds(t: Turn, replies: seq<Reply>)
    requires forall i :: 0 <= i < |replies| ==> !replies[i].ContextError?
    ensures Run(t, replies) == Turn(t.messages + Rounds(replies), t.history + Rounds(replies))
  {
    if replies == [] {
      assert Rounds(replies) == [] && t.messages + [] == t.messages && t.history + [] == t.history;
    } else {
      var r, before := replies[|replies| - 1], replies[..|replies| - 1];
      RunAppendsRounds(t, before);
      assert !r.ContextError?;
      hide Round, Built;
      Reassociate(t.messages, Rounds(before), Round'(r));
      Reassociate(t.history, Rounds(before), Round'(r));
    }
  }

  lemma Reassociate(a: seq<Message>, b: seq<Message>, c: seq<Message>)
    ensures a + (b + c) == a + b + c && a + b + [] == a + b
  {
  }

  lemma {:induction false} RoundsArePaired(replies: seq<Reply>)
    ensures Paired(Rounds(replies)) && (Rounds(replies) == [] || !IsTool(Rounds(replies)[0]))
  {
    if replies != [] {
      var r, before := replies[|replies| - 1], replies[..|replies| - 1];
      RoundsArePaired(before);
      if r.Answer? && r.calls != [] {
        RoundIsPaired(r);
      }
      hide Paired, Round;
      PairedConcat(Rounds(before), Round'(r));
    }
  }

  /** Without compression, list and stored history grow by the same rounds, so a paired history stays paired. */
  lemma HistoryGrowsByRounds(t: Turn, replies: seq<Reply>)
    requires forall i :: 0 <= i < |replies| ==> !replies[i].ContextError?
    ensures Run(t, replies) == Turn(t.messages + Rounds(replies), t.history + Rounds(replies))
    ensures Paired(t.history) ==> Paired(Run(t, replies).history)
  {
    RunAppendsRounds(t, replies);
    RoundsArePaired(replies);
    if Paired(t.history) {
      PairedConcat(t.history, Rounds(replies));
    }
  }

  /** A finished turn as the session stores it: the user's message, the rounds, the reply. */
  datatype StoredTurn = StoredTurn(user: string, replies: seq<Reply>, reply: string)

  function Stored(t: StoredTurn): seq<Message> {
    [Message(User, t.user, [], "")] + Rounds(t.replies) + [Message(Assistant, t.reply, [], "")]
  }

  lemma StoredJoined(h: seq<Message>, t: StoredTurn)
    ensures h + [Plain(User, t.user)] + Rounds(t.replies) + [Plain(Assistant, t.reply)] == h + Stored(t)
  {
    hide Rounds;
  }

  function Conversation(turns: seq<StoredTurn>): seq<Message> {
    if turns == [] then [] else Conversation(turns[..|turns| - 1]) + Stored(turns[|turns| - 1])
  }

  /** The last role of a list, or the one in front of it. */
  function RoleBehind(front: Role, s: seq<Message>): Role {
    if s == [] then front else s[|s| - 1].role
  }

  lemma {:induction false} CallsFollowConcat(front: Role, a: seq<Message>, b: seq<Message>)
    requires CallsFollow(front, a) && CallsFollow(RoleBehind(front, a), b)
    ensures CallsFollow(front, a + b)
    decreases |a|
  {
    if a == [] {
      assert a + b == b;
    } else {
      assert (a + b)[0] == a[0] && (a + b)[1..] == a[1..] + b;
      CallsFollowConcat(a[0].role, a[1..], b);
    }
  }

  lemma {:induction false} ToolsMayFollow(front: Role, tools: seq<Message>)
    requires forall i :: 0 <= i < |tools| ==> IsTool(tools[i])
    ensures CallsFollow(front, tools)
    decreases |tools|
  {
    if tools != [] {
      ToolsMayFollow(Tool, tools[1..]);
    }
  }

  lemma RoundFollows(front: Role, r: Reply)
    requires (front == User || front == Tool) && r.Answer? && r.calls != []
    ensures CallsFollow(front, Round(r)) && NoSystem(Round(r)) && RoleBehind(front, Round(r)) == Tool
  {
    var tools := ToolMessages(r);
    ToolsMayFollow(Assistant, tools);
    assert Round(r)[1..] == tools && Round(r)[|tools|] == tools[|tools| - 1];
  }

  lemma NoSystemConcat(a: seq<Message>, b: seq<Message>)
    requires NoSystem(a) && NoSystem(b)
    ensures NoSystem(a + b)
  {
  }

  /** Rounds behind a user or tool message: every call follows one, and so may what comes next. */
  lemma {:induction false} RoundsFollow(front: Role, replies: seq<Reply>)
    requires front == User || front == Tool
    ensures CallsFollow(front, Rounds(replies)) && NoSystem(Rounds(replies))
    ensures var r := RoleBehind(front, Rounds(replies)); r == User || r == Tool
  {
    if replies != [] {
      var r, before := replies[|replies| - 1], replies[..|replies| - 1];
      RoundsFollow(front, before);
      hide CallsFollow, Round, NoSystem;
      if r.Answer? && r.calls != [] {
        RoundFollows(RoleBehind(front, Rounds(before)), r);
        CallsFollowConcat(front, Rounds(before), Round(r));
        NoSystemConcat(Rounds(before), Round(r));
      } else {
        assert Rounds(replies) == Rounds(before);
      }
    }
  }

  /** A user message, any rounds of tool calls and then nothing or the reply are well formed. */
  lemma TurnIsWellFormed(user: string, replies: seq<Reply>, reply: seq<Message>)
    requires reply == [] || (|reply| == 1 && reply[0].role == Assistant && reply[0].calls == [])
    ensures WellFormed([Message(User, user, [], "")] + Rounds(replies) + reply)
  {
    var u := [Message(User, user, [], "")];
    RoundsArePaired(replies);
    RoundsFollow(User, replies);
    PairedConcat(u, Rounds(replies));
    PairedConcat(u + Rounds(replies), reply);
    CallsFollowConcat(System, u, Rounds(replies));
    CallsFollowConcat(System, u + Rounds(replies), reply);
  }

  /** What a turn has written survives sanitising unchanged, behind any history and at any point of the turn. */
  lemma TurnSurvives(x: seq<Message>, user: string, replies: seq<Reply>)
    ensures var turn := [Message(User, user, [], "")] + Rounds(replies); Sanitized(x + turn) == Sanitized(x) + turn
  {
    var turn := [Message(User, user, [], "")] + Rounds(replies);
    TurnIsWellFormed(user, replies, []);
    assert turn + [] == turn;
    hide *;
    WellFormedTurnSurvives(x, turn);
  }

  /** And so does every conversation of finished turns, however many rounds each took. */
  lemma {:induction false} ConversationSurvives(turns: seq<StoredTurn>)
    ensures Sanitized(Conversation(turns)) == Conversation(turns)
  {
    if turns != [] {
      var before, t := turns[..|turns| - 1], turns[|turns| - 1];
      ConversationSurvives(before);
      TurnIsWellFormed(t.user, t.replies, [Message(Assistant, t.reply, [], "")]);
      WellFormedTurnSurvives(Conversation(before), Stored(t));
    }
  }

  /** The stored conversation of one session. */
  class Session {
    var history: seq<Message>

    constructor ()
      ensures history == []
    {
      history := [];
    }

    method AddFullMessage(m: Message)
      modifies this
      ensures history == old(history) + [m]
    {
      history := history + [m];
    }

    method AddMessage(role: Role, content: string)
      modifies this
      ensures history == old(history) + [Plain(role, content)]
    {
      AddFullMessage(Plain(role, content));
    }

    method SetHistory(h: seq<Message>)
      modifies this
      ensures history == h
    {
      history := h;
    }

    /** Shortens the stored history after a context error. */
    method ForceCompression(c: Compaction)
      modifies this
      ensures history == CompressedHistory(old(history), c)
    {
      if c == NoCompactor || c == Failed {
        if |history| <= 4 {
          return;
        }
        var conversation := history[1..|history| - 1];
        var mid := |conversation| / 2;
        var enhanced := history[0].(content := history[0].content
          + ("\n\n[System Note: Emergency compression dropped " + Decimal(mid)
          + " oldest messages due to context limit]"));
        SetHistory([enhanced] + conversation[mid..] + [history[|history| - 1]]);
      } else if c.Kept? && |history| > 4 && 0 < c.count < |history| {
        SetHistory(history[|history| - c.count..]);
      }
    }
  }

  /** The outcomes of the first n calls. */
  ghost function Replies(provider: nat -> Reply, n: nat): seq<Reply> {
    seq(n, i requires 0 <= i < n => provider(i))
  }

  /** The state behind the first n replies. */
  ghost function After(start: Turn, provider: nat -> Reply, n: nat): Turn {
    Run(start, Replies(provider, n))
  }

  lemma AfterOneMore(start: Turn, provider: nat -> Reply, n: nat)
    requires Sendable(start.messages)
    ensures After(start, provider, n + 1) == Respond(After(start, provider, n), provider(n))
    ensures Sendable(After(start, provider, n).messages)
  {
    assert Replies(provider, n + 1)[..n] == Replies(provider, n);
    EveryListIsSendable(start, Replies(provider, n));
  }

  /** The log of the lists handed over in the first |sent| calls. */
  ghost predicate IsLog(start: Turn, provider: nat -> Reply, sent: seq<seq<Message>>) {
    forall k :: 0 <= k < |sent| ==> sent[k] == After(start, provider, k).messages && Sendable(sent[k])
  }

  lemma LogGrows(start: Turn, provider: nat -> Reply, sent: seq<seq<Message>>, handed: seq<seq<Message>>)
    requires Sendable(start.messages) && IsLog(start, provider, sent)
    requires forall k :: 0 <= k < |handed| ==> handed[k] == After(start, provider, |sent| + k).messages
    ensures IsLog(start, provider, sent + handed)
  {
    forall k | |sent| <= k < |sent| + |handed|
      ensures (sent + handed)[k] == After(start, provider, k).messages && Sendable((sent + handed)[k])
    {
      assert (sent + handed)[k] == handed[k - |sent|];
      AfterOneMore(start, provider, k);
    }
  }

  /** One call with up to two retries: a timeout is repeated, a context error after compression and rebuild. */
  method CallWithRetries(session: Session, ghost start: Turn, messages: seq<Message>, provider: nat -> Reply,
                         calls: nat)
    returns (response: Reply, newMessages: seq<Message>, handed: seq<seq<Message>>)
    requires Sendable(start.messages) && Turn(messages, session.history) == After(start, provider, calls)
    modifies session
    ensures 1 <= |handed| <= 3 && response == provider(calls + |handed| - 1)
    ensures Turn(newMessages, session.history) == After(start, provider, calls + |handed| - 1)
    ensures forall k :: 0 <= k < |handed| ==> handed[k] == After(start, provider, calls + k).messages
    ensures IsError(response) ==> |handed| == 3 || response.OtherError?
    ensures forall k: nat :: calls <= k < calls + |handed| - 1 ==> provider(k).Timeout? || provider(k).ContextError?
  {
    hide After, Sendable, Built, CompressedHistory, Replies, Round;
    newMessages, handed := messages, [];
    for retry := 0 to 3
      invariant |handed| == retry && Turn(newMessages, session.history) == After(start, provider, calls + retry)
      invariant forall k :: 0 <= k < |handed| ==> handed[k] == After(start, provider, calls + k).messages
      invariant forall k: nat :: calls <= k < calls + |handed| ==> provider(k).Timeout? || provider(k).ContextError?
    {
      AfterOneMore(start, provider, calls + retry);
      response := provider(calls + retry);
      handed := handed + [newMessages];
      if response.Timeout? && retry < 2 {
        continue;
      }
      if response.ContextError? && retry < 2 {
        session.ForceCompression(response.compaction);
        newMessages := Built(response.prompt, session.history, "");
        continue;
      }
      return;
    }
    response := Timeout;
  }

  /** Appends the assistant message and its tool results to the list and to the session. */
  method AppendRound(session: Session, messages: seq<Message>, r: Reply) returns (newMessages: seq<Message>)
    requires r.Answer?
    modifies session
    ensures newMessages == messages + Round(r) && session.history == old(session.history) + Round(r)
    ensures newMessages[|messages|] == Message(Assistant, r.content, r.calls, "")
    ensures forall i :: 0 <= i < |r.calls| && i < |r.outputs| ==>
      newMessages[|messages| + 1 + i] == Message(Tool, r.outputs[i], [], r.calls[i])
  {
    var assistantMsg := AssistantMessage(r);
    newMessages := messages + [assistantMsg];
    session.AddFullMessage(assistantMsg);
    ghost var m, h := newMessages, session.history;
    for i := 0 to |r.calls|
      invariant newMessages == m + ToolMessages(r)[..i] && session.history == h + ToolMessages(r)[..i]
    {
      var toolResultMsg := ToolMessage(r, i);
      newMessages := newMessages + [toolResultMsg];
      session.AddFullMessage(toolResultMsg);
      assert ToolMessages(r)[..i + 1] == ToolMessages(r)[..i] + [toolResultMsg];
    }
    assert ToolMessages(r)[..|r.calls|] == ToolMessages(r);
  }

  /** One iteration: a call with its retries and, when the model asks for tools, the round of tool calls. */
  method Iterate(session: Session, ghost start: Turn, messages: seq<Message>, provider: nat -> Reply,
                 sent: seq<seq<Message>>)
    returns (response: Reply, newMessages: seq<Message>, newSent: seq<seq<Message>>)
    requires Sendable(start.messages) && IsLog(start, provider, sent)
    requires Turn(messages, session.history) == After(start, provider, |sent|)
    modifies session
    ensures |sent| + 1 <= |newSent| <= |sent| + 3 && response == provider(|newSent| - 1)
    ensures IsLog(start, provider, newSent)
    ensures Turn(newMessages, session.history)
         == After(start, provider, if IsError(response) then |newSent| - 1 else |newSent|)
  {
    hide After, Sendable, Round, IsLog, CompressedHistory, Built, Replies, AssistantMessage;
    var handed;
    response, newMessages, handed := CallWithRetries(session, start, messages, provider, |sent|);
    LogGrows(start, provider, sent, handed);
    AfterOneMore(start, provider, |sent| + |handed| - 1);
    newSent := sent + handed;
    if response.Answer? && |response.calls| > 0 {
      newMessages := AppendRound(session, newMessages, response);
    }
  }

  /** The text an answer ends the turn with: none while it asks for tools. */
  function FinalText(r: Reply): string {
    if !r.Answer? || r.calls != [] then "" else if r.content == "" then r.reasoning else r.content
  }

  /** The call loop of one turn: `provider(k)` is the outcome of the k-th call, `sent` logs the lists handed over. */
  method RunLLMIteration(session: Session, maxIterations: nat, initial: seq<Message>, provider: nat -> Reply)
    returns (finalContent: string, iteration: nat, ok: bool, sent: seq<seq<Message>>)
    requires Sendable(initial)
    modifies session
    ensures var start := Turn(initial, old(session.history));
      && IsLog(start, provider, sent)
      && (ok ==> session.history == After(start, provider, |sent|).history)
      && (!ok ==> |sent| > 0 && session.history == After(start, provider, |sent| - 1).history)
    ensures iteration <= maxIterations && iteration <= |sent| <= 3 * iteration
    ensures !ok ==> IsError(provider(|sent| - 1))
    ensures ok && iteration < maxIterations ==> |sent| > 0 && var last := provider(|sent| - 1);
      last.Answer? && last.calls == []
    ensures ok ==> finalContent == if |sent| == 0 then "" else FinalText(provider(|sent| - 1))
  {
    ghost var start := Turn(initial, session.history);
    var messages := initial;
    iteration, finalContent, ok, sent := 0, "", true, [];
    assert IsLog(start, provider, []) && After(start, provider, 0) == start;
    hide After, Sendable, IsLog, Built, CompressedHistory, Replies, Round;
    while iteration < maxIterations
      invariant iteration <= maxIterations && iteration <= |sent| <= 3 * iteration && ok
      invariant Turn(messages, session.history) == After(start, provider, |sent|)
      invariant IsLog(start, provider, sent)
      invariant finalContent == "" == if |sent| == 0 then "" else FinalText(provider(|sent| - 1))
    {
      iteration := iteration + 1;
      var response;
      response, messages, sent := Iterate(session, start, messages, provider, sent);
      if !response.Answer? {
        return "", iteration, false, sent;
      }
      if |response.calls| == 0 {
        finalContent := response.content;
        if finalContent == "" && response.reasoning != "" {
          finalContent := response.reasoning;
        }
        break;
      }
    }
  }

  /** The text the list is built with: finished background tasks are put in front of the user's message. */
  function Prompted(injected: string, userMessage: string): (r: string)
    ensures injected <= r && |userMessage| <= |r| && r[|r| - |userMessage|..] == userMessage
  {
    if injected == "" then userMessage else injected + "\n\n" + userMessage
  }

  /** One system message, the sanitised history with all user and plain assistant messages of the stored one, and
      behind it the text of the turn, unless that is blank. */
  ghost predicate IsFirstList(list: seq<Message>, prompt: string, stored: seq<Message>, text: string) {
    var asked := exists i :: 0 <= i < |text| && !Text.IsSpace(text[i]);
    var end := |list| - if asked then 1 else 0;
    && 1 <= end && list[0] == Message(System, prompt, [], "")
    && list[1..end] == Sanitized(stored) && Bystanders(list[1..end]) == Bystanders(stored)
    && (asked ==> list[end] == Message(User, text, [], ""))
  }

  lemma BuiltIsFirstList(prompt: string, stored: seq<Message>, text: string)
    ensures IsFirstList(Built(prompt, stored, text), prompt, stored, text)
  {
    hide Sanitized, Bystanders;
    SanitizedKeeps(stored);
    var list, clean := Built(prompt, stored, text), Sanitized(stored);
    assert list[1..1 + |clean|] == clean;
  }

  ghost predicate NoContextError(provider: nat -> Reply, n: nat) {
    forall i: nat :: i < n ==> !provider(i).ContextError?
  }

  lemma AfterRounds(start: Turn, provider: nat -> Reply, n: nat)
    requires NoContextError(provider, n)
    ensures var rounds := Rounds(Replies(provider, n));
      After(start, provider, n) == Turn(start.messages + rounds, start.history + rounds)
  {
    hide Rounds;
    RunAppendsRounds(start, Replies(provider, n));
  }

  /** A whole user turn on a session, whose history a heartbeat leaves out of the first list; the session itself gets
      the plain message. */
  method RunAgentLoop(session: Session, noHistory: bool, prompt: string, injected: string, userMessage: string,
                      defaultResponse: string, maxIterations: nat, provider: nat -> Reply)
    returns (reply: string, ok: bool, sent: seq<seq<Message>>)
    modifies session
    ensures forall k :: 0 <= k < |sent| ==> Sendable(sent[k])
    ensures |sent| > 0 ==> IsFirstList(sent[0], prompt, if noHistory then [] else old(session.history),
                                       Prompted(injected, userMessage))
    ensures forall k :: 0 <= k < |sent| && NoContextError(provider, k) ==>
      sent[k] == sent[0] + Rounds(Replies(provider, k))
    ensures var turn := StoredTurn(userMessage, Replies(provider, |sent|), reply);
      ok && NoContextError(provider, |sent|) ==> session.history == old(session.history) + Stored(turn)
    ensures var said := if |sent| == 0 then "" else FinalText(provider(|sent| - 1));
      ok ==> reply == if said == "" then defaultResponse else said
    ensures ok ==> session.history != [] && session.history[|session.history| - 1] == Plain(Assistant, reply)
    ensures var loaded := if noHistory then [] else old(session.history);
      var messages := Built(prompt, loaded, Prompted(injected, userMessage));
      var start := Turn(messages, old(session.history) + [Plain(User, userMessage)]);
      ok ==> session.history == After(start, provider, |sent|).history + [Plain(Assistant, reply)]
  {
    var userMsg := userMessage;
    if injected != "" {
      userMsg := injected + "\n\n" + userMsg;
    }
    var loaded := if noHistory then [] else session.history;
    var messages := Built(prompt, loaded, userMsg);
    BuiltIsSendable(prompt, loaded, userMsg);
    session.AddMessage(User, userMessage);
    ghost var start := Turn(messages, session.history);
    var finalContent, iteration;
    finalContent, iteration, ok, sent := RunLLMIteration(session, maxIterations, messages, provider);
    assert After(start, provider, 0) == start;
    BuiltIsFirstList(prompt, loaded, userMsg);
    hide *;
    forall k | 0 <= k < |sent| && NoContextError(provider, k)
      ensures sent[k] == start.messages + Rounds(Replies(provider, k))
    {
      AfterRounds(start, provider, k);
    }
    if !ok {
      return "", ok, sent;
    }
    reply := if finalContent == "" then defaultResponse else finalContent;
    session.AddMessage(Assistant, reply);
    if NoContextError(provider, |sent|) {
      AfterRounds(start, provider, |sent|);
      StoredJoined(old(session.history), StoredTurn(userMessage, Replies(provider, |sent|), reply));
    }
  }
}
