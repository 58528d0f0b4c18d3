/** The outbound pipeline: bus, dispatcher, per-channel queues and workers, as interleaved steps. */
module Outbound {
  import opened Options
  import Split
  import Text

  datatype Message = Message(channel: string, chatId: string, content: string)

  const BUS_CAPACITY := 64
  const QUEUE_CAPACITY := 16
  const MAX_RETRIES := 3

  predicate IsInternalChannel(name: string) {
    name == "cli" || name == "system" || name == "subagent"
  }

  /** A worker is idle or works through the chunks of a message; `tries` counts the sends of the current chunk. */
  datatype WorkerState = Idle | Busy(msg: Message, chunks: seq<string>, next: nat, tries: nat)

  /** A send of the chunk at position `pos` of the channel's chunk stream, and what came of it. */
  datatype Send = Send(pos: nat, text: string, outcome: Outcome)

  /** A registered channel. The logs: messages published to it, messages handled, chunks settled, sends made, and the
      positions of the chunks that went into a placeholder. */
  datatype Channel = Channel(
    maxLen: int, queue: seq<Message>, worker: WorkerState, published: seq<Message>, handled: seq<Message>,
    settled: seq<string>, sends: seq<Send>, edited: set<nat>)

  datatype State = State(bus: seq<Message>, inFlight: Option<Message>, channels: map<string, Channel>)

  /** What Channel.Send returns: success, a permanent error, or one worth a retry. */
  datatype Outcome = Sent | Permanent | Retryable

  datatype Event =
    | Publish(msg: Message)                  // PublishOutbound
    | Dispatch                               // the dispatcher takes a message off the bus, or drops it
    | Enqueue                                // the dispatcher's send to the worker queue
    | Take(channel: string)                  // the worker receives and splits
    | Edit(channel: string)                  // a placeholder is edited instead of sending the chunk
    | Try(channel: string, outcome: Outcome) // one Send
    | Finish(channel: string)                // all chunks done

  /** Must the message be split, and then can it be? */
  ghost predicate Splittable(maxLen: int, content: string) {
    maxLen > 0 && |content| > maxLen ==> Split.CanSplit(content, maxLen)
  }

  function ChunksOf(maxLen: int, content: string): seq<string>
    requires Splittable(maxLen, content)
  {
    if maxLen > 0 && |content| > maxLen then Split.Chunks(content, 0, maxLen) else [content]
  }

  ghost predicate Enabled(s: State, e: Event) {
    match e
    case Publish(m) =>
      |s.bus| < BUS_CAPACITY
      && (m.channel in s.channels ==> Splittable(s.channels[m.channel].maxLen, m.content))
    case Dispatch => s.inFlight.None? && s.bus != []
    case Enqueue =>
      s.inFlight.Some? && s.inFlight.value.channel in s.channels
      && |s.channels[s.inFlight.value.channel].queue| < QUEUE_CAPACITY
    case Take(c) =>
      c in s.channels && s.channels[c].worker.Idle? && s.channels[c].queue != []
      && Splittable(s.channels[c].maxLen, s.channels[c].queue[0].content)
    case Edit(c) =>
      c in s.channels && s.channels[c].worker.Busy? && s.channels[c].worker.tries == 0
      && s.channels[c].worker.next < |s.channels[c].worker.chunks|
    case Try(c, _) =>
      c in s.channels && s.channels[c].worker.Busy? && s.channels[c].worker.next < |s.channels[c].worker.chunks|
    case Finish(c) =>
      c in s.channels && s.channels[c].worker.Busy? && s.channels[c].worker.next == |s.channels[c].worker.chunks|
  }

  /** The current chunk is done with: sent, given up or edited into a placeholder. */
  function Settle(ch: Channel): Channel
    requires ch.worker.Busy? && ch.worker.next < |ch.worker.chunks|
  {
    ch.(settled := ch.settled + [ch.worker.chunks[ch.worker.next]],
        worker := ch.worker.(next := ch.worker.next + 1, tries := 0))
  }

  function EditChunk(ch: Channel): Channel
    requires ch.worker.Busy? && ch.worker.next < |ch.worker.chunks|
  {
    Settle(ch.(edited := ch.edited + {|ch.settled|}))
  }

  function TrySend(ch: Channel, outcome: Outcome): Channel
    requires ch.worker.Busy? && ch.worker.next < |ch.worker.chunks|
  {
    var tried := ch.(sends := ch.sends + [Send(|ch.settled|, ch.worker.chunks[ch.worker.next], outcome)]);
    if outcome == Retryable && ch.worker.tries < MAX_RETRIES then
      tried.(worker := ch.worker.(tries := ch.worker.tries + 1))
    else Settle(tried)
  }

  function Next(s: State, e: Event): State
    requires Enabled(s, e)
  {
    match e
    case Publish(m) =>
      var sent := s.(bus := s.bus + [m]);
      if m.channel !in s.channels then sent
      else
        var ch := s.channels[m.channel];
        sent.(channels := s.channels[m.channel := ch.(published := ch.published + [m])])
    case Dispatch =>
      var m := s.bus[0];
      var dropped := IsInternalChannel(m.channel) || m.channel !in s.channels;
      s.(bus := s.bus[1..], inFlight := if dropped then None else Some(m))
    case Enqueue =>
      var m := s.inFlight.value;
      var ch := s.channels[m.channel];
      s.(inFlight := None, channels := s.channels[m.channel := ch.(queue := ch.queue + [m])])
    case Take(c) =>
      var ch := s.channels[c];
      var m := ch.queue[0];
      var chunks := ChunksOf(ch.maxLen, m.content);
      s.(channels := s.channels[c := ch.(queue := ch.queue[1..], worker := Busy(m, chunks, 0, 0))])
    case Edit(c) => s.(channels := s.channels[c := EditChunk(s.channels[c])])
    case Try(c, outcome) => s.(channels := s.channels[c := TrySend(s.channels[c], outcome)])
    case Finish(c) =>
      var ch := s.channels[c];
      s.(channels := s.channels[c := ch.(worker := Idle, handled := ch.handled + [ch.worker.msg])])
  }

  ghost predicate Fresh(s: State) {
    s.bus == [] && s.inFlight == None && forall c :: c in s.channels ==>
      !IsInternalChannel(c) && var ch := s.channels[c];
      && ch.queue == [] && ch.worker == Idle && ch.published == [] && ch.handled == []
      && ch.settled == [] && ch.sends == [] && ch.edited == {}
  }

  ghost predicate IsRun(start: State, events: seq<Event>, s: State) {
    if events == [] then s == start
    else
      var e := events[|events| - 1];
      exists before :: IsRun(start, events[..|events| - 1], before) && Enabled(before, e) && s == Next(before, e)
  }

  /* ---- order and conservation ---- */

  /** A channel's share of the bus. */
  function Share(bus: seq<Message>, c: string): seq<Message> {
    if bus == [] then []
    else (if bus[0].channel == c then [bus[0]] else []) + Share(bus[1..], c)
  }

  function InFlight(s: State, c: string): seq<Message> {
    if s.inFlight.Some? && s.inFlight.value.channel == c then [s.inFlight.value] else []
  }

  function Current(ch: Channel): seq<Message> {
    if ch.worker.Busy? then [ch.worker.msg] else []
  }

  /** The messages that are not handled yet, oldest first. */
  function Pending(s: State, c: string): seq<Message>
    requires c in s.channels
  {
    Current(s.channels[c]) + (s.channels[c].queue + (InFlight(s, c) + Share(s.bus, c)))
  }

  ghost predicate AllSplittable(maxLen: int, ms: seq<Message>) {
    forall i :: 0 <= i < |ms| ==> Splittable(maxLen, ms[i].content)
  }

  /** The chunks of a list of messages, one after the other. */
  function Stream(maxLen: int, ms: seq<Message>): seq<string>
    requires AllSplittable(maxLen, ms)
  {
    if ms == [] then [] else Stream(maxLen, ms[..|ms| - 1]) + ChunksOf(maxLen, ms[|ms| - 1].content)
  }

  lemma ShareFirst(a: seq<Message>, b: seq<Message>, c: string)
    requires a != []
    ensures Share(a + b, c) == (if a[0].channel == c then [a[0]] else []) + Share(a[1..] + b, c)
  {
    assert (a + b)[1..] == a[1..] + b;
  }

  lemma {:induction false} ShareConcat(a: seq<Message>, b: seq<Message>, c: string)
    ensures Share(a + b, c) == Share(a, c) + Share(b, c)
  {
    if a == [] {
      assert a + b == b;
    } else {
      ShareConcat(a[1..], b, c);
      ShareFirst(a, b, c);
    }
  }

  /** Published is handled, then pending. */
  ghost predicate InOrder(s: State, c: string) {
    && (c in s.channels ==> !IsInternalChannel(c))
    && (c in s.channels ==> s.channels[c].published == s.channels[c].handled + Pending(s, c))
  }

  lemma PublishOrder(s: State, c: string, m: Message)
    requires InOrder(s, c) && Enabled(s, Publish(m))
    ensures InOrder(Next(s, Publish(m)), c)
  {
    if c in s.channels {
      ShareConcat(s.bus, [m], c);
      var ch, share := s.channels[c], Share(s.bus, c);
      assert Share([m], c) == if m.channel == c then [m] else [];
      assert share + [] == share;
      assert ch.handled + (Current(ch) + (ch.queue + (InFlight(s, c) + share))) + [m]
          == ch.handled + (Current(ch) + (ch.queue + (InFlight(s, c) + (share + [m]))));
    }
  }

  lemma DispatchOrder(s: State, c: string)
    requires InOrder(s, c) && Enabled(s, Dispatch)
    ensures InOrder(Next(s, Dispatch), c)
  {
    if c in s.channels {
      var m, rest := s.bus[0], Share(s.bus[1..], c);
      assert Share(s.bus, c) == (if m.channel == c then [m] else []) + rest;
      assert [] + (([] + [m]) + rest) == [] + ([m] + rest) && [] + ([] + rest) == [] + rest;
    }
  }

  lemma EnqueueOrder(s: State, c: string)
    requires InOrder(s, c) && Enabled(s, Enqueue)
    ensures InOrder(Next(s, Enqueue), c)
  {
    if c in s.channels {
      var m, queue, share := s.inFlight.value, s.channels[c].queue, Share(s.bus, c);
      assert queue + ([m] + share) == (queue + [m]) + ([] + share);
    }
  }

  lemma TakeOrder(s: State, c: string, d: string)
    requires InOrder(s, c) && Enabled(s, Take(d))
    ensures InOrder(Next(s, Take(d)), c)
  {
    if c == d {
      var ch, behind := s.channels[c], InFlight(s, c) + Share(s.bus, c);
      assert ch.queue == [ch.queue[0]] + ch.queue[1..];
      assert [] + (([ch.queue[0]] + ch.queue[1..]) + behind) == [ch.queue[0]] + (ch.queue[1..] + behind);
    }
  }

  lemma SendOrder(s: State, c: string, e: Event)
    requires InOrder(s, c) && Enabled(s, e) && (e.Edit? || e.Try?)
    ensures InOrder(Next(s, e), c)
  {
  }

  lemma FinishOrder(s: State, c: string, d: string)
    requires InOrder(s, c) && Enabled(s, Finish(d))
    ensures InOrder(Next(s, Finish(d)), c)
  {
    if c == d {
      var ch := s.channels[c];
      var behind := ch.queue + (InFlight(s, c) + Share(s.bus, c));
      assert ch.handled + ([ch.worker.msg] + behind) == (ch.handled + [ch.worker.msg]) + ([] + behind);
    }
  }

  /* ---- chunk by chunk ---- */

  /** The worker is inside its message, and what it settled is the chunk stream of the handled messages followed
      by the first chunks of the current one. */
  ghost predicate Chunked(ch: Channel) {
    && AllSplittable(ch.maxLen, ch.published) && AllSplittable(ch.maxLen, ch.handled)
    && (ch.worker.Idle? ==> ch.settled == Stream(ch.maxLen, ch.handled))
    && (ch.worker.Busy? ==>
         Splittable(ch.maxLen, ch.worker.msg.content)
         && ch.worker.chunks == ChunksOf(ch.maxLen, ch.worker.msg.content)
         && ch.worker.next <= |ch.worker.chunks| && ch.worker.tries <= MAX_RETRIES
         && (ch.worker.next == |ch.worker.chunks| ==> ch.worker.tries == 0)
         && ch.settled == Stream(ch.maxLen, ch.handled) + ch.worker.chunks[..ch.worker.next])
  }

  /** The chunk that is being sent, when there is one. */
  function InProgress(ch: Channel): seq<string> {
    if ch.worker.Busy? && ch.worker.next < |ch.worker.chunks| then [ch.worker.chunks[ch.worker.next]] else []
  }

  function Tries(ch: Channel): nat {
    if ch.worker.Busy? then ch.worker.tries else 0
  }

  /** Sends never go back, carry the chunk of their position, and repeat a chunk at most MAX_RETRIES times;
      only the last `tries` of them are of the chunk in progress. */
  ghost predicate SendsForward(ch: Channel, tries: nat) {
    && (forall i :: 0 <= i < |ch.sends| ==> ch.sends[i].pos <= |ch.settled|)
    && (forall i :: 0 <= i < |ch.sends| && ch.sends[i].pos == |ch.settled| ==> i >= |ch.sends| - tries)
    && (forall i, j :: 0 <= i < j < |ch.sends| ==> ch.sends[i].pos <= ch.sends[j].pos)
    && (forall i :: 0 <= i < |ch.sends| ==> CarriesChunk(ch.sends[i], ch.settled + InProgress(ch)))
    && (forall i, j :: 0 <= i < j < |ch.sends| && ch.sends[i].pos == ch.sends[j].pos ==> j - i <= MAX_RETRIES)
  }

  predicate CarriesChunk(send: Send, stream: seq<string>) {
    send.pos < |stream| && send.text == stream[send.pos]
  }

  lemma SettleKeepsChunked(ch: Channel)
    requires Chunked(ch) && InProgress(ch) != []
    ensures Chunked(Settle(ch)) && Settle(ch).settled == ch.settled + InProgress(ch)
  {
    hide Splittable, AllSplittable, ChunksOf, Stream;
    var n, chunks := ch.worker.next, ch.worker.chunks;
    assert chunks[..n + 1] == chunks[..n] + [chunks[n]];
    assert Stream(ch.maxLen, ch.handled) + chunks[..n] + [chunks[n]]
        == Stream(ch.maxLen, ch.handled) + (chunks[..n] + [chunks[n]]);
  }

  /** Once the chunk in progress is settled, no send is of the next one. */
  lemma SettledSends(ch: Channel, next: Channel, tries: nat)
    requires SendsForward(ch, tries) && |InProgress(ch)| == 1
    requires next.sends == ch.sends && next.settled == ch.settled + InProgress(ch)
    ensures SendsForward(next, 0)
  {
    hide InProgress, CarriesChunk;
    forall i | 0 <= i < |ch.sends| ensures CarriesChunk(next.sends[i], next.settled + InProgress(next)) {
      CarriesLonger(ch.sends[i], ch.settled + InProgress(ch), InProgress(next));
    }
  }

  lemma CarriesLonger(send: Send, stream: seq<string>, more: seq<string>)
    requires CarriesChunk(send, stream)
    ensures CarriesChunk(send, stream + more)
  {
  }

  lemma SettleKeeps(ch: Channel, tries: nat)
    requires Chunked(ch) && InProgress(ch) != [] && SendsForward(ch, tries)
    ensures Chunked(Settle(ch)) && SendsForward(Settle(ch), 0)
  {
    hide Chunked, SendsForward;
    SettleKeepsChunked(ch);
    SettledSends(ch, Settle(ch), tries);
  }

  lemma SendKeeps(ch: Channel, outcome: Outcome)
    requires Chunked(ch) && InProgress(ch) != [] && SendsForward(ch, Tries(ch))
    ensures var send := Send(|ch.settled|, ch.worker.chunks[ch.worker.next], outcome);
      SendsForward(ch.(sends := ch.sends + [send]), Tries(ch) + 1)
  {
    hide Splittable, AllSplittable, ChunksOf, Stream, CarriesChunk;
    var send := Send(|ch.settled|, ch.worker.chunks[ch.worker.next], outcome);
    CarriesLast(ch.settled, send);
    assert ch.settled + InProgress(ch) == ch.settled + [ch.worker.chunks[ch.worker.next]];
  }

  lemma CarriesLast(stream: seq<string>, send: Send)
    requires send.pos == |stream|
    ensures CarriesChunk(send, stream + [send.text])
  {
  }

  lemma TryKeeps(ch: Channel, outcome: Outcome)
    requires Chunked(ch) && InProgress(ch) != [] && SendsForward(ch, Tries(ch))
    ensures var ch' := TrySend(ch, outcome); Chunked(ch') && SendsForward(ch', Tries(ch'))
  {
    SendKeeps(ch, outcome);
    var tried := ch.(sends := ch.sends + [Send(|ch.settled|, ch.worker.chunks[ch.worker.next], outcome)]);
    hide SendsForward;
    if outcome == Retryable && ch.worker.tries < MAX_RETRIES {
      SameSends(tried, TrySend(ch, outcome));
    } else {
      SettleKeeps(tried, Tries(ch) + 1);
    }
  }

  lemma SameSends(a: Channel, b: Channel)
    requires a.sends == b.sends && a.settled == b.settled && InProgress(a) == InProgress(b)
    ensures forall tries :: SendsForward(a, tries) ==> SendsForward(b, tries)
  {
  }

  ghost predicate Inv(s: State) {
    && (forall c :: c in s.channels ==>
         InOrder(s, c) && Chunked(s.channels[c]) && SendsForward(s.channels[c], Tries(s.channels[c])))
    && (s.inFlight.Some? ==> s.inFlight.value.channel in s.channels)
  }

  lemma InvMeans(s: State, c: string)
    requires Inv(s) && c in s.channels
    ensures InOrder(s, c) && Chunked(s.channels[c]) && SendsForward(s.channels[c], Tries(s.channels[c]))
  {
    hide InOrder, Chunked, SendsForward;
  }

  lemma OrderMeans(s: State, c: string)
    requires InOrder(s, c) && c in s.channels
    ensures var ch := s.channels[c];
      ch.published == ch.handled + (Current(ch) + (ch.queue + (InFlight(s, c) + Share(s.bus, c))))
  {
    hide Share;
  }

  lemma ChannelKeeps(s: State, e: Event, c: string)
    requires Enabled(s, e) && c in s.channels && InOrder(s, c)
    requires Chunked(s.channels[c]) && SendsForward(s.channels[c], Tries(s.channels[c]))
    ensures var ch := Next(s, e).channels[c]; Chunked(ch) && SendsForward(ch, Tries(ch))
  {
    hide InOrder, SendsForward, Splittable, ChunksOf, AllSplittable, Stream, Pending, Share;
    var ch, ch' := s.channels[c], Next(s, e).channels[c];
    match e
    case Publish(m) =>
      if c == m.channel {
        QueueKeeps(ch, m);
      }
    case Dispatch =>
    case Enqueue => SameSends(ch, ch');
    case Take(d) =>
      if c == d {
        OrderMeans(s, c);
        TakeKeeps(ch, InFlight(s, c) + Share(s.bus, c));
      }
    case Edit(d) =>
      if c == d {
        var marked := ch.(edited := ch.edited + {|ch.settled|});
        SameSends(ch, marked);
        SettleKeeps(marked, Tries(ch));
      }
    case Try(d, outcome) =>
      if c == d {
        TryKeeps(ch, outcome);
      }
    case Finish(d) =>
      if c == d {
        FinishKeeps(ch);
      }
  }

  lemma QueueKeeps(ch: Channel, m: Message)
    requires Chunked(ch) && SendsForward(ch, Tries(ch)) && Splittable(ch.maxLen, m.content)
    ensures var ch' := ch.(published := ch.published + [m]); Chunked(ch') && SendsForward(ch', Tries(ch'))
  {
    hide Splittable, Stream, ChunksOf, SendsForward;
    SameSends(ch, ch.(published := ch.published + [m]));
  }

  lemma TakeKeeps(ch: Channel, behind: seq<Message>)
    requires Chunked(ch) && SendsForward(ch, Tries(ch)) && ch.worker.Idle? && ch.queue != []
    requires ch.published == ch.handled + (Current(ch) + (ch.queue + behind))
    ensures Splittable(ch.maxLen, ch.queue[0].content)
    ensures var m := ch.queue[0];
      var ch' := ch.(queue := ch.queue[1..], worker := Busy(m, ChunksOf(ch.maxLen, m.content), 0, 0));
      Chunked(ch') && SendsForward(ch', Tries(ch'))
  {
    hide Splittable, Stream;
    assert ch.published[|ch.handled|] == ch.queue[0];
    var chunks := ChunksOf(ch.maxLen, ch.queue[0].content);
    assert chunks[..0] == [] && ch.settled + [] == ch.settled;
  }

  lemma FinishKeeps(ch: Channel)
    requires Chunked(ch) && SendsForward(ch, Tries(ch)) && ch.worker.Busy? && ch.worker.next == |ch.worker.chunks|
    ensures var ch' := ch.(worker := Idle, handled := ch.handled + [ch.worker.msg]);
      Chunked(ch') && SendsForward(ch', Tries(ch'))
  {
    hide Splittable, ChunksOf, Stream;
    var all := ch.handled + [ch.worker.msg];
    assert all[..|all| - 1] == ch.handled && ch.worker.chunks[..ch.worker.next] == ch.worker.chunks;
    assert AllSplittable(ch.maxLen, all);
    StreamSnoc(ch.maxLen, all);
    hide SendsForward;
    SameSends(ch, ch.(worker := Idle, handled := all));
  }

  lemma InvStays(s: State, e: Event)
    requires Inv(s) && Enabled(s, e)
    ensures Inv(Next(s, e))
  {
    var s' := Next(s, e);
    forall c | c in s'.channels
      ensures Chunked(s'.channels[c]) && SendsForward(s'.channels[c], Tries(s'.channels[c]))
    {
      ChannelKeeps(s, e, c);
    }
    forall c
      ensures InOrder(s', c)
    {
      match e
      case Publish(m) => PublishOrder(s, c, m);
      case Dispatch => DispatchOrder(s, c);
      case Enqueue => EnqueueOrder(s, c);
      case Take(d) => TakeOrder(s, c, d);
      case Edit(_) => SendOrder(s, c, e);
      case Try(_, _) => SendOrder(s, c, e);
      case Finish(d) => FinishOrder(s, c, d);
    }
  }

  lemma {:induction false} InvOnRuns(start: State, events: seq<Event>, s: State)
    requires Fresh(start) && IsRun(start, events, s)
    ensures Inv(s)
    decreases |events|
  {
    if events == [] {
    } else {
      hide Inv, Enabled, Next;
      var e := events[|events| - 1];
      var before :| IsRun(start, events[..|events| - 1], before) && Enabled(before, e) && s == Next(before, e);
      InvOnRuns(start, events[..|events| - 1], before);
      InvStays(before, e);
    }
  }

  lemma {:induction false} StreamConcat(maxLen: int, a: seq<Message>, b: seq<Message>)
    requires AllSplittable(maxLen, a + b) && AllSplittable(maxLen, a) && AllSplittable(maxLen, b)
    ensures Stream(maxLen, a + b) == Stream(maxLen, a) + Stream(maxLen, b)
    decreases |b|
  {
    hide Splittable, ChunksOf;
    if b == [] {
      assert a + b == a;
    } else {
      var init, last := b[..|b| - 1], b[|b| - 1];
      assert (a + b)[..|a + b| - 1] == a + init;
      StreamConcat(maxLen, a, init);
      hide Stream, AllSplittable;
      StreamSnoc(maxLen, a + b);
      StreamSnoc(maxLen, b);
      var x, y, z := Stream(maxLen, a), Stream(maxLen, init), ChunksOf(maxLen, last.content);
      assert x + y + z == x + (y + z);
    }
  }

  lemma StreamSnoc(maxLen: int, ms: seq<Message>)
    requires AllSplittable(maxLen, ms) && ms != []
    ensures Splittable(maxLen, ms[|ms| - 1].content) && AllSplittable(maxLen, ms[..|ms| - 1])
    ensures Stream(maxLen, ms) == Stream(maxLen, ms[..|ms| - 1]) + ChunksOf(maxLen, ms[|ms| - 1].content)
  {
    hide Splittable, ChunksOf;
  }

  /** In every interleaving, what was published to a channel is what it handled, then what its worker has, its
      queue, the dispatcher's message and its share of the bus: nothing is lost, repeated or overtaken. */
  lemma {:induction false} PublishedIsConserved(start: State, events: seq<Event>, s: State, c: string)
    requires Fresh(start) && IsRun(start, events, s) && c in s.channels
    ensures var ch := s.channels[c];
      ch.published == ch.handled + (Current(ch) + (ch.queue + (InFlight(s, c) + Share(s.bus, c))))
  {
    InvOnRuns(start, events, s);
    OrderMeans(s, c);
  }

  /** And the chunks go out in publish order: settled chunks are a prefix of the chunk stream of everything
      published, every send carries the chunk of its position, positions never decrease, and no chunk is sent
      more than four times. */
  lemma ChunksGoOutInOrder(start: State, events: seq<Event>, s: State, c: string)
    requires Fresh(start) && IsRun(start, events, s) && c in s.channels
    ensures AllSplittable(s.channels[c].maxLen, s.channels[c].published)
    ensures var ch := s.channels[c]; var stream := Stream(ch.maxLen, ch.published);
      ch.settled <= stream
      && (forall i :: 0 <= i < |ch.sends| ==> CarriesChunk(ch.sends[i], stream))
      && (forall i, j :: 0 <= i < j < |ch.sends| ==> ch.sends[i].pos <= ch.sends[j].pos)
      && (forall i, j :: 0 <= i < j < |ch.sends| && ch.sends[i].pos == ch.sends[j].pos ==> j - i <= 3)
  {
    hide *;
    InvOnRuns(start, events, s);
    InvMeans(s, c);
    OrderMeans(s, c);
    var ch := s.channels[c];
    var behind := ch.queue + (InFlight(s, c) + Share(s.bus, c));
    assert ch.handled + (Current(ch) + behind) == ch.handled + Current(ch) + behind;
    SettledIsPrefix(ch, behind);
    SendsCarry(ch, Stream(ch.maxLen, ch.published));
  }

  lemma SendsCarry(ch: Channel, stream: seq<string>)
    requires SendsForward(ch, Tries(ch)) && ch.settled + InProgress(ch) <= stream
    ensures ch.settled <= stream
    ensures forall i :: 0 <= i < |ch.sends| ==> CarriesChunk(ch.sends[i], stream)
    ensures forall i, j :: 0 <= i < j < |ch.sends| ==> ch.sends[i].pos <= ch.sends[j].pos
    ensures forall i, j :: 0 <= i < j < |ch.sends| && ch.sends[i].pos == ch.sends[j].pos ==> j - i <= 3
  {
    hide InProgress;
    assert ch.settled <= ch.settled + InProgress(ch);
  }

  lemma SettledIsPrefix(ch: Channel, behind: seq<Message>)
    requires Chunked(ch) && ch.published == (ch.handled + Current(ch)) + behind
    ensures AllSplittable(ch.maxLen, ch.published)
    ensures ch.settled + InProgress(ch) <= Stream(ch.maxLen, ch.published)
  {
    var done := ch.handled + Current(ch);
    hide Splittable, ChunksOf, Stream;
    assert ch.published[..|done|] == done && ch.published[|done|..] == behind;
    StreamConcat(ch.maxLen, done, behind);
    if ch.worker.Busy? {
      var n, chunks := ch.worker.next, ch.worker.chunks;
      StreamSnoc(ch.maxLen, done);
      assert done[..|done| - 1] == ch.handled;
      assert chunks == chunks[..n] + chunks[n..];
    } else {
      assert done == ch.handled;
    }
  }

  /** The splitter always terminates for the worker: a queued message is one that can be split. */
  lemma {:induction false} QueuedIsSplittable(start: State, events: seq<Event>, s: State, c: string)
    requires Fresh(start) && IsRun(start, events, s) && c in s.channels && s.channels[c].queue != []
    ensures Splittable(s.channels[c].maxLen, s.channels[c].queue[0].content)
  {
    hide *;
    InvOnRuns(start, events, s);
    InvMeans(s, c);
    HeadIsSplittable(s, c);
  }

  /* ---- what a chunk is, and what became of it ---- */

  /** The parts account for the text: it is the only part when it fits, else parts that fit, which are the text with
      closing fences and its own fence lines put in, white space ignored. */
  ghost predicate Accounts(maxLen: int, text: string, parts: seq<string>) {
    if maxLen <= 0 || |text| <= maxLen then parts == [text]
    else
      && (forall p :: p in parts ==> 0 < |p| <= maxLen)
      && exists seams :: MakeUp(text, seams, parts)
  }

  ghost predicate MakeUp(text: string, seams: seq<Split.Insertion>, parts: seq<string>) {
    && (forall x :: x in seams ==> Split.IsSeamOf(text, x))
    && Split.InsertAll(Text.Strip(text), seams) == Text.Strip(Text.Flatten(parts))
  }

  lemma ChunksAccount(maxLen: int, text: string)
    requires Splittable(maxLen, text)
    ensures Accounts(maxLen, text, ChunksOf(maxLen, text))
  {
    hide Split.Chunks, Split.CanSplit, Split.IsSeamOf, Split.InsertAll, Text.Strip, Text.Flatten;
    if maxLen > 0 && |text| > maxLen {
      Split.ChunksFit(text, 0, maxLen);
      Split.MessageAccounts(text, maxLen);
      Split.SeamsRepeatFenceLines(text, 0, maxLen, 0);
      assert MakeUp(text, Split.Seams(text, 0, maxLen, 0), ChunksOf(maxLen, text));
    }
  }

  /** The parts of several messages, one after the other. */
  function Joined(parts: seq<seq<string>>): seq<string> {
    if parts == [] then [] else Joined(parts[..|parts| - 1]) + parts[|parts| - 1]
  }

  lemma {:induction false} StreamParts(maxLen: int, ms: seq<Message>) returns (parts: seq<seq<string>>)
    requires AllSplittable(maxLen, ms)
    ensures Stream(maxLen, ms) == Joined(parts) && |parts| == |ms|
    ensures forall i :: 0 <= i < |ms| ==> Accounts(maxLen, ms[i].content, parts[i])
  {
    hide Splittable, ChunksOf, Accounts;
    if ms == [] {
      parts := [];
    } else {
      var init, last := ms[..|ms| - 1], ms[|ms| - 1].content;
      var before := StreamParts(maxLen, init);
      ChunksAccount(maxLen, last);
      parts := before + [ChunksOf(maxLen, last)];
      assert parts[..|parts| - 1] == before;
    }
  }

  /** In every interleaving: the chunks settled begin with parts that account, message by message, for everything the
      channel has handled, and are just those parts while its worker is idle. */
  lemma HandledIsAccounted(start: State, events: seq<Event>, s: State, c: string) returns (parts: seq<seq<string>>)
    requires Fresh(start) && IsRun(start, events, s) && c in s.channels
    ensures var ch := s.channels[c];
      && |parts| == |ch.handled| && Joined(parts) <= ch.settled && (ch.worker.Idle? ==> Joined(parts) == ch.settled)
      && forall i :: 0 <= i < |ch.handled| ==> Accounts(ch.maxLen, ch.handled[i].content, parts[i])
  {
    hide Accounts, Joined, Stream, ChunksOf, Splittable, SendsForward;
    InvOnRuns(start, events, s);
    InvMeans(s, c);
    hide InOrder, Inv;
    parts := StreamParts(s.channels[c].maxLen, s.channels[c].handled);
  }

  lemma {:induction false} StreamFits(maxLen: int, ms: seq<Message>)
    requires AllSplittable(maxLen, ms) && maxLen > 0
    ensures forall x :: x in Stream(maxLen, ms) ==> |x| <= maxLen
  {
    hide Splittable, ChunksOf, Split.InsertAll, Split.IsSeamOf;
    if ms != [] {
      StreamFits(maxLen, ms[..|ms| - 1]);
      ChunksAccount(maxLen, ms[|ms| - 1].content);
    }
  }

  /** And every send respects the limit of its channel. */
  lemma SendsRespectLimit(start: State, events: seq<Event>, s: State, c: string)
    requires Fresh(start) && IsRun(start, events, s) && c in s.channels && s.channels[c].maxLen > 0
    ensures var ch := s.channels[c]; forall i :: 0 <= i < |ch.sends| ==> |ch.sends[i].text| <= ch.maxLen
  {
    ChunksGoOutInOrder(start, events, s, c);
    hide Stream, AllSplittable, Fresh, IsRun;
    StreamFits(s.channels[c].maxLen, s.channels[c].published);
  }

  ghost predicate Delivered(ch: Channel, pos: nat) {
    exists i :: 0 <= i < |ch.sends| && ch.sends[i].pos == pos && ch.sends[i].outcome != Retryable
  }

  /** Four sends in a row: one and three repeats. */
  ghost predicate Exhausted(ch: Channel, pos: nat) {
    exists i: nat :: SendsFrom(ch, pos, i)
  }

  predicate SendsFrom(ch: Channel, pos: nat, i: nat) {
    i + 3 < |ch.sends| && forall k :: i <= k <= i + 3 ==> ch.sends[k].pos == pos
  }

  /** A settled chunk went into a placeholder, was sent or refused for good, or has been tried often enough; and the
      tries of the chunk in progress are the last sends. */
  ghost predicate Reasoned(ch: Channel) {
    && (forall pos: nat :: pos < |ch.settled| ==> pos in ch.edited || Delivered(ch, pos) || Exhausted(ch, pos))
    && Tries(ch) <= |ch.sends|
    && forall i :: |ch.sends| - Tries(ch) <= i < |ch.sends| ==> ch.sends[i].pos == |ch.settled|
  }

  /** Only a send that failed in passing is followed by another of the same chunk. */
  ghost predicate RepeatsFailures(ch: Channel) {
    && (forall i, j :: 0 <= i < j < |ch.sends| && ch.sends[i].pos == ch.sends[j].pos ==>
         ch.sends[i].outcome == Retryable)
    && forall i :: 0 <= i < |ch.sends| && ch.sends[i].pos == |ch.settled| ==> ch.sends[i].outcome == Retryable
  }

  lemma TryRepeatsFailures(ch: Channel, outcome: Outcome)
    requires InProgress(ch) != [] && SendsForward(ch, Tries(ch)) && RepeatsFailures(ch)
    ensures RepeatsFailures(TrySend(ch, outcome))
  {
    hide CarriesChunk;
  }

  lemma TryReasons(ch: Channel, outcome: Outcome)
    requires Chunked(ch) && InProgress(ch) != [] && Reasoned(ch)
    ensures Reasoned(TrySend(ch, outcome))
  {
    var ch' := TrySend(ch, outcome);
    var n := |ch.sends|;
    hide Splittable, AllSplittable, ChunksOf, Stream, Chunked;
    assert ch'.sends[..n] == ch.sends;
    forall pos: nat | pos < |ch.settled|
      ensures pos in ch'.edited || Delivered(ch', pos) || Exhausted(ch', pos)
    {
      MoreSends(ch, ch', pos);
    }
    if |ch'.settled| > |ch.settled| {
      if outcome == Retryable {
        assert SendsFrom(ch', |ch.settled|, n - MAX_RETRIES);
      } else {
        assert ch'.sends[n].pos == |ch.settled| && ch'.sends[n].outcome != Retryable;
      }
    }
  }

  lemma MoreSends(ch: Channel, ch': Channel, pos: nat)
    requires ch.sends <= ch'.sends && ch.edited <= ch'.edited
    ensures Delivered(ch, pos) ==> Delivered(ch', pos)
    ensures Exhausted(ch, pos) ==> Exhausted(ch', pos)
  {
    if Exhausted(ch, pos) {
      var i: nat :| SendsFrom(ch, pos, i);
      assert SendsFrom(ch', pos, i);
    }
  }

  lemma SameReasons(ch: Channel, ch': Channel)
    requires Reasoned(ch) && ch.sends == ch'.sends && ch.edited <= ch'.edited && ch.settled <= ch'.settled
    requires Tries(ch') == if ch'.settled == ch.settled then Tries(ch) else 0
    requires forall pos: nat :: |ch.settled| <= pos < |ch'.settled| ==> pos in ch'.edited
    ensures Reasoned(ch')
  {
    forall pos: nat | pos < |ch.settled|
      ensures pos in ch'.edited || Delivered(ch', pos) || Exhausted(ch', pos)
    {
      MoreSends(ch, ch', pos);
    }
    hide Delivered, Exhausted;
  }

  lemma StepReasons(s: State, e: Event, c: string)
    requires Enabled(s, e) && c in s.channels && Chunked(s.channels[c]) && Reasoned(s.channels[c])
    requires SendsForward(s.channels[c], Tries(s.channels[c])) && RepeatsFailures(s.channels[c])
    ensures Reasoned(Next(s, e).channels[c]) && RepeatsFailures(Next(s, e).channels[c])
  {
    hide Reasoned, Splittable, AllSplittable, ChunksOf, Stream, SendsForward, RepeatsFailures;
    var ch, ch' := s.channels[c], Next(s, e).channels[c];
    if e.Try? && e.channel == c {
      TryReasons(ch, e.outcome);
      TryRepeatsFailures(ch, e.outcome);
    } else {
      SameReasons(ch, ch');
      SameFailures(ch, ch');
    }
  }

  lemma SameFailures(ch: Channel, ch': Channel)
    requires RepeatsFailures(ch) && SendsForward(ch, Tries(ch)) && ch'.sends == ch.sends && ch.settled <= ch'.settled
    ensures RepeatsFailures(ch')
  {
    hide CarriesChunk;
  }

  lemma {:induction false} ReasonedOnRuns(start: State, events: seq<Event>, s: State, c: string)
    requires Fresh(start) && IsRun(start, events, s) && c in s.channels
    ensures Reasoned(s.channels[c]) && RepeatsFailures(s.channels[c])
    decreases |events|
  {
    if events != [] {
      var e := events[|events| - 1];
      var before :| IsRun(start, events[..|events| - 1], before) && Enabled(before, e) && s == Next(before, e);
      assert c in before.channels;
      hide Reasoned, RepeatsFailures, Next, Enabled, Chunked, Fresh, SendsForward;
      ReasonedOnRuns(start, events[..|events| - 1], before, c);
      InvOnRuns(start, events[..|events| - 1], before);
      InvMeans(before, c);
      StepReasons(before, e, c);
    }
  }

  /** No chunk is given up early: every settled chunk went into a placeholder, was sent or refused for good, or has been
      tried four times. And none is sent again but after a failure in passing. */
  lemma SettledForAReason(start: State, events: seq<Event>, s: State, c: string, pos: nat)
    requires Fresh(start) && IsRun(start, events, s) && c in s.channels && pos < |s.channels[c].settled|
    ensures var ch := s.channels[c]; pos in ch.edited || Delivered(ch, pos) || Exhausted(ch, pos)
    ensures RepeatsFailures(s.channels[c])
  {
    hide Fresh, IsRun;
    ReasonedOnRuns(start, events, s, c);
    hide Delivered, Exhausted;
  }

  /* ---- progress ---- */

  /** Steps a message still costs a worker: at most 1 + MAX_RETRIES sends for each of its chunks. */
  ghost function Load(maxLen: int, content: string): nat {
    if Splittable(maxLen, content) then (1 + MAX_RETRIES) * |ChunksOf(maxLen, content)| else 0
  }

  ghost function QueueLoad(maxLen: int, queue: seq<Message>): nat {
    if queue == [] then 0 else 2 + Load(maxLen, queue[0].content) + QueueLoad(maxLen, queue[1..])
  }

  /** Steps left for a channel's worker: what remains of its message, and its queue. */
  ghost function ChannelLoad(ch: Channel): nat {
    QueueLoad(ch.maxLen, ch.queue) + WorkLoad(ch.worker)
  }

  function WorkLoad(w: WorkerState): nat {
    if w.Idle? then 0
    else
      var steps := 1 + (1 + MAX_RETRIES) * (|w.chunks| - w.next) - w.tries;
      if steps > 0 then steps else 0
  }

  function Limits(s: State): map<string, int> {
    map c | c in s.channels :: s.channels[c].maxLen
  }

  ghost function MessageLoad(limits: map<string, int>, m: Message): nat {
    if m.channel in limits then Load(limits[m.channel], m.content) else 0
  }

  ghost function BusLoad(limits: map<string, int>, bus: seq<Message>): nat {
    if bus == [] then 0 else 4 + MessageLoad(limits, bus[0]) + BusLoad(limits, bus[1..])
  }

  ghost function SumLoad(names: seq<string>, channels: map<string, Channel>): nat
    requires forall c :: c in names ==> c in channels
  {
    if names == [] then 0 else ChannelLoad(channels[names[0]]) + SumLoad(names[1..], channels)
  }

  /** A list of all registered channels. */
  ghost predicate Enumerates(names: seq<string>, channels: map<string, Channel>) {
    (forall c :: c in names <==> c in channels) && forall i, j :: 0 <= i < j < |names| ==> names[i] != names[j]
  }

  /** Steps left before everything published is handled. */
  ghost function StepsLeft(s: State, names: seq<string>): nat
    requires Enumerates(names, s.channels)
  {
    BusLoad(Limits(s), s.bus)
    + (if s.inFlight.Some? then 3 + MessageLoad(Limits(s), s.inFlight.value) else 0)
    + SumLoad(names, s.channels)
  }

  lemma {:induction false} QueueLoadSnoc(maxLen: int, queue: seq<Message>, m: Message)
    ensures QueueLoad(maxLen, queue + [m]) == QueueLoad(maxLen, queue) + 2 + Load(maxLen, m.content)
  {
    hide Load;
    if queue == [] {
      assert (queue + [m])[1..] == [];
    } else {
      assert (queue + [m])[1..] == queue[1..] + [m];
      QueueLoadSnoc(maxLen, queue[1..], m);
    }
  }

  /** Changing one channel changes the sum by what that channel's load changes. */
  lemma {:induction false} SumOfOneChange(names: seq<string>, a: map<string, Channel>, c: string, ch: Channel)
    requires forall d :: d in names ==> d in a
    requires c in a && forall i, j :: 0 <= i < j < |names| ==> names[i] != names[j]
    ensures SumLoad(names, a[c := ch])
         == SumLoad(names, a) + if c in names then ChannelLoad(ch) - ChannelLoad(a[c]) else 0
  {
    hide ChannelLoad;
    if names != [] {
      SumOfOneChange(names[1..], a, c, ch);
      assert c in names <==> c == names[0] || c in names[1..];
    }
  }

  /** A step of a worker changes its channel alone. */
  lemma WorkerStep(s: State, e: Event, c: string)
    requires Enabled(s, e) && (e.Take? || e.Edit? || e.Try? || e.Finish?) && e.channel == c
    ensures Next(s, e) == s.(channels := s.channels[c := Next(s, e).channels[c]])
    ensures Next(s, e).channels[c].maxLen == s.channels[c].maxLen
  {
    hide Splittable, ChunksOf;
  }

  /** And lowers its load. */
  lemma WorkerLowers(s: State, e: Event, c: string)
    requires Enabled(s, e) && (e.Take? || e.Edit? || e.Try? || e.Finish?) && e.channel == c
    requires Chunked(s.channels[c])
    ensures ChannelLoad(Next(s, e).channels[c]) < ChannelLoad(s.channels[c])
  {
    hide Splittable, ChunksOf, AllSplittable, Stream;
    if !e.Take? {
      hide QueueLoad, Load;
    }
  }

  /** A change of one channel that keeps its limit changes the steps left by what its load changes. */
  lemma OneChannelChanges(s: State, names: seq<string>, c: string, ch: Channel)
    requires Enumerates(names, s.channels) && c in s.channels && ch.maxLen == s.channels[c].maxLen
    ensures var s' := s.(channels := s.channels[c := ch]);
      Enumerates(names, s'.channels) && Limits(s') == Limits(s)
      && StepsLeft(s', names) == StepsLeft(s, names) + ChannelLoad(ch) - ChannelLoad(s.channels[c])
  {
    hide SumLoad, BusLoad, ChannelLoad, MessageLoad;
    var s' := s.(channels := s.channels[c := ch]);
    assert Limits(s') == Limits(s);
    SumOfOneChange(names, s.channels, c, ch);
  }

  lemma EnqueueLowers(s: State, names: seq<string>)
    requires Enabled(s, Enqueue) && Enumerates(names, s.channels)
    ensures Enumerates(names, Next(s, Enqueue).channels)
    ensures StepsLeft(Next(s, Enqueue), names) < StepsLeft(s, names)
  {
    hide SumLoad, BusLoad, Load, Enumerates, QueueLoad;
    var m := s.inFlight.value;
    var ch := s.channels[m.channel];
    QueueLoadSnoc(ch.maxLen, ch.queue, m);
    OneChannelChanges(s.(inFlight := None), names, m.channel, ch.(queue := ch.queue + [m]));
  }

  /** Every step of the dispatcher or of a worker leaves fewer steps. */
  lemma StepLowers(s: State, e: Event, names: seq<string>)
    requires Inv(s) && Enabled(s, e) && !e.Publish? && Enumerates(names, s.channels)
    ensures Enumerates(names, Next(s, e).channels) && StepsLeft(Next(s, e), names) < StepsLeft(s, names)
  {
    if e.Dispatch? {
      hide Inv, Load, SumLoad;
    } else if e.Enqueue? {
      hide Inv, Next, Enabled, StepsLeft, Enumerates;
      EnqueueLowers(s, names);
    } else {
      var c := e.channel;
      InvMeans(s, c);
      WorkerStep(s, e, c);
      WorkerLowers(s, e, c);
      assert c in s.channels;
      hide Inv, Next, Enabled, StepsLeft, Enumerates, ChannelLoad;
      OneChannelChanges(s, names, c, Next(s, e).channels[c]);
    }
  }

  /** Everything published has been handled. */
  ghost predicate Drained(s: State) {
    s.bus == [] && s.inFlight.None? && forall c :: c in s.channels ==> s.channels[c].handled == s.channels[c].published
  }

  ghost predicate OnlyPublishEnabled(s: State) {
    forall e :: Enabled(s, e) ==> e.Publish?
  }

  /** The dispatcher and the workers can always go on until everything is handled, and then they rest. */
  lemma RestsExactlyWhenDrained(s: State)
    requires Inv(s)
    ensures OnlyPublishEnabled(s) <==> Drained(s)
  {
    if Drained(s) {
      forall c | c in s.channels
        ensures !IsWorking(s.channels[c])
      {
        InvMeans(s, c);
        DrainedIsIdle(s, c);
      }
      hide Inv, Splittable;
    } else {
      SomethingToDo(s);
    }
  }

  lemma DrainedIsIdle(s: State, c: string)
    requires InOrder(s, c) && Drained(s) && c in s.channels
    ensures !IsWorking(s.channels[c])
  {
    OrderMeans(s, c);
    hide InOrder, Share;
    var ch := s.channels[c];
    assert |ch.published| == |ch.handled| + |Current(ch)| + |ch.queue| + |InFlight(s, c)| + |Share(s.bus, c)|;
  }

  lemma GoesOn(s: State, e: Event)
    requires Enabled(s, e) && !e.Publish?
    ensures !OnlyPublishEnabled(s)
  {
    hide Enabled;
  }

  lemma SomethingToDo(s: State)
    requires Inv(s) && !Drained(s)
    ensures !OnlyPublishEnabled(s)
  {
    hide Splittable, Chunked, SendsForward, InOrder, OnlyPublishEnabled;
    if c :| c in s.channels && IsWorking(s.channels[c]) {
      InvMeans(s, c);
      WorkingGoesOn(s, c);
    } else if s.inFlight.Some? {
      GoesOn(s, Enqueue);
    } else if s.bus != [] {
      GoesOn(s, Dispatch);
    } else {
      forall c | c in s.channels
        ensures s.channels[c].handled == s.channels[c].published
      {
        OrderMeans(s, c);
        assert Share(s.bus, c) == [];
      }
    }
  }

  predicate IsWorking(ch: Channel) {
    ch.worker.Busy? || ch.queue != []
  }

  lemma WorkingGoesOn(s: State, c: string)
    requires c in s.channels && InOrder(s, c) && Chunked(s.channels[c]) && IsWorking(s.channels[c])
    ensures !OnlyPublishEnabled(s)
  {
    hide InOrder, AllSplittable, Stream, ChunksOf, Splittable, OnlyPublishEnabled;
    var w := s.channels[c].worker;
    if w.Idle? {
      HeadIsSplittable(s, c);
    }
    GoesOn(s, if w.Idle? then Take(c) else if w.next < |w.chunks| then Try(c, Sent) else Finish(c));
  }

  lemma HeadIsSplittable(s: State, c: string)
    requires c in s.channels && InOrder(s, c) && Chunked(s.channels[c]) && s.channels[c].queue != []
    ensures Splittable(s.channels[c].maxLen, s.channels[c].queue[0].content)
  {
    hide Splittable, Stream;
    var ch := s.channels[c];
    OrderMeans(s, c);
    hide InOrder;
    assert ch.published[|ch.handled| + |Current(ch)|] == ch.queue[0];
  }

  ghost predicate NothingPublished(events: seq<Event>) {
    forall i :: 0 <= i < |events| ==> !events[i].Publish?
  }

  lemma {:induction false} StepsAreCounted(s: State, more: seq<Event>, s': State, names: seq<string>)
    requires Inv(s) && IsRun(s, more, s') && NothingPublished(more) && Enumerates(names, s.channels)
    ensures Inv(s') && Enumerates(names, s'.channels) && |more| + StepsLeft(s', names) <= StepsLeft(s, names)
    decreases |more|
  {
    hide Inv, Enabled, Next, StepsLeft, Enumerates;
    if more != [] {
      var e := more[|more| - 1];
      var before :| IsRun(s, more[..|more| - 1], before) && Enabled(before, e) && s' == Next(before, e);
      StepsAreCounted(s, more[..|more| - 1], before, names);
      InvStays(before, e);
      StepLowers(before, e, names);
    }
  }

  /** Whatever the scheduling, once publishing stops the dispatcher and the workers come to rest after a bounded
      number of steps, and they rest exactly when every published message has been handled. */
  lemma EverythingIsHandled(start: State, events: seq<Event>, s: State, more: seq<Event>, s': State,
                            names: seq<string>)
    requires Fresh(start) && IsRun(start, events, s) && IsRun(s, more, s') && NothingPublished(more)
    requires Enumerates(names, s.channels)
    ensures |more| <= StepsLeft(s, names)
    ensures OnlyPublishEnabled(s') <==> Drained(s')
  {
    hide *;
    InvOnRuns(start, events, s);
    StepsAreCounted(s, more, s', names);
    RestsExactlyWhenDrained(s');
  }

}
