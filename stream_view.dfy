/** `src/pages/Index.tsx`: the page's per-slot stream state. Each socket event
    is one step of a reducer over the two slots' finished messages, their
    in-progress buffers and their typing flags. */
module StreamView {
  import opened Wrappers
  import opened Text
  import opened Socket
  import opened Seqs

  /** A pair of values indexed by slot, as in `{ A: …, B: … }`. */
  datatype PerSlot<T> = PerSlot(a: T, b: T) {
    function Get(s: Slot): T {
      if s == A then a else b
    }

    /** `{ ...prev, [s]: v }`. */
    function Set(s: Slot, v: T): (r: PerSlot<T>)
      ensures r.Get(s) == v
      ensures forall t :: t != s ==> r.Get(t) == Get(t)
    {
      if s == A then this.(a := v) else this.(b := v)
    }
  }

  datatype MessageKind = UserMessage | AiMessage

  /** A chat bubble; `timestamp` is the wall clock in milliseconds. */
  datatype Message = Message(id: string, kind: MessageKind, content: string, timestamp: nat, modelType: Option<Slot>)

  /** The page state driven by socket events. */
  datatype View = View(messages: PerSlot<seq<Message>>, current: PerSlot<string>,
                       typing: PerSlot<bool>, session: Option<SessionState>, connected: bool)

  const Initial: View := View(PerSlot([], []), PerSlot("", ""), PerSlot(false, false), None, false)

  /** Socket events; `now` is the clock reading when a `messageChunk` is handled. */
  datatype Event =
    | Connect
    | Disconnect
    | Chunk(data: MessageChunk, now: nat)
    | Typing(modelType: Slot, isTyping: bool)
    | SessionUpdate(state: SessionState)

  /** The event's slot, if it is about one. */
  function SlotOf(e: Event): Option<Slot> {
    match e
    case Chunk(data, _) => Some(data.modelType)
    case Typing(s, _) => Some(s)
    case _ => None
  }

  /** The message a final chunk completes: buffer plus final chunk. */
  function Completed(v: View, s: Slot, chunk: string, now: nat): Message {
    Message("ai-" + NatToString(now) + "-" + SlotName(s), AiMessage, v.current.Get(s) + chunk, now, Some(s))
  }

  /** One event handler: it changes only the slot the event is about, never
      drops a finished message, and only a session update changes the session. */
  function Step(v: View, e: Event): (r: View)
    ensures forall t :: SlotOf(e) != Some(t) ==> StateOf(r, t) == StateOf(v, t)
    ensures forall t :: v.messages.Get(t) <= r.messages.Get(t)
    ensures r.session == (if e.SessionUpdate? then Some(e.state) else v.session)
  {
    match e
    case Connect => v.(connected := true)
    case Disconnect => v.(connected := false)
    case Chunk(data, now) =>
      var s := data.modelType;
      if data.isComplete then
        v.(messages := v.messages.Set(s, v.messages.Get(s) + [Completed(v, s, data.chunk, now)]),
           current := v.current.Set(s, ""),
           typing := v.typing.Set(s, false))
      else
        v.(current := v.current.Set(s, v.current.Get(s) + data.chunk))
    case Typing(s, t) => v.(typing := v.typing.Set(s, t))
    case SessionUpdate(st) => v.(session := Some(st))
  }

  /** The events handled in order; finished messages are only ever appended to. */
  function Run(v: View, es: seq<Event>): (r: View)
    ensures forall t :: v.messages.Get(t) <= r.messages.Get(t)
    decreases |es|
  {
    if |es| == 0 then v else Run(Step(v, es[0]), es[1..])
  }

  /** The state success of `initSession` leaves: both slots emptied, the rest kept. */
  function Reset(v: View): (r: View)
    ensures forall t :: StateOf(r, t) == SlotState([], "", false)
    ensures r.session == v.session && r.connected == v.connected
  {
    v.(messages := PerSlot([], []), current := PerSlot("", ""), typing := PerSlot(false, false))
  }

  /** Everything the page holds about one slot. */
  datatype SlotState = SlotState(messages: seq<Message>, current: string, typing: bool)

  function StateOf(v: View, s: Slot): SlotState {
    SlotState(v.messages.Get(s), v.current.Get(s), v.typing.Get(s))
  }

  // ---- One step ---------------------------------------------------------------

  /** A non-final chunk grows its slot's buffer and touches nothing else. */
  lemma PartialChunkAppends(v: View, data: MessageChunk, now: nat)
    requires !data.isComplete
    ensures var w := Step(v, Chunk(data, now));
      w.current.Get(data.modelType) == v.current.Get(data.modelType) + data.chunk
      && w.messages == v.messages && w.typing == v.typing && w.session == v.session
  {
  }

  /** A final chunk appends exactly one AI message for its slot, whose content
      is the buffer plus the chunk, after the existing ones; the buffer empties
      and the typing flag drops. */
  lemma FinalChunkCompletes(v: View, data: MessageChunk, now: nat)
    requires data.isComplete
    ensures var s := data.modelType; var w := Step(v, Chunk(data, now));
      |w.messages.Get(s)| == |v.messages.Get(s)| + 1
      && w.messages.Get(s)[..|v.messages.Get(s)|] == v.messages.Get(s)
      && w.messages.Get(s)[|v.messages.Get(s)|].kind == AiMessage
      && w.messages.Get(s)[|v.messages.Get(s)|].modelType == Some(s)
      && w.messages.Get(s)[|v.messages.Get(s)|].content == v.current.Get(s) + data.chunk
      && w.current.Get(s) == "" && !w.typing.Get(s)
  {
    var s := data.modelType;
    var w := Step(v, Chunk(data, now));
    assert w.messages.Get(s) == v.messages.Get(s) + [Completed(v, s, data.chunk, now)];
  }

  /** A typing event sets only its own slot's flag. */
  lemma TypingSetsOnlyItsFlag(v: View, s: Slot, t: bool)
    ensures Step(v, Typing(s, t)).typing.Get(s) == t
    ensures StateOf(Step(v, Typing(s, t)), s).messages == v.messages.Get(s)
    ensures Step(v, Typing(s, t)).current == v.current
  {
  }

  /** An event about another slot, or about no slot, leaves this slot alone. */
  lemma StepLeavesOtherSlot(v: View, e: Event, s: Slot)
    requires SlotOf(e) != Some(s)
    ensures StateOf(Step(v, e), s) == StateOf(v, s)
  {
  }

  /** A slot's next state depends only on that slot's current state. */
  lemma StepLocal(v: View, w: View, e: Event, s: Slot)
    requires StateOf(v, s) == StateOf(w, s)
    ensures StateOf(Step(v, e), s) == StateOf(Step(w, e), s)
  {
  }

  // ---- Event streams ------------------------------------------------------------

  /** The test "this event is about slot `s`". */
  function About(s: Slot): Event -> bool {
    e => SlotOf(e) == Some(s)
  }

  /** The events about slot `s`: all of them, and only them, in their order. */
  function EventsFor(es: seq<Event>, s: Slot): (r: seq<Event>)
    ensures IsSubsequence(r, es)
    ensures forall e :: e in r <==> e in es && SlotOf(e) == Some(s)
  {
    FilterIsSubsequence(es, About(s));
    FilterMembershipAll(es, About(s));
    Filter(es, About(s))
  }

  /** Slot independence: however the two streams interleave, a slot ends in the
      state its own events alone produce from any start that agrees on it. */
  lemma {:induction false} RunSlotIndependent(v: View, w: View, es: seq<Event>, s: Slot)
    requires StateOf(v, s) == StateOf(w, s)
    ensures StateOf(Run(v, es), s) == StateOf(Run(w, EventsFor(es, s)), s)
    decreases |es|
  {
    if |es| > 0 {
      var e := es[0];
      if SlotOf(e) == Some(s) {
        StepLocal(v, w, e, s);
        assert EventsFor(es, s) == [e] + EventsFor(es[1..], s) by {
          assert About(s)(e);
        }
        assert ([e] + EventsFor(es[1..], s))[1..] == EventsFor(es[1..], s);
        RunSlotIndependent(Step(v, e), Step(w, e), es[1..], s);
      } else {
        StepLeavesOtherSlot(v, e, s);
        RunSlotIndependent(Step(v, e), w, es[1..], s);
      }
    }
  }

  lemma {:induction false} RunConcat(v: View, xs: seq<Event>, ys: seq<Event>)
    ensures Run(v, xs + ys) == Run(Run(v, xs), ys)
    decreases |xs|
  {
    if |xs| > 0 {
      assert (xs + ys)[0] == xs[0];
      assert (xs + ys)[1..] == xs[1..] + ys;
      RunConcat(Step(v, xs[0]), xs[1..], ys);
    } else {
      assert xs + ys == ys;
    }
  }

  /** Non-final chunks for slot `s`. */
  ghost predicate PartialsFor(es: seq<Event>, s: Slot) {
    forall i :: 0 <= i < |es| ==> es[i].Chunk? && es[i].data.modelType == s && !es[i].data.isComplete
  }

  /** The text the chunk events carry, concatenated. */
  function ChunkText(es: seq<Event>): string {
    if |es| == 0 then "" else (if es[0].Chunk? then es[0].data.chunk else "") + ChunkText(es[1..])
  }

  lemma {:induction false} RunPartials(v: View, es: seq<Event>, s: Slot)
    requires PartialsFor(es, s)
    ensures Run(v, es) == v.(current := v.current.Set(s, v.current.Get(s) + ChunkText(es)))
    decreases |es|
  {
    if |es| > 0 {
      var v' := Step(v, es[0]);
      assert v' == v.(current := v.current.Set(s, v.current.Get(s) + es[0].data.chunk));
      assert PartialsFor(es[1..], s) by {
        forall i | 0 <= i < |es[1..]| ensures es[1..][i] == es[i + 1] { }
      }
      RunPartials(v', es[1..], s);
      assert v.current.Get(s) + es[0].data.chunk + ChunkText(es[1..])
          == v.current.Get(s) + ChunkText(es);
    } else {
      assert v.current.Get(s) + "" == v.current.Get(s);
      assert v.current.Set(s, v.current.Get(s)) == v.current by {
        if s == A { } else { }
      }
    }
  }

  /** Streaming delivery: non-final chunks followed by a final one produce
      exactly one new message whose content is the earlier buffer followed by
      every chunk in order; the buffer ends empty and the slot not typing. */
  lemma StreamDelivers(v: View, partials: seq<Event>, last: MessageChunk, now: nat)
    requires PartialsFor(partials, last.modelType) && last.isComplete
    ensures var s := last.modelType; var w := Run(v, partials + [Chunk(last, now)]);
      w.messages.Get(s) == v.messages.Get(s)
        + [Message("ai-" + NatToString(now) + "-" + SlotName(s), AiMessage,
                   v.current.Get(s) + ChunkText(partials) + last.chunk, now, Some(s))]
      && w.current.Get(s) == "" && !w.typing.Get(s)
      && w.session == v.session
  {
    var s := last.modelType;
    RunConcat(v, partials, [Chunk(last, now)]);
    RunPartials(v, partials, s);
  }

  /** After a successful `initSession` both slots are empty and idle. */
  lemma ResetEmptiesBothSlots(v: View, s: Slot)
    ensures StateOf(Reset(v), s) == SlotState([], "", false)
    ensures Reset(v).session == v.session
  {
  }

  // ---- The page's state fields ------------------------------------------------------

  /** The reply to `emit('initSession', …)`. */
  datatype InitReply = InitReply(success: bool, error: Option<string>)

  /** How the promise `handleConfigSubmit` returns settles. */
  datatype Settled = Resolved | Rejected(message: string)

  class ChatView {
    var messages: PerSlot<seq<Message>>
    var currentMessages: PerSlot<string>
    var typingState: PerSlot<bool>
    var sessionState: Option<SessionState>
    var isConnected: bool

    function State(): View
      reads this
    {
      View(messages, currentMessages, typingState, sessionState, isConnected)
    }

    constructor ()
      ensures State() == Initial
    {
      messages := PerSlot([], []);
      currentMessages := PerSlot("", "");
      typingState := PerSlot(false, false);
      sessionState := None;
      isConnected := false;
    }

    method OnConnect()
      modifies this
      ensures State() == Step(old(State()), Connect)
    {
      isConnected := true;
    }

    method OnDisconnect()
      modifies this
      ensures State() == Step(old(State()), Disconnect)
    {
      isConnected := false;
    }

    /** The `messageChunk` handler. */
    method OnMessageChunk(data: MessageChunk, now: nat)
      modifies this
      ensures State() == Step(old(State()), Chunk(data, now))
    {
      var s := data.modelType;
      if data.isComplete {
        var done := Message("ai-" + NatToString(now) + "-" + SlotName(s), AiMessage,
                            currentMessages.Get(s) + data.chunk, now, Some(s));
        messages := messages.Set(s, messages.Get(s) + [done]);
        currentMessages := currentMessages.Set(s, "");
        typingState := typingState.Set(s, false);
      } else {
        currentMessages := currentMessages.Set(s, currentMessages.Get(s) + data.chunk);
      }
    }

    method OnTyping(s: Slot, isTyping: bool)
      modifies this
      ensures State() == Step(old(State()), Typing(s, isTyping))
    {
      typingState := typingState.Set(s, isTyping);
    }

    method OnSessionUpdate(st: SessionState)
      modifies this
      ensures State() == Step(old(State()), SessionUpdate(st))
    {
      sessionState := Some(st);
    }

    /** `handleConfigSubmit`: without a socket it returns at once; otherwise the
        reply decides between resetting both slots and rejecting with the
        server's error or a fixed message. */
    method HandleConfigSubmit(sockets: SocketHolder, reply: InitReply) returns (r: Settled)
      modifies this
      ensures sockets.socket == null ==> r == Resolved && State() == old(State())
      ensures sockets.socket != null && reply.success ==> r == Resolved && State() == Reset(old(State()))
      ensures sockets.socket != null && !reply.success ==>
        State() == old(State())
        && r == Rejected(if reply.error.Some? && reply.error.value != "" then reply.error.value
                         else "Failed to initialize session")
    {
      var socket := sockets.GetSocket();
      if socket == null {
        return Resolved;
      }
      if reply.success {
        messages := PerSlot([], []);
        currentMessages := PerSlot("", "");
        typingState := PerSlot(false, false);
        r := Resolved;
      } else if reply.error.Some? && reply.error.value != "" {
        r := Rejected(reply.error.value);
      } else {
        r := Rejected("Failed to initialize session");
      }
    }
  }
}
