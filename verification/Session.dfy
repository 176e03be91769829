/** A running connection: caller threads, the client's input worker, the server's request loop and its event emitters,
    as a step relation over two byte channels. A step is one action that other threads can observe; any interleaving of
    enabled actions is a run. */
module Session {
  import opened Wire
  import opened Schemas
  import opened Chunks
  import opened Frames
  import opened Channels

  // ---- the connection ----

  /** A queue entry: which caller waits (`id` stands for the address of its call record) and what it called. */
  datatype Pending = Pending(id: nat, ep: nat, op: Op)

  /** The thread holding the call lock. Between writing the endpoint id and writing the body it pushes its record. */
  datatype Caller = Free | Writing(id: nat, q: Request, pushed: bool) | Closing | Finished

  /** `Answering` is writing a reply, `Parting` has read the close request, `Leaving` is writing the goodbye. */
  datatype Server = Idle | Serving(q: Request) | Answering | Parting | Leaving | Gone

  datatype Worker = Running | Returned

  /** The application's use of one streaming endpoint. */
  datatype Phase =
    | Off
    | Registered(sub: nat)
    | Subscribing(sub: nat)
    | On(sub: nat)
    | Unsubscribing(sub: nat)
    | Removing(sub: nat)

  datatype Delivery = Delivery(id: nat, got: Got)

  datatype Routed = Routed(sub: nat, ep: nat, body: Option<Value>)

  datatype Conn = Conn(
    up: Channel,
    down: Channel,
    queue: seq<Pending>,
    caller: Caller,
    server: Server,
    worker: Worker,
    callbacks: map<nat, nat>,     // event id to the subscription whose callback is registered
    phases: map<nat, Phase>,
    nextSub: nat,
    live: set<nat>,               // endpoints whose service may emit events
    delivered: seq<Delivery>,     // what callers were notified with, in order
    routed: seq<Routed>,          // what callbacks were run with, in order
    broken: bool                  // some reader reported an error
  )

  function PhaseOf(phases: map<nat, Phase>, ep: nat): Phase {
    if ep in phases then phases[ep] else Off
  }

  /** After `close` has swapped the state to Closed. */
  predicate Closed(c: Conn) {
    c.caller == Closing || c.caller == Finished
  }

  const START := Conn(Channel([], [], []), Channel([], [], []), [], Free, Idle, Running, map[], map[], 0, {}, [], [], false)

  // ---- actions ----

  datatype Action =
    | Register(ep: nat)
    | Unregister(ep: nat)
    | Begin(id: nat, q: Request)
    | WriteUp(n: nat)
    | Push
    | FlushUp(n: nat)
    | EndRequest
    | BeginClose
    | FinishClose
    | Dispatch
    | Answer(reply: Frame)
    | Emit(ep: nat, body: Option<Value>)
    | Say(noise: Frame)
    | Part
    | WriteDown(n: nat)
    | FlushDown(n: nat)
    | EndAnswer
    | Receive

  function HeadType(p: Protocol, c: Conn): Option<Option<nat>> {
    if c.queue == [] || !(1 <= c.queue[0].ep <= |p.table|) then None
    else Some(ReplyType(p, c.queue[0].ep, c.queue[0].op))
  }

  function EventTypes(p: Protocol, c: Conn): map<nat, Option<nat>> {
    map ep | ep in c.callbacks && 1 <= ep <= |p.table| :: p.table[ep - 1].resp
  }

  lemma TypesAreKnown(p: Protocol, c: Conn)
    requires p.TableOk()
    ensures TypesKnown(p.client, HeadType(p, c), EventTypes(p, c))
  {
  }

  ghost function ReadUp(p: Protocol, c: Conn): Parse<Request>
    requires p.TableOk()
  {
    ReadRequest(p, c.up.wire)
  }

  function ReadDown(p: Protocol, c: Conn): Parse<Got>
    requires TypesKnown(p.client, HeadType(p, c), EventTypes(p, c))
  {
    ReadFrame(p.client, c.down.wire, HeadType(p, c), EventTypes(p, c))
  }

  /** Subscribing follows registering a callback, and unsubscribing follows a successful subscription. */
  predicate MayBegin(p: Protocol, c: Conn, q: Request) {
    && RequestOk(p, q)
    && (q.op == Subscribe ==> PhaseOf(c.phases, q.ep).Registered?)
    && (q.op == Unsubscribe ==> PhaseOf(c.phases, q.ep).On?)
  }

  /** Bytes of the current request that come after its endpoint id. */
  function AfterId(p: Protocol, q: Request): nat
    requires RequestOk(p, q)
  {
    |RequestBytes(p, q)| - |Varint(q.ep)|
  }

  // ---- the application: callbacks for streaming endpoints ----

  predicate CanRegister(p: Protocol, c: Conn, ep: nat) {
    1 <= ep <= |p.table| && p.table[ep - 1].streaming && PhaseOf(c.phases, ep).Off?
  }

  function RegisterIn(c: Conn, ep: nat): Conn {
    c.(callbacks := c.callbacks[ep := c.nextSub], phases := c.phases[ep := Registered(c.nextSub)], nextSub := c.nextSub + 1)
  }

  predicate CanUnregister(c: Conn, ep: nat) {
    PhaseOf(c.phases, ep).Removing?
  }

  function UnregisterIn(c: Conn, ep: nat): Conn {
    c.(callbacks := c.callbacks - {ep}, phases := c.phases[ep := Off])
  }

  // ---- a caller holding the call lock ----

  predicate CanBegin(p: Protocol, c: Conn, q: Request) {
    c.caller == Free && MayBegin(p, c, q)
  }

  function BeginIn(p: Protocol, c: Conn, id: nat, q: Request): Conn
    requires CanBegin(p, c, q)
  {
    var ph := PhaseOf(c.phases, q.ep);
    c.(caller := Writing(id, q, false), up := c.up.Start(RequestBytes(p, q)),
       phases := if q.op == Subscribe then c.phases[q.ep := Subscribing(ph.sub)]
                 else if q.op == Unsubscribe then c.phases[q.ep := Unsubscribing(ph.sub)]
                 else c.phases)
  }

  /** Until the call record is pushed only the endpoint id may be written, and nothing reaches the server. */
  predicate CanWriteUp(p: Protocol, c: Conn, n: nat) {
    && n <= |c.up.todo|
    && (c.caller.Writing? && !c.caller.pushed ==> RequestOk(p, c.caller.q) && n + AfterId(p, c.caller.q) <= |c.up.todo|)
  }

  predicate CanPush(p: Protocol, c: Conn) {
    c.caller.Writing? && !c.caller.pushed && RequestOk(p, c.caller.q) && |c.up.todo| == AfterId(p, c.caller.q)
  }

  function PushIn(c: Conn): Conn
    requires c.caller.Writing? && c.caller.q.Request?
  {
    c.(queue := c.queue + [Pending(c.caller.id, c.caller.q.ep, c.caller.q.op)], caller := c.caller.(pushed := true))
  }

  predicate CanFlushUp(c: Conn, n: nat) {
    n <= |c.up.buf| && (c.caller.Writing? ==> c.caller.pushed)
  }

  predicate CanEndRequest(c: Conn) {
    c.caller.Writing? && c.caller.pushed && c.up.Idle()
  }

  predicate CanFinishClose(c: Conn) {
    c.caller == Closing && c.up.Idle() && c.worker == Returned
  }

  // ---- the server ----

  ghost predicate CanDispatch(p: Protocol, c: Conn)
    requires p.TableOk()
  {
    c.server == Idle && !ReadUp(p, c).Short?
  }

  /** The server has read one request, or failed to. Serving a subscribe request lets the service emit. */
  function DispatchIn(c: Conn, r: Parse<Request>): Conn {
    if !r.Done? || r.value.Unserved? then c.(broken := true)
    else if r.value.CloseRequest? then c.(up := c.up.Consume(r.rest), server := Parting)
    else
      c.(up := c.up.Consume(r.rest), server := Serving(r.value),
         live := if r.value.op == Subscribe then c.live + {r.value.ep} else c.live)
  }

  predicate CanAnswer(p: Protocol, c: Conn, reply: Frame) {
    && c.down.Idle()
    && c.server.Serving? && c.server.q.Request? && 1 <= c.server.q.ep <= |p.table|
    && (reply.Reply? || reply.ErrorReply?)
    && FrameOk(p, ReplyType(p, c.server.q.ep, c.server.q.op), reply)
  }

  /** Whether a reply to a streaming request means the service emits no more. */
  predicate EndsStream(op: Op, reply: Frame) {
    op == Unsubscribe || (op == Subscribe && reply.ErrorReply?)
  }

  function AnswerIn(p: Protocol, c: Conn, reply: Frame): Conn
    requires CanAnswer(p, c, reply)
  {
    c.(server := Answering, down := c.down.Start(FrameBytes(p, ReplyType(p, c.server.q.ep, c.server.q.op), reply)),
       live := if EndsStream(c.server.q.op, reply) then c.live - {c.server.q.ep} else c.live)
  }

  predicate CanEmit(p: Protocol, c: Conn, ep: nat, body: Option<Value>) {
    c.down.Idle() && ep in c.live && 1 <= ep <= |p.table| && FrameOk(p, p.table[ep - 1].resp, Event(ep, body))
  }

  function EmitIn(p: Protocol, c: Conn, ep: nat, body: Option<Value>): Conn
    requires CanEmit(p, c, ep, body)
  {
    c.(down := c.down.Start(FrameBytes(p, p.table[ep - 1].resp, Event(ep, body))))
  }

  predicate CanSay(p: Protocol, c: Conn, noise: Frame) {
    c.down.Idle() && (noise.Log? || noise.Text?) && FrameOk(p, None, noise)
  }

  function SayIn(p: Protocol, c: Conn, noise: Frame): Conn
    requires CanSay(p, c, noise)
  {
    c.(down := c.down.Start(FrameBytes(p, None, noise)))
  }

  predicate CanPart(c: Conn) {
    c.down.Idle() && c.server == Parting
  }

  function PartIn(p: Protocol, c: Conn): Conn {
    c.(server := Leaving, down := c.down.Start(FrameBytes(p, None, Goodbye)))
  }

  predicate CanEndAnswer(c: Conn) {
    c.down.Idle() && (c.server == Answering || c.server == Leaving)
  }

  function EndAnswerIn(c: Conn): Conn {
    if c.server == Answering then c.(server := Idle) else c.(server := Gone, live := {})
  }

  // ---- the client's input worker ----

  predicate CanReceive(p: Protocol, c: Conn)
    requires p.TableOk()
  {
    TypesAreKnown(p, c);
    c.worker == Running && !ReadDown(p, c).Short?
  }

  /** The caller's phase once it sees the outcome of its request. */
  function PhaseAfter(ph: Phase, op: Op, got: Got): Phase {
    if op == Subscribe && ph.Subscribing? then (if got.GotReply? then On(ph.sub) else Off)
    else if op == Unsubscribe && ph.Unsubscribing? then (if got.GotReply? then Removing(ph.sub) else Off)
    else ph
  }

  /** The worker has read one server message, or failed to. */
  function ReceiveIn(c: Conn, r: Parse<Got>): Conn {
    if !r.Done? then c.(broken := true)
    else
      var c1 := c.(down := c.down.Consume(r.rest));
      match r.value
      case GotReply(_) => Notify(c1, r.value)
      case GotError(_) => Notify(c1, r.value)
      case GotEvent(ep, body) => Route(c1, ep, body)
      case GotLog(_) => c1
      case GotText => c1
      case GotGoodbye => if Closed(c) then c1.(worker := Returned) else c1.(broken := true)
  }

  /** The oldest pending call is popped and its caller notified. */
  function Notify(c: Conn, got: Got): Conn {
    if c.queue == [] then c.(broken := true)
    else
      var call := c.queue[0];
      c.(queue := c.queue[1..], delivered := c.delivered + [Delivery(call.id, got)],
         phases := if call.op == Unary then c.phases
                   else c.phases[call.ep := PhaseAfter(PhaseOf(c.phases, call.ep), call.op, got)])
  }

  /** The callback registered for the event id runs. */
  function Route(c: Conn, ep: nat, body: Option<Value>): Conn {
    if ep in c.callbacks then c.(routed := c.routed + [Routed(c.callbacks[ep], ep, body)]) else c.(broken := true)
  }

  // ---- any action ----

  ghost predicate Enabled(p: Protocol, c: Conn, a: Action)
    requires p.TableOk()
  {
    !c.broken &&
    match a
    case Register(ep) => CanRegister(p, c, ep)
    case Unregister(ep) => CanUnregister(c, ep)
    case Begin(_, q) => CanBegin(p, c, q)
    case WriteUp(n) => CanWriteUp(p, c, n)
    case Push => CanPush(p, c)
    case FlushUp(n) => CanFlushUp(c, n)
    case EndRequest => CanEndRequest(c)
    case BeginClose => c.caller == Free
    case FinishClose => CanFinishClose(c)
    case Dispatch => CanDispatch(p, c)
    case Answer(reply) => CanAnswer(p, c, reply)
    case Emit(ep, body) => CanEmit(p, c, ep, body)
    case Say(noise) => CanSay(p, c, noise)
    case Part => CanPart(c)
    case WriteDown(n) => n <= |c.down.todo|
    case FlushDown(n) => n <= |c.down.buf|
    case EndAnswer => CanEndAnswer(c)
    case Receive => CanReceive(p, c)
  }

  ghost function Next(p: Protocol, c: Conn, a: Action): Conn
    requires p.TableOk() && Enabled(p, c, a)
  {
    match a
    case Register(ep) => RegisterIn(c, ep)
    case Unregister(ep) => UnregisterIn(c, ep)
    case Begin(id, q) => BeginIn(p, c, id, q)
    case WriteUp(n) => c.(up := c.up.Write(n))
    case Push => PushIn(c)
    case FlushUp(n) => c.(up := c.up.Flush(n))
    case EndRequest => c.(caller := Free)
    case BeginClose => c.(caller := Closing, up := c.up.Start([0]))
    case FinishClose => c.(caller := Finished)
    case Dispatch => DispatchIn(c, ReadUp(p, c))
    case Answer(reply) => AnswerIn(p, c, reply)
    case Emit(ep, body) => EmitIn(p, c, ep, body)
    case Say(noise) => SayIn(p, c, noise)
    case Part => PartIn(p, c)
    case WriteDown(n) => c.(down := c.down.Write(n))
    case FlushDown(n) => c.(down := c.down.Flush(n))
    case EndAnswer => EndAnswerIn(c)
    case Receive =>
      TypesAreKnown(p, c);
      ReceiveIn(c, ReadDown(p, c))
  }

  // ---- the history of a run, which no action looks at ----

  /** `sub` is the subscription a streaming request belongs to. */
  datatype Call = Call(id: nat, q: Request, sub: nat)

  datatype Emission = Emission(sub: nat, ep: nat, body: Option<Value>)

  /** A server message not yet read by the client: its body type, and which answer or emission it carries. */
  datatype Sent = Sent(t: Option<nat>, f: Frame, idx: nat)

  datatype History = History(
    calls: seq<Call>,         // requests, in the order their callers took the lock
    served: seq<Request>,     // requests as the server read them
    answers: seq<Frame>,      // replies, in the order the server wrote them
    emitted: seq<Emission>,   // events, in the order emitters took the write lock
    frames: seq<Sent>,        // server messages written or being written and not yet read
    source: map<nat, nat>     // the subscription each service is emitting for
  )

  const BLANK := History([], [], [], [], [], map[])

  function BeginLog(c: Conn, h: History, id: nat, q: Request): History
    requires q.Request?
  {
    var ph := PhaseOf(c.phases, q.ep);
    h.(calls := h.calls + [Call(id, q, if q.op == Unary || ph.Off? then 0 else ph.sub)])
  }

  function DispatchLog(h: History, r: Parse<Request>): History {
    if r.Done? && r.value.Request? then
      h.(served := h.served + [r.value],
         source := if r.value.op == Subscribe && |h.served| < |h.calls|
                   then h.source[r.value.ep := h.calls[|h.served|].sub] else h.source)
    else h
  }

  function AnswerLog(p: Protocol, c: Conn, h: History, reply: Frame): History
    requires CanAnswer(p, c, reply)
  {
    h.(answers := h.answers + [reply],
       frames := h.frames + [Sent(ReplyType(p, c.server.q.ep, c.server.q.op), reply, |h.answers|)])
  }

  function EmitLog(p: Protocol, h: History, ep: nat, body: Option<Value>): History
    requires 1 <= ep <= |p.table|
  {
    h.(emitted := h.emitted + [Emission(if ep in h.source then h.source[ep] else 0, ep, body)],
       frames := h.frames + [Sent(p.table[ep - 1].resp, Event(ep, body), |h.emitted|)])
  }

  function SayLog(h: History, noise: Frame): History {
    h.(frames := h.frames + [Sent(None, noise, 0)])
  }

  function ReceiveLog(h: History, r: Parse<Got>): History {
    if r.Done? && h.frames != [] then h.(frames := h.frames[1..]) else h
  }

  ghost function Record(p: Protocol, c: Conn, h: History, a: Action): History
    requires p.TableOk() && Enabled(p, c, a)
  {
    match a
    case Begin(id, q) => BeginLog(c, h, id, q)
    case Dispatch => DispatchLog(h, ReadUp(p, c))
    case Answer(reply) => AnswerLog(p, c, h, reply)
    case Emit(ep, body) => EmitLog(p, h, ep, body)
    case Say(noise) => SayLog(h, noise)
    case Part => SayLog(h, Goodbye)
    case Receive =>
      TypesAreKnown(p, c);
      ReceiveLog(h, ReadDown(p, c))
    case _ => h
  }

  /** The connection and its history after a run of actions. */
  datatype World = World(c: Conn, h: History)

  ghost predicate Runs(p: Protocol, w: World, run: seq<Action>)
    requires p.TableOk()
    decreases |run|
  {
    run == [] || (Enabled(p, w.c, run[0]) && Runs(p, World(Next(p, w.c, run[0]), Record(p, w.c, w.h, run[0])), run[1..]))
  }

  ghost function After(p: Protocol, w: World, run: seq<Action>): World
    requires p.TableOk() && Runs(p, w, run)
    decreases |run|
  {
    if run == [] then w
    else After(p, World(Next(p, w.c, run[0]), Record(p, w.c, w.h, run[0])), run[1..])
  }

  const INITIALLY := World(START, BLANK)
}
