/** The WebSocket bridge as a transition system: a routing loop, two read loops, an expiry watcher
    and any number of outside Shutdown callers, stepping in any order. */
module Bridge {
  import opened Delimiter
  import opened Domain
  import opened CloseCodes

  const MSG_CHAN_SIZE: nat := 32

  datatype Source = Client | Supplier

  datatype Frame = Frame(kind: int, data: bytes)
  datatype Message = Message(source: Source, frame: Frame)

  /** What happens when a Shutdown call returns: go on looping, return from the function, or leave the goroutine. */
  datatype Then = Loop | Leave | Exit

  datatype RouterPC =
    | Selecting
    | Gate(msg: Message)
    | Signing(msg: Message)
    | Processing(msg: Message)
    | Writing(msg: Message, out: bytes)
    | RouterCloses(err: Cause, then_: Then)
    | RouterGone

  datatype ReaderPC =
    | Reading
    | Pushing(frame: Frame)
    | Noting(info: Info, err: Cause)
    | ReaderCloses(err: Cause, then_: Then)
    | ReaderGone

  datatype WatcherPC = Watching | Expired(height: int) | WatcherCloses | WatcherGone

  datatype OutsidePC = Calling(err: Cause) | Returned

  /** Everything about one peer: its socket, its read loop and what passed through. */
  datatype Peer = Peer(
    closed: bool,
    info: Info,
    reader: ReaderPC,
    read: seq<Frame>,
    taken: seq<Frame>,
    wrote: seq<Frame>,
    closeFrames: seq<Info>)

  datatype Who = Router | Reader(side: Source) | Watcher | Outside(id: nat)

  /** The statements of the sync.Once body. */
  datatype Stage =
    | Cancel | AskEndpoint | AskClient | TellClient | CloseClient | TellEndpoint | CloseEndpoint | CloseDone | Finish

  datatype Once = Idle | Running(who: Who, err: Cause, stage: Stage) | Finished

  /** What the body saw when it chose a code. */
  datatype Choice = Choice(endpoint: Info, client: Info, err: Cause)

  /** What was known when the shutdown body began, who began it and why. */
  datatype Start = Start(endpoint: Info, client: Info, who: Who, err: Cause)

  datatype State = State(
    cancelled: bool,
    once: Once,
    bodies: nat,
    done: nat,
    chan: seq<Message>,
    router: RouterPC,
    client: Peer,
    supplier: Peer,
    watcher: WatcherPC,
    outside: map<nat, OutsidePC>,
    active: bool,
    offAt: Option<int>,
    heights: seq<int>,
    start: Option<Start>,
    choice: Option<Choice>)

  /** What signing and validating may return for a payload, and when the session ends. */
  datatype Env = Env(signs: (bytes, bytes) -> bool, vouches: (bytes, bytes) -> bool, end: int)

  function Other(x: Source): (y: Source) {
    if x.Client? then Supplier else Client
  }

  function PeerOf(s: State, x: Source): (p: Peer) {
    if x.Client? then s.client else s.supplier
  }

  function Put(s: State, x: Source, p: Peer): (t: State) {
    if x.Client? then s.(client := p) else s.(supplier := p)
  }

  predicate Image(env: Env, x: Source, data: bytes, out: bytes) {
    if x.Client? then env.signs(data, out) else env.vouches(data, out)
  }

  const CANCELED := Error({BridgeCanceled}, "websockets: context canceled")
  const EXPIRED := Error({SessionExpired}, "websockets: session expired")
  const READ_LOOP_ENDED := Error({ConnectionFailed}, "read loop ended")

  const FRESH_PEER := Peer(false, NO_INFO, Reading, [], [], [], [])

  predicate Init(s: State) {
    && !s.cancelled && s.once == Idle && s.bodies == 0 && s.done == 0
    && s.chan == [] && s.router == Selecting && s.client == FRESH_PEER && s.supplier == FRESH_PEER
    && (s.watcher == Watching || s.watcher == WatcherGone) && s.outside == map[]
    && s.active && s.offAt == None && s.heights == [] && s.start == None && s.choice == None
  }

  predicate BothClosed(s: State) {
    s.client.closed && s.supplier.closed
  }

  // ---- steps of the routing loop ----

  datatype RouterStep =
    | Take
    | SeeCancel
    | LoadGate
    | BeginSign
    | Processed(out: bytes)
    | ProcessFails(err: Cause)
    | WriteOk
    | WriteFails(err: Cause)
    | RoutePanics(err: Cause)
    | RunPanics

  predicate RouterCan(env: Env, s: State, a: RouterStep) {
    match a
    case Take => s.router.Selecting? && s.chan != []
    case SeeCancel => s.router.Selecting? && s.cancelled
    case LoadGate => s.router.Gate?
    case BeginSign => s.router.Signing?
    case Processed(out) => s.router.Processing? && Image(env, s.router.msg.source, s.router.msg.frame.data, out)
    case ProcessFails(err) => s.router.Processing? && Is(err, MessageProcessing)
    case WriteOk => s.router.Writing? && !PeerOf(s, Other(s.router.msg.source)).closed
    case WriteFails(err) => s.router.Writing? && Is(err, ConnectionFailed)
    case RoutePanics(err) => (s.router.Processing? || s.router.Writing?) && Is(err, MessageProcessing)
    case RunPanics => s.router.Selecting?
  }

  function RouterDo(env: Env, s: State, a: RouterStep): (t: State)
    requires RouterCan(env, s, a)
  {
    match a
    case Take =>
      var m := s.chan[0];
      var p := PeerOf(s, m.source);
      Put(s, m.source, p.(taken := p.taken + [m.frame]))
        .(chan := s.chan[1..],
          router := if m.source.Client? then Gate(m) else Processing(m))
    case SeeCancel => s.(router := RouterCloses(CANCELED, Leave))
    case LoadGate =>
      s.(router := if s.active then Signing(s.router.msg)
                   else RouterCloses(Error({MessageProcessing}, "bridge: session expired"), Loop))
    case BeginSign => s.(router := Processing(s.router.msg))
    case Processed(out) => s.(router := Writing(s.router.msg, out))
    case ProcessFails(err) => s.(router := RouterCloses(err, Loop))
    case WriteOk =>
      var y := Other(s.router.msg.source);
      var p := PeerOf(s, y);
      Put(s, y, p.(wrote := p.wrote + [Frame(s.router.msg.frame.kind, s.router.out)])).(router := Selecting)
    case WriteFails(err) => s.(router := RouterCloses(err, Loop))
    case RoutePanics(err) => s.(router := RouterCloses(err, Leave))
    case RunPanics => s.(router := RouterCloses(CANCELED, Exit))
  }

  // ---- steps of a read loop ----

  datatype ReaderStep =
    | ReadOk(frame: Frame)
    | ReadFails(info: Info, err: Cause)
    | ReadPanics
    | Note
    | Push
    | GiveUp

  predicate ReaderCan(s: State, x: Source, a: ReaderStep) {
    var p := PeerOf(s, x);
    match a
    case ReadOk(_) => p.reader.Reading? && !p.closed
    case ReadFails(info, err) => p.reader.Reading? && Is(err, ConnectionFailed)
    case ReadPanics => p.reader.Reading?
    case Note => p.reader.Noting?
    case Push => p.reader.Pushing? && |s.chan| < MSG_CHAN_SIZE
    case GiveUp => p.reader.Pushing? && s.cancelled
  }

  function ReaderDo(s: State, x: Source, a: ReaderStep): (t: State)
    requires ReaderCan(s, x, a)
  {
    var p := PeerOf(s, x);
    match a
    case ReadOk(f) => Put(s, x, p.(reader := Pushing(f), read := p.read + [f]))
    case ReadFails(info, err) =>
      Put(s, x, p.(reader := if info.code != 0 then Noting(info, err) else ReaderCloses(err, Leave)))
    case ReadPanics => Put(s, x, p.(reader := ReaderCloses(READ_LOOP_ENDED, Exit)))
    case Note => Put(s, x, p.(reader := ReaderCloses(p.reader.err, Leave), info := p.reader.info))
    case Push => Put(s, x, p.(reader := Reading)).(chan := s.chan + [Message(x, p.reader.frame)])
    case GiveUp => Put(s, x, p.(reader := ReaderCloses(READ_LOOP_ENDED, Exit)))
  }

  // ---- steps of the watcher and of the surroundings ----

  datatype OtherStep =
    | Tick(height: int)
    | Deactivate
    | SeeDone
    | WatchPanics
    | Call(id: nat, err: Cause)
    | ParentCancels

  predicate OtherCan(s: State, a: OtherStep) {
    match a
    case Tick(_) => s.watcher.Watching?
    case Deactivate => s.watcher.Expired?
    case SeeDone => s.watcher.Watching? && s.done > 0
    case WatchPanics => s.watcher.Watching?
    case Call(id, _) => id !in s.outside
    case ParentCancels => true
  }

  function OtherDo(env: Env, s: State, a: OtherStep): (t: State)
    requires OtherCan(s, a)
  {
    match a
    case Tick(h) => s.(heights := s.heights + [h], watcher := if h < env.end then Watching else Expired(h))
    case Deactivate => s.(watcher := WatcherCloses, active := false, offAt := Some(s.watcher.height))
    case SeeDone => s.(watcher := WatcherGone)
    case WatchPanics => s.(watcher := WatcherGone)
    case Call(id, err) => s.(outside := s.outside[id := Calling(err)])
    case ParentCancels => s.(cancelled := true)
  }

  // ---- Shutdown: entering the once, its body, and returning from it ----

  /** The error a goroutine waiting in Shutdown called it with. */
  function Waiting(s: State, who: Who): (err: Option<Cause>) {
    match who
    case Router => if s.router.RouterCloses? then Some(s.router.err) else None
    case Reader(x) => if PeerOf(s, x).reader.ReaderCloses? then Some(PeerOf(s, x).reader.err) else None
    case Watcher => if s.watcher.WatcherCloses? then Some(EXPIRED) else None
    case Outside(id) => if id in s.outside && s.outside[id].Calling? then Some(s.outside[id].err) else None
  }

  predicate CanEnter(s: State, who: Who) {
    s.once.Idle? && Waiting(s, who).Some?
  }

  function DoEnter(s: State, who: Who): (t: State)
    requires CanEnter(s, who)
  {
    s.(once := Running(who, Waiting(s, who).value, Cancel),
       bodies := s.bodies + 1,
       start := Some(Start(s.supplier.info, s.client.info, who, Waiting(s, who).value)))
  }

  predicate CanBody(s: State) {
    s.once.Running? && (s.once.stage.TellClient? || s.once.stage.TellEndpoint? ==> s.choice.Some?)
  }

  /** The statement after this one; the client is asked for its code only when the endpoint has none. */
  function NextStage(o: Once, endpointKnown: bool): (r: Once)
    requires o.Running?
  {
    if o.stage.Finish? then Finished
    else
      Running(o.who, o.err,
              match o.stage
              case Cancel => AskEndpoint
              case AskEndpoint => if endpointKnown then TellClient else AskClient
              case AskClient => TellClient
              case TellClient => CloseClient
              case CloseClient => TellEndpoint
              case TellEndpoint => CloseEndpoint
              case CloseEndpoint => CloseDone
              case CloseDone => Finish
              case Finish => Finish)
  }

  /** What the body has decided on after this statement. */
  function Chosen(s: State): (c: Option<Choice>)
    requires s.once.Running?
  {
    if s.once.stage.AskEndpoint? && s.supplier.info.code != 0 then Some(Choice(s.supplier.info, NO_INFO, s.once.err))
    else if s.once.stage.AskClient? then Some(Choice(NO_INFO, s.client.info, s.once.err))
    else s.choice
  }

  /** A peer that is sent its close frame, or closed, or neither. */
  function Dismissed(p: Peer, told: bool, frame: Info, closed: bool): (q: Peer) {
    p.(closeFrames := if told then p.closeFrames + [frame] else p.closeFrames, closed := p.closed || closed)
  }

  /** One statement of the body. */
  function DoBody(s: State): (t: State)
    requires CanBody(s)
  {
    var stage := s.once.stage;
    var meant := if s.choice.Some? then Meant(s.choice.value) else NO_INFO;
    s.(cancelled := s.cancelled || stage.Cancel?,
       once := NextStage(s.once, s.supplier.info.code != 0),
       choice := Chosen(s),
       client := Dismissed(s.client, stage.TellClient?, ClientFrame(meant), stage.CloseClient?),
       supplier := Dismissed(s.supplier, stage.TellEndpoint?, EndpointFrame(meant), stage.CloseEndpoint?),
       done := if stage.CloseDone? then s.done + 1 else s.done)
  }

  function Meant(c: Choice): (r: Info) {
    Determine(c.endpoint, c.client, c.err)
  }

  predicate CanReturn(s: State, who: Who) {
    s.once.Finished? && Waiting(s, who).Some?
  }

  function DoReturn(s: State, who: Who): (t: State)
    requires CanReturn(s, who)
  {
    match who
    case Router =>
      s.(router := match s.router.then_
                   case Loop => Selecting
                   case Leave => RouterCloses(CANCELED, Exit)
                   case Exit => RouterGone)
    case Reader(x) =>
      var p := PeerOf(s, x);
      Put(s, x, p.(reader := if p.reader.then_.Exit? then ReaderGone else ReaderCloses(READ_LOOP_ENDED, Exit)))
    case Watcher => s.(watcher := WatcherGone)
    case Outside(id) => s.(outside := s.outside[id := Returned])
  }

  // ---- the whole system ----

  datatype Step =
    | ByRouter(r: RouterStep)
    | ByReader(side: Source, d: ReaderStep)
    | ByOther(o: OtherStep)
    | Enter(who: Who)
    | Body
    | Return(who: Who)

  predicate Can(env: Env, s: State, a: Step) {
    match a
    case ByRouter(r) => RouterCan(env, s, r)
    case ByReader(x, d) => ReaderCan(s, x, d)
    case ByOther(o) => OtherCan(s, o)
    case Enter(who) => CanEnter(s, who)
    case Body => CanBody(s)
    case Return(who) => CanReturn(s, who)
  }

  function Do(env: Env, s: State, a: Step): (t: State)
    requires Can(env, s, a)
  {
    match a
    case ByRouter(r) => RouterDo(env, s, r)
    case ByReader(x, d) => ReaderDo(s, x, d)
    case ByOther(o) => OtherDo(env, s, o)
    case Enter(who) => DoEnter(s, who)
    case Body => DoBody(s)
    case Return(who) => DoReturn(s, who)
  }

  /** `t` is where the steps `run`, taken from `s`, lead. */
  ghost predicate Leads(env: Env, s: State, run: seq<Step>, t: State)
    decreases |run|
  {
    if run == [] then s == t
    else Can(env, s, run[0]) && Leads(env, Do(env, s, run[0]), run[1..], t)
  }

  ghost predicate Reachable(env: Env, t: State) {
    exists s, run :: Init(s) && Leads(env, s, run, t)
  }
}
