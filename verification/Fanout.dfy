/** The broker's tasks interleaved at their awaits.

    Two tasks may drain at once: each reads the watermark, later queries the
    table, later publishes what it read. A reconnecting viewer joins the live
    fan-out first, and its replay from the table may answer much later. */
module Fanout {
  import opened Tables
  import opened Clients
  import opened EventLog
  import opened Broker

  datatype Task = Asked(after: nat) | Holding(after: nat, rows: seq<Message>)

  datatype Stage = Live | Asking | Answered(rows: seq<Message>)

  /** `joined` and `gapless` are history: the watermark when the viewer joined,
      and whether a replay from memory held every row it stood for. `offered` is
      everything handed to the viewer's queue; `told` marks a resync notice. */
  datatype Viewer = Viewer(
    topics: set<string>,
    run: Option<string>,
    last: Option<int>,
    stage: Stage,
    told: bool,
    offered: seq<Message>,
    joined: nat,
    gapless: bool)

  /** `published` and `overtaken` are history: every row published, and the ids
      that became visible after the broker had read beyond them. */
  datatype System = System(
    table: seq<Message>,
    start: nat,
    watermark: nat,
    buffer: seq<Message>,
    tasks: map<nat, Task>,
    viewers: map<nat, Viewer>,
    published: seq<Message>,
    overtaken: set<nat>)

  datatype Event =
    | Commit(m: Message)
    | Ask(task: nat)
    | Fetch(task: nat)
    | Deliver(task: nat)
    | Abandon(task: nat)
    | Drain
    | Level(m: Message)
    | Join(viewer: nat, topics: set<string>, run: Option<string>, last: Option<int>)
    | ReplayQuery(viewer: nat)
    | ReplayDeliver(viewer: nat)
    | ReplayFail(viewer: nat)
    | Leave(viewer: nat)

  predicate Interested(v: Viewer, m: Message) {
    Wants(v.topics, v.run, m)
  }

  function HeardAll(v: Viewer, messages: seq<Message>): Viewer {
    if messages == [] then v
    else
      var m := messages[|messages| - 1];
      var before := HeardAll(v, messages[..|messages| - 1]);
      if Interested(v, m) then before.(offered := before.offered + [m]) else before
  }

  function FanOut(s: System, messages: seq<Message>): map<nat, Viewer> {
    map v | v in s.viewers :: HeardAll(s.viewers[v], messages)
  }

  function PublishAll(s: System, rows: seq<Message>): System {
    s.(watermark := Raised(s.watermark, rows), buffer := RememberAll(s.buffer, rows),
       viewers := FanOut(s, rows), published := s.published + rows)
  }

  predicate Overtakes(s: System, id: nat) {
    id <= s.watermark || exists t | t in s.tasks :: s.tasks[t].Holding? && id <= Newest(s.tasks[t].rows)
  }

  predicate Acceptable(s: System, m: Message) {
    m.id.Some? && (forall r | r in s.table :: Id(r) != Id(m)) && Sorted(s.table)
  }

  function Committed(s: System, m: Message): System {
    if !Acceptable(s, m) then s
    else s.(table := Insert(s.table, m), overtaken := if Overtakes(s, Id(m)) then s.overtaken + {Id(m)} else s.overtaken)
  }

  /** Everything a replay from memory stands for is in memory. */
  predicate Gapless(s: System, after: int) {
    forall m | m in s.table :: after < Id(m) <= s.watermark ==> m in s.buffer
  }

  /** Joining runs without a pause up to the replay's table query. */
  function Joined(s: System, topics: set<string>, run: Option<string>, last: Option<int>): Viewer {
    var viewer := Viewer(topics, run, last, Live, false, [], s.watermark, true);
    if last.None? then viewer
    else
      match ReplaySource(s.watermark, s.buffer, last.value)
      case TooFar => viewer.(told := true, offered := [GAP_TOO_LARGE])
      case Memory(rows) => HeardAll(viewer.(gapless := Gapless(s, last.value)), rows)
      case Table => viewer.(stage := Asking)
  }

  function SetTask(s: System, t: nat, task: Task): System {
    s.(tasks := s.tasks[t := task])
  }

  function SetViewer(s: System, v: nat, viewer: Viewer): System {
    s.(viewers := s.viewers[v := viewer])
  }

  function TaskStep(s: System, e: Event): System {
    match e
    case Ask(t) => if t in s.tasks then s else SetTask(s, t, Asked(s.watermark))
    case Fetch(t) =>
      if t in s.tasks && s.tasks[t].Asked?
      then SetTask(s, t, Holding(s.tasks[t].after, Query(s.table, s.tasks[t].after, DRAIN_LIMIT)))
      else s
    case Deliver(t) =>
      if t in s.tasks && s.tasks[t].Holding? then PublishAll(s.(tasks := s.tasks - {t}), s.tasks[t].rows) else s
    case Abandon(t) => s.(tasks := s.tasks - {t})
    case _ => s
  }

  function ViewerStep(s: System, e: Event): System {
    match e
    case Join(v, topics, run, last) => if v in s.viewers then s else SetViewer(s, v, Joined(s, topics, run, last))
    case ReplayQuery(v) =>
      if v in s.viewers && s.viewers[v].stage == Asking && s.viewers[v].last.Some?
      then SetViewer(s, v, s.viewers[v].(stage := Answered(Query(s.table, s.viewers[v].last.value, MAX_REPLAY))))
      else s
    case ReplayDeliver(v) =>
      if v in s.viewers && s.viewers[v].stage.Answered?
      then SetViewer(s, v, HeardAll(s.viewers[v].(stage := Live), s.viewers[v].stage.rows))
      else s
    case ReplayFail(v) =>
      if v in s.viewers && s.viewers[v].stage == Asking
      then SetViewer(s, v, s.viewers[v].(stage := Live, told := true, offered := s.viewers[v].offered + [REPLAY_FAILED]))
      else s
    case Leave(v) => s.(viewers := s.viewers - {v})
    case _ => s
  }

  predicate TaskEvent(e: Event) {
    e.Ask? || e.Fetch? || e.Deliver? || e.Abandon?
  }

  function Step(s: System, e: Event): System {
    if TaskEvent(e) then TaskStep(s, e)
    else
      match e
      case Commit(m) => Committed(s, m)
      case Drain => PublishAll(s, Query(s.table, s.watermark, DRAIN_LIMIT))
      case Level(m) => if m.id.None? then s.(viewers := FanOut(s, [m])) else s
      case _ => ViewerStep(s, e)
  }

  function Trace(s: System, events: seq<Event>): System {
    if events == [] then s else Step(Trace(s, events[..|events| - 1]), events[|events| - 1])
  }

  /** The broker starts at the newest visible id. */
  function Started(table: seq<Message>): System {
    System(table, Newest(table), Newest(table), [], map[], map[], [], {})
  }

  predicate Numbered(table: seq<Message>) {
    Sorted(table) && forall m | m in table :: m.id.Some?
  }
}
