/** What every interleaving of the broker's tasks keeps. */
module FanoutProofs {
  import opened Tables
  import opened Clients
  import opened EventLog
  import opened Broker
  import opened Fanout

  // ---- hearing and publishing ------------------------------------------------

  lemma {:induction false} HeardAllMembers(v: Viewer, messages: seq<Message>)
    ensures HeardAll(v, messages) == v.(offered := HeardAll(v, messages).offered)
    ensures forall m :: m in HeardAll(v, messages).offered <==> m in v.offered || (m in messages && Interested(v, m))
  {
    if messages != [] {
      HeardAllMembers(v, messages[..|messages| - 1]);
      assert messages == messages[..|messages| - 1] + [messages[|messages| - 1]];
    }
  }

  lemma {:induction false} RaisedIsMax(watermark: nat, rows: seq<Message>)
    requires Sorted(rows)
    ensures Raised(watermark, rows) == Max(watermark, Newest(rows))
  {
    if |rows| > 1 {
      RaisedIsMax(watermark, rows[..|rows| - 1]);
    } else if |rows| == 1 {
      assert rows[..0] == [];
    }
  }

  // ---- the invariant -------------------------------------------------------------

  predicate Lost(s: System, m: Message) {
    Id(m) in s.overtaken
  }

  predicate TableSound(s: System) {
    Numbered(s.table) && s.start <= s.watermark &&
    (s.watermark == s.start || exists m | m in s.table :: Id(m) == s.watermark) &&
    (forall m | m in s.published :: m in s.table && s.start < Id(m) <= s.watermark) &&
    (forall m | m in s.table :: s.start < Id(m) <= s.watermark ==> m in s.published || Lost(s, m))
  }

  predicate TaskSound(s: System, t: Task) {
    s.start <= t.after <= s.watermark &&
    (t.Holding? ==>
       Sorted(t.rows) && (forall m | m in t.rows :: m in s.table && Id(m) > t.after) &&
       forall m | m in s.table :: t.after < Id(m) <= Newest(t.rows) ==> m in t.rows || Lost(s, m))
  }

  predicate TasksSound(s: System) {
    forall t | t in s.tasks :: TaskSound(s, s.tasks[t])
  }

  predicate Followed(s: System, v: Viewer) {
    s.start <= v.joined <= s.watermark &&
    forall m | m in s.published :: v.joined < Id(m) && Interested(v, m) ==> m in v.offered
  }

  /** What a replay owes: the rows above the viewer's last id, up to the
      watermark it joined at. */
  predicate Owed(v: Viewer, m: Message) {
    v.last.Some? && v.last.value < Id(m) <= v.joined && Interested(v, m)
  }

  predicate Repaid(s: System, v: Viewer) {
    (v.stage != Live ==> v.last.Some?) &&
    (!v.told && v.gapless && v.last.Some? ==>
       match v.stage
       case Live => forall m | m in s.table :: Owed(v, m) ==> m in v.offered || Lost(s, m)
       case Asking => v.joined <= v.last.value + MAX_REPLAY
       case Answered(rows) => forall m | m in s.table :: Owed(v, m) ==> m in rows || Lost(s, m))
  }

  predicate ViewersSound(s: System) {
    forall v | v in s.viewers :: Followed(s, s.viewers[v]) && Repaid(s, s.viewers[v])
  }

  predicate FanSound(s: System) {
    TableSound(s) && TasksSound(s) && ViewersSound(s)
  }

  // ---- each step keeps it -----------------------------------------------------------

  lemma CommitKeepsSound(s: System, m: Message)
    requires FanSound(s)
    ensures FanSound(Committed(s, m))
  {
    var next := Committed(s, m);
    if Acceptable(s, m) {
      CommitKeepsTable(s, m);
      forall t | t in next.tasks ensures TaskSound(next, next.tasks[t]) {
        assert TaskSound(s, s.tasks[t]);
      }
      forall v | v in next.viewers ensures Followed(next, next.viewers[v]) && Repaid(next, next.viewers[v]) {
        assert Followed(s, s.viewers[v]) && Repaid(s, s.viewers[v]);
      }
    }
  }

  lemma CommitKeepsTable(s: System, m: Message)
    requires TableSound(s) && Acceptable(s, m)
    ensures TableSound(Committed(s, m))
  {
    var next := Committed(s, m);
    if s.watermark != s.start {
      var w :| w in s.table && Id(w) == s.watermark;
      assert w in next.table;
    }
  }

  /** Publishing a block of rows that leaves no gap above the watermark. */
  predicate Publishable(s: System, after: nat, rows: seq<Message>) {
    TaskSound(s, Holding(after, rows))
  }

  lemma PublishKeepsTable(s: System, after: nat, rows: seq<Message>)
    requires TableSound(s) && Publishable(s, after, rows)
    ensures TableSound(PublishAll(s, rows)) && s.watermark <= PublishAll(s, rows).watermark
  {
    var next := PublishAll(s, rows);
    RaisedIsMax(s.watermark, rows);
    NewestIsGreatest(rows);
    if next.watermark != s.watermark {
      assert rows[|rows| - 1] in rows;
    }
  }

  lemma PublishKeepsViewers(s: System, after: nat, rows: seq<Message>)
    requires ViewersSound(s) && Publishable(s, after, rows)
    ensures ViewersSound(PublishAll(s, rows))
  {
    var next := PublishAll(s, rows);
    RaisedIsMax(s.watermark, rows);
    forall v | v in next.viewers ensures Followed(next, next.viewers[v]) && Repaid(next, next.viewers[v]) {
      assert Followed(s, s.viewers[v]) && Repaid(s, s.viewers[v]);
      HeardAllMembers(s.viewers[v], rows);
    }
  }

  lemma PublishKeepsSound(s: System, after: nat, rows: seq<Message>)
    requires FanSound(s) && Publishable(s, after, rows)
    ensures FanSound(PublishAll(s, rows))
  {
    var next := PublishAll(s, rows);
    PublishKeepsTable(s, after, rows);
    PublishKeepsViewers(s, after, rows);
    forall t | t in next.tasks ensures TaskSound(next, next.tasks[t]) {
      assert TaskSound(s, s.tasks[t]);
    }
  }

  lemma DrainKeepsSound(s: System)
    requires FanSound(s)
    ensures FanSound(Step(s, Drain))
  {
    QueryCovers(s.table, s.watermark, DRAIN_LIMIT);
    PublishKeepsSound(s, s.watermark, Query(s.table, s.watermark, DRAIN_LIMIT));
  }

  lemma OtherViewersStay(s: System, next: System)
    requires ViewersSound(s) && next == s.(tasks := next.tasks)
    ensures ViewersSound(next)
  {
    forall v | v in next.viewers ensures Followed(next, next.viewers[v]) && Repaid(next, next.viewers[v]) {
      assert Followed(s, s.viewers[v]) && Repaid(s, s.viewers[v]);
    }
  }

  lemma TaskKeepsSound(s: System, next: System)
    requires FanSound(s) && next == s.(tasks := next.tasks)
    requires forall t | t in next.tasks :: TaskSound(s, next.tasks[t])
    ensures FanSound(next)
  {
    OtherViewersStay(s, next);
    forall t | t in next.tasks ensures TaskSound(next, next.tasks[t]) {
      assert TaskSound(s, next.tasks[t]);
    }
  }

  lemma DeliverKeepsSound(s: System, t: nat)
    requires FanSound(s) && t in s.tasks && s.tasks[t].Holding?
    ensures FanSound(TaskStep(s, Deliver(t)))
  {
    assert TaskSound(s, s.tasks[t]);
    TaskKeepsSound(s, s.(tasks := s.tasks - {t}));
    PublishKeepsSound(s.(tasks := s.tasks - {t}), s.tasks[t].after, s.tasks[t].rows);
  }

  lemma FetchedTaskIsSound(s: System, t: Task)
    requires TaskSound(s, t) && Sorted(s.table)
    ensures TaskSound(s, Holding(t.after, Query(s.table, t.after, DRAIN_LIMIT)))
  {
    QueryCovers(s.table, t.after, DRAIN_LIMIT);
  }

  lemma TaskStepKeepsSound(s: System, e: Event)
    requires FanSound(s) && TaskEvent(e)
    ensures FanSound(TaskStep(s, e))
  {
    var next := TaskStep(s, e);
    match e
    case Ask(t) => TaskKeepsSound(s, next);
    case Fetch(t) =>
      if t in s.tasks && s.tasks[t].Asked? {
        FetchedTaskIsSound(s, s.tasks[t]);
      }
      TaskKeepsSound(s, next);
    case Deliver(t) =>
      if t in s.tasks && s.tasks[t].Holding? {
        DeliverKeepsSound(s, t);
      }
    case Abandon(t) => TaskKeepsSound(s, next);
  }

  lemma JoinKeepsSound(s: System, topics: set<string>, run: Option<string>, last: Option<int>)
    requires TableSound(s)
    ensures Followed(s, Joined(s, topics, run, last)) && Repaid(s, Joined(s, topics, run, last))
  {
    if last.Some? {
      var source := ReplaySource(s.watermark, s.buffer, last.value);
      if source.Memory? {
        var v := Viewer(topics, run, last, Live, false, [], s.watermark, true);
        HeardAllMembers(v.(gapless := Gapless(s, last.value)), source.rows);
      }
    }
  }

  lemma AnswerCovers(s: System, v: Viewer)
    requires Numbered(s.table) && v.last.Some? && v.joined <= v.last.value + MAX_REPLAY
    ensures forall m | m in s.table :: Owed(v, m) ==> m in Query(s.table, v.last.value, MAX_REPLAY)
  {
    forall m | m in s.table && Owed(v, m) ensures m in Query(s.table, v.last.value, MAX_REPLAY) {
      LimitIsEnough(s.table, v.last.value, MAX_REPLAY, m);
    }
  }

  lemma ReplayKeepsSound(s: System, e: Event, v: nat)
    requires Numbered(s.table) && v in s.viewers && Followed(s, s.viewers[v]) && Repaid(s, s.viewers[v])
    requires e == ReplayQuery(v) || e == ReplayDeliver(v) || e == ReplayFail(v)
    ensures var next := ViewerStep(s, e);
            v in next.viewers && Followed(s, next.viewers[v]) && Repaid(s, next.viewers[v])
  {
    var viewer := s.viewers[v];
    if e.ReplayQuery? && viewer.stage == Asking && !viewer.told && viewer.gapless {
      AnswerCovers(s, viewer);
    } else if e.ReplayDeliver? && viewer.stage.Answered? {
      HeardAllMembers(viewer.(stage := Live), viewer.stage.rows);
    }
  }

  lemma ViewersChange(s: System, next: System)
    requires FanSound(s) && next == s.(viewers := next.viewers)
    requires forall v | v in next.viewers :: Followed(s, next.viewers[v]) && Repaid(s, next.viewers[v])
    ensures FanSound(next)
  {
    forall v | v in next.viewers ensures Followed(next, next.viewers[v]) && Repaid(next, next.viewers[v]) {
      assert Followed(s, next.viewers[v]) && Repaid(s, next.viewers[v]);
    }
    forall t | t in next.tasks ensures TaskSound(next, next.tasks[t]) {
      assert TaskSound(s, s.tasks[t]);
    }
  }

  lemma JoinStepKeepsSound(s: System, e: Event)
    requires FanSound(s) && e.Join?
    ensures FanSound(ViewerStep(s, e))
  {
    JoinKeepsSound(s, e.topics, e.run, e.last);
    ViewersChange(s, ViewerStep(s, e));
  }

  lemma ReplayStepKeepsSound(s: System, e: Event, v: nat)
    requires FanSound(s) && (e == ReplayQuery(v) || e == ReplayDeliver(v) || e == ReplayFail(v))
    ensures FanSound(ViewerStep(s, e))
  {
    if v in s.viewers {
      ReplayKeepsSound(s, e, v);
    }
    ReplayTouchesOne(s, e, v);
    ViewersChange(s, ViewerStep(s, e));
  }

  lemma ReplayTouchesOne(s: System, e: Event, v: nat)
    requires e == ReplayQuery(v) || e == ReplayDeliver(v) || e == ReplayFail(v)
    ensures var next := ViewerStep(s, e);
            next == s.(viewers := next.viewers) && next.viewers.Keys == s.viewers.Keys &&
            forall w | w in s.viewers && w != v :: next.viewers[w] == s.viewers[w]
  {
  }

  lemma ViewerStepKeepsSound(s: System, e: Event)
    requires FanSound(s)
    ensures FanSound(ViewerStep(s, e))
  {
    match e
    case Join(_, _, _, _) => JoinStepKeepsSound(s, e);
    case ReplayQuery(v) => ReplayStepKeepsSound(s, e, v);
    case ReplayDeliver(v) => ReplayStepKeepsSound(s, e, v);
    case ReplayFail(v) => ReplayStepKeepsSound(s, e, v);
    case Leave(v) => ViewersChange(s, ViewerStep(s, e));
    case _ =>
  }

  lemma LevelKeepsViewer(s: System, v: Viewer, m: Message)
    requires Followed(s, v) && Repaid(s, v)
    ensures Followed(s, HeardAll(v, [m])) && Repaid(s, HeardAll(v, [m]))
  {
    HeardAllMembers(v, [m]);
  }

  lemma LevelKeepsSound(s: System, m: Message)
    requires FanSound(s)
    ensures FanSound(Step(s, Level(m)))
  {
    forall v | v in s.viewers ensures Followed(s, HeardAll(s.viewers[v], [m])) && Repaid(s, HeardAll(s.viewers[v], [m])) {
      LevelKeepsViewer(s, s.viewers[v], m);
    }
    ViewersChange(s, Step(s, Level(m)));
  }

  lemma StepKeepsFanSound(s: System, e: Event)
    requires FanSound(s)
    ensures FanSound(Step(s, e))
  {
    if TaskEvent(e) {
      TaskStepKeepsSound(s, e);
    } else if e.Commit? {
      CommitKeepsSound(s, e.m);
    } else if e.Drain? {
      DrainKeepsSound(s);
    } else if e.Level? {
      LevelKeepsSound(s, e.m);
    } else {
      ViewerStepKeepsSound(s, e);
    }
  }

  lemma {:induction false} TraceKeepsFanSound(table: seq<Message>, events: seq<Event>)
    requires Numbered(table)
    ensures FanSound(Trace(Started(table), events))
  {
    if events == [] {
      NewestIsGreatest(table);
    } else {
      TraceKeepsFanSound(table, events[..|events| - 1]);
      StepKeepsFanSound(Trace(Started(table), events[..|events| - 1]), events[|events| - 1]);
    }
  }
}
