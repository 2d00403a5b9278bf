/**
 * The exporter fleet as a step system: the API server's version history of every report, and for
 * every exporter pod its view of the peer ring, its informer cache, its work queue, its detail store,
 * its gauges and how far its reconciles have got. Any interleaving of the steps below is a run.
 */
module Fleet {
  import opened Metrics
  import opened Gauges
  import opened Reports

  /** Pods are named by their IP, which is also what they write as shard owner. */
  type Pod = string

  /** `locate` is the consistent-hash ring: a function of the member set and the report name. */
  datatype Config = Config(pods: seq<Pod>, keys: seq<Key>, targets: seq<VulnerabilityLabel>,
                           locate: (set<Pod>, string) -> Pod)
  {
    ghost predicate Valid() {
      && (forall i, j | 0 <= i < j < |pods| :: pods[i] != pods[j])
      && (forall i, j | 0 <= i < j < |keys| :: keys[i] != keys[j])
      && (forall a, b | a in keys && b in keys && a.String() == b.String() :: a == b)
      && ValidTargets(targets)
    }

    function Owner(members: set<Pod>, k: Key): Pod {
      locate(members, k.String())
    }
  }

  /** Apart from the shape of the target labels, a fleet is valid as long as no two scanners report under one name;
      namespaces have no slash. */
  lemma ValidIffNamesApart(cfg: Config)
    requires forall k | k in cfg.keys :: SlashFree(k.namespace)
    requires (forall i, j | 0 <= i < j < |cfg.pods| :: cfg.pods[i] != cfg.pods[j]) && ValidTargets(cfg.targets)
    requires forall i, j | 0 <= i < j < |cfg.keys| :: cfg.keys[i] != cfg.keys[j]
    ensures cfg.Valid() <==>
              forall a, b | a in cfg.keys && b in cfg.keys && a.scanner != b.scanner ::
                a.namespace != b.namespace || a.name != b.name
  {
    forall a, b | a in cfg.keys && b in cfg.keys
      ensures a.String() == b.String() <==> a.namespace == b.namespace && a.name == b.name
    {
      NameDeterminesKey(a, b);
    }
  }

  // ---- The API server --------------------------------------------------

  datatype Object = Object(report: Report, owner: string, finalizer: bool, deleting: bool)

  datatype Content = Absent | Present(obj: Object)

  /** All versions a report has had; its resource version is the position in this list. */
  type History = h: seq<Content> | h != [] witness [Absent]

  function Latest(h: History): nat {
    |h| - 1
  }

  function Last(h: History): Content {
    h[Latest(h)]
  }

  /** An object as a client holds it, with the resource version it was read at. */
  datatype Copy = Copy(ver: nat, obj: Object)

  /** What the server keeps of an accepted object: one that is being deleted goes with its last finalizer. */
  function Kept(o: Object): Content {
    if o.deleting && !o.finalizer then Absent else Present(o)
  }

  /** `Update` is accepted only on the current resource version. */
  predicate Accepts(h: History, ver: nat) {
    ver == Latest(h) && Last(h).Present?
  }

  /** An accepted update that changes nothing makes no new version. */
  function Updated(h: History, o: Object): History {
    if Last(h) == Present(o) then h else h + [Kept(o)]
  }

  // ---- Reading through the caches --------------------------------------

  /** List and watch may leave out the matches of a Kubescape manifest. */
  function Strip(o: Object): Object {
    if o.report.Kubescape? then o.(report := o.report.(matches := [])) else o
  }

  predicate NeedsHydration(o: Object) {
    o.report.Kubescape? && |o.report.matches| == 0
  }

  function FromBase(o: Object, stripped: bool): Object {
    if stripped then Strip(o) else o
  }

  /** What the base cache shows passes for complete exactly if it is a Trivy report, or a manifest with matches that are
      not stripped; and then it is complete. */
  lemma UnhydratedIsComplete(o: Object, stripped: bool)
    ensures !NeedsHydration(FromBase(o, stripped)) <==> o.report.Trivy? || (o.report.matches != [] && !stripped)
    ensures !NeedsHydration(FromBase(o, stripped)) ==> FromBase(o, stripped) == o
  {
  }

  // ---- One pod's dealings with one report ------------------------------

  datatype Pc =
    | Idle
    | Taken                                              // off the queue, gauges untouched
    | SummariesCleared
    | Cleared                                            // both vectors cleared
    | Owning                                             // the ring said yes
    | Loading(base: Copy)                                // the base cache's object lacks its matches
    | Hydrating(base: Copy)                              // nothing usable in the detail store
    | Storing(copy: Copy)                                // read from the API server
    | Ready(copy: Copy)
    | Publishing(copy: Copy, plan: seq<Write>, next: nat)
    | Finalizing(copy: Copy)                             // published, a finalizer to remove
    | Labelling(copy: Copy)                              // published, the owner label to write

  /** How the last completed reconcile ended. */
  datatype Outcome = Never | Declined | Missing | Failed | Exported(ver: nat)

  datatype Local = Local(
    cached: nat,               // version in the informer cache
    queued: bool,
    retry: bool,               // a rate-limited retry is outstanding
    timer: bool,               // the jittered requeue is outstanding
    lost: bool,                // the last label write was refused for another reason than a conflict
    pc: Pc,
    stored: Option<Copy>,      // detail store entry
    decided: Option<set<Pod>>, // members of the ring at the last ownership check
    outcome: Outcome,
    shutdown: Option<Copy>)    // object the shutdown hook is about to write

  const FRESH_LOCAL := Local(0, false, false, false, false, Idle, None, None, Never, None)

  /** What becomes of a write request. */
  datatype Io = Delivered | Refused | ReplyLost

  datatype Action =
    | Deliver(ver: nat)
    | Take
    | ClearSummaries
    | ClearDetails
    | CheckOwner
    | ReadBase(stripped: bool)
    | LoadStore
    | ReadApi
    | ReadFails
    | WriteStore
    | Start(order: seq<string>)
    | PublishNext
    | EndPublish
    | RemoveFinalizer(io: Io)
    | WriteLabel(io: Io)
    | RetryFires
    | TimerFires
    | ShutdownRead(ver: nat)
    | ShutdownWrite(io: Io)

  /** The parts of the state one action of one pod can change. */
  datatype Effect = Effect(history: History, local: Local, gauges: Store)

  ghost predicate Enabled(cfg: Config, k: Key, p: Pod, ring: set<Pod>, h: History, l: Local, a: Action) {
    match a
    case Deliver(ver) => l.cached < ver <= Latest(h)
    case Take => l.pc.Idle? && l.queued
    case ClearSummaries => l.pc.Taken?
    case ClearDetails => l.pc.SummariesCleared?
    case CheckOwner => l.pc.Cleared? && ring != {}
    case ReadBase(_) => l.pc.Owning? && l.cached <= Latest(h)
    case LoadStore => l.pc.Loading?
    case ReadApi => l.pc.Hydrating?
    case ReadFails => l.pc.Owning? || l.pc.Hydrating?
    case WriteStore => l.pc.Storing?
    case Start(order) => l.pc.Ready? && IsOrder(order, Counts(l.pc.copy.obj.report).Keys)
    case PublishNext => l.pc.Publishing? && l.pc.next < |l.pc.plan|
    case EndPublish => l.pc.Publishing? && l.pc.next >= |l.pc.plan|
    case RemoveFinalizer(_) => l.pc.Finalizing?
    case WriteLabel(_) => l.pc.Labelling?
    case RetryFires => l.retry
    case TimerFires => l.timer
    case ShutdownRead(ver) =>
      && k.scanner == KubescapeScanner
      && l.cached <= Latest(h) && (ver == l.cached || ver == Latest(h)) && h[ver].Present?
    case ShutdownWrite(_) => l.shutdown.Some?
  }

  /** Leaving `Reconcile` with a jittered requeue, with nothing, or with an error. */
  function Finish(l: Local, outcome: Outcome): Local {
    l.(pc := Idle, outcome := outcome, timer := true)
  }

  function Vanished(l: Local): Local {
    l.(pc := Idle, outcome := Missing)
  }

  function Fail(l: Local): Local {
    l.(pc := Idle, outcome := Failed, retry := true)
  }

  // The single actions; those that leave history and gauges alone give just the new local state.

  function Delivering(h: History, l: Local, ver: nat): Local
    requires ver < |h|
  {
    // Nothing is announced when the report was in neither state.
    var heard := l.cached < |h| && (h[l.cached].Present? || h[ver].Present?);
    l.(cached := ver, queued := l.queued || heard)
  }

  function Taking(l: Local): Local {
    l.(pc := Taken, queued := false, lost := false)
  }

  function Checking(cfg: Config, k: Key, p: Pod, ring: set<Pod>, l: Local): Local {
    var l' := l.(decided := Some(ring));
    if cfg.Owner(ring, k) == p then l'.(pc := Owning) else Finish(l', Declined)
  }

  function ReadingBase(h: History, l: Local, stripped: bool): Local
    requires l.cached < |h|
  {
    match h[l.cached]
    case Absent => Vanished(l)
    case Present(o) =>
      var base := Copy(l.cached, FromBase(o, stripped));
      l.(pc := if NeedsHydration(base.obj) then Loading(base) else Ready(base))
  }

  function LoadingStore(l: Local): Local
    requires l.pc.Loading?
  {
    l.(pc := if l.stored.Some? && l.stored.value.ver == l.pc.base.ver then Ready(l.stored.value)
             else Hydrating(l.pc.base))
  }

  function ReadingApi(h: History, l: Local): Local {
    match Last(h)
    case Absent => Vanished(l)
    case Present(o) => l.(pc := Storing(Copy(Latest(h), o)))
  }

  function WritingStore(l: Local): Local
    requires l.pc.Storing?
  {
    l.(stored := Some(l.pc.copy), pc := Ready(l.pc.copy))
  }

  ghost function Starting(cfg: Config, k: Key, l: Local, order: seq<string>): Local
    requires l.pc.Ready? && IsOrder(order, Counts(l.pc.copy.obj.report).Keys)
  {
    OrderWithin(order, Counts(l.pc.copy.obj.report).Keys);
    l.(pc := Publishing(l.pc.copy, Plan(cfg.targets, k, l.pc.copy.obj.report, order), 0))
  }

  function EndingPublish(k: Key, l: Local): Local
    requires l.pc.Publishing?
  {
    l.(pc := if k.scanner == TrivyScanner && l.pc.copy.obj.finalizer then Finalizing(l.pc.copy)
             else Labelling(l.pc.copy))
  }

  datatype Reply = Reply(history: History, local: Local)

  function RemovingFinalizer(h: History, l: Local, io: Io): Reply
    requires l.pc.Finalizing?
  {
    var c := l.pc.copy;
    if io.Refused? || !Accepts(h, c.ver) then Reply(h, Fail(l))
    else
      var h' := Updated(h, c.obj.(finalizer := false));
      if io.ReplyLost? then Reply(h', Fail(l))
      else
        // The reply carries the new version; of an object that is gone only the old copy remains.
        Reply(h', l.(pc := Labelling(if Last(h').Present? then Copy(Latest(h'), Last(h').obj) else c)))
  }

  /** What labelling makes of the history. Kubescape writes only when its copy shows another owner; Trivy always sends
      the update. */
  function LabelledHistory(scanner: Scanner, p: Pod, h: History, c: Copy, io: Io): History {
    if scanner == KubescapeScanner && c.obj.owner == p then h
    else if io.Refused? || !Accepts(h, c.ver) then h
    else Updated(h, c.obj.(owner := p))
  }

  function WritingLabel(k: Key, p: Pod, h: History, l: Local, io: Io): Reply
    requires l.pc.Labelling?
  {
    var c := l.pc.copy;
    var unneeded := k.scanner == KubescapeScanner && c.obj.owner == p;
    Reply(LabelledHistory(k.scanner, p, h, c, io),
          Finish(l, Exported(c.ver)).(lost := l.lost || (io.Refused? && !unneeded)))
  }

  /** What the shutdown hook makes of the history: a label that is still its pod's is emptied. */
  function FreedHistory(p: Pod, h: History, c: Copy, io: Io): History {
    if c.obj.owner != p || io.Refused? || !Accepts(h, c.ver) then h else Updated(h, c.obj.(owner := ""))
  }

  function ShuttingDown(p: Pod, h: History, l: Local, io: Io): Reply
    requires l.shutdown.Some?
  {
    Reply(FreedHistory(p, h, l.shutdown.value, io), l.(shutdown := None))
  }

  /** The ownership check asks the ring for the joined name, and goes on exactly if the answer is the pod itself. */
  lemma CheckAsksForTheName(cfg: Config, k: Key, p: Pod, ring: set<Pod>, l: Local)
    requires l.pc.Cleared?
    ensures Checking(cfg, k, p, ring, l).pc.Owning? <==> cfg.locate(ring, k.namespace + "/" + k.name) == p
    ensures Checking(cfg, k, p, ring, l).pc.Idle? <==> cfg.locate(ring, k.namespace + "/" + k.name) != p
    ensures Checking(cfg, k, p, ring, l).decided == Some(ring)
  {
  }

  ghost function Act(cfg: Config, k: Key, p: Pod, ring: set<Pod>, h: History, l: Local, g: Store, a: Action): Effect
    requires Enabled(cfg, k, p, ring, h, l, a)
  {
    match a
    case Deliver(ver) => Effect(h, Delivering(h, l, ver), g)
    case Take => Effect(h, Taking(l), g)
    case ClearSummaries => Effect(h, l.(pc := SummariesCleared), Clear(g, Summary, k.String()))
    case ClearDetails => Effect(h, l.(pc := Cleared), Clear(g, Details, k.String()))
    case CheckOwner => Effect(h, Checking(cfg, k, p, ring, l), g)
    case ReadBase(stripped) => Effect(h, ReadingBase(h, l, stripped), g)
    case LoadStore => Effect(h, LoadingStore(l), g)
    case ReadApi => Effect(h, ReadingApi(h, l), g)
    case ReadFails => Effect(h, Fail(l), g)
    case WriteStore => Effect(h, WritingStore(l), g)
    case Start(order) => Effect(h, Starting(cfg, k, l, order), g)
    case PublishNext =>
      Effect(h, l.(pc := l.pc.(next := l.pc.next + 1)), Put(g, l.pc.plan[l.pc.next]))
    case EndPublish => Effect(h, EndingPublish(k, l), g)
    case RemoveFinalizer(io) =>
      var r := RemovingFinalizer(h, l, io); Effect(r.history, r.local, g)
    case WriteLabel(io) =>
      var r := WritingLabel(k, p, h, l, io); Effect(r.history, r.local, g)
    case RetryFires => Effect(h, l.(retry := false, queued := true), g)
    case TimerFires => Effect(h, l.(timer := false, queued := true), g)
    case ShutdownRead(ver) => Effect(h, l.(shutdown := Some(Copy(ver, h[ver].obj))), g)
    case ShutdownWrite(io) =>
      var r := ShuttingDown(p, h, l, io); Effect(r.history, r.local, g)
  }

  // ---- The whole fleet -------------------------------------------------

  /** `scanned` is the report the scanner last wrote. */
  datatype KeyState = KeyState(history: History, scanned: Option<Report>, locals: map<Pod, Local>)

  datatype State = State(rings: map<Pod, set<Pod>>, gauges: map<Pod, Store>, keys: map<Key, KeyState>)

  datatype Step =
    | Exporter(key: Key, pod: Pod, action: Action)
    | ScannerPut(key: Key, obj: Object)
    | ScannerDelete(key: Key)
    | RingChange(pod: Pod, members: set<Pod>)
    | Restart(pod: Pod)

  ghost predicate WellFormed(cfg: Config, s: State) {
    && (forall p | p in cfg.pods :: p in s.rings && p in s.gauges)
    && (forall k | k in cfg.keys :: k in s.keys)
    && (forall k, p | k in cfg.keys && p in cfg.pods :: p in s.keys[k].locals)
  }

  ghost function Init(cfg: Config): (s: State)
    ensures WellFormed(cfg, s)
  {
    State(map p | p in cfg.pods :: {},
          map p | p in cfg.pods :: map[],
          map k | k in cfg.keys :: KeyState([Absent], None, map p | p in cfg.pods :: FRESH_LOCAL))
  }

  ghost predicate Allowed(cfg: Config, s: State, step: Step) {
    && WellFormed(cfg, s)
    && match step
       case Exporter(k, p, a) =>
         && k in cfg.keys && p in cfg.pods
         && Enabled(cfg, k, p, s.rings[p], s.keys[k].history, s.keys[k].locals[p], a)
       case ScannerPut(k, o) => k in cfg.keys && o.report.Of(k.scanner) && Kept(o).Present?
       case ScannerDelete(k) =>
         k in cfg.keys && Last(s.keys[k].history).Present? && !Last(s.keys[k].history).obj.deleting
       case RingChange(p, members) => p in cfg.pods
       case Restart(p) => p in cfg.pods
  }

  ghost function Next(cfg: Config, s: State, step: Step): (s': State)
    requires Allowed(cfg, s, step)
    ensures WellFormed(cfg, s')
  {
    match step
    case Exporter(k, p, a) =>
      var ks := s.keys[k];
      var e := Act(cfg, k, p, s.rings[p], ks.history, ks.locals[p], s.gauges[p], a);
      s.(gauges := s.gauges[p := e.gauges],
         keys := s.keys[k := ks.(history := e.history, locals := ks.locals[p := e.local])])
    case ScannerPut(k, o) =>
      var ks := s.keys[k];
      s.(keys := s.keys[k := ks.(history := ks.history + [Present(o)], scanned := Some(o.report))])
    case ScannerDelete(k) =>
      var ks := s.keys[k];
      s.(keys := s.keys[k := ks.(history := ks.history + [Kept(Last(ks.history).obj.(deleting := true))])])
    case RingChange(p, members) =>
      s.(rings := s.rings[p := members])
    case Restart(p) =>
      s.(gauges := s.gauges[p := map[]],
         keys := map k | k in s.keys :: s.keys[k].(locals := s.keys[k].locals[p := FRESH_LOCAL]))
  }

  ghost predicate CanRun(cfg: Config, s: State, steps: seq<Step>)
    decreases |steps|
  {
    steps == [] || (Allowed(cfg, s, steps[0]) && CanRun(cfg, Next(cfg, s, steps[0]), steps[1..]))
  }

  ghost function After(cfg: Config, s: State, steps: seq<Step>): (s': State)
    requires CanRun(cfg, s, steps)
    ensures WellFormed(cfg, s) ==> WellFormed(cfg, s')
    decreases |steps|
  {
    if steps == [] then s else After(cfg, Next(cfg, s, steps[0]), steps[1..])
  }

  ghost predicate ReachedBy(cfg: Config, s: State, steps: seq<Step>) {
    CanRun(cfg, Init(cfg), steps) && After(cfg, Init(cfg), steps) == s
  }

  /** The states of all runs. */
  ghost predicate Reachable(cfg: Config, s: State) {
    WellFormed(cfg, s) && exists steps :: ReachedBy(cfg, s, steps)
  }

  ghost function HistoryOf(cfg: Config, s: State, k: Key): History
    requires WellFormed(cfg, s) && k in cfg.keys
  {
    s.keys[k].history
  }

  ghost function LocalOf(cfg: Config, s: State, k: Key, p: Pod): Local
    requires WellFormed(cfg, s) && k in cfg.keys && p in cfg.pods
  {
    s.keys[k].locals[p]
  }

  /** What pod `p` exports of report `k`. */
  ghost function Exports(cfg: Config, s: State, k: Key, p: Pod): Store
    requires WellFormed(cfg, s) && k in cfg.keys && p in cfg.pods
  {
    View(s.gauges[p], k.String())
  }
}
