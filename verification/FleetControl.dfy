/** The part of the fleet's invariant that speaks of versions, queues and decisions, for one pod and one report. */
module FleetControl {
  import opened Gauges
  import opened Reports
  import opened Fleet

  predicate Behind(h: History, l: Local) {
    l.cached < Latest(h)
  }

  /** What is being deleted is there only because of a finalizer. */
  predicate WellKept(c: Content) {
    c.Present? && c.obj.deleting ==> c.obj.finalizer
  }

  /** The report exists, and it is none that the exporters will let go, as they do with Trivy reports being deleted. */
  predicate Lasting(k: Key, h: History) {
    Last(h).Present? && !(k.scanner == TrivyScanner && Last(h).obj.deleting)
  }

  /** Something that makes the pod reconcile the report again, without its timer, is on the way. */
  predicate Pending(h: History, l: Local) {
    l.queued || l.retry || Behind(h, l)
  }

  /** `ver` is what the server has, or the pod is going to hear of something newer. */
  predicate Current(h: History, l: Local, ver: nat) {
    ver == Latest(h) || Pending(h, l)
  }

  predicate Genuine(h: History, c: Copy) {
    c.ver < |h| && h[c.ver] == Present(c.obj)
  }

  predicate Seen(h: History, l: Local, base: Copy) {
    base.ver < |h| && h[base.ver].Present? && Current(h, l, base.ver)
  }

  predicate Held(h: History, l: Local, c: Copy) {
    Genuine(h, c) && Current(h, l, c.ver)
  }

  predicate BeforeCheck(pc: Pc) {
    pc.Taken? || pc.SummariesCleared? || pc.Cleared?
  }

  predicate SaidYes(cfg: Config, k: Key, p: Pod, l: Local) {
    l.decided.Some? && cfg.Owner(l.decided.value, k) == p
  }

  /** A pod whose cache has no report holds no copy of it either, unless it is about to look again. */
  predicate QuietWhenAbsent(h: History, l: Local) {
    l.cached < |h| && h[l.cached].Absent? ==>
      || l.queued || l.retry
      || BeforeCheck(l.pc) || l.pc.Owning?
      || (l.pc.Idle? && !l.outcome.Exported?)
  }

  /** The server's owner label names the pod. */
  predicate Labelled(h: History, p: Pod) {
    Last(h).Present? && Last(h).obj.owner == p
  }

  predicate OutcomeInv(cfg: Config, k: Key, p: Pod, h: History, l: Local) {
    match l.outcome
    case Never => Last(h).Absent? || Pending(h, l)
    case Declined => l.decided.Some? && !SaidYes(cfg, k, p, l) && (l.timer || l.queued)
    case Missing => SaidYes(cfg, k, p, l) && (Last(h).Absent? || Pending(h, l))
    case Failed => SaidYes(cfg, k, p, l) && (l.queued || l.retry)
    case Exported(ver) =>
      && SaidYes(cfg, k, p, l)
      && ver < |h| && h[ver].Present? && Current(h, l, ver)
      && (Pending(h, l) || l.lost || Labelled(h, p))
      && (l.timer || l.queued)
  }

  predicate PcInv(cfg: Config, k: Key, p: Pod, h: History, l: Local) {
    match l.pc
    case Idle => OutcomeInv(cfg, k, p, h, l)
    case Taken => true
    case SummariesCleared => true
    case Cleared => true
    case Owning => SaidYes(cfg, k, p, l)
    case Loading(base) => SaidYes(cfg, k, p, l) && Seen(h, l, base)
    case Hydrating(base) => SaidYes(cfg, k, p, l) && Seen(h, l, base)
    case Storing(c) => SaidYes(cfg, k, p, l) && Held(h, l, c)
    case Ready(c) => SaidYes(cfg, k, p, l) && Held(h, l, c)
    case Publishing(c, plan, next) => SaidYes(cfg, k, p, l) && Held(h, l, c) && next <= |plan|
    case Finalizing(c) => SaidYes(cfg, k, p, l) && Held(h, l, c) && k.scanner == TrivyScanner
    case Labelling(c) =>
      SaidYes(cfg, k, p, l) && Held(h, l, c) && (k.scanner == TrivyScanner && c.obj.finalizer ==> c.ver < Latest(h))
  }

  predicate ControlInv(cfg: Config, k: Key, p: Pod, h: History, l: Local) {
    && l.cached < |h|
    && (l.stored.Some? ==> Genuine(h, l.stored.value))
    && (l.shutdown.Some? ==> Genuine(h, l.shutdown.value))
    && QuietWhenAbsent(h, l)
    && PcInv(cfg, k, p, h, l)
  }

  lemma FreshControl(cfg: Config, k: Key, p: Pod, h: History)
    requires h[0] == Absent
    ensures ControlInv(cfg, k, p, h, FRESH_LOCAL)
  {
  }

  /** Whoever makes a new version, the invariant of a pod that did not survives: it is behind now. */
  lemma ControlGrows(cfg: Config, k: Key, p: Pod, h: History, l: Local, c: Content)
    requires ControlInv(cfg, k, p, h, l)
    ensures ControlInv(cfg, k, p, h + [c], l) && Behind(h + [c], l)
  {
    var h': History := h + [c];
    assert forall i | 0 <= i < |h| :: h'[i] == h[i];
    assert Behind(h', l);
  }

  lemma DeliverKeeps(cfg: Config, k: Key, p: Pod, h: History, l: Local, ver: nat)
    requires ControlInv(cfg, k, p, h, l) && l.cached < ver <= Latest(h)
    ensures ControlInv(cfg, k, p, h, Delivering(h, l, ver))
  {
  }

  /** A delivery queues the report exactly if it was there before or is there now. */
  lemma DeliveryIsHeard(h: History, l: Local, ver: nat)
    requires l.cached < ver < |h|
    ensures Delivering(h, l, ver).queued <==> l.queued || h[l.cached].Present? || h[ver].Present?
    ensures Delivering(h, l, ver).cached == ver && Delivering(h, l, ver).pc == l.pc
  {
  }

  lemma TimersKeep(cfg: Config, k: Key, p: Pod, h: History, l: Local, retry: bool, timer: bool)
    requires ControlInv(cfg, k, p, h, l)
    ensures ControlInv(cfg, k, p, h, l.(retry := retry, timer := timer, queued := true))
  {
  }

  lemma ClearingKeeps(cfg: Config, k: Key, p: Pod, h: History, l: Local)
    requires ControlInv(cfg, k, p, h, l)
    ensures l.pc.Idle? ==> ControlInv(cfg, k, p, h, Taking(l))
    ensures l.pc.Taken? ==> ControlInv(cfg, k, p, h, l.(pc := SummariesCleared))
    ensures l.pc.SummariesCleared? ==> ControlInv(cfg, k, p, h, l.(pc := Cleared))
  {
  }

  lemma CheckKeeps(cfg: Config, k: Key, p: Pod, ring: set<Pod>, h: History, l: Local)
    requires ControlInv(cfg, k, p, h, l) && l.pc.Cleared?
    ensures ControlInv(cfg, k, p, h, Checking(cfg, k, p, ring, l))
  {
  }

  lemma ReadBaseKeeps(cfg: Config, k: Key, p: Pod, h: History, l: Local, stripped: bool)
    requires ControlInv(cfg, k, p, h, l) && l.pc.Owning?
    ensures ControlInv(cfg, k, p, h, ReadingBase(h, l, stripped))
  {
    if h[l.cached].Present? {
      var o := h[l.cached].obj;
      if NeedsHydration(FromBase(o, stripped)) {
        BaseSeen(cfg, k, p, h, l, Copy(l.cached, FromBase(o, stripped)));
      } else {
        UnhydratedIsComplete(o, stripped);
        BaseSeen(cfg, k, p, h, l, Copy(l.cached, o));
      }
    }
  }

  lemma BaseSeen(cfg: Config, k: Key, p: Pod, h: History, l: Local, c: Copy)
    requires ControlInv(cfg, k, p, h, l) && l.pc.Owning?
    requires c.ver == l.cached && h[c.ver].Present?
    ensures ControlInv(cfg, k, p, h, l.(pc := Loading(c)))
    ensures Genuine(h, c) ==> ControlInv(cfg, k, p, h, l.(pc := Ready(c)))
  {
  }

  lemma LoadKeeps(cfg: Config, k: Key, p: Pod, h: History, l: Local)
    requires ControlInv(cfg, k, p, h, l) && l.pc.Loading?
    ensures ControlInv(cfg, k, p, h, LoadingStore(l))
  {
  }

  lemma ReadApiKeeps(cfg: Config, k: Key, p: Pod, h: History, l: Local)
    requires ControlInv(cfg, k, p, h, l) && l.pc.Hydrating?
    ensures ControlInv(cfg, k, p, h, ReadingApi(h, l))
  {
  }

  lemma WriteStoreKeeps(cfg: Config, k: Key, p: Pod, h: History, l: Local)
    requires ControlInv(cfg, k, p, h, l) && l.pc.Storing?
    ensures ControlInv(cfg, k, p, h, WritingStore(l))
  {
  }

  lemma FailKeeps(cfg: Config, k: Key, p: Pod, h: History, l: Local)
    requires ControlInv(cfg, k, p, h, l) && SaidYes(cfg, k, p, l)
    ensures ControlInv(cfg, k, p, h, Fail(l))
  {
  }

  lemma StartKeeps(cfg: Config, k: Key, p: Pod, h: History, l: Local, order: seq<string>)
    requires ControlInv(cfg, k, p, h, l)
    requires l.pc.Ready? && IsOrder(order, Counts(l.pc.copy.obj.report).Keys)
    ensures ControlInv(cfg, k, p, h, Starting(cfg, k, l, order))
  {
  }

  lemma PublishingKeeps(cfg: Config, k: Key, p: Pod, h: History, l: Local)
    requires ControlInv(cfg, k, p, h, l) && l.pc.Publishing?
    ensures l.pc.next < |l.pc.plan| ==> ControlInv(cfg, k, p, h, l.(pc := l.pc.(next := l.pc.next + 1)))
    ensures ControlInv(cfg, k, p, h, EndingPublish(k, l))
  {
  }

  lemma RemoveFinalizerKeeps(cfg: Config, k: Key, p: Pod, h: History, l: Local, io: Io)
    requires ControlInv(cfg, k, p, h, l) && l.pc.Finalizing?
    ensures var r := RemovingFinalizer(h, l, io); ControlInv(cfg, k, p, r.history, r.local)
  {
    var r := RemovingFinalizer(h, l, io);
    if r.history == h {
      FinalizerLeft(cfg, k, p, h, l, io);
    } else {
      assert r.history == h + [r.history[|h|]];
      ControlGrows(cfg, k, p, h, l, r.history[|h|]);
      FailedKeeps(cfg, k, p, r.history, l);
      if r.local.pc.Labelling? {
        FinalizedKeeps(cfg, k, p, r.history, l, r.local.pc.copy);
      }
    }
  }

  lemma FinalizerLeft(cfg: Config, k: Key, p: Pod, h: History, l: Local, io: Io)
    requires ControlInv(cfg, k, p, h, l) && l.pc.Finalizing?
    requires RemovingFinalizer(h, l, io).history == h
    ensures ControlInv(cfg, k, p, h, RemovingFinalizer(h, l, io).local)
  {
    if RemovingFinalizer(h, l, io).local.pc.Idle? {
      FailedKeeps(cfg, k, p, h, l);
    } else {
      FinalizedKeeps(cfg, k, p, h, l, RemovingFinalizer(h, l, io).local.pc.copy);
    }
  }

  lemma FinalizedKeeps(cfg: Config, k: Key, p: Pod, h: History, l: Local, c: Copy)
    requires ControlInv(cfg, k, p, h, l) && l.pc.Finalizing?
    requires Held(h, l, c)
    requires c.obj.finalizer ==> c.ver < Latest(h)
    ensures ControlInv(cfg, k, p, h, l.(pc := Labelling(c)))
  {
  }

  lemma FailedKeeps(cfg: Config, k: Key, p: Pod, h: History, l: Local)
    requires ControlInv(cfg, k, p, h, l) && l.pc.Finalizing?
    ensures ControlInv(cfg, k, p, h, Fail(l))
  {
  }

  lemma WriteLabelKeeps(cfg: Config, k: Key, p: Pod, h: History, l: Local, io: Io)
    requires ControlInv(cfg, k, p, h, l) && l.pc.Labelling?
    ensures var r := WritingLabel(k, p, h, l, io); ControlInv(cfg, k, p, r.history, r.local)
  {
    var r := WritingLabel(k, p, h, l, io);
    if r.history != h {
      assert r.history == h + [r.history[|h|]];
      ControlGrows(cfg, k, p, h, l, r.history[|h|]);
    }
  }

  lemma ShutdownKeeps(cfg: Config, k: Key, p: Pod, h: History, l: Local, io: Io)
    requires ControlInv(cfg, k, p, h, l) && l.shutdown.Some?
    ensures var r := ShuttingDown(p, h, l, io); ControlInv(cfg, k, p, r.history, r.local)
  {
    var r := ShuttingDown(p, h, l, io);
    if r.history != h {
      assert r.history == h + [r.history[|h|]];
      ControlGrows(cfg, k, p, h, l, r.history[|h|]);
    }
  }

  lemma ShutdownReadKeeps(cfg: Config, k: Key, p: Pod, h: History, l: Local, ver: nat)
    requires ControlInv(cfg, k, p, h, l) && ver < |h| && h[ver].Present?
    ensures ControlInv(cfg, k, p, h, l.(shutdown := Some(Copy(ver, h[ver].obj))))
  {
  }
}
