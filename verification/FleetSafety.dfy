/** Every step of the fleet keeps the invariant, so every run does. */
module FleetSafety {
  import opened Metrics
  import opened Gauges
  import opened Reports
  import opened Fleet
  import opened FleetControl
  import opened FleetGauges

  ghost predicate PairInv(cfg: Config, k: Key, p: Pod, h: History, l: Local, g: Store) {
    && ControlInv(cfg, k, p, h, l)
    && ShowInv(cfg, k, h, ShowingOf(h, l), View(g, k.String()))
  }

  ghost predicate HistoryInv(k: Key, h: History, scanned: Option<Report>) {
    && h[0] == Absent
    && (forall i | 0 <= i < |h| && h[i].Present? :: h[i].obj.report.Of(k.scanner))
    && (forall i | 0 <= i < |h| :: WellKept(h[i]))
    && (Last(h).Present? ==> scanned == Some(Last(h).obj.report))
  }

  ghost predicate KeyInv(cfg: Config, s: State, k: Key)
    requires WellFormed(cfg, s) && k in cfg.keys
  {
    && HistoryInv(k, s.keys[k].history, s.keys[k].scanned)
    && forall p | p in cfg.pods :: PairInv(cfg, k, p, s.keys[k].history, s.keys[k].locals[p], s.gauges[p])
  }

  /** No gauge shows anything but reports the fleet knows. */
  ghost predicate NoStrays(cfg: Config, g: Store) {
    forall s | s in g :: exists k :: k in cfg.keys && HasName(s, k.String())
  }

  ghost predicate Inv(cfg: Config, s: State) {
    && WellFormed(cfg, s)
    && (forall k | k in cfg.keys :: KeyInv(cfg, s, k))
    && (forall p | p in cfg.pods :: NoStrays(cfg, s.gauges[p]))
  }

  // ---- One action ------------------------------------------------------

  /** An action leaves the history alone, or appends what the last version says with another owner, or
      without the finalizer: then an object that was being deleted is gone. */
  ghost predicate HistoryStep(h: History, h': History) {
    || h' == h
    || (Last(h).Present? && (
          || (exists owner :: h' == h + [Kept(Last(h).obj.(owner := owner))])
          || h' == h + [Kept(Last(h).obj.(finalizer := false))]))
  }

  lemma RemoveFinalizerHistory(cfg: Config, k: Key, p: Pod, h: History, l: Local, io: Io)
    requires ControlInv(cfg, k, p, h, l) && l.pc.Finalizing?
    ensures HistoryStep(h, RemovingFinalizer(h, l, io).history)
  {
  }

  lemma WriteLabelHistory(cfg: Config, k: Key, p: Pod, h: History, l: Local, io: Io)
    requires ControlInv(cfg, k, p, h, l) && l.pc.Labelling?
    ensures HistoryStep(h, WritingLabel(k, p, h, l, io).history)
  {
  }

  lemma ShutdownHistory(cfg: Config, k: Key, p: Pod, h: History, l: Local, io: Io)
    requires ControlInv(cfg, k, p, h, l) && l.shutdown.Some?
    ensures HistoryStep(h, ShuttingDown(p, h, l, io).history)
  {
  }

  lemma HistoryKeeps(k: Key, h: History, scanned: Option<Report>, h': History)
    requires HistoryInv(k, h, scanned) && HistoryStep(h, h')
    ensures HistoryInv(k, h', scanned)
    ensures h' == h || (|h'| == |h| + 1 && h' == h + [h'[|h|]])
  {
    if h' != h {
      assert h' == h + [Last(h')];
    }
  }

  lemma ClearIsLocal(cfg: Config, k: Key, g: Store, gauge: Gauge, name: string)
    ensures name != k.String() ==> View(Clear(g, gauge, k.String()), name) == View(g, name)
    ensures NoStrays(cfg, g) ==> NoStrays(cfg, Clear(g, gauge, k.String()))
  {
    ViewAfterClear(g, gauge, k.String(), name);
  }

  lemma PutIsLocal(cfg: Config, k: Key, g: Store, w: Write, name: string)
    requires k in cfg.keys && HasName(w.series, k.String())
    ensures name != k.String() ==> View(Put(g, w), name) == View(g, name)
    ensures NoStrays(cfg, g) ==> NoStrays(cfg, Put(g, w))
  {
    ViewAfterPut(g, w, name);
  }

  lemma PublishingShowsPart(cfg: Config, k: Key, p: Pod, h: History, l: Local, g: Store)
    requires PairInv(cfg, k, p, h, l, g) && l.pc.Publishing?
    ensures ShowInv(cfg, k, h, Part(l.pc.copy.obj.report, l.pc.plan, l.pc.next), View(g, k.String()))
  {
  }

  lemma NextWriteIsNamed(cfg: Config, k: Key, p: Pod, h: History, l: Local, g: Store)
    requires cfg.Valid()
    requires PairInv(cfg, k, p, h, l, g) && l.pc.Publishing? && l.pc.next < |l.pc.plan|
    ensures HasName(l.pc.plan[l.pc.next].series, k.String())
  {
    PublishingShowsPart(cfg, k, p, h, l, g);
    PartIsNamed(cfg, k, h, l.pc.copy.obj.report, l.pc.plan, l.pc.next, View(g, k.String()));
  }

  /** Nothing but a publishing or clearing step touches gauges, and those touch only their report. */
  lemma ActionIsLocal(cfg: Config, k: Key, p: Pod, ring: set<Pod>, h: History, l: Local, g: Store, a: Action,
                      name: string)
    requires cfg.Valid() && k in cfg.keys
    requires Enabled(cfg, k, p, ring, h, l, a) && PairInv(cfg, k, p, h, l, g)
    ensures name != k.String() ==> View(Act(cfg, k, p, ring, h, l, g, a).gauges, name) == View(g, name)
    ensures NoStrays(cfg, g) ==> NoStrays(cfg, Act(cfg, k, p, ring, h, l, g, a).gauges)
  {
    var g' := Act(cfg, k, p, ring, h, l, g, a).gauges;
    if a.ClearSummaries? {
      ClearIsLocal(cfg, k, g, Summary, name);
    } else if a.ClearDetails? {
      ClearIsLocal(cfg, k, g, Details, name);
    } else if a.PublishNext? {
      NextWriteIsNamed(cfg, k, p, h, l, g);
      PutIsLocal(cfg, k, g, l.pc.plan[l.pc.next], name);
    } else {
      assert g' == g;
    }
  }

  lemma SameShowing(cfg: Config, k: Key, p: Pod, h: History, l: Local, l': Local, g: Store)
    requires PairInv(cfg, k, p, h, l, g) && ControlInv(cfg, k, p, h, l')
    requires ShowingOf(h, l') == ShowingOf(h, l) || ShowingOf(h, l') == Leftovers
    ensures PairInv(cfg, k, p, h, l', g)
  {
    ShowingIsSingle(cfg, k, h, ShowingOf(h, l), View(g, k.String()));
  }

  lemma PairGrows(cfg: Config, k: Key, p: Pod, h: History, l: Local, g: Store, c: Content)
    requires PairInv(cfg, k, p, h, l, g)
    ensures PairInv(cfg, k, p, h + [c], l, g)
  {
    ControlGrows(cfg, k, p, h, l, c);
    ShowingOfGrows(cfg, k, p, h, l, c);
    ShowGrows(cfg, k, h, ShowingOf(h, l), View(g, k.String()), c);
  }

  lemma QueueActionKeeps(cfg: Config, k: Key, p: Pod, ring: set<Pod>, h: History, l: Local, g: Store, a: Action)
    requires Enabled(cfg, k, p, ring, h, l, a) && PairInv(cfg, k, p, h, l, g)
    requires a.Deliver? || a.RetryFires? || a.TimerFires? || a.Take? || a.ShutdownRead?
    ensures var e := Act(cfg, k, p, ring, h, l, g, a); PairInv(cfg, k, p, e.history, e.local, e.gauges)
  {
    var e := Act(cfg, k, p, ring, h, l, g, a);
    match a {
      case Deliver(ver) => DeliverKeeps(cfg, k, p, h, l, ver);
      case RetryFires => TimersKeep(cfg, k, p, h, l, false, l.timer);
      case TimerFires => TimersKeep(cfg, k, p, h, l, l.retry, false);
      case Take => ClearingKeeps(cfg, k, p, h, l);
      case ShutdownRead(ver) => ShutdownReadKeeps(cfg, k, p, h, l, ver);
    }
    SameShowing(cfg, k, p, h, l, e.local, g);
  }

  lemma ClearActionKeeps(cfg: Config, k: Key, p: Pod, h: History, l: Local, g: Store)
    requires PairInv(cfg, k, p, h, l, g)
    ensures l.pc.Taken? ==> PairInv(cfg, k, p, h, l.(pc := SummariesCleared), Clear(g, Summary, k.String()))
    ensures l.pc.SummariesCleared? ==> PairInv(cfg, k, p, h, l.(pc := Cleared), Clear(g, Details, k.String()))
  {
    ClearingKeeps(cfg, k, p, h, l);
    if l.pc.Taken? {
      ClearSummariesShows(cfg, k, h, g);
    } else if l.pc.SummariesCleared? {
      ClearDetailsShows(cfg, k, h, g);
    }
  }

  lemma CheckActionKeeps(cfg: Config, k: Key, p: Pod, ring: set<Pod>, h: History, l: Local, g: Store)
    requires PairInv(cfg, k, p, h, l, g) && l.pc.Cleared?
    ensures PairInv(cfg, k, p, h, Checking(cfg, k, p, ring, l), g)
  {
    CheckKeeps(cfg, k, p, ring, h, l);
    SameShowing(cfg, k, p, h, l, Checking(cfg, k, p, ring, l), g);
  }

  lemma ReadBaseActionKeeps(cfg: Config, k: Key, p: Pod, h: History, l: Local, g: Store, stripped: bool)
    requires PairInv(cfg, k, p, h, l, g) && l.pc.Owning?
    ensures PairInv(cfg, k, p, h, ReadingBase(h, l, stripped), g)
  {
    ReadBaseKeeps(cfg, k, p, h, l, stripped);
    SameShowing(cfg, k, p, h, l, ReadingBase(h, l, stripped), g);
  }

  lemma LoadActionKeeps(cfg: Config, k: Key, p: Pod, h: History, l: Local, g: Store)
    requires PairInv(cfg, k, p, h, l, g) && l.pc.Loading?
    ensures PairInv(cfg, k, p, h, LoadingStore(l), g)
  {
    LoadKeeps(cfg, k, p, h, l);
    SameShowing(cfg, k, p, h, l, LoadingStore(l), g);
  }

  lemma ReadApiActionKeeps(cfg: Config, k: Key, p: Pod, h: History, l: Local, g: Store)
    requires PairInv(cfg, k, p, h, l, g) && l.pc.Hydrating?
    ensures PairInv(cfg, k, p, h, ReadingApi(h, l), g)
  {
    ReadApiKeeps(cfg, k, p, h, l);
    SameShowing(cfg, k, p, h, l, ReadingApi(h, l), g);
  }

  lemma WriteStoreActionKeeps(cfg: Config, k: Key, p: Pod, h: History, l: Local, g: Store)
    requires PairInv(cfg, k, p, h, l, g) && l.pc.Storing?
    ensures PairInv(cfg, k, p, h, WritingStore(l), g)
  {
    WriteStoreKeeps(cfg, k, p, h, l);
    SameShowing(cfg, k, p, h, l, WritingStore(l), g);
  }

  lemma FailActionKeeps(cfg: Config, k: Key, p: Pod, h: History, l: Local, g: Store)
    requires PairInv(cfg, k, p, h, l, g) && (l.pc.Owning? || l.pc.Hydrating?)
    ensures PairInv(cfg, k, p, h, Fail(l), g)
  {
    FailKeeps(cfg, k, p, h, l);
    SameShowing(cfg, k, p, h, l, Fail(l), g);
  }

  lemma StartActionKeeps(cfg: Config, k: Key, p: Pod, h: History, l: Local, g: Store, order: seq<string>)
    requires PairInv(cfg, k, p, h, l, g)
    requires l.pc.Ready? && IsOrder(order, Counts(l.pc.copy.obj.report).Keys)
    ensures PairInv(cfg, k, p, h, Starting(cfg, k, l, order), g)
  {
    var c := l.pc.copy;
    StartKeeps(cfg, k, p, h, l, order);
    assert HasVersion(h, c.obj.report);
    StartShows(cfg, k, h, c.obj.report, order);
  }

  lemma PairOfShowing(cfg: Config, k: Key, p: Pod, h: History, l: Local, g: Store, showing: Showing)
    requires ShowingOf(h, l) == showing
    ensures PairInv(cfg, k, p, h, l, g) <==>
              ControlInv(cfg, k, p, h, l) && ShowInv(cfg, k, h, showing, View(g, k.String()))
  {
  }

  lemma PublishingShowing(h: History, l: Local)
    requires l.pc.Publishing?
    ensures ShowingOf(h, l) == Part(l.pc.copy.obj.report, l.pc.plan, l.pc.next)
  {
  }

  lemma PublishingPair(cfg: Config, k: Key, p: Pod, h: History, l: Local, g: Store)
    requires ControlInv(cfg, k, p, h, l) && l.pc.Publishing?
    requires ShowInv(cfg, k, h, Part(l.pc.copy.obj.report, l.pc.plan, l.pc.next), View(g, k.String()))
    ensures PairInv(cfg, k, p, h, l, g)
  {
    PublishingShowing(h, l);
    PairOfShowing(cfg, k, p, h, l, g, Part(l.pc.copy.obj.report, l.pc.plan, l.pc.next));
  }

  lemma PublishActionKeeps(cfg: Config, k: Key, p: Pod, h: History, l: Local, g: Store)
    requires cfg.Valid()
    requires PairInv(cfg, k, p, h, l, g) && l.pc.Publishing? && l.pc.next < |l.pc.plan|
    ensures PairInv(cfg, k, p, h, l.(pc := l.pc.(next := l.pc.next + 1)), Put(g, l.pc.plan[l.pc.next]))
  {
    PublishingKeeps(cfg, k, p, h, l);
    PublishingShowsPart(cfg, k, p, h, l, g);
    PublishNextShows(cfg, k, h, l.pc.copy.obj.report, l.pc.plan, l.pc.next, g);
    PublishingPair(cfg, k, p, h, l.(pc := l.pc.(next := l.pc.next + 1)), Put(g, l.pc.plan[l.pc.next]));
  }

  lemma EndShowing(k: Key, h: History, l: Local)
    requires l.pc.Publishing?
    ensures ShowingOf(h, EndingPublish(k, l)) == Whole(l.pc.copy.obj.report)
    ensures ShowingOf(h, l) == Part(l.pc.copy.obj.report, l.pc.plan, l.pc.next)
  {
  }

  lemma EndPublishActionKeeps(cfg: Config, k: Key, p: Pod, h: History, l: Local, g: Store)
    requires PairInv(cfg, k, p, h, l, g) && l.pc.Publishing? && l.pc.next >= |l.pc.plan|
    ensures PairInv(cfg, k, p, h, EndingPublish(k, l), g)
  {
    EndShowing(k, h, l);
    EndPublishShows(cfg, k, h, l.pc.copy.obj.report, l.pc.plan, l.pc.next, View(g, k.String()));
    assert ControlInv(cfg, k, p, h, EndingPublish(k, l)) by { PublishingKeeps(cfg, k, p, h, l); }
  }

  lemma WrittenKeeps(cfg: Config, k: Key, p: Pod, h: History, l: Local, g: Store, h': History, l': Local)
    requires PairInv(cfg, k, p, h, l, g)
    requires HistoryStep(h, h')
    requires ControlInv(cfg, k, p, h', l')
    requires ShowingOf(h', l') == ShowingOf(h, l) || ShowingOf(h', l') == Leftovers
    ensures PairInv(cfg, k, p, h', l', g)
  {
    if h' != h {
      assert h' == h + [h'[|h|]];
      PairGrows(cfg, k, p, h, l, g, h'[|h|]);
      ShowingOfGrows(cfg, k, p, h, l, h'[|h|]);
    }
    SameShowing(cfg, k, p, h', l, l', g);
  }

  lemma FinalizerShowing(h: History, l: Local, io: Io)
    requires l.pc.Finalizing? && Genuine(h, l.pc.copy)
    ensures var r := RemovingFinalizer(h, l, io);
            ShowingOf(r.history, r.local) == ShowingOf(h, l) || ShowingOf(r.history, r.local) == Leftovers
  {
  }

  lemma FinalizerActionKeeps(cfg: Config, k: Key, p: Pod, h: History, l: Local, g: Store, io: Io)
    requires PairInv(cfg, k, p, h, l, g) && l.pc.Finalizing?
    ensures var r := RemovingFinalizer(h, l, io); PairInv(cfg, k, p, r.history, r.local, g)
  {
    var r := RemovingFinalizer(h, l, io);
    RemoveFinalizerKeeps(cfg, k, p, h, l, io);
    RemoveFinalizerHistory(cfg, k, p, h, l, io);
    FinalizerShowing(h, l, io);
    WrittenKeeps(cfg, k, p, h, l, g, r.history, r.local);
  }

  lemma LabelShowing(k: Key, p: Pod, h: History, l: Local, io: Io)
    requires l.pc.Labelling? && Genuine(h, l.pc.copy)
    ensures var r := WritingLabel(k, p, h, l, io); ShowingOf(r.history, r.local) == ShowingOf(h, l)
  {
    var r := WritingLabel(k, p, h, l, io);
    assert r.history[l.pc.copy.ver] == h[l.pc.copy.ver];
  }

  lemma LabelActionKeeps(cfg: Config, k: Key, p: Pod, h: History, l: Local, g: Store, io: Io)
    requires PairInv(cfg, k, p, h, l, g) && l.pc.Labelling?
    ensures var r := WritingLabel(k, p, h, l, io); PairInv(cfg, k, p, r.history, r.local, g)
  {
    var r := WritingLabel(k, p, h, l, io);
    WriteLabelKeeps(cfg, k, p, h, l, io);
    WriteLabelHistory(cfg, k, p, h, l, io);
    LabelShowing(k, p, h, l, io);
    WrittenKeeps(cfg, k, p, h, l, g, r.history, r.local);
  }

  lemma ShutdownActionKeeps(cfg: Config, k: Key, p: Pod, h: History, l: Local, g: Store, io: Io)
    requires PairInv(cfg, k, p, h, l, g) && l.shutdown.Some?
    ensures var r := ShuttingDown(p, h, l, io); PairInv(cfg, k, p, r.history, r.local, g)
  {
    var r := ShuttingDown(p, h, l, io);
    ShutdownKeeps(cfg, k, p, h, l, io);
    ShutdownHistory(cfg, k, p, h, l, io);
    if r.history != h {
      assert r.history == h + [r.history[|h|]];
      ShowingOfGrows(cfg, k, p, h, l, r.history[|h|]);
    }
    WrittenKeeps(cfg, k, p, h, l, g, r.history, r.local);
  }

  lemma ActionKeeps(cfg: Config, k: Key, p: Pod, ring: set<Pod>, h: History, l: Local, g: Store, a: Action)
    requires cfg.Valid()
    requires Enabled(cfg, k, p, ring, h, l, a) && PairInv(cfg, k, p, h, l, g)
    ensures var e := Act(cfg, k, p, ring, h, l, g, a);
            PairInv(cfg, k, p, e.history, e.local, e.gauges) && HistoryStep(h, e.history)
  {
    match a {
      case ClearSummaries => ClearActionKeeps(cfg, k, p, h, l, g);
      case ClearDetails => ClearActionKeeps(cfg, k, p, h, l, g);
      case Start(order) => StartActionKeeps(cfg, k, p, h, l, g, order);
      case PublishNext => PublishActionKeeps(cfg, k, p, h, l, g);
      case EndPublish => EndPublishActionKeeps(cfg, k, p, h, l, g);
      case CheckOwner => CheckActionKeeps(cfg, k, p, ring, h, l, g);
      case ReadBase(stripped) => ReadBaseActionKeeps(cfg, k, p, h, l, g, stripped);
      case LoadStore => LoadActionKeeps(cfg, k, p, h, l, g);
      case ReadApi => ReadApiActionKeeps(cfg, k, p, h, l, g);
      case ReadFails => FailActionKeeps(cfg, k, p, h, l, g);
      case WriteStore => WriteStoreActionKeeps(cfg, k, p, h, l, g);
      case RemoveFinalizer(io) =>
        FinalizerActionKeeps(cfg, k, p, h, l, g, io);
        RemoveFinalizerHistory(cfg, k, p, h, l, io);
      case WriteLabel(io) =>
        LabelActionKeeps(cfg, k, p, h, l, g, io);
        WriteLabelHistory(cfg, k, p, h, l, io);
      case ShutdownWrite(io) =>
        ShutdownActionKeeps(cfg, k, p, h, l, g, io);
        ShutdownHistory(cfg, k, p, h, l, io);
      case _ => QueueActionKeeps(cfg, k, p, ring, h, l, g, a);
    }
  }

  // ---- One step of the fleet -------------------------------------------

  ghost predicate PairOf(cfg: Config, s: State, k: Key, p: Pod)
    requires WellFormed(cfg, s) && k in cfg.keys && p in cfg.pods
  {
    PairInv(cfg, k, p, s.keys[k].history, s.keys[k].locals[p], s.gauges[p])
  }

  lemma ExporterKeepsPair(cfg: Config, s: State, k: Key, p: Pod, a: Action, k': Key, p': Pod)
    requires cfg.Valid() && Inv(cfg, s) && Allowed(cfg, s, Exporter(k, p, a))
    requires k' in cfg.keys && p' in cfg.pods
    ensures PairOf(cfg, Next(cfg, s, Exporter(k, p, a)), k', p')
  {
    var h, l, g := s.keys[k].history, s.keys[k].locals[p], s.gauges[p];
    var e := Act(cfg, k, p, s.rings[p], h, l, g, a);
    var s' := Next(cfg, s, Exporter(k, p, a));
    assert KeyInv(cfg, s, k) && KeyInv(cfg, s, k');
    assert PairOf(cfg, s, k', p') && PairOf(cfg, s, k, p);
    ActionKeeps(cfg, k, p, s.rings[p], h, l, g, a);
    if k' == k && p' != p {
      HistoryKeeps(k, h, s.keys[k].scanned, e.history);
      if e.history != h {
        PairGrows(cfg, k, p', h, s.keys[k].locals[p'], s.gauges[p'], e.history[|h|]);
      }
    } else if k' != k && p' == p {
      ActionIsLocal(cfg, k, p, s.rings[p], h, l, g, a, k'.String());
    }
  }

  lemma ExporterKeeps(cfg: Config, s: State, k: Key, p: Pod, a: Action)
    requires cfg.Valid() && Inv(cfg, s) && Allowed(cfg, s, Exporter(k, p, a))
    ensures Inv(cfg, Next(cfg, s, Exporter(k, p, a)))
  {
    var h, l, g := s.keys[k].history, s.keys[k].locals[p], s.gauges[p];
    var e := Act(cfg, k, p, s.rings[p], h, l, g, a);
    var s' := Next(cfg, s, Exporter(k, p, a));
    assert KeyInv(cfg, s, k);
    assert PairOf(cfg, s, k, p);
    ActionKeeps(cfg, k, p, s.rings[p], h, l, g, a);
    HistoryKeeps(k, h, s.keys[k].scanned, e.history);
    ActionIsLocal(cfg, k, p, s.rings[p], h, l, g, a, "");
    forall k' | k' in cfg.keys
      ensures KeyInv(cfg, s', k')
    {
      assert KeyInv(cfg, s, k');
      forall p' | p' in cfg.pods
        ensures PairOf(cfg, s', k', p')
      {
        ExporterKeepsPair(cfg, s, k, p, a, k', p');
      }
    }
  }

  lemma ScannerKeeps(cfg: Config, s: State, step: Step)
    requires Inv(cfg, s) && Allowed(cfg, s, step)
    requires step.ScannerPut? || step.ScannerDelete?
    ensures Inv(cfg, Next(cfg, s, step))
  {
    var s' := Next(cfg, s, step);
    var k := step.key;
    var h := s.keys[k].history;
    assert KeyInv(cfg, s, k);
    var c := s'.keys[k].history[|h|];
    assert s'.keys[k].history == h + [c];
    forall k' | k' in cfg.keys
      ensures KeyInv(cfg, s', k')
    {
      assert KeyInv(cfg, s, k');
      forall p' | p' in cfg.pods
        ensures PairOf(cfg, s', k', p')
      {
        assert PairOf(cfg, s, k', p');
        if k' == k {
          PairGrows(cfg, k, p', h, s.keys[k].locals[p'], s.gauges[p'], c);
        }
      }
    }
  }

  lemma RestartKeeps(cfg: Config, s: State, p: Pod)
    requires Inv(cfg, s) && Allowed(cfg, s, Restart(p))
    ensures Inv(cfg, Next(cfg, s, Restart(p)))
  {
    var s' := Next(cfg, s, Restart(p));
    forall k' | k' in cfg.keys
      ensures KeyInv(cfg, s', k')
    {
      assert KeyInv(cfg, s, k');
      forall p' | p' in cfg.pods
        ensures PairOf(cfg, s', k', p')
      {
        assert PairOf(cfg, s, k', p');
        if p' == p {
          FreshControl(cfg, k', p, s.keys[k'].history);
        }
      }
    }
  }

  lemma StepKeeps(cfg: Config, s: State, step: Step)
    requires cfg.Valid() && Inv(cfg, s) && Allowed(cfg, s, step)
    ensures Inv(cfg, Next(cfg, s, step))
  {
    match step {
      case Exporter(k, p, a) => ExporterKeeps(cfg, s, k, p, a);
      case ScannerPut(_, _) => ScannerKeeps(cfg, s, step);
      case ScannerDelete(_) => ScannerKeeps(cfg, s, step);
      case RingChange(p, members) =>
        var s' := Next(cfg, s, step);
        forall k | k in cfg.keys ensures KeyInv(cfg, s', k) { assert KeyInv(cfg, s, k); }
      case Restart(p) => RestartKeeps(cfg, s, p);
    }
  }

  lemma InitHolds(cfg: Config)
    ensures Inv(cfg, Init(cfg))
  {
    var s := Init(cfg);
    forall k | k in cfg.keys
      ensures KeyInv(cfg, s, k)
    {
      forall p | p in cfg.pods
        ensures PairOf(cfg, s, k, p)
      {
        FreshControl(cfg, k, p, [Absent]);
      }
    }
  }

  /** The invariant holds after every run, whatever the interleaving. */
  lemma {:induction false} RunKeeps(cfg: Config, s: State, steps: seq<Step>)
    requires cfg.Valid() && Inv(cfg, s) && CanRun(cfg, s, steps)
    ensures Inv(cfg, After(cfg, s, steps))
    decreases |steps|
  {
    if steps != [] {
      StepKeeps(cfg, s, steps[0]);
      RunKeeps(cfg, Next(cfg, s, steps[0]), steps[1..]);
    }
  }

  lemma ReachableInv(cfg: Config, s: State)
    requires cfg.Valid() && Reachable(cfg, s)
    ensures Inv(cfg, s)
  {
    var steps :| ReachedBy(cfg, s, steps);
    InitHolds(cfg);
    RunKeeps(cfg, Init(cfg), steps);
  }

  lemma AtPair(cfg: Config, s: State, k: Key, p: Pod)
    requires Inv(cfg, s) && k in cfg.keys && p in cfg.pods
    ensures PairInv(cfg, k, p, HistoryOf(cfg, s, k), LocalOf(cfg, s, k, p), s.gauges[p])
  {
    assert KeyInv(cfg, s, k);
  }
}
