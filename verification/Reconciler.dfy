/** `Reconcile` of both scanners and the shutdown hook, run through without interference. */
module Reconciler {
  import opened Metrics
  import opened Gauges
  import opened Reports
  import opened Fleet
  import opened FleetControl
  import opened HydratingCache
  import opened Sharding
  import opened Publishing

  /** How `Reconcile` returns: with a jittered requeue, with nothing, with an error; or it panics. */
  datatype Return = Requeued | Done | Error | Panicked

  /** The API server's side of one report. */
  class ApiServer {
    var history: History

    constructor ()
      ensures history == [Absent]
    {
      history := [Absent];
    }

    /** `Update` with the version that `c` carries; the reply is the object as the server has it then. */
    method Update(c: Copy, io: Io) returns (ok: bool, reply: Copy)
      modifies this
      ensures history ==
                if !io.Refused? && Accepts(old(history), c.ver) then Updated(old(history), c.obj) else old(history)
      ensures ok <==> io.Delivered? && Accepts(old(history), c.ver)
      ensures reply == if ok && Last(history).Present? then Copy(Latest(history), Last(history).obj) else c
    {
      ok, reply := false, c;
      if !io.Refused? && c.ver == Latest(history) && Last(history).Present? {
        history := Updated(history, c.obj);
        if io.Delivered? {
          ok := true;
          if Last(history).Present? {
            reply := Copy(Latest(history), Last(history).obj);
          }
        }
      }
    }
  }

  /** Both vectors without the report's series. */
  function ClearedOf(g: Store, name: string): Store {
    Clear(Clear(g, Summary, name), Details, name)
  }

  lemma PutAllOver(base: Store, ws: seq<Write>)
    ensures PutAll(base, ws) == base + PutAll(map[], ws)
  {
    PutAllIsImage(map[], ws);
    PutAllIsImage(base, ws);
    assert map[] + Image(ws) == Image(ws);
  }

  /** Clearing and then writing any plan of the steps gives what the methods below give. */
  lemma PlanOnCleared(targets: seq<VulnerabilityLabel>, k: Key, r: Report, order: seq<string>, g: Store)
    requires IsOrder(order, Counts(r).Keys)
    ensures forall s | s in order :: s in Counts(r)
    ensures PutAll(ClearedOf(g, k.String()), Plan(targets, k, r, order))
         == ClearedOf(g, k.String()) + Expected(targets, k, r)
  {
    PlanGivesExpected(targets, k, r, order);
    PutAllOver(ClearedOf(g, k.String()), Plan(targets, k, r, order));
  }

  lemma ClearedVectors(a: Store, b: Store, name: string)
    requires forall s | s in a :: s.gauge == Summary
    requires forall s | s in b :: s.gauge == Details
    ensures Clear(a, Summary, name) + Clear(b, Details, name) == ClearedOf(a + b, name)
  {
  }

  lemma NothingAfterClear(g: Store, name: string)
    ensures View(ClearedOf(g, name), name) == map[]
  {
    assert forall s | s in View(ClearedOf(g, name), name) :: s.gauge == Summary || s.gauge == Details;
  }

  lemma PublishedShows(g: Store, targets: seq<VulnerabilityLabel>, k: Key, r: Report)
    ensures View(ClearedOf(g, k.String()) + Expected(targets, k, r), k.String()) != map[]
  {
    SummaryIsNamed(k, r, "UNKNOWN");
    var x := SeveritySeries(Base(k, r), "UNKNOWN");
    assert x in SummaryStore(k, r);
    assert x in View(ClearedOf(g, k.String()) + Expected(targets, k, r), k.String());
  }

  lemma CounterNames(k: Key, r: Report)
    ensures NameSet(SummaryLabels()) == ReportValues(k, r, SummaryLabels()).Keys + {"severity"}
  {
    SummaryLabelFacts();
  }

  class Exporter {
    const targets: seq<VulnerabilityLabel>
    const ring: ShardHelper
    const summary: GaugeVec
    const details: GaugeVec

    ghost predicate Valid()
      reads this, summary, details
    {
      && summary != details && summary.Valid() && details.Valid()
      && summary.gauge == Summary && summary.names == NameSet(SummaryLabels())
      && details.gauge == Details && details.names == NameSet(targets)
      && ValidTargets(targets)
    }

    constructor (targets: seq<VulnerabilityLabel>, ring: ShardHelper)
      requires ValidTargets(targets)
      ensures Valid() && fresh(summary) && fresh(details) && Gauges() == map[]
      ensures this.targets == targets && this.ring == ring
    {
      this.targets, this.ring := targets, ring;
      summary := new GaugeVec(Summary, NameSet(SummaryLabels()));
      details := new GaugeVec(Details, NameSet(targets));
    }

    ghost function Gauges(): Store
      reads summary, details
    {
      summary.series + details.series
    }

    method ClearReport(name: string)
      requires Valid()
      modifies summary, details
      ensures Valid() && Gauges() == ClearedOf(old(Gauges()), name)
    {
      var _ := summary.DeletePartialMatch(name);
      var _ := details.DeletePartialMatch(name);
      ClearedVectors(old(summary.series), old(details.series), name);
    }

    method PublishCounters(k: Key, r: Report)
      requires Valid()
      modifies summary
      ensures Valid() && summary.series == old(summary.series) + SummaryStore(k, r)
    {
      var group := LabelsForGroup(GroupSummary);
      var values := ValuesForReport(k, r, group);
      CounterNames(k, r);
      var counts := CountReport(r);
      PublishSummary(summary, values, counts);
    }

    method PublishVulnerabilities(k: Key, r: Report)
      requires Valid()
      modifies details
      ensures Valid() && details.series == old(details.series) + Image(DetailWrites(targets, k, r))
    {
      if |targets| > 0 {
        PublishDetails(details, targets, k, r);
        PutAllIsImage(old(details.series), DetailWrites(targets, k, r));
      }
    }

    method PublishReport(k: Key, r: Report)
      requires Valid()
      modifies summary, details
      ensures Valid() && Gauges() == old(Gauges()) + Expected(targets, k, r)
    {
      PublishCounters(k, r);
      PublishVulnerabilities(k, r);
      VectorsShow(targets, k, r, old(summary.series), old(details.series));
    }

    predicate Owns(k: Key): (own: bool)
      reads ring.ring
      ensures own <==> ring.locate(ring.Members(), k.namespace + "/" + k.name) == ring.podIP
    {
      ring.locate(ring.Members(), k.String()) == ring.podIP
    }

    /** What both reconciles do to the gauges: clear the report, and publish it again if it is ours and there. */
    method Refresh(k: Key, read: Read) returns (own: bool)
      requires Valid() && ring.Members() != {}
      modifies summary, details
      ensures Valid() && own == Owns(k) == old(Owns(k))
      ensures own && read.Found? ==>
                Gauges() == ClearedOf(old(Gauges()), k.String()) + Expected(targets, k, read.copy.obj.report)
      ensures !(own && read.Found?) ==> Gauges() == ClearedOf(old(Gauges()), k.String())
      ensures View(Gauges(), k.String()) != map[] <==> own && read.Found?
    {
      NothingAfterClear(Gauges(), k.String());
      if read.Found? {
        PublishedShows(Gauges(), targets, k, read.copy.obj.report);
      }
      ClearReport(k.String());
      own := ring.ShouldOwn(k.String());
      if own && read.Found? {
        PublishReport(k, read.copy.obj.report);
      }
    }

    /** The Kubescape reconcile. `read` is what the hydrating cache answers, `io` what becomes of an update. */
    method ReconcileKubescape(k: Key, read: Read, server: ApiServer, io: Io) returns (ret: Return)
      requires Valid() && ring.Members() != {}
      modifies summary, details, server
      ensures Valid()
      ensures Owns(k) && read.Found? ==>
                && Gauges() == ClearedOf(old(Gauges()), k.String()) + Expected(targets, k, read.copy.obj.report)
                && server.history == LabelledHistory(KubescapeScanner, ring.podIP, old(server.history), read.copy, io)
      ensures !(Owns(k) && read.Found?) ==>
                Gauges() == ClearedOf(old(Gauges()), k.String()) && server.history == old(server.history)
      ensures ret == if !Owns(k) || read.Found? then Requeued else if read.NotFound? then Done else Error
      ensures ret == Error || ret == Done ==> View(Gauges(), k.String()) == map[]
    {
      var shouldOwn := Refresh(k, read);
      if !shouldOwn {
        return Requeued;
      }
      if read.NotFound? {
        return Done;
      }
      if read.Broken? {
        return Error;
      }
      LabelManifest(server, ring.podIP, read.copy, io);
      return Requeued;
    }

    /** The Trivy reconcile; `hasLabels` says whether the report came with a label map, `io` what becomes of the
        finalizer's update and `io'` what becomes of the label's. */
    method ReconcileTrivy(k: Key, read: Read, hasLabels: bool, server: ApiServer, io: Io, io': Io) returns (ret: Return)
      requires Valid() && ring.Members() != {}
      modifies summary, details, server
      ensures Valid()
      ensures Owns(k) && read.Found? ==>
                && Gauges() == ClearedOf(old(Gauges()), k.String()) + Expected(targets, k, read.copy.obj.report)
                && (server.history, ret) == TrivyWrites(ring.podIP, old(server.history), read.copy, hasLabels, io, io')
      ensures !(Owns(k) && read.Found?) ==>
                && Gauges() == ClearedOf(old(Gauges()), k.String()) && server.history == old(server.history)
                && ret == if !Owns(k) then Requeued else if read.NotFound? then Done else Error
      ensures ret == Error ==>
                (View(Gauges(), k.String()) != map[] <==>
                   Owns(k) && read.Found? && FinalizerFails(old(server.history), read.copy, io))
      ensures ret == Done ==> View(Gauges(), k.String()) == map[]
    {
      var shouldOwn := Refresh(k, read);
      if !shouldOwn {
        return Requeued;
      }
      if read.NotFound? {
        return Done;
      }
      if read.Broken? {
        return Error;
      }
      ret := LabelReport(server, ring.podIP, read.copy, hasLabels, io, io');
    }
  }

  /** The methods and the fleet's check ask the same ring the same question. */
  lemma OwnsAgrees(e: Exporter, cfg: Config, k: Key, p: Pod, l: Local)
    requires e.ring.locate == cfg.locate && e.ring.podIP == p && l.pc.Cleared?
    ensures e.Owns(k) <==> Checking(cfg, k, p, e.ring.Members(), l).pc.Owning?
  {
  }

  /** Kubescape's matches are counted; Trivy's report brings its counters along. */
  method CountReport(r: Report) returns (counts: map<string, real>)
    ensures counts == Counts(r)
  {
    if r.Kubescape? {
      counts := CountPerSeverity(r.matches);
    } else {
      counts := Counts(r);
    }
  }

  /** A manifest that shows another owner is labelled anew. */
  method LabelManifest(server: ApiServer, podIP: string, c: Copy, io: Io)
    modifies server
    ensures server.history == LabelledHistory(KubescapeScanner, podIP, old(server.history), c, io)
  {
    var manifest := c;
    if manifest.obj.owner != podIP {
      manifest := manifest.(obj := manifest.obj.(owner := podIP));
      var _, _ := server.Update(manifest, io);
    }
  }

  /** A report loses the finalizer, if it has it, and is labelled in any case; a missing label map panics. */
  method LabelReport(server: ApiServer, podIP: string, c: Copy, hasLabels: bool, io: Io, io': Io) returns (ret: Return)
    modifies server
    ensures (server.history, ret) == TrivyWrites(podIP, old(server.history), c, hasLabels, io, io')
    ensures (ret == Error <==> FinalizerFails(old(server.history), c, io)) && ret != Done
  {
    var report := c;
    if report.obj.finalizer {
      report := report.(obj := report.obj.(finalizer := false));
      var ok;
      ok, report := server.Update(report, io);
      if !ok {
        return Error;
      }
    }
    if !hasLabels {
      return Panicked;
    }
    report := report.(obj := report.obj.(owner := podIP));
    var _, _ := server.Update(report, io');
    return Requeued;
  }

  lemma VectorsShow(targets: seq<VulnerabilityLabel>, k: Key, r: Report, a: Store, b: Store)
    requires forall s | s in b :: s.gauge == Details
    ensures (a + SummaryStore(k, r)) + (b + Image(DetailWrites(targets, k, r))) == (a + b) + Expected(targets, k, r)
  {
    SummaryIsSummary(k, r);
    SumOfVectors(a, b, SummaryStore(k, r), DetailWrites(targets, k, r));
  }

  lemma SummaryIsSummary(k: Key, r: Report)
    ensures forall s | s in SummaryStore(k, r) :: s.gauge == Summary
  {
  }

  lemma SumOfVectors(a: Store, b: Store, more: Store, ws: seq<Write>)
    requires forall s | s in b :: s.gauge == Details
    requires forall s | s in more :: s.gauge == Summary
    ensures (a + more) + (b + Image(ws)) == (a + b) + (more + Image(ws))
  {
  }

  // ---- The writes, as the step system has them -------------------------

  predicate FinalizerFails(h: History, c: Copy, io: Io) {
    c.obj.finalizer && (!Accepts(h, c.ver) || !io.Delivered?)
  }

  function TrivyWrites(podIP: string, h: History, c: Copy, hasLabels: bool, io: Io, io': Io): (History, Return) {
    if !c.obj.finalizer then
      (if hasLabels then LabelledHistory(TrivyScanner, podIP, h, c, io') else h,
       if hasLabels then Requeued else Panicked)
    else if io.Refused? || !Accepts(h, c.ver) then (h, Error)
    else
      var h' := Updated(h, c.obj.(finalizer := false));
      if io.ReplyLost? then (h', Error)
      else
        var c' := if Last(h').Present? then Copy(Latest(h'), Last(h').obj) else c.(obj := c.obj.(finalizer := false));
        (if hasLabels then LabelledHistory(TrivyScanner, podIP, h', c', io') else h',
         if hasLabels then Requeued else Panicked)
  }

  /** Although one scanner's reconcile asks first and the other's does not, both make the same history: one version
      more exactly if the copy is the latest, shows another owner and the update is not refused. */
  lemma ScannersLabelAlike(p: Pod, h: History, c: Copy, io: Io)
    requires Genuine(h, c)
    ensures LabelledHistory(KubescapeScanner, p, h, c, io) == LabelledHistory(TrivyScanner, p, h, c, io)
    ensures LabelledHistory(TrivyScanner, p, h, c, io)
         == if c.ver == Latest(h) && c.obj.owner != p && !io.Refused? then h + [Kept(c.obj.(owner := p))] else h
  {
  }

  /** After publishing, the Trivy reconcile returns an error exactly if there is a finalizer and its update is refused,
      in conflict, or its reply lost. */
  lemma ErrorAfterPublishingIff(podIP: string, h: History, c: Copy, hasLabels: bool, io: Io, io': Io)
    ensures TrivyWrites(podIP, h, c, hasLabels, io, io').1 == Error <==> FinalizerFails(h, c, io)
  {
  }

  /** The methods write what the steps write. */
  lemma FinalizerStepAgrees(k: Key, p: Pod, h: History, l: Local, io: Io, io': Io)
    requires l.pc.Finalizing? && l.pc.copy.obj.finalizer && k.scanner == TrivyScanner && Genuine(h, l.pc.copy)
    ensures var r := RemovingFinalizer(h, l, io);
            var (h', ret) := TrivyWrites(p, h, l.pc.copy, true, io, io');
            if r.local.pc.Labelling? then WritingLabel(k, p, r.history, r.local, io').history == h' && ret == Requeued
            else r.history == h' && ret == Error
  {
  }

  // ---- The shutdown hook -----------------------------------------------

  /** `RequeueKubescapeManifestsForPod` for one listed manifest: a label that is still ours is emptied. */
  method RequeueManifest(server: ApiServer, read: Read, podIP: string, io: Io)
    modifies server
    ensures server.history ==
              if read.Found? then FreedHistory(podIP, old(server.history), read.copy, io) else old(server.history)
  {
    if !read.Found? {
      return;
    }
    var manifest := read.copy;
    if manifest.obj.owner == podIP {
      manifest := manifest.(obj := manifest.obj.(owner := ""));
      var _, _ := server.Update(manifest, io);
    }
  }

  /** What the hook writes is one version more, without our label, exactly if the copy is the latest, bears it, and the
      update is not refused. */
  lemma FreeingIff(p: Pod, h: History, c: Copy, io: Io)
    requires Genuine(h, c) && p != ""
    ensures FreedHistory(p, h, c, io)
         == if c.ver == Latest(h) && c.obj.owner == p && !io.Refused? then h + [Kept(c.obj.(owner := ""))] else h
  {
  }

  /**
   * `RequeueTrivyReportsForPod` for one listed report. The label is emptied in the listed copy, but the one written is
   * the one fetched, so whatever becomes of the update, the server has no new version and nobody takes over.
   */
  method RequeueReport(server: ApiServer, listed: Object, read: Read, podIP: string, io: Io)
    requires read.Found? ==> Genuine(server.history, read.copy)
    modifies server
    ensures server.history == old(server.history)
  {
    var item := listed;
    if item.owner == podIP {
      item := item.(owner := "");
      // What could not be fetched has no name to be updated under.
      if read.Found? {
        var _, _ := server.Update(read.copy, io);
      }
    }
  }
}
