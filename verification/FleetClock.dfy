/**
 * The fleet with a clock: a reconcile that asks for a requeue gets a jittered delay, time does not pass a timer that is
 * due, and so no stray exporter outlives the requeue's target duration.
 */
module FleetClock {
  import opened Metrics
  import opened Gauges
  import opened Reports
  import opened Fleet
  import opened FleetControl
  import opened FleetGauges
  import opened FleetSafety
  import opened FleetTheorems
  import Jitter

  /** When the timers are due, and when the reconciles that set them ended. */
  datatype Timed = Timed(s: State, now: int, due: map<(Key, Pod), int>, ended: map<(Key, Pod), int>)

  datatype Tick = Does(step: Step, delay: int) | Passes(to: int)

  /** What all exporters are run with. */
  datatype Requeue = Requeue(target: nat, percent: nat)

  /** The reconcile ends with a requeue: declined, or exported. */
  predicate EndsRequeued(l: Local, l': Local) {
    !l.pc.Idle? && l'.pc.Idle? && (l'.outcome.Declined? || l'.outcome.Exported?)
  }

  ghost predicate Requeues(cfg: Config, s: State, step: Step)
    requires Allowed(cfg, s, step)
  {
    step.Exporter? && EndsRequeued(LocalOf(cfg, s, step.key, step.pod),
                                   LocalOf(cfg, Next(cfg, s, step), step.key, step.pod))
  }

  ghost predicate IsDelay(r: Requeue, delay: int) {
    exists draw: nat :: Jitter.JitterRequeue(r.target, r.percent, draw) == Jitter.Delay(delay)
  }

  /** No timer is overdue at this time. */
  ghost predicate NoneOverdue(cfg: Config, t: Timed, now: int)
    requires WellFormed(cfg, t.s)
  {
    forall k, p | k in cfg.keys && p in cfg.pods && LocalOf(cfg, t.s, k, p).timer ::
      (k, p) in t.due && now <= t.due[(k, p)]
  }

  ghost predicate MayTick(cfg: Config, r: Requeue, t: Timed, tick: Tick) {
    match tick
    case Does(step, delay) =>
      && Allowed(cfg, t.s, step)
      && (Requeues(cfg, t.s, step) ==> IsDelay(r, delay))
      && (step.Exporter? && step.action.TimerFires? ==>
            (step.key, step.pod) in t.due && t.due[(step.key, step.pod)] <= t.now)
    case Passes(to) => WellFormed(cfg, t.s) && t.now <= to && NoneOverdue(cfg, t, to)
  }

  /** A new request for a delay does not put off a timer that is running already. */
  function NewDue(t: Timed, at: (Key, Pod), running: bool, delay: int): int {
    if running && at in t.due && t.due[at] < t.now + delay then t.due[at] else t.now + delay
  }

  lemma NewDueIsNoLater(t: Timed, at: (Key, Pod), running: bool, delay: int)
    ensures NewDue(t, at, running, delay) <= t.now + delay
    ensures running && at in t.due ==> NewDue(t, at, running, delay) <= t.due[at]
    ensures !running ==> NewDue(t, at, running, delay) == t.now + delay
  {
  }

  ghost function Ticked(cfg: Config, r: Requeue, t: Timed, tick: Tick): Timed
    requires MayTick(cfg, r, t, tick)
  {
    match tick
    case Passes(to) => t.(now := to)
    case Does(step, delay) =>
      var t' := t.(s := Next(cfg, t.s, step));
      if !Requeues(cfg, t.s, step) then t'
      else
        var at := (step.key, step.pod);
        t'.(due := t.due[at := NewDue(t, at, LocalOf(cfg, t.s, step.key, step.pod).timer, delay)],
            ended := t.ended[at := t.now])
  }

  ghost predicate OnTime(r: Requeue, t: Timed, at: (Key, Pod)) {
    at in t.due && at in t.ended && t.now <= t.due[at] <= t.ended[at] + r.target
  }

  /** Every timer that is running fires within the target duration of the reconcile that set it. */
  ghost predicate ClockInv(cfg: Config, r: Requeue, t: Timed) {
    && Inv(cfg, t.s)
    && forall k, p | k in cfg.keys && p in cfg.pods && LocalOf(cfg, t.s, k, p).timer :: OnTime(r, t, (k, p))
  }

  lemma DelaysAreShort(r: Requeue, delay: int)
    requires IsDelay(r, delay)
    ensures delay <= r.target
  {
    var draw: nat :| Jitter.JitterRequeue(r.target, r.percent, draw) == Jitter.Delay(delay);
    if Jitter.Jittered(r.target, r.percent, draw).Delay? {
      Jitter.DelayBounds(r.target, r.percent, draw);
    }
  }

  lemma DelaysAreNotNegative(r: Requeue, delay: int)
    requires IsDelay(r, delay) && r.percent <= 100
    ensures 0 <= delay
  {
    var draw: nat :| Jitter.JitterRequeue(r.target, r.percent, draw) == Jitter.Delay(delay);
    if Jitter.Jittered(r.target, r.percent, draw).Delay? {
      Jitter.DelayBounds(r.target, r.percent, draw);
    }
  }

  // ---- Timers ----------------------------------------------------------

  lemma TimersStart(cfg: Config, k: Key, p: Pod, ring: set<Pod>, h: History, l: Local, g: Store, a: Action)
    requires Enabled(cfg, k, p, ring, h, l, a)
    ensures var l' := Act(cfg, k, p, ring, h, l, g, a).local;
            (l'.timer ==> l.timer || EndsRequeued(l, l')) && (EndsRequeued(l, l') ==> l'.timer)
  {
  }

  lemma OwnTimer(cfg: Config, s: State, step: Step)
    requires Allowed(cfg, s, step) && step.Exporter?
    ensures LocalOf(cfg, Next(cfg, s, step), step.key, step.pod).timer ==>
              LocalOf(cfg, s, step.key, step.pod).timer || Requeues(cfg, s, step)
  {
    var k, p := step.key, step.pod;
    TimersStart(cfg, k, p, s.rings[p], HistoryOf(cfg, s, k), LocalOf(cfg, s, k, p), s.gauges[p], step.action);
  }

  lemma OtherTimers(cfg: Config, s: State, step: Step, k: Key, p: Pod)
    requires Allowed(cfg, s, step) && k in cfg.keys && p in cfg.pods
    requires !(step.Exporter? && step.key == k && step.pod == p)
    ensures LocalOf(cfg, Next(cfg, s, step), k, p).timer ==> LocalOf(cfg, s, k, p).timer
  {
  }

  lemma TimerIsKept(cfg: Config, r: Requeue, t: Timed, step: Step, delay: int, k: Key, p: Pod)
    requires ClockInv(cfg, r, t) && MayTick(cfg, r, t, Does(step, delay)) && r.percent <= 100
    requires k in cfg.keys && p in cfg.pods && LocalOf(cfg, Next(cfg, t.s, step), k, p).timer
    ensures OnTime(r, Ticked(cfg, r, t, Does(step, delay)), (k, p))
  {
    if step.Exporter? && step.key == k && step.pod == p {
      OwnTimer(cfg, t.s, step);
      if Requeues(cfg, t.s, step) {
        DelaysAreShort(r, delay);
        DelaysAreNotNegative(r, delay);
      }
    } else {
      OtherTimers(cfg, t.s, step, k, p);
    }
  }

  lemma TickKeeps(cfg: Config, r: Requeue, t: Timed, tick: Tick)
    requires cfg.Valid() && ClockInv(cfg, r, t) && MayTick(cfg, r, t, tick) && r.percent <= 100
    ensures ClockInv(cfg, r, Ticked(cfg, r, t, tick))
  {
    var t' := Ticked(cfg, r, t, tick);
    if tick.Does? {
      StepKeeps(cfg, t.s, tick.step);
      forall k, p | k in cfg.keys && p in cfg.pods && LocalOf(cfg, t'.s, k, p).timer
        ensures OnTime(r, t', (k, p))
      {
        TimerIsKept(cfg, r, t, tick.step, tick.delay, k, p);
      }
    }
  }

  // ---- Strays ----------------------------------------------------------

  lemma StrayHasTimer(cfg: Config, s: State, k: Key, p: Pod)
    requires Inv(cfg, s) && k in cfg.keys && p in cfg.pods && Stray(cfg, s, k, p)
    ensures LocalOf(cfg, s, k, p).timer
  {
    AtPair(cfg, s, k, p);
    ShowsOnlyWithTimer(cfg, k, p, HistoryOf(cfg, s, k), LocalOf(cfg, s, k, p), s.gauges[p]);
  }

  /** A pod becomes a stray exporter just when a reconcile of its own ends. */
  lemma StrayBegins(cfg: Config, r: Requeue, t: Timed, tick: Tick, k: Key, p: Pod)
    requires cfg.Valid() && ClockInv(cfg, r, t) && MayTick(cfg, r, t, tick) && k in cfg.keys && p in cfg.pods
    requires !Stray(cfg, t.s, k, p) && Stray(cfg, Ticked(cfg, r, t, tick).s, k, p)
    ensures var t' := Ticked(cfg, r, t, tick); (k, p) in t'.ended && t'.ended[(k, p)] == t'.now
  {
    var step := tick.step;
    if step.Exporter? && step.key == k && step.pod == p {
      OwnStepStraysIff(cfg, t.s, k, p, step.action);
      RefusalRequeues(cfg, t.s, k, p, step.action);
    } else {
      ForeignStepStraysNot(cfg, t.s, k, p, step);
    }
  }

  lemma RefusalRequeues(cfg: Config, s: State, k: Key, p: Pod, a: Action)
    requires Allowed(cfg, s, Exporter(k, p, a)) && a == WriteLabel(Refused)
    ensures Requeues(cfg, s, Exporter(k, p, a))
  {
  }

  lemma StrayGoesOn(cfg: Config, r: Requeue, t: Timed, tick: Tick, k: Key, p: Pod)
    requires MayTick(cfg, r, t, tick) && WellFormed(cfg, t.s) && k in cfg.keys && p in cfg.pods
    requires Stray(cfg, t.s, k, p)
    ensures var t' := Ticked(cfg, r, t, tick);
            ((k, p) in t'.ended <==> (k, p) in t.ended) && ((k, p) in t.ended ==> t'.ended[(k, p)] == t.ended[(k, p)])
  {
  }

  /** A run of ticks all through which the pod is a stray exporter of the report. */
  ghost predicate StraysThrough(cfg: Config, r: Requeue, t: Timed, ticks: seq<Tick>, k: Key, p: Pod)
    requires k in cfg.keys && p in cfg.pods
    decreases |ticks|
  {
    && WellFormed(cfg, t.s) && Stray(cfg, t.s, k, p)
    && (ticks == [] ||
          (MayTick(cfg, r, t, ticks[0]) && StraysThrough(cfg, r, Ticked(cfg, r, t, ticks[0]), ticks[1..], k, p)))
  }

  ghost function EndOf(cfg: Config, r: Requeue, t: Timed, ticks: seq<Tick>, k: Key, p: Pod): Timed
    requires k in cfg.keys && p in cfg.pods && StraysThrough(cfg, r, t, ticks, k, p)
    decreases |ticks|
  {
    if ticks == [] then t else EndOf(cfg, r, Ticked(cfg, r, t, ticks[0]), ticks[1..], k, p)
  }

  lemma {:induction false} StraysUntilDue(cfg: Config, r: Requeue, t: Timed, ticks: seq<Tick>, k: Key, p: Pod)
    requires cfg.Valid() && ClockInv(cfg, r, t) && r.percent <= 100 && k in cfg.keys && p in cfg.pods
    requires StraysThrough(cfg, r, t, ticks, k, p)
    ensures (k, p) in t.ended && EndOf(cfg, r, t, ticks, k, p).now <= t.ended[(k, p)] + r.target
    decreases |ticks|
  {
    StrayHasTimer(cfg, t.s, k, p);
    assert OnTime(r, t, (k, p));
    if ticks != [] {
      TickKeeps(cfg, r, t, ticks[0]);
      StrayGoesOn(cfg, r, t, ticks[0], k, p);
      StraysUntilDue(cfg, r, Ticked(cfg, r, t, ticks[0]), ticks[1..], k, p);
    }
  }

  /** A stray exporter lasts no longer than the requeue's target duration: however long it goes on after the tick that
      made it one, no more time than that has passed. */
  lemma StrayLifetime(cfg: Config, r: Requeue, t: Timed, tick: Tick, ticks: seq<Tick>, k: Key, p: Pod)
    requires cfg.Valid() && ClockInv(cfg, r, t) && r.percent <= 100 && k in cfg.keys && p in cfg.pods
    requires MayTick(cfg, r, t, tick) && !Stray(cfg, t.s, k, p)
    requires StraysThrough(cfg, r, Ticked(cfg, r, t, tick), ticks, k, p)
    ensures var t' := Ticked(cfg, r, t, tick); EndOf(cfg, r, t', ticks, k, p).now <= t'.now + r.target
  {
    TickKeeps(cfg, r, t, tick);
    StrayBegins(cfg, r, t, tick, k, p);
    StraysUntilDue(cfg, r, Ticked(cfg, r, t, tick), ticks, k, p);
  }

  // ---- From the start --------------------------------------------------

  ghost function FirstTimed(cfg: Config): Timed {
    Timed(Init(cfg), 0, map[], map[])
  }

  lemma FirstIsOnTime(cfg: Config, r: Requeue)
    ensures ClockInv(cfg, r, FirstTimed(cfg))
  {
    InitHolds(cfg);
  }

  ghost predicate CanTick(cfg: Config, r: Requeue, t: Timed, ticks: seq<Tick>)
    decreases |ticks|
  {
    ticks == [] || (MayTick(cfg, r, t, ticks[0]) && CanTick(cfg, r, Ticked(cfg, r, t, ticks[0]), ticks[1..]))
  }

  ghost function TickedAll(cfg: Config, r: Requeue, t: Timed, ticks: seq<Tick>): Timed
    requires CanTick(cfg, r, t, ticks)
    decreases |ticks|
  {
    if ticks == [] then t else TickedAll(cfg, r, Ticked(cfg, r, t, ticks[0]), ticks[1..])
  }

  lemma {:induction false} TicksKeep(cfg: Config, r: Requeue, t: Timed, ticks: seq<Tick>)
    requires cfg.Valid() && ClockInv(cfg, r, t) && CanTick(cfg, r, t, ticks) && r.percent <= 100
    ensures ClockInv(cfg, r, TickedAll(cfg, r, t, ticks))
    decreases |ticks|
  {
    if ticks != [] {
      TickKeeps(cfg, r, t, ticks[0]);
      TicksKeep(cfg, r, Ticked(cfg, r, t, ticks[0]), ticks[1..]);
    }
  }

  /** In every timed run from the empty fleet: whoever is a stray exporter ended its last reconcile of the report no
      longer ago than the target duration. */
  lemma StraysAreYoung(cfg: Config, r: Requeue, ticks: seq<Tick>, k: Key, p: Pod)
    requires cfg.Valid() && r.percent <= 100 && k in cfg.keys && p in cfg.pods
    requires CanTick(cfg, r, FirstTimed(cfg), ticks)
    ensures var t := TickedAll(cfg, r, FirstTimed(cfg), ticks);
            WellFormed(cfg, t.s) && (Stray(cfg, t.s, k, p) ==> (k, p) in t.ended && t.now <= t.ended[(k, p)] + r.target)
  {
    FirstIsOnTime(cfg, r);
    TicksKeep(cfg, r, FirstTimed(cfg), ticks);
    var t := TickedAll(cfg, r, FirstTimed(cfg), ticks);
    if Stray(cfg, t.s, k, p) {
      StrayHasTimer(cfg, t.s, k, p);
      assert OnTime(r, t, (k, p));
    }
  }
}
