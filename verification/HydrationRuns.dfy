/**
 * The hydrating cache over time, for one key: the server makes new versions, the base cache follows at its own pace and
 * may show objects without their matches, and readers call `Get`, one after another or all at once.
 */
module HydrationRuns {
  import opened Reports
  import opened Fleet
  import opened FleetControl
  import opened HydratingCache

  // ---- Readers at once -------------------------------------------------

  /** How far one `Get` has come. `seen` is the version the base cache gave it. */
  datatype Reader =
    | Asking
    | Checking(base: Copy)
    | Fetching(seen: nat)
    | Keeping(seen: nat, copy: Copy)
    | Returned(seen: nat, copy: Copy, hit: bool)
    | Errored

  datatype World = World(history: History, base: nat, stored: Option<Copy>, readers: seq<Reader>)

  datatype Move =
    | Serve(c: Content)              // a new version at the server
    | Follow(ver: nat)               // the base cache catches up
    | Call                           // another reader calls
    | Base(i: nat, stripped: bool)   // reader `i` reads the base cache
    | Load(i: nat)
    | Fetch(i: nat)
    | Keep(i: nat)
    | Break(i: nat)                  // a read of reader `i` fails

  predicate Possible(w: World, m: Move) {
    match m
    case Serve(_) => true
    case Follow(ver) => w.base <= ver <= Latest(w.history)
    case Call => true
    case Base(i, _) => i < |w.readers| && w.readers[i].Asking? && w.base < |w.history|
    case Load(i) => i < |w.readers| && w.readers[i].Checking?
    case Fetch(i) => i < |w.readers| && w.readers[i].Fetching?
    case Keep(i) => i < |w.readers| && w.readers[i].Keeping?
    case Break(i) => i < |w.readers| && (w.readers[i].Asking? || w.readers[i].Fetching?)
  }

  function Moved(w: World, m: Move): World
    requires Possible(w, m)
  {
    match m
    case Serve(c) => w.(history := w.history + [c])
    case Follow(ver) => w.(base := ver)
    case Call => w.(readers := w.readers + [Asking])
    case Base(i, stripped) =>
      w.(readers := w.readers[i :=
        match w.history[w.base]
        case Absent => Errored
        case Present(o) =>
          var base := Copy(w.base, FromBase(o, stripped));
          if NeedsHydration(base.obj) then Checking(base) else Returned(w.base, base, false)])
    case Load(i) =>
      var base := w.readers[i].base;
      w.(readers := w.readers[i :=
        if w.stored.Some? && w.stored.value.ver == base.ver then Returned(base.ver, w.stored.value, true)
        else Fetching(base.ver)])
    case Fetch(i) =>
      w.(readers := w.readers[i :=
        match Last(w.history)
        case Absent => Errored
        case Present(o) => Keeping(w.readers[i].seen, Copy(Latest(w.history), o))])
    case Keep(i) =>
      var r := w.readers[i];
      w.(stored := Some(r.copy), readers := w.readers[i := Returned(r.seen, r.copy, false)])
    case Break(i) => w.(readers := w.readers[i := Errored])
  }

  /** What a reader may hold: full objects of the history, no older than what it saw; the very version on a hit. */
  predicate ReaderInv(h: History, r: Reader) {
    match r
    case Asking => true
    case Checking(base) => base.ver < |h|
    case Fetching(seen) => seen < |h|
    case Keeping(seen, copy) => Genuine(h, copy) && seen <= copy.ver
    case Returned(seen, copy, hit) => Genuine(h, copy) && seen <= copy.ver && (hit ==> copy.ver == seen)
    case Errored => true
  }

  ghost predicate Sound(w: World) {
    && w.base < |w.history|
    && (w.stored.Some? ==> Genuine(w.history, w.stored.value))
    && forall i | 0 <= i < |w.readers| :: ReaderInv(w.history, w.readers[i])
  }

  lemma ReaderGrows(h: History, r: Reader, c: Content)
    requires ReaderInv(h, r)
    ensures ReaderInv(h + [c], r)
  {
  }

  lemma MoveIsSound(w: World, m: Move)
    requires Sound(w) && Possible(w, m)
    ensures Sound(Moved(w, m))
  {
    var w' := Moved(w, m);
    match m {
      case Serve(c) =>
        forall i | 0 <= i < |w.readers| ensures ReaderInv(w'.history, w.readers[i]) {
          ReaderGrows(w.history, w.readers[i], c);
        }
      case Base(i, stripped) => BaseIsSound(w, i, stripped);
      case Call =>
        assert forall i | 0 <= i < |w'.readers| :: i < |w.readers| || w'.readers[i] == Asking;
      case _ =>
    }
  }

  lemma BaseIsSound(w: World, i: nat, stripped: bool)
    requires Sound(w) && Possible(w, Base(i, stripped))
    ensures Sound(Moved(w, Base(i, stripped)))
  {
    if w.history[w.base].Present? {
      var o := w.history[w.base].obj;
      if !NeedsHydration(FromBase(o, stripped)) {
        UnhydratedIsComplete(o, stripped);
      }
    }
  }

  predicate CanMove(w: World, ms: seq<Move>)
    decreases |ms|
  {
    ms == [] || (Possible(w, ms[0]) && CanMove(Moved(w, ms[0]), ms[1..]))
  }

  function MovedAll(w: World, ms: seq<Move>): World
    requires CanMove(w, ms)
    decreases |ms|
  {
    if ms == [] then w else MovedAll(Moved(w, ms[0]), ms[1..])
  }

  const FIRST_WORLD := World([Absent], 0, None, [])

  /** However the readers interleave: whatever is stored or returned is a full version of the history under its own
      number, and never older than what the base cache had shown the reader. */
  lemma {:induction false} RunsAreSound(w: World, ms: seq<Move>)
    requires Sound(w) && CanMove(w, ms)
    ensures Sound(MovedAll(w, ms))
    decreases |ms|
  {
    if ms != [] {
      MoveIsSound(w, ms[0]);
      RunsAreSound(Moved(w, ms[0]), ms[1..]);
    }
  }

  lemma EveryReadIsGenuine(ms: seq<Move>, i: nat)
    requires CanMove(FIRST_WORLD, ms)
    requires i < |MovedAll(FIRST_WORLD, ms).readers| && MovedAll(FIRST_WORLD, ms).readers[i].Returned?
    ensures var w := MovedAll(FIRST_WORLD, ms);
            var r := w.readers[i];
            r.copy.ver < |w.history| && w.history[r.copy.ver] == Present(r.copy.obj)
            && r.seen <= r.copy.ver && (r.hit ==> r.copy.ver == r.seen)
  {
    RunsAreSound(FIRST_WORLD, ms);
    assert ReaderInv(MovedAll(FIRST_WORLD, ms).history, MovedAll(FIRST_WORLD, ms).readers[i]);
  }

  lemma FirstMove(w: World, m: Move, ms: seq<Move>)
    requires Possible(w, m) && CanMove(Moved(w, m), ms)
    ensures CanMove(w, [m] + ms) && MovedAll(w, [m] + ms) == MovedAll(Moved(w, m), ms)
  {
    assert ([m] + ms)[1..] == ms;
  }

  lemma {:induction false} MovesAppend(w: World, a: seq<Move>, b: seq<Move>)
    requires CanMove(w, a) && CanMove(MovedAll(w, a), b)
    ensures CanMove(w, a + b) && MovedAll(w, a + b) == MovedAll(MovedAll(w, a), b)
    decreases |a|
  {
    if a == [] {
      assert a + b == b;
    } else {
      MovesAppend(Moved(w, a[0]), a[1..], b);
      assert a + b == [a[0]] + (a[1..] + b);
      FirstMove(w, a[0], a[1..] + b);
    }
  }

  /** Two readers have both seen the first version, without its matches, and nothing in the store. */
  function TwoFetching(o: Object): World {
    World([Absent, Present(o)], 1, None, [Fetching(1), Fetching(1)])
  }

  function TwoAsking(o: Object): World {
    World([Absent, Present(o)], 1, None, [Asking, Asking])
  }

  lemma TwoCall(o: Object) returns (ms: seq<Move>)
    ensures CanMove(FIRST_WORLD, ms) && MovedAll(FIRST_WORLD, ms) == TwoAsking(o)
  {
    var w1 := Moved(FIRST_WORLD, Serve(Present(o)));
    var w2 := Moved(w1, Follow(1));
    FirstMove(Moved(w2, Call), Call, []);
    FirstMove(w2, Call, [Call]);
    FirstMove(w1, Follow(1), [Call] + [Call]);
    FirstMove(FIRST_WORLD, Serve(Present(o)), [Follow(1)] + ([Call] + [Call]));
    ms := [Serve(Present(o))] + ([Follow(1)] + ([Call] + [Call]));
  }

  lemma TwoMiss(o: Object) returns (ms: seq<Move>)
    requires o.report.Kubescape?
    ensures CanMove(TwoAsking(o), ms) && MovedAll(TwoAsking(o), ms) == TwoFetching(o)
  {
    var w1 := Moved(TwoAsking(o), Base(0, true));
    var w2 := Moved(w1, Load(0));
    var w3 := Moved(w2, Base(1, true));
    FirstMove(w3, Load(1), []);
    FirstMove(w2, Base(1, true), [Load(1)]);
    FirstMove(w1, Load(0), [Base(1, true)] + [Load(1)]);
    FirstMove(TwoAsking(o), Base(0, true), [Load(0)] + ([Base(1, true)] + [Load(1)]));
    ms := [Base(0, true)] + ([Load(0)] + ([Base(1, true)] + [Load(1)]));
  }

  lemma SlowReaderWins(o: Object, o': Object) returns (ms: seq<Move>)
    ensures CanMove(TwoFetching(o), ms)
    ensures MovedAll(TwoFetching(o), ms)
         == World([Absent, Present(o), Present(o')], 1, Some(Copy(1, o)),
                  [Returned(1, Copy(1, o), false), Returned(1, Copy(2, o'), false)])
  {
    var w0 := TwoFetching(o);
    var w1 := Moved(w0, Fetch(0));
    var w2 := Moved(w1, Serve(Present(o')));
    var w3 := Moved(w2, Fetch(1));
    var w4 := Moved(w3, Move.Keep(1));
    FirstMove(w4, Move.Keep(0), []);
    FirstMove(w3, Move.Keep(1), [Move.Keep(0)]);
    FirstMove(w2, Fetch(1), [Move.Keep(1)] + [Move.Keep(0)]);
    FirstMove(w1, Serve(Present(o')), [Fetch(1)] + ([Move.Keep(1)] + [Move.Keep(0)]));
    FirstMove(w0, Fetch(0), [Serve(Present(o'))] + ([Fetch(1)] + ([Move.Keep(1)] + [Move.Keep(0)])));
    ms := [Fetch(0)] + ([Serve(Present(o'))] + ([Fetch(1)] + ([Move.Keep(1)] + [Move.Keep(0)])));
  }

  /** A slow reader may overwrite a newer entry, so that the store falls behind what another reader got already. */
  lemma StoreMayGoBack(o: Object, o': Object) returns (ms: seq<Move>)
    requires o.report.Kubescape?
    ensures CanMove(FIRST_WORLD, ms)
    ensures var w := MovedAll(FIRST_WORLD, ms);
            |w.readers| == 2 && w.readers[1] == Returned(1, Copy(2, o'), false) && w.stored == Some(Copy(1, o))
  {
    var calls := TwoCall(o);
    var misses := TwoMiss(o);
    var fetches := SlowReaderWins(o, o');
    MovesAppend(TwoAsking(o), misses, fetches);
    MovesAppend(FIRST_WORLD, calls, misses + fetches);
    ms := calls + (misses + fetches);
  }

  // ---- When the store goes back ----------------------------------------

  /** The second entry is older than the first, or there is none any more. */
  predicate GoneBack(before: Option<Copy>, after: Option<Copy>) {
    before.Some? && (after.None? || after.value.ver < before.value.ver)
  }

  /** A move takes the store back if and only if it keeps a copy that is older than the entry. */
  lemma MoveGoesBackIff(w: World, m: Move)
    requires Possible(w, m)
    ensures GoneBack(w.stored, Moved(w, m).stored)
       <==> m.Keep? && w.stored.Some? && w.readers[m.i].copy.ver < w.stored.value.ver
  {
  }

  /** Nobody reads the API server while another reader has yet to keep what it read. */
  predicate Apart(w: World, m: Move) {
    m.Fetch? ==> forall j | 0 <= j < |w.readers| && j != m.i :: !w.readers[j].Keeping?
  }

  predicate CanMoveApart(w: World, ms: seq<Move>)
    decreases |ms|
  {
    ms == [] || (Possible(w, ms[0]) && Apart(w, ms[0]) && CanMoveApart(Moved(w, ms[0]), ms[1..]))
  }

  /** One reader at most is about to keep a copy, and none that is older than the entry. */
  ghost predicate OneKeeper(w: World) {
    && Sound(w)
    && (forall i, j | 0 <= i < |w.readers| && 0 <= j < |w.readers| && w.readers[i].Keeping? && w.readers[j].Keeping? ::
          i == j)
    && (forall i | 0 <= i < |w.readers| && w.readers[i].Keeping? && w.stored.Some? ::
          w.stored.value.ver <= w.readers[i].copy.ver)
  }

  lemma ApartKeeps(w: World, m: Move)
    requires OneKeeper(w) && Possible(w, m) && Apart(w, m)
    ensures OneKeeper(Moved(w, m)) && !GoneBack(w.stored, Moved(w, m).stored)
  {
    MoveIsSound(w, m);
    var w' := Moved(w, m);
    if m.Fetch? {
      assert forall j | 0 <= j < |w'.readers| && w'.readers[j].Keeping? :: j == m.i;
    } else {
      assert forall j | 0 <= j < |w'.readers| && w'.readers[j].Keeping? ::
        j < |w.readers| && w.readers[j] == w'.readers[j];
    }
  }

  /** As long as readers keep apart in this way, the store never goes back, over whole runs. */
  lemma {:induction false} ApartNeverGoesBack(w: World, ms: seq<Move>)
    requires OneKeeper(w) && CanMoveApart(w, ms)
    ensures CanMove(w, ms) && OneKeeper(MovedAll(w, ms)) && !GoneBack(w.stored, MovedAll(w, ms).stored)
    decreases |ms|
  {
    if ms != [] {
      ApartKeeps(w, ms[0]);
      ApartNeverGoesBack(Moved(w, ms[0]), ms[1..]);
    }
  }

  /** And wherever they do not keep apart it can: one reader has an old copy still to keep while another is about to
      read the latest version. */
  lemma RaceGoesBack(w: World, i: nat, j: nat)
    requires Sound(w) && i < |w.readers| && j < |w.readers| && i != j && Last(w.history).Present?
    requires w.readers[i].Keeping? && w.readers[i].copy.ver < Latest(w.history) && w.readers[j].Fetching?
    ensures CanMove(w, [Fetch(j)] + [Move.Keep(j)])
    ensures var w1 := MovedAll(w, [Fetch(j)] + [Move.Keep(j)]);
            && w1.stored.Some? && w1.stored.value.ver == Latest(w.history)
            && Possible(w1, Move.Keep(i)) && Moved(w1, Move.Keep(i)).stored == Some(w.readers[i].copy)
            && GoneBack(w1.stored, Moved(w1, Move.Keep(i)).stored)
  {
    FirstMove(Moved(w, Fetch(j)), Move.Keep(j), []);
    FirstMove(w, Fetch(j), [Move.Keep(j)]);
  }

  // ---- One reader after another ----------------------------------------

  /** The world of a single caller of `Get`: the versions it got so far, and how often the API server was asked. */
  datatype Line = Line(history: History, base: nat, stored: Option<Copy>, got: seq<nat>, asked: nat)

  /** A `Getting` says whether the base cache strips, and which of the two reads fails. */
  datatype Turn = Serving(c: Content) | Following(ver: nat) | Getting(stripped: bool, baseFails: bool, apiFails: bool)

  predicate MayTurn(n: Line, t: Turn) {
    match t
    case Serving(_) => true
    case Following(ver) => n.base <= ver <= Latest(n.history)
    case Getting(_, _, _) => n.base < |n.history|
  }

  function ReadAt(h: History, ver: nat, stripped: bool): Read
    requires ver < |h|
  {
    match h[ver]
    case Absent => NotFound
    case Present(o) => Found(Copy(ver, FromBase(o, stripped)))
  }

  /** What a read gives when it may fail for another reason than the object's absence. */
  function Answer(h: History, ver: nat, stripped: bool, fails: bool): Read
    requires ver < |h|
  {
    if fails then Broken else ReadAt(h, ver, stripped)
  }

  const KEY := "namespace/name"

  function StoreMap(stored: Option<Copy>): map<string, Copy> {
    if stored.Some? then map[KEY := stored.value] else map[]
  }

  /** `Get` as the method above does it, between the two readers as they are at the time. */
  function Turned(n: Line, t: Turn): Line
    requires MayTurn(n, t)
  {
    match t
    case Serving(c) => n.(history := n.history + [c])
    case Following(ver) => n.(base := ver)
    case Getting(stripped, baseFails, apiFails) =>
      var out := Hydrated(StoreMap(n.stored), KEY, Copy(0, Object(Kubescape(None, None, []), "", false, false)),
                          Some(o => NeedsHydration(o)),
                          Answer(n.history, n.base, stripped, baseFails),
                          Answer(n.history, Latest(n.history), false, apiFails));
      n.(stored := if KEY in out.snapshots then Some(out.snapshots[KEY]) else None,
         got := if out.err == Ok then n.got + [out.obj.ver] else n.got,
         asked := if out.asked then n.asked + 1 else n.asked)
  }

  /** The base cache shows an object that passes for complete. */
  predicate PassesForComplete(n: Line, t: Turn) {
    t.Getting? && !t.baseFails && n.base < |n.history| && n.history[n.base].Present?
    && !NeedsHydration(FromBase(n.history[n.base].obj, t.stripped))
  }

  /** It shows none whenever it is read. */
  predicate AlwaysHydrates(n: Line, t: Turn) {
    !PassesForComplete(n, t)
  }

  predicate MayTurnAll(n: Line, ts: seq<Turn>)
    decreases |ts|
  {
    ts == [] || (MayTurn(n, ts[0]) && AlwaysHydrates(n, ts[0]) && MayTurnAll(Turned(n, ts[0]), ts[1..]))
  }

  function TurnedAll(n: Line, ts: seq<Turn>): Line
    requires MayTurnAll(n, ts)
    decreases |ts|
  {
    if ts == [] then n else TurnedAll(Turned(n, ts[0]), ts[1..])
  }

  /** The versions got never decrease, and the last one is the stored one. */
  predicate Orderly(n: Line) {
    && n.base < |n.history|
    && (n.stored.Some? ==> Genuine(n.history, n.stored.value))
    && (forall i, j | 0 <= i < j < |n.got| :: n.got[i] <= n.got[j])
    && (n.got == [] <==> n.stored.None?)
    && (n.got != [] ==> n.stored.value.ver == n.got[|n.got| - 1])
  }

  /** A read that got something got the base cache's version from the store, or the latest one. */
  lemma GettingGets(n: Line, t: Turn)
    requires Orderly(n) && MayTurn(n, t) && AlwaysHydrates(n, t) && t.Getting?
    ensures var n' := Turned(n, t);
            && n'.history == n.history && n'.base == n.base
            && ((n'.got == n.got && n'.stored == n.stored)
                || (exists c :: Genuine(n.history, c) && n'.stored == Some(c) && n'.got == n.got + [c.ver]
                                && (n.stored == Some(c) || c.ver == Latest(n.history))))
  {
    if Last(n.history).Present? {
      assert Genuine(n.history, Copy(Latest(n.history), Last(n.history).obj));
    }
  }

  lemma TurnIsOrderly(n: Line, t: Turn)
    requires Orderly(n) && MayTurn(n, t) && AlwaysHydrates(n, t)
    ensures Orderly(Turned(n, t))
  {
    if t.Getting? {
      GettingGets(n, t);
    }
  }

  lemma {:induction false} ReadsAreMonotone(n: Line, ts: seq<Turn>)
    requires Orderly(n) && MayTurnAll(n, ts)
    ensures Orderly(TurnedAll(n, ts))
    decreases |ts|
  {
    if ts != [] {
      TurnIsOrderly(n, ts[0]);
      ReadsAreMonotone(Turned(n, ts[0]), ts[1..]);
    }
  }

  /** One caller never sees a report go back in time while its base cache's objects need hydration. */
  lemma SequentialReads(ts: seq<Turn>)
    requires MayTurnAll(Line([Absent], 0, None, [], 0), ts)
    ensures Orderly(TurnedAll(Line([Absent], 0, None, [], 0), ts))
  {
    ReadsAreMonotone(Line([Absent], 0, None, [], 0), ts);
  }

  /** The condition is needed: after such reads the next one goes back if and only if the base cache shows an object
      that passes for complete and is older than what the caller got last. */
  lemma ReadGoesBackIff(n: Line, t: Turn)
    requires Orderly(n) && MayTurn(n, t) && n.got != []
    ensures var last, n' := n.got[|n.got| - 1], Turned(n, t);
            n'.got[|n'.got| - 1] < last <==> PassesForComplete(n, t) && n.base < last
  {
    if !PassesForComplete(n, t) {
      TurnIsOrderly(n, t);
      if t.Getting? {
        GettingGets(n, t);
      }
    }
  }

  function ApiFailures(ts: seq<Turn>): nat {
    if ts == [] then 0 else (if ts[0].Getting? && ts[0].apiFails then 1 else 0) + ApiFailures(ts[1..])
  }

  lemma CaughtUpGets(n: Line, t: Turn)
    requires Orderly(n) && MayTurn(n, t) && AlwaysHydrates(n, t) && t.Getting?
    requires n.base == Latest(n.history) && Last(n.history).Present?
    ensures var n', latest := Turned(n, t), n.stored.Some? && n.stored.value.ver == Latest(n.history);
            && n'.history == n.history && n'.base == n.base
            && n'.asked == n.asked + (if t.baseFails || latest then 0 else 1)
            && (latest || (!t.baseFails && !t.apiFails) ==>
                  n'.stored.Some? && n'.stored.value.ver == Latest(n.history))
  {
  }

  /** Once the base cache has caught up and nothing new is made, the API server is asked at most once more than it fails
      to answer, and not at all if the latest version is stored. */
  lemma {:induction false} AtMostOneMoreRead(n: Line, ts: seq<Turn>)
    requires Orderly(n) && MayTurnAll(n, ts) && n.base == Latest(n.history) && Last(n.history).Present?
    requires forall t | t in ts :: t.Getting?
    ensures TurnedAll(n, ts).asked <= n.asked + 1 + ApiFailures(ts)
    ensures n.stored.Some? && n.stored.value.ver == Latest(n.history) ==> TurnedAll(n, ts).asked == n.asked
    decreases |ts|
  {
    if ts != [] {
      assert ts[0] in ts;
      TurnIsOrderly(n, ts[0]);
      CaughtUpGets(n, ts[0]);
      assert forall t | t in ts[1..] :: t in ts;
      AtMostOneMoreRead(Turned(n, ts[0]), ts[1..]);
    }
  }

  /** Failures do count: as long as the API server fails, every read that gets past the base cache asks it again. */
  lemma {:induction false} FailuresAreAskedAgain(n: Line, ts: seq<Turn>)
    requires Orderly(n) && MayTurnAll(n, ts) && n.base == Latest(n.history) && Last(n.history).Present?
    requires n.stored.Some? ==> n.stored.value.ver != Latest(n.history)
    requires forall t | t in ts :: t.Getting? && !t.baseFails && t.apiFails
    ensures TurnedAll(n, ts).asked == n.asked + |ts| && ApiFailures(ts) == |ts|
    decreases |ts|
  {
    if ts != [] {
      assert ts[0] in ts;
      TurnIsOrderly(n, ts[0]);
      CaughtUpGets(n, ts[0]);
      assert Turned(n, ts[0]).stored == n.stored;
      assert forall t | t in ts[1..] :: t in ts;
      FailuresAreAskedAgain(Turned(n, ts[0]), ts[1..]);
    }
  }

  // ---- The same `Get` everywhere ---------------------------------------

  /** The store as one key's entry. */
  predicate Holds(snapshots: map<string, Copy>, key: string, stored: Option<Copy>) {
    && (key in snapshots <==> stored.Some?)
    && (stored.Some? ==> snapshots[key] == stored.value)
  }

  /** The steps of a pod's `Get` run straight through; `baseFails` and `apiFails` say which of the two reads fails. */
  function StraightGet(h: History, l: Local, stripped: bool, baseFails: bool, apiFails: bool): Local
    requires l.pc.Owning? && l.cached < |h|
  {
    if baseFails then Fail(l) else
    var l1 := ReadingBase(h, l, stripped);
    if !l1.pc.Loading? then l1 else
    var l2 := LoadingStore(l1);
    if !l2.pc.Hydrating? then l2 else
    if apiFails then Fail(l2) else
    var l3 := ReadingApi(h, l2);
    if l3.pc.Storing? then WritingStore(l3) else l3
  }

  predicate Agrees(out: GetResult, key: string, l: Local) {
    && Holds(out.snapshots, key, l.stored)
    && (out.err == Ok <==> l.pc == Ready(out.obj))
    && (out.err == IsNotFound <==> l.pc.Idle? && l.outcome == Missing)
    && (out.err == Other <==> l.pc.Idle? && l.outcome == Failed && l.retry)
  }

  function GetOf(h: History, l: Local, stripped: bool, baseFails: bool, apiFails: bool, snapshots: map<string, Copy>,
                 key: string, obj: Copy): GetResult
    requires l.cached < |h|
  {
    Hydrated(snapshots, key, obj, Some(o => NeedsHydration(o)),
             Answer(h, l.cached, stripped, baseFails), Answer(h, Latest(h), false, apiFails))
  }

  /** No need to look further than the base cache. */
  predicate BaseSuffices(h: History, l: Local, stripped: bool, baseFails: bool)
    requires l.cached < |h|
  {
    baseFails || h[l.cached].Absent? || !NeedsHydration(FromBase(h[l.cached].obj, stripped))
  }

  lemma BaseStepsAreGet(h: History, l: Local, stripped: bool, baseFails: bool, apiFails: bool,
                        snapshots: map<string, Copy>, key: string, obj: Copy)
    requires l.pc.Owning? && l.cached < |h| && Holds(snapshots, key, l.stored)
    requires BaseSuffices(h, l, stripped, baseFails)
    ensures Agrees(GetOf(h, l, stripped, baseFails, apiFails, snapshots, key, obj), key,
                   StraightGet(h, l, stripped, baseFails, apiFails))
  {
  }

  lemma DeepStepsAreGet(h: History, l: Local, stripped: bool, apiFails: bool,
                        snapshots: map<string, Copy>, key: string, obj: Copy)
    requires l.pc.Owning? && l.cached < |h| && Holds(snapshots, key, l.stored)
    requires !BaseSuffices(h, l, stripped, false)
    ensures Agrees(GetOf(h, l, stripped, false, apiFails, snapshots, key, obj), key,
                   StraightGet(h, l, stripped, false, apiFails))
  {
  }

  /** The base cache shows a Trivy report or a manifest with matches. */
  predicate ShowsComplete(h: History, l: Local, stripped: bool) {
    l.cached < |h| && h[l.cached].Present?
    && var r := FromBase(h[l.cached].obj, stripped).report; r.Trivy? || r.matches != []
  }

  /** What the base cache shows is enough if it is a Trivy report or a manifest with matches: then `Get` returns that
      and asks nobody, whatever the API server would answer, and so do the steps. */
  lemma CompleteIsReturned(h: History, l: Local, stripped: bool, apiFails: bool,
                           snapshots: map<string, Copy>, key: string, obj: Copy)
    requires l.pc.Owning? && l.cached < |h| && ShowsComplete(h, l, stripped)
    ensures GetOf(h, l, stripped, false, apiFails, snapshots, key, obj)
         == GetResult(snapshots, Copy(l.cached, h[l.cached].obj), Ok, false)
    ensures StraightGet(h, l, stripped, false, apiFails) == l.(pc := Ready(Copy(l.cached, h[l.cached].obj)))
  {
  }

  /** The fleet's steps do what `Get` does: they end with the object that `Get` returns in hand, or leave the reconcile
      as not found or with an error as `Get` says, and the store holds what `Get` leaves in it. */
  lemma StepsAreGet(h: History, l: Local, stripped: bool, baseFails: bool, apiFails: bool,
                    snapshots: map<string, Copy>, key: string, obj: Copy)
    requires l.pc.Owning? && l.cached < |h| && Holds(snapshots, key, l.stored)
    ensures Agrees(GetOf(h, l, stripped, baseFails, apiFails, snapshots, key, obj), key,
                   StraightGet(h, l, stripped, baseFails, apiFails))
    ensures !baseFails && ShowsComplete(h, l, stripped) ==>
              StraightGet(h, l, stripped, baseFails, apiFails) == l.(pc := Ready(Copy(l.cached, h[l.cached].obj)))
  {
    if !baseFails && ShowsComplete(h, l, stripped) {
      CompleteIsReturned(h, l, stripped, apiFails, snapshots, key, obj);
    }
    if BaseSuffices(h, l, stripped, baseFails) {
      BaseStepsAreGet(h, l, stripped, baseFails, apiFails, snapshots, key, obj);
    } else {
      DeepStepsAreGet(h, l, stripped, apiFails, snapshots, key, obj);
    }
  }

  /** A manifest without matches is hydrated: from the store if that has this version, and else from the API server. */
  lemma EmptyIsHydrated(h: History, l: Local, stripped: bool, apiFails: bool,
                        snapshots: map<string, Copy>, key: string, obj: Copy)
    requires l.pc.Owning? && l.cached < |h| && h[l.cached].Present? && Holds(snapshots, key, l.stored)
    requires var r := FromBase(h[l.cached].obj, stripped).report; r.Kubescape? && r.matches == []
    ensures var out := GetOf(h, l, stripped, false, apiFails, snapshots, key, obj);
            && (out.asked <==> !(l.stored.Some? && l.stored.value.ver == l.cached))
            && (!out.asked ==> out == GetResult(snapshots, l.stored.value, Ok, false))
            && (out.asked && !apiFails && Last(h).Present? ==>
                  var c := Copy(Latest(h), Last(h).obj); out == GetResult(snapshots[key := c], c, Ok, true))
  {
  }

  /** The moves of one reader run straight through. */
  function StraightMoves(w: World, i: nat, stripped: bool, baseFails: bool, apiFails: bool): World
    requires i < |w.readers| && w.readers[i].Asking? && w.base < |w.history|
  {
    if baseFails then Moved(w, Break(i)) else
    var w1 := Moved(w, Base(i, stripped));
    if !w1.readers[i].Checking? then w1 else
    var w2 := Moved(w1, Load(i));
    if !w2.readers[i].Fetching? then w2 else
    if apiFails then Moved(w2, Break(i)) else
    var w3 := Moved(w2, Fetch(i));
    if w3.readers[i].Keeping? then Moved(w3, Move.Keep(i)) else w3
  }

  /** So do the moves of a reader whom no other interrupts. */
  lemma MovesAreGet(w: World, i: nat, stripped: bool, baseFails: bool, apiFails: bool,
                    snapshots: map<string, Copy>, key: string, obj: Copy)
    requires i < |w.readers| && w.readers[i].Asking? && w.base < |w.history| && Holds(snapshots, key, w.stored)
    ensures var out := Hydrated(snapshots, key, obj, Some(o => NeedsHydration(o)),
                                Answer(w.history, w.base, stripped, baseFails),
                                Answer(w.history, Latest(w.history), false, apiFails));
            var w' := StraightMoves(w, i, stripped, baseFails, apiFails);
            && Holds(out.snapshots, key, w'.stored) && |w'.readers| == |w.readers|
            && (forall j | 0 <= j < |w.readers| && j != i :: w'.readers[j] == w.readers[j])
            && (if out.err == Ok then w'.readers[i].Returned? && w'.readers[i].copy == out.obj
                else w'.readers[i] == Errored)
  {
  }
}
