/** Gauge vectors as Prometheus keeps them: a value for each set of label values. */
module Gauges {

  type Labels = map<string, string>

  /** The two gauge vectors that both vulnerability reconcilers share. */
  datatype Gauge = Summary | Details

  datatype Series = Series(gauge: Gauge, labels: Labels)

  /** One call `With(labels).Set(value)`. */
  datatype Write = Write(series: Series, value: real)

  /** The contents of both vectors of one exporter. */
  type Store = map<Series, real>

  const REPORT_NAME := "report_name"

  predicate HasName(s: Series, name: string) {
    REPORT_NAME in s.labels && s.labels[REPORT_NAME] == name
  }

  /** `DeletePartialMatch({report_name: name})` on one of the vectors. */
  function Clear(g: Store, gauge: Gauge, name: string): Store {
    map s | s in g && !(s.gauge == gauge && HasName(s, name)) :: g[s]
  }

  /** What an exporter shows for one report. */
  function View(g: Store, name: string): Store {
    map s | s in g && HasName(s, name) :: g[s]
  }

  function Put(g: Store, w: Write): Store {
    g[w.series := w.value]
  }

  /** The effect of a list of `With(...).Set(...)` calls, in order. */
  function PutAll(g: Store, ws: seq<Write>): Store
    decreases |ws|
  {
    if ws == [] then g else Put(PutAll(g, ws[..|ws| - 1]), ws[|ws| - 1])
  }

  function SeriesOf(ws: seq<Write>): set<Series> {
    set w | w in ws :: w.series
  }

  /** The value of the last write to `s`. */
  function LastValue(ws: seq<Write>, s: Series): real
    requires s in SeriesOf(ws)
    decreases |ws|
  {
    if ws[|ws| - 1].series == s then ws[|ws| - 1].value
    else
      assert exists w :: w in ws[..|ws| - 1] && w.series == s by {
        var w :| w in ws && w.series == s;
        assert w in ws[..|ws| - 1];
      }
      LastValue(ws[..|ws| - 1], s)
  }

  /** Last writer wins. */
  function Image(ws: seq<Write>): Store {
    map s | s in SeriesOf(ws) :: LastValue(ws, s)
  }

  lemma ImageOfExtended(init: seq<Write>, w: Write)
    ensures Image(init + [w]) == Put(Image(init), w)
  {
    var ws := init + [w];
    assert ws[..|ws| - 1] == init;
    assert forall x :: x in ws <==> x in init || x == w;
    assert SeriesOf(ws) == SeriesOf(init) + {w.series};
  }

  lemma {:induction false} PutAllIsImage(g: Store, ws: seq<Write>)
    ensures PutAll(g, ws) == g + Image(ws)
    decreases |ws|
  {
    if ws == [] {
      assert Image(ws) == map[];
    } else {
      var init, w := ws[..|ws| - 1], ws[|ws| - 1];
      PutAllIsImage(g, init);
      assert ws == init + [w];
      ImageOfExtended(init, w);
    }
  }

  lemma {:induction false} PutAllAppend(g: Store, a: seq<Write>, b: seq<Write>)
    ensures PutAll(g, a + b) == PutAll(PutAll(g, a), b)
    decreases |b|
  {
    if b == [] {
      assert a + b == a;
    } else {
      PutAllAppend(g, a, b[..|b| - 1]);
      assert (a + b)[..|a + b| - 1] == a + b[..|b| - 1];
    }
  }

  lemma PutOneMore(g: Store, ws: seq<Write>, n: nat)
    requires n < |ws|
    ensures PutAll(g, ws[..n + 1]) == Put(PutAll(g, ws[..n]), ws[n])
  {
    assert ws[..n + 1][..n] == ws[..n];
  }

  lemma SameStore(a: Store, b: Store)
    requires forall x | x in a :: x in b
    requires forall x | x in b :: x in a && a[x] == b[x]
    ensures a == b
  {
    assert a.Keys == b.Keys;
  }

  lemma ImageOfDistinct(ws: seq<Write>, i: int)
    requires 0 <= i < |ws|
    requires forall j | 0 <= j < |ws| && ws[j].series == ws[i].series :: ws[j].value == ws[i].value
    ensures ws[i].series in Image(ws) && Image(ws)[ws[i].series] == ws[i].value
  {
    assert ws[i] in ws;
    LastValueIsWritten(ws, ws[i].series);
  }

  lemma {:induction false} LastValueIsWritten(ws: seq<Write>, s: Series)
    requires s in SeriesOf(ws)
    ensures Write(s, LastValue(ws, s)) in ws
    decreases |ws|
  {
    var init := ws[..|ws| - 1];
    if ws[|ws| - 1].series != s {
      var w :| w in ws && w.series == s;
      assert w in init;
      LastValueIsWritten(init, s);
    }
  }

  // How the two operations look from the point of view of one report.

  lemma ViewAfterPut(g: Store, w: Write, name: string)
    ensures HasName(w.series, name) ==> View(Put(g, w), name) == Put(View(g, name), w)
    ensures !HasName(w.series, name) ==> View(Put(g, w), name) == View(g, name)
  {
  }

  lemma ViewAfterClear(g: Store, gauge: Gauge, name: string, other: string)
    ensures View(Clear(g, gauge, name), name) == Clear(View(g, name), gauge, name)
    ensures other != name ==> View(Clear(g, gauge, name), other) == View(g, other)
  {
  }

  lemma AllNamed(ws: seq<Write>, name: string)
    requires forall w | w in ws :: HasName(w.series, name)
    ensures forall s | s in SeriesOf(ws) :: HasName(s, name)
  {
  }

  lemma ClearOfNothing(g: Store, gauge: Gauge, name: string)
    requires View(g, name) == map[]
    ensures Clear(g, gauge, name) == g
  {
    forall s | s in g
      ensures !HasName(s, name)
    {
      assert HasName(s, name) ==> s in View(g, name);
    }
  }

  lemma ClearTakesAll(g: Store, more: Store, name: string)
    requires forall s | s in more :: HasName(s, name)
    ensures Clear(Clear(g + more, Summary, name), Details, name) == Clear(Clear(g, Summary, name), Details, name)
  {
  }

  /** Publishing a report and clearing it again gives back every other report's series. */
  lemma PublishThenClear(g: Store, ws: seq<Write>, name: string)
    requires forall w | w in ws :: HasName(w.series, name)
    ensures Clear(Clear(PutAll(g, ws), Summary, name), Details, name)
         == Clear(Clear(g, Summary, name), Details, name)
    ensures View(g, name) == map[] ==>
              Clear(Clear(PutAll(g, ws), Summary, name), Details, name) == g
  {
    PutAllIsImage(g, ws);
    AllNamed(ws, name);
    ClearTakesAll(g, Image(ws), name);
    if View(g, name) == map[] {
      ClearOfNothing(g, Summary, name);
      ClearOfNothing(g, Details, name);
    }
  }
}
