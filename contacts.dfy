/** The contact event tracker, as values: which event a hit callback reports,
    which colliders an end of tick reports as exited, and what a run of ticks
    reports for one collider. `C` is the identity of a collider. */
module Contacts {

  datatype ContactEvent<C> = Enter(collider: C) | Stay(collider: C) | Exit(collider: C)

  /** The colliders listed in `hits`. */
  function ToSet<C>(hits: seq<C>): (touched: set<C>) { set c | c in hits }

  /** The event one hit callback reports: Enter for a collider that was not
      touched on the previous tick, Stay for one that was. */
  function HitEvent<C>(previous: set<C>, c: C): (e: ContactEvent<C>)
    ensures e.collider == c && !e.Exit?
    ensures e.Enter? <==> c !in previous
    ensures e.Stay? <==> c in previous
  {
    if c in previous then Stay(c) else Enter(c)
  }

  /** The events of a tick's hit callbacks, in callback order. Every callback
      compares against the previous tick's set only, so a collider touched
      twice on its first tick reports Enter twice. */
  function HitEvents<C>(previous: set<C>, hits: seq<C>): (es: seq<ContactEvent<C>>)
    ensures |es| == |hits|
    ensures forall j :: 0 <= j < |hits| ==>
      es[j].collider == hits[j] && !es[j].Exit? && (es[j].Enter? <==> hits[j] !in previous)
  {
    seq(|hits|, j requires 0 <= j < |hits| => HitEvent(previous, hits[j]))
  }

  /** A collider touched k times on its first tick reports k Enter events, one
      per callback, and never Stay on that tick. */
  lemma RepeatedFirstContact<C>(previous: set<C>, hits: seq<C>, c: C)
    requires c !in previous
    ensures var es := HitEvents(previous, hits);
      forall j :: 0 <= j < |hits| && hits[j] == c ==> es[j] == Enter(c)
  {
  }

  /** For example, two callbacks for the same new collider give two Enters. */
  lemma RepeatedFirstContactExample()
    ensures HitEvents({}, [5, 5]) == [Enter(5), Enter(5)]
  {
    RepeatedFirstContact({}, [5, 5], 5);
  }

  /** The colliders of a sequence of events, in order. */
  function Colliders<C>(es: seq<ContactEvent<C>>): (cs: seq<C>) {
    seq(|es|, j requires 0 <= j < |es| => es[j].collider)
  }

  /** `es` reports Exit once for each collider of `gone` and nothing else, in
      any order (the source walks a hash set). */
  predicate ExitsExactly<C>(es: seq<ContactEvent<C>>, gone: set<C>) {
    (forall j :: 0 <= j < |es| ==> es[j].Exit?) && multiset(Colliders(es)) == multiset(gone)
  }

  /** Reporting one more collider, not yet reported, keeps the exits exact. */
  lemma ExitsExtend<C>(es: seq<ContactEvent<C>>, gone: set<C>, c: C)
    requires ExitsExactly(es, gone) && c !in gone
    ensures ExitsExactly(es + [Exit(c)], gone + {c})
  {
    assert Colliders(es + [Exit(c)]) == Colliders(es) + [c];
  }

  /** The end-of-tick walk over the previous tick's colliders: Exit for each
      one not touched on this tick, visited in whatever order the set yields. */
  method ReportExits<C>(previous: set<C>, current: set<C>) returns (exits: seq<ContactEvent<C>>)
    ensures ExitsExactly(exits, previous - current)
  {
    exits := [];
    var pending := previous;
    ghost var gone: set<C> := {};
    while pending != {}
      invariant pending <= previous
      invariant gone == (previous - pending) - current
      invariant ExitsExactly(exits, gone)
      decreases pending
    {
      var c :| c in pending;
      if c !in current {
        ExitsExtend(exits, gone, c);
        exits, gone := exits + [Exit(c)], gone + {c};
      }
      pending := pending - {c};
    }
  }

  /** What one tick reports: the hit events in order and the set of exited
      colliders. */
  datatype TickReport<C> = TickReport(hitEvents: seq<ContactEvent<C>>, exited: set<C>)

  /** One tick that starts with an empty current set: the hits are diffed
      against `previous`, the colliders not touched again exit, and the
      touched ones become the next tick's previous set. */
  function ContactTick<C>(previous: set<C>, hits: seq<C>): (r: (TickReport<C>, set<C>))
    ensures r.0.exited <= previous
    ensures forall c | c in previous :: c in r.0.exited <==> c !in hits
    ensures (forall c | c in hits :: c in r.1) && (forall c | c in r.1 :: c in hits)
  {
    (TickReport(HitEvents(previous, hits), previous - ToSet(hits)), ToSet(hits))
  }

  /** The reports of consecutive ticks, `ticks[i]` being the hits of tick `i`. */
  function ContactRun<C>(previous: set<C>, ticks: seq<seq<C>>): (run: seq<TickReport<C>>)
    ensures |run| == |ticks|
    ensures forall i :: 0 <= i < |ticks| ==> |run[i].hitEvents| == |ticks[i]|
    decreases |ticks|
  {
    if ticks == [] then []
    else
      var (report, next) := ContactTick(previous, ticks[0]);
      [report] + ContactRun(next, ticks[1..])
  }

  /** Tick `i` of a run is diffed against the hits of tick `i - 1`. */
  lemma {:induction false} ContactRunAt<C>(previous: set<C>, ticks: seq<seq<C>>, i: nat)
    requires i < |ticks|
    ensures ContactRun(previous, ticks)[i]
            == ContactTick(if i == 0 then previous else ToSet(ticks[i - 1]), ticks[i]).0
    decreases i
  {
    if i > 0 {
      ContactRunAt(ToSet(ticks[0]), ticks[1..], i - 1);
      assert ticks[1..][i - 1] == ticks[i];
      if i > 1 {
        assert ticks[1..][i - 2] == ticks[i - 1];
      }
    }
  }

  /** One uninterrupted contact run: a collider not touched before, touched on
      ticks 0 .. n-1 and not on tick n. Its hits on tick 0 report Enter, its
      hits on later ticks report Stay, no tick of the run reports Enter after
      the first, none reports it as exited, and tick n reports it exited. */
  lemma ContactRunOfCollider<C>(previous: set<C>, ticks: seq<seq<C>>, c: C, n: nat)
    requires n < |ticks|
    requires c !in previous
    requires forall i :: 0 <= i < n ==> c in ticks[i]
    requires c !in ticks[n]
    ensures var run := ContactRun(previous, ticks);
      && (forall j :: 0 <= j < |ticks[0]| && ticks[0][j] == c ==> run[0].hitEvents[j] == Enter(c))
      && (forall i, j :: 0 < i <= n && 0 <= j < |run[i].hitEvents| ==> run[i].hitEvents[j] != Enter(c))
      && (forall i, j :: 0 < i < n && 0 <= j < |ticks[i]| && ticks[i][j] == c ==> run[i].hitEvents[j] == Stay(c))
      && (forall i :: 0 <= i < n ==> c !in run[i].exited)
      && (n > 0 <==> c in run[n].exited)
  {
    var run := ContactRun(previous, ticks);
    forall i | 0 <= i < |ticks|
      ensures run[i] == ContactTick(if i == 0 then previous else ToSet(ticks[i - 1]), ticks[i]).0
    {
      ContactRunAt(previous, ticks, i);
    }
    forall i, j | 0 < i <= n && 0 <= j < |run[i].hitEvents|
      ensures run[i].hitEvents[j] != Enter(c)
    {
      assert c in ticks[i - 1];
      assert run[i].hitEvents[j] == HitEvent(ToSet(ticks[i - 1]), ticks[i][j]);
    }
    forall i, j | 0 < i < n && 0 <= j < |ticks[i]| && ticks[i][j] == c
      ensures run[i].hitEvents[j] == Stay(c)
    {
      assert c in ticks[i - 1];
      assert run[i].hitEvents[j] == HitEvent(ToSet(ticks[i - 1]), c);
    }
    forall i | 0 <= i < n ensures c !in run[i].exited {
      assert c in ticks[i] && c in ToSet(ticks[i]);
      assert run[i].exited == (if i == 0 then previous else ToSet(ticks[i - 1])) - ToSet(ticks[i]);
    }
    if n > 0 {
      assert c in ticks[n - 1];
      assert c in ToSet(ticks[n - 1]);
    }
  }

  /** A collider touched on three ticks and not on the fourth reports Enter,
      Stay, Stay, then Exit. */
  lemma ContactRunExample()
    ensures var run := ContactRun({}, [[7], [7], [7], []]);
      && run[0].hitEvents == [Enter(7)] && run[0].exited == {}
      && run[1].hitEvents == [Stay(7)] && run[1].exited == {}
      && run[2].hitEvents == [Stay(7)] && run[2].exited == {}
      && run[3].hitEvents == [] && run[3].exited == {7}
  {
    var ticks: seq<seq<int>> := [[7], [7], [7], []];
    ContactRunAt({}, ticks, 0);
    ContactRunAt({}, ticks, 1);
    ContactRunAt({}, ticks, 2);
    ContactRunAt({}, ticks, 3);
    assert ToSet([7]) == {7};
  }
}
