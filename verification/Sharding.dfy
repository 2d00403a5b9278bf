/** Ring membership: how endpoint slices become the members of a pod's hash ring. */
module Sharding {
  import opened Reports

  /** A ready-or-unspecified endpoint has `ready` other than `Some(false)`. */
  datatype Endpoint = Endpoint(ready: Option<bool>, addresses: seq<string>)

  datatype AddressType = IPv4 | IPv6 | FQDN

  datatype EndpointSlice = EndpointSlice(addressType: AddressType, endpoints: seq<Endpoint>)

  predicate MayServe(ep: Endpoint) {
    ep.ready != Some(false)
  }

  function EndpointAddresses(eps: seq<Endpoint>): set<string> {
    set ep, a | ep in eps && MayServe(ep) && a in ep.addresses :: a
  }

  /** The peers that a list of slices, some of them possibly nil, names. */
  function ReadyAddresses(slices: seq<Option<EndpointSlice>>): set<string> {
    set s, a | s in slices && s.Some? && s.value.addressType == IPv4 && a in EndpointAddresses(s.value.endpoints) :: a
  }

  /** The slice is one of IPv4 addresses, and names `x` by an endpoint that is ready or does not say. */
  predicate Names(s: EndpointSlice, x: string) {
    s.addressType == IPv4
    && exists ep :: ep in s.endpoints && (ep.ready.None? || ep.ready.value) && x in ep.addresses
  }

  lemma NamesIff(s: EndpointSlice, x: string)
    ensures Names(s, x) <==> s.addressType == IPv4 && x in EndpointAddresses(s.endpoints)
  {
    if s.addressType == IPv4 && x in EndpointAddresses(s.endpoints) {
      var ep :| ep in s.endpoints && MayServe(ep) && x in ep.addresses;
      assert ep.ready.None? || ep.ready.value;
    }
    if Names(s, x) {
      var ep :| ep in s.endpoints && (ep.ready.None? || ep.ready.value) && x in ep.addresses;
      assert MayServe(ep);
    }
  }

  lemma ReadyAddressesIff(slices: seq<Option<EndpointSlice>>, x: string)
    ensures x in ReadyAddresses(slices) <==> exists s :: s in slices && s.Some? && Names(s.value, x)
  {
    forall s | s in slices && s.Some?
      ensures Names(s.value, x) <==> s.value.addressType == IPv4 && x in EndpointAddresses(s.value.endpoints)
    {
      NamesIff(s.value, x);
    }
  }

  // ---- The hash ring ---------------------------------------------------

  datatype Call = Joined(member: string) | Left(member: string)

  /** The members that a ring has after these calls. */
  function Replayed(calls: seq<Call>): set<string> {
    if calls == [] then {}
    else
      var r := Replayed(calls[..|calls| - 1]);
      match calls[|calls| - 1]
      case Joined(m) => r + {m}
      case Left(m) => r - {m}
  }

  /**
   * The ring, as all the calls that have been made on it: its members at any time are those that the calls up to then
   * leave. So what a method does to the ring is in the ring's own state, step by step.
   */
  class HashRing {
    var calls: seq<Call>

    constructor ()
      ensures calls == []
    {
      calls := [];
    }

    function Members(): set<string>
      reads this
    {
      Replayed(calls)
    }

    method Add(member: string)
      modifies this
      ensures calls == old(calls) + [Joined(member)]
    {
      calls := calls + [Joined(member)];
    }

    method Remove(member: string)
      modifies this
      ensures calls == old(calls) + [Left(member)]
    {
      calls := calls + [Left(member)];
    }

    /** The members in no particular order, each once. */
    method GetMembers() returns (members: seq<string>)
      ensures Visits(members, Members())
      ensures forall i, j | 0 <= i < j < |members| :: members[i] != members[j]
    {
      members := [];
      var todo := Members();
      while todo != {}
        invariant todo <= Members() && Visits(members, Members() - todo)
        invariant forall i, j | 0 <= i < j < |members| :: members[i] != members[j]
        decreases todo
      {
        var m :| m in todo;
        VisitsOneMore(members, Members() - todo, m);
        assert Members() - (todo - {m}) == Members() - todo + {m};
        members := members + [m];
        todo := todo - {m};
      }
      assert Members() - todo == Members();
    }
  }

  /** The order visits exactly these members. */
  ghost predicate Visits(order: seq<string>, members: set<string>) {
    forall m :: m in order <==> m in members
  }

  lemma VisitsOneMore(order: seq<string>, members: set<string>, m: string)
    requires Visits(order, members)
    ensures Visits(order + [m], members + {m})
  {
    assert forall x :: x in order + [m] <==> x in order || x == m;
  }

  // ---- Any order of joining and leaving --------------------------------

  /** A ring that may stand between the old and the new members. */
  predicate Between(before: set<string>, after: set<string>, r: set<string>) {
    && r <= before + after && (before <= r || after <= r)
    && (after != {} ==> r != {})
  }

  /** Two rings that differ in one member at most. */
  ghost predicate Neighbours(a: set<string>, b: set<string>) {
    |a - b| + |b - a| <= 1
  }

  function Joins(order: seq<string>): (calls: seq<Call>)
    ensures |calls| == |order|
  {
    seq(|order|, i requires 0 <= i < |order| => Joined(order[i]))
  }

  function Leaves(order: seq<string>): (calls: seq<Call>)
    ensures |calls| == |order|
  {
    seq(|order|, i requires 0 <= i < |order| => Left(order[i]))
  }

  lemma ReplayedOneMore(calls: seq<Call>, c: Call)
    ensures Replayed(calls + [c]) == if c.Joined? then Replayed(calls) + {c.member} else Replayed(calls) - {c.member}
  {
    assert (calls + [c])[..|calls|] == calls;
  }

  lemma {:induction false} ReplayedJoins(calls: seq<Call>, order: seq<string>)
    ensures forall m :: m in Replayed(calls + Joins(order)) <==> m in Replayed(calls) || m in order
    decreases |order|
  {
    if order == [] {
      assert calls + Joins(order) == calls;
    } else {
      var init, last := order[..|order| - 1], order[|order| - 1];
      ReplayedJoins(calls, init);
      assert order == init + [last];
      assert calls + Joins(order) == (calls + Joins(init)) + [Joined(last)];
      ReplayedOneMore(calls + Joins(init), Joined(last));
    }
  }

  lemma {:induction false} ReplayedLeaves(calls: seq<Call>, order: seq<string>)
    ensures forall m :: m in Replayed(calls + Leaves(order)) <==> m in Replayed(calls) && m !in order
    decreases |order|
  {
    if order == [] {
      assert calls + Leaves(order) == calls;
    } else {
      var init, last := order[..|order| - 1], order[|order| - 1];
      ReplayedLeaves(calls, init);
      assert order == init + [last];
      assert calls + Leaves(order) == (calls + Leaves(init)) + [Left(last)];
      ReplayedOneMore(calls + Leaves(init), Left(last));
    }
  }

  lemma CallChangesOne(calls: seq<Call>, c: Call)
    ensures Neighbours(Replayed(calls), Replayed(calls + [c]))
  {
    ReplayedOneMore(calls, c);
    var a, b := Replayed(calls), Replayed(calls + [c]);
    assert a - b == {} || a - b == {c.member};
    assert b - a == {} || b - a == {c.member};
    assert a - b == {} || b - a == {};
  }

  /** The calls of one `SetMembers`: all new members join, then those leave that are not among them. */
  ghost predicate SettingOrders(before: set<string>, after: set<string>, adds: seq<string>, removes: seq<string>) {
    Visits(adds, after) && Visits(removes, before - after)
  }

  function SettingCalls(adds: seq<string>, removes: seq<string>): (calls: seq<Call>)
    ensures |calls| == |adds| + |removes|
  {
    Joins(adds) + Leaves(removes)
  }

  /** The ring after so many of the calls. */
  function RingAfter(calls: seq<Call>, adds: seq<string>, removes: seq<string>, n: int): set<string>
    requires 0 <= n <= |adds| + |removes|
  {
    Replayed(calls + SettingCalls(adds, removes)[..n])
  }

  /** Whatever the orders: after every call the ring holds all the old or all the new members and no others, and is not
      empty if there are new ones; each call changes one member at most; and at the end it holds the new members. */
  lemma EveryOrderIsSafe(calls: seq<Call>, after: set<string>, adds: seq<string>, removes: seq<string>, n: int)
    requires SettingOrders(Replayed(calls), after, adds, removes) && 0 < n <= |adds| + |removes|
    ensures Between(Replayed(calls), after, RingAfter(calls, adds, removes, n))
    ensures Neighbours(RingAfter(calls, adds, removes, n - 1), RingAfter(calls, adds, removes, n))
  {
    StepChangesOne(calls, adds, removes, n);
    if n <= |adds| {
      AddingIsBetween(calls, after, adds, removes, n);
    } else {
      RemovingIsBetween(calls, after, adds, removes, n);
    }
  }

  lemma StepChangesOne(calls: seq<Call>, adds: seq<string>, removes: seq<string>, n: int)
    requires 0 < n <= |adds| + |removes|
    ensures Neighbours(RingAfter(calls, adds, removes, n - 1), RingAfter(calls, adds, removes, n))
  {
    var all := SettingCalls(adds, removes);
    assert calls + all[..n] == (calls + all[..n - 1]) + [all[n - 1]];
    CallChangesOne(calls + all[..n - 1], all[n - 1]);
  }

  lemma AddingIsBetween(calls: seq<Call>, after: set<string>, adds: seq<string>, removes: seq<string>, n: int)
    requires Visits(adds, after) && 0 < n <= |adds|
    ensures Between(Replayed(calls), after, RingAfter(calls, adds, removes, n))
  {
    assert SettingCalls(adds, removes)[..n] == Joins(adds[..n]);
    ReplayedJoins(calls, adds[..n]);
    assert adds[n - 1] in adds[..n];
    assert forall m | m in adds[..n] :: m in adds;
  }

  lemma RemovingIsBetween(calls: seq<Call>, after: set<string>, adds: seq<string>, removes: seq<string>, n: int)
    requires SettingOrders(Replayed(calls), after, adds, removes) && |adds| <= n <= |adds| + |removes|
    ensures after <= RingAfter(calls, adds, removes, n) <= Replayed(calls) + after
  {
    var gone := removes[..n - |adds|];
    assert calls + SettingCalls(adds, removes)[..n] == (calls + Joins(adds)) + Leaves(gone);
    ReplayedJoins(calls, adds);
    ReplayedLeaves(calls + Joins(adds), gone);
    assert forall m | m in gone :: m in removes;
  }

  lemma EveryOrderEnds(calls: seq<Call>, after: set<string>, adds: seq<string>, removes: seq<string>)
    requires SettingOrders(Replayed(calls), after, adds, removes)
    ensures Replayed(calls + SettingCalls(adds, removes)) == after
  {
    assert calls + SettingCalls(adds, removes) == (calls + Joins(adds)) + Leaves(removes);
    ReplayedJoins(calls, adds);
    ReplayedLeaves(calls + Joins(adds), removes);
  }

  // ---- The shard helper ------------------------------------------------

  /** `locate` is the ring's answer for a member set and a name. */
  class ShardHelper {
    const podIP: string
    const locate: (set<string>, string) -> string
    const ring: HashRing

    constructor (podIP: string, locate: (set<string>, string) -> string)
      ensures this.podIP == podIP && this.locate == locate && fresh(ring) && ring.calls == []
    {
      this.podIP, this.locate := podIP, locate;
      ring := new HashRing();
    }

    function Members(): set<string>
      reads ring
    {
      ring.Members()
    }

    method GetShardOwner(input: string) returns (owner: string)
      requires Members() != {}
      ensures owner == locate(Members(), input)
    {
      owner := locate(Members(), input);
    }

    method ShouldOwn(input: string) returns (own: bool)
      requires Members() != {}
      ensures own <==> locate(Members(), input) == podIP
    {
      var owner := GetShardOwner(input);
      own := owner == podIP;
    }

    /**
     * The two loops, in whatever orders `adds` and `removes` they happen to take. The calls they make are in the ring's
     * state, so that no other ring can have come between: after each, the ring holds all the old or all the new members
     * and no others, is not empty if there are new ones, and has changed by one member at most.
     */
    method SetMembers(newMembers: set<string>) returns (ghost adds: seq<string>, ghost removes: seq<string>)
      modifies ring
      ensures Members() == newMembers
      ensures SettingOrders(old(Members()), newMembers, adds, removes)
      ensures ring.calls == old(ring.calls) + SettingCalls(adds, removes)
      ensures forall n | 0 < n <= |adds| + |removes| ::
                && Between(old(Members()), newMembers, RingAfter(old(ring.calls), adds, removes, n))
                && Neighbours(RingAfter(old(ring.calls), adds, removes, n - 1),
                              RingAfter(old(ring.calls), adds, removes, n))
                && (newMembers != {} ==> RingAfter(old(ring.calls), adds, removes, n) != {})
      ensures newMembers == old(Members()) ==>
                forall n | 0 < n <= |adds| + |removes| :: RingAfter(old(ring.calls), adds, removes, n) == newMembers
    {
      ghost var before, calls := Members(), ring.calls;
      adds, removes := [], [];
      var todo := newMembers;
      while todo != {}
        invariant todo <= newMembers && Visits(adds, newMembers - todo)
        invariant ring.calls == calls + Joins(adds)
        decreases todo
      {
        var m :| m in todo;
        ring.Add(m);
        VisitsOneMore(adds, newMembers - todo, m);
        assert newMembers - (todo - {m}) == newMembers - todo + {m};
        assert calls + Joins(adds + [m]) == calls + Joins(adds) + [Joined(m)];
        adds := adds + [m];
        todo := todo - {m};
      }
      assert newMembers - todo == newMembers;
      ReplayedJoins(calls, adds);
      var members := ring.GetMembers();
      for i := 0 to |members|
        invariant ring.calls == calls + SettingCalls(adds, removes)
        invariant forall m :: m in removes <==> m in members[..i] && m !in newMembers
      {
        assert members[..i + 1] == members[..i] + [members[i]];
        if members[i] !in newMembers {
          ring.Remove(members[i]);
          assert calls + SettingCalls(adds, removes + [members[i]])
              == calls + SettingCalls(adds, removes) + [Left(members[i])];
          removes := removes + [members[i]];
        }
      }
      assert members[..|members|] == members;
      EveryOrderEnds(calls, newMembers, adds, removes);
      forall n | 0 < n <= |adds| + |removes|
        ensures Between(before, newMembers, RingAfter(calls, adds, removes, n))
        ensures Neighbours(RingAfter(calls, adds, removes, n - 1), RingAfter(calls, adds, removes, n))
        ensures newMembers != {} ==> RingAfter(calls, adds, removes, n) != {}
      {
        EveryOrderIsSafe(calls, newMembers, adds, removes, n);
      }
    }

    method SetMembersFromLists(lists: seq<seq<string>>)
      modifies ring
      ensures Members() == set l, m | l in lists && m in l :: m
    {
      var members := {};
      for i := 0 to |lists|
        invariant members == set l, m | l in lists[..i] && m in l :: m
      {
        var l := lists[i];
        assert lists[..i + 1] == lists[..i] + [l];
        for j := 0 to |l|
          invariant members == (set l, m | l in lists[..i] && m in l :: m) + set m | m in l[..j]
        {
          assert l[..j + 1] == l[..j] + [l[j]];
          members := members + {l[j]};
        }
        assert l[..|l|] == l;
      }
      assert lists[..|lists|] == lists;
      var _, _ := SetMembers(members);
    }

    method UpdateAllEndpoints(slices: seq<Option<EndpointSlice>>)
      modifies ring
      ensures Members() == ReadyAddresses(slices)
      ensures forall x :: x in Members() <==> exists s :: s in slices && s.Some? && Names(s.value, x)
    {
      var ipSet := {};
      for i := 0 to |slices|
        invariant ipSet == ReadyAddresses(slices[..i])
      {
        AddressesOfExtended(slices[..i], slices[i]);
        assert slices[..i + 1] == slices[..i] + [slices[i]];
        if slices[i].None? {
          continue;
        }
        var eps := slices[i].value;
        if eps.addressType != IPv4 {
          continue;
        }
        ghost var before := ipSet;
        for j := 0 to |eps.endpoints|
          invariant ipSet == before + EndpointAddresses(eps.endpoints[..j])
        {
          var ep := eps.endpoints[j];
          assert eps.endpoints[..j + 1] == eps.endpoints[..j] + [ep];
          if ep.ready.Some? && !ep.ready.value {
            continue;
          }
          ghost var outer := ipSet;
          for n := 0 to |ep.addresses|
            invariant ipSet == outer + set a | a in ep.addresses[..n]
          {
            assert ep.addresses[..n + 1] == ep.addresses[..n] + [ep.addresses[n]];
            ipSet := ipSet + {ep.addresses[n]};
          }
          assert ep.addresses[..|ep.addresses|] == ep.addresses;
        }
        assert eps.endpoints[..|eps.endpoints|] == eps.endpoints;
      }
      assert slices[..|slices|] == slices;
      forall x
        ensures x in ReadyAddresses(slices) <==> exists s :: s in slices && s.Some? && Names(s.value, x)
      {
        ReadyAddressesIff(slices, x);
      }
      var _, _ := SetMembers(ipSet);
    }
  }

  lemma AddressesOfExtended(slices: seq<Option<EndpointSlice>>, s: Option<EndpointSlice>)
    ensures ReadyAddresses(slices + [s]) == ReadyAddresses(slices) +
              if s.Some? && s.value.addressType == IPv4 then EndpointAddresses(s.value.endpoints) else {}
  {
  }

  // ---- What the membership does not depend on --------------------------

  /** Neither on the order of the slices, nor on how often one is listed, nor on nil ones. */
  lemma ListingIsIrrelevant(a: seq<Option<EndpointSlice>>, b: seq<Option<EndpointSlice>>)
    requires forall s: Option<EndpointSlice> | s.Some? :: s in a <==> s in b
    ensures ReadyAddresses(a) == ReadyAddresses(b)
  {
    forall x
      ensures x in ReadyAddresses(a) <==> x in ReadyAddresses(b)
    {
      if x in ReadyAddresses(a) {
        var s :| s in a && s.Some? && s.value.addressType == IPv4 && x in EndpointAddresses(s.value.endpoints);
        assert s in b;
      }
      if x in ReadyAddresses(b) {
        var s :| s in b && s.Some? && s.value.addressType == IPv4 && x in EndpointAddresses(s.value.endpoints);
        assert s in a;
      }
    }
  }

  /** Nor on how the endpoints are spread over slices. */
  lemma SplitIsIrrelevant(before: seq<Option<EndpointSlice>>, t: AddressType, a: seq<Endpoint>, b: seq<Endpoint>,
                          after: seq<Option<EndpointSlice>>)
    ensures ReadyAddresses(before + [Some(EndpointSlice(t, a + b))] + after)
         == ReadyAddresses(before + [Some(EndpointSlice(t, a)), Some(EndpointSlice(t, b))] + after)
  {
    assert EndpointAddresses(a + b) == EndpointAddresses(a) + EndpointAddresses(b);
    AddressesOfConcat(before + [Some(EndpointSlice(t, a + b))], after);
    AddressesOfConcat(before + [Some(EndpointSlice(t, a)), Some(EndpointSlice(t, b))], after);
    AddressesOfExtended(before, Some(EndpointSlice(t, a + b)));
    AddressesOfExtended(before, Some(EndpointSlice(t, a)));
    AddressesOfExtended(before + [Some(EndpointSlice(t, a))], Some(EndpointSlice(t, b)));
    assert before + [Some(EndpointSlice(t, a)), Some(EndpointSlice(t, b))]
        == before + [Some(EndpointSlice(t, a))] + [Some(EndpointSlice(t, b))];
  }

  lemma AddressesOfConcat(a: seq<Option<EndpointSlice>>, b: seq<Option<EndpointSlice>>)
    ensures ReadyAddresses(a + b) == ReadyAddresses(a) + ReadyAddresses(b)
  {
  }

  // ---- The informer ----------------------------------------------------

  /** What the informer's store holds under a name; `None` is an object that does not convert to a slice. */
  type StoreState = map<string, Option<EndpointSlice>>

  datatype Event = Added(name: string, slice: Option<EndpointSlice>)
                 | Changed(name: string, slice: Option<EndpointSlice>)
                 | Deleted(name: string)

  function Applied(store: StoreState, e: Event): StoreState {
    match e
    case Added(name, slice) => store[name := slice]
    case Changed(name, slice) => store[name := slice]
    case Deleted(name) => store - {name}
  }

  /** The peers the stored slices name. */
  function StoreAddresses(store: StoreState): set<string> {
    set n, a | n in store && store[n].Some? && store[n].value.addressType == IPv4
               && a in EndpointAddresses(store[n].value.endpoints) :: a
  }

  lemma StoreAddressesIff(store: StoreState, x: string)
    ensures x in StoreAddresses(store) <==> exists n :: n in store && store[n].Some? && Names(store[n].value, x)
  {
    forall n | n in store && store[n].Some?
      ensures Names(store[n].value, x) <==>
                store[n].value.addressType == IPv4 && x in EndpointAddresses(store[n].value.endpoints)
    {
      NamesIff(store[n].value, x);
    }
  }

  class PeerInformer {
    const peerRing: ShardHelper
    var store: StoreState

    constructor (peerRing: ShardHelper)
      ensures this.peerRing == peerRing && store == map[]
    {
      this.peerRing, store := peerRing, map[];
    }

    /** `toEndpointSlices(GetStore().List())`: in no particular order, without what does not convert. */
    method List() returns (slices: seq<Option<EndpointSlice>>)
      ensures ReadyAddresses(slices) == StoreAddresses(store)
      ensures forall s | s in slices :: s.Some?
    {
      slices := [];
      var todo := store.Keys;
      while todo != {}
        invariant todo <= store.Keys
        invariant forall s | s in slices :: s.Some?
        invariant ReadyAddresses(slices) == StoreAddresses(map n | n in store && n !in todo :: store[n])
        decreases todo
      {
        var name :| name in todo;
        ghost var seen: StoreState := map n | n in store && n !in todo :: store[n];
        todo := todo - {name};
        StoreExtended(seen, name, store[name]);
        assert (map n | n in store && n !in todo :: store[n]) == seen[name := store[name]];
        if store[name].Some? {
          AddressesOfExtended(slices, store[name]);
          slices := slices + [store[name]];
        }
      }
      assert (map n | n in store && n !in todo :: store[n]) == store;
    }

    /** All three handlers recompute the members from the store, so the ring follows it whatever happened before. */
    method Handle(e: Event)
      modifies this`store, peerRing.ring
      ensures store == Applied(old(store), e)
      ensures peerRing.Members() == StoreAddresses(store)
      ensures forall x :: x in peerRing.Members() <==>
                exists n :: n in store && store[n].Some? && Names(store[n].value, x)
    {
      store := Applied(store, e);
      var slices := List();
      peerRing.UpdateAllEndpoints(slices);
      forall x
        ensures x in StoreAddresses(store) <==> exists n :: n in store && store[n].Some? && Names(store[n].value, x)
      {
        StoreAddressesIff(store, x);
      }
    }
  }

  lemma StoreExtended(store: StoreState, name: string, s: Option<EndpointSlice>)
    requires name !in store
    ensures StoreAddresses(store[name := s]) == StoreAddresses(store) +
              if s.Some? && s.value.addressType == IPv4 then EndpointAddresses(s.value.endpoints) else {}
  {
    var store' := store[name := s];
    forall x | x in StoreAddresses(store)
      ensures x in StoreAddresses(store')
    {
      var n :| n in store && store[n].Some? && store[n].value.addressType == IPv4
               && x in EndpointAddresses(store[n].value.endpoints);
      assert store'[n] == store[n];
    }
    assert store'[name] == s;
  }

  function AfterEvents(store: StoreState, events: seq<Event>): StoreState {
    if events == [] then store else Applied(AfterEvents(store, events[..|events| - 1]), events[|events| - 1])
  }

  /** After any run of events the store holds under a name what the last event about it says. */
  lemma {:induction false} LastWordCounts(events: seq<Event>, i: nat)
    requires i < |events|
    requires forall j | i < j < |events| :: events[j].name != events[i].name
    ensures events[i].name in AfterEvents(map[], events) <==> !events[i].Deleted?
    ensures !events[i].Deleted? ==> AfterEvents(map[], events)[events[i].name] == events[i].slice
  {
    if i < |events| - 1 {
      LastWordCounts(events[..|events| - 1], i);
    }
  }

  /** And nothing under a name that no event speaks of. */
  lemma {:induction false} UnmentionedIsAbsent(events: seq<Event>, n: string)
    requires n in AfterEvents(map[], events)
    ensures exists i :: 0 <= i < |events| && events[i].name == n
  {
    var init, e := events[..|events| - 1], events[|events| - 1];
    if e.name != n {
      UnmentionedIsAbsent(init, n);
      var i :| 0 <= i < |init| && init[i].name == n;
      assert events[i] == init[i];
    }
  }
}
