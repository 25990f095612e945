/**
 The watchdog's sweeps (scripts/vm-watchdog.py): each poll judges every VM of the project by
 its own record, then the sidecars of those VMs that it just saw healthy.
 */
module WatchdogSweep {
  import opened Options
  import opened Watchdog

  datatype Reading = Reading(health: Health, streak: nat)

  // A container without a service label cannot be recreated; one without a reading could not
  // be inspected.
  datatype Vm = Vm(id: string, names: seq<string>, service: Option<string>, reading: Option<Reading>)

  datatype Sidecar = Sidecar(owner: string, service: Option<string>, reading: Option<Reading>)

  // One observation, of the service whose record it is judged by.
  datatype Entry = Entry(service: string, obs: Obs)

  type States = map<string, Record>

  function Load(states: States, service: string): Record {
    if service in states then states[service] else FRESH
  }

  // ---------------------------------------------------------------- what one poll looks at

  function EntryOf(service: Option<string>, reading: Option<Reading>, now: nat): seq<Entry> {
    if service.None? || reading.None? then []
    else [Entry(service.value, Obs(reading.value.health, reading.value.streak, now))]
  }

  function VmEntries(vms: seq<Vm>, now: nat): seq<Entry> {
    if vms == [] then []
    else VmEntries(vms[..|vms| - 1], now) + EntryOf(vms[|vms| - 1].service, vms[|vms| - 1].reading, now)
  }

  // The health read of each VM, by container id.
  function Seen(vms: seq<Vm>): map<string, Health> {
    if vms == [] then map[]
    else
      var before, vm := Seen(vms[..|vms| - 1]), vms[|vms| - 1];
      if vm.reading.None? then before else before[vm.id := vm.reading.value.health]
  }

  // A network-mode token names a container by id, by a long enough part of it, or by name.
  predicate Names(vm: Vm, token: string) {
    vm.id != "" && (vm.id == token || (|token| >= 12 && token <= vm.id) || token in vm.names)
  }

  function OwnerOf(token: string, vms: seq<Vm>): (owner: Option<Vm>)
    ensures owner.Some? ==> owner.value in vms && Names(owner.value, token)
    ensures owner.None? ==> forall i :: 0 <= i < |vms| ==> !Names(vms[i], token)
  {
    if vms == [] then None else if Names(vms[0], token) then Some(vms[0]) else OwnerOf(token, vms[1..])
  }

  // Only under an owner that this poll saw healthy.
  predicate Watched(s: Sidecar, vms: seq<Vm>) {
    var owner := OwnerOf(s.owner, vms);
    owner.Some? && owner.value.id in Seen(vms) && Seen(vms)[owner.value.id] == Healthy
  }

  function SidecarEntries(sidecars: seq<Sidecar>, vms: seq<Vm>, now: nat): seq<Entry> {
    if sidecars == [] then []
    else
      var s := sidecars[|sidecars| - 1];
      SidecarEntries(sidecars[..|sidecars| - 1], vms, now)
      + (if Watched(s, vms) then EntryOf(s.service, s.reading, now) else [])
  }

  // ---------------------------------------------------------------- what it does about it

  function Judged(cfg: Config, states: States, e: Entry): (Record, Action)
    requires Valid(cfg)
  {
    Decided(cfg, Load(states, e.service), e.obs)
  }

  function Fold(cfg: Config, states: States, entries: seq<Entry>): States
    requires Valid(cfg)
  {
    if entries == [] then states
    else
      var before, e := Fold(cfg, states, entries[..|entries| - 1]), entries[|entries| - 1];
      before[e.service := Judged(cfg, before, e).0]
  }

  // The services recreated, in order.
  function Recreated(cfg: Config, states: States, entries: seq<Entry>): seq<string>
    requires Valid(cfg)
  {
    if entries == [] then []
    else
      var init, e := entries[..|entries| - 1], entries[|entries| - 1];
      Recreated(cfg, states, init)
      + (if Judged(cfg, Fold(cfg, states, init), e).1 == Restart then [e.service] else [])
  }

  // What a dry run would recreate: every observation judged by the records on disk.
  function Would(cfg: Config, states: States, entries: seq<Entry>): nat
    requires Valid(cfg)
  {
    if entries == [] then 0
    else
      Would(cfg, states, entries[..|entries| - 1])
      + (if Judged(cfg, states, entries[|entries| - 1]).1 == Restart then 1 else 0)
  }

  lemma FoldOne(cfg: Config, states: States, done: seq<Entry>, e: Entry)
    requires Valid(cfg)
    ensures var before := Fold(cfg, states, done);
            && Fold(cfg, states, done + [e]) == before[e.service := Judged(cfg, before, e).0]
            && Recreated(cfg, states, done + [e]) ==
               Recreated(cfg, states, done) + (if Judged(cfg, before, e).1 == Restart then [e.service] else [])
            && Would(cfg, states, done + [e]) ==
               Would(cfg, states, done) + (if Judged(cfg, states, e).1 == Restart then 1 else 0)
  {
    assert (done + [e])[..|done|] == done;
  }

  // From one set of records and recreations to another, by these observations.
  ghost predicate SweptTo(cfg: Config, s0: States, r0: seq<string>, entries: seq<Entry>, dryRun: bool,
                          s1: States, r1: seq<string>, count: nat)
    requires Valid(cfg)
  {
    if dryRun then s1 == s0 && r1 == r0 && count == Would(cfg, s0, entries)
    else
      && s1 == Fold(cfg, s0, entries) && r1 == r0 + Recreated(cfg, s0, entries)
      && count == |Recreated(cfg, s0, entries)|
  }

  lemma SweptBoth(cfg: Config, s0: States, r0: seq<string>, first: seq<Entry>, dryRun: bool, s1: States,
                  r1: seq<string>, c1: nat,
                  second: seq<Entry>, s2: States, r2: seq<string>, c2: nat)
    requires Valid(cfg) && SweptTo(cfg, s0, r0, first, dryRun, s1, r1, c1) &&
             SweptTo(cfg, s1, r1, second, dryRun, s2, r2, c2)
    ensures SweptTo(cfg, s0, r0, first + second, dryRun, s2, r2, c1 + c2)
  {
    if dryRun {
      WouldAppend(cfg, s0, first, second);
    } else {
      FoldAppend(cfg, s0, first, second);
      RecreatedAppend(cfg, s0, first, second);
    }
  }

  // The real polls so far, whatever their counts.
  ghost predicate SweptSoFar(cfg: Config, s0: States, r0: seq<string>, entries: seq<Entry>, s1: States, r1: seq<string>)
    requires Valid(cfg)
  {
    s1 == Fold(cfg, s0, entries) && r1 == r0 + Recreated(cfg, s0, entries)
  }

  lemma SweptMore(cfg: Config, s0: States, r0: seq<string>, done: seq<Entry>, s1: States, r1: seq<string>,
                  more: seq<Entry>, s2: States, r2: seq<string>, count: nat)
    requires Valid(cfg) && SweptSoFar(cfg, s0, r0, done, s1, r1) && SweptTo(cfg, s1, r1, more, false, s2, r2, count)
    ensures SweptSoFar(cfg, s0, r0, done + more, s2, r2)
  {
    SweptBoth(cfg, s0, r0, done, false, s1, r1, |Recreated(cfg, s0, done)|, more, s2, r2, count);
  }

  // Observations can be folded in two goes.
  lemma {:induction false} FoldAppend(cfg: Config, states: States, first: seq<Entry>, second: seq<Entry>)
    requires Valid(cfg)
    ensures Fold(cfg, states, first + second) == Fold(cfg, Fold(cfg, states, first), second)
    decreases |second|
  {
    if second == [] {
      assert first + second == first;
    } else {
      var init, e := second[..|second| - 1], second[|second| - 1];
      assert second == init + [e] && first + second == (first + init) + [e];
      FoldAppend(cfg, states, first, init);
      FoldOne(cfg, states, first + init, e);
      FoldOne(cfg, Fold(cfg, states, first), init, e);
    }
  }

  lemma {:induction false} RecreatedAppend(cfg: Config, states: States, first: seq<Entry>, second: seq<Entry>)
    requires Valid(cfg)
    ensures Recreated(cfg, states, first + second) ==
            Recreated(cfg, states, first) + Recreated(cfg, Fold(cfg, states, first), second)
    decreases |second|
  {
    if second == [] {
      assert first + second == first;
    } else {
      var init, e := second[..|second| - 1], second[|second| - 1];
      RecreatedAppend(cfg, states, first, init);
      RecreatedLast(cfg, states, first, init, e);
      assert second == init + [e] && first + second == (first + init) + [e];
    }
  }

  lemma RecreatedLast(cfg: Config, states: States, first: seq<Entry>, init: seq<Entry>, e: Entry)
    requires Valid(cfg)
    requires Recreated(cfg, states, first + init) ==
             Recreated(cfg, states, first) + Recreated(cfg, Fold(cfg, states, first), init)
    ensures Recreated(cfg, states, (first + init) + [e]) ==
            Recreated(cfg, states, first) + Recreated(cfg, Fold(cfg, states, first), init + [e])
  {
    var middle := Fold(cfg, states, first);
    FoldAppend(cfg, states, first, init);
    FoldOne(cfg, states, first + init, e);
    FoldOne(cfg, middle, init, e);
    var last := if Judged(cfg, Fold(cfg, middle, init), e).1 == Restart then [e.service] else [];
    Assoc(Recreated(cfg, states, first), Recreated(cfg, middle, init), last);
  }

  lemma {:induction false} WouldAppend(cfg: Config, states: States, first: seq<Entry>, second: seq<Entry>)
    requires Valid(cfg)
    ensures Would(cfg, states, first + second) == Would(cfg, states, first) + Would(cfg, states, second)
    decreases |second|
  {
    if second == [] {
      assert first + second == first;
    } else {
      var init, e := second[..|second| - 1], second[|second| - 1];
      assert second == init + [e] && first + second == (first + init) + [e];
      WouldAppend(cfg, states, first, init);
      FoldOne(cfg, states, first + init, e);
      FoldOne(cfg, states, init, e);
    }
  }

  lemma VmTurn(vms: seq<Vm>, i: nat, now: nat)
    requires i < |vms|
    ensures VmEntries(vms[..i + 1], now) == VmEntries(vms[..i], now) + EntryOf(vms[i].service, vms[i].reading, now)
    ensures Seen(vms[..i + 1]) ==
            if vms[i].reading.None? then Seen(vms[..i]) else Seen(vms[..i])[vms[i].id := vms[i].reading.value.health]
  {
    assert vms[..i + 1][..i] == vms[..i];
  }

  class Watch {
    const cfg: Config
    var states: States
    var recreated: seq<string>

    constructor (cfg: Config)
      ensures this.cfg == cfg && states == map[] && recreated == []
    {
      this.cfg, states, recreated := cfg, map[], [];
    }

    method Judge(e: Entry, dryRun: bool) returns (hit: bool)
      requires Valid(cfg)
      modifies this
      ensures hit == (Judged(cfg, old(states), e).1 == Restart)
      ensures states == if dryRun then old(states) else old(states)[e.service := Judged(cfg, old(states), e).0]
      ensures recreated == if hit && !dryRun then old(recreated) + [e.service] else old(recreated)
    {
      var working := new VmState(Load(states, e.service));
      var action := working.Decide(cfg, e.obs.health, e.obs.streak, e.obs.now);
      assert (working.Value(), action) == Judged(cfg, old(states), e);
      if !dryRun {
        states := states[e.service := working.Value()];
      }
      hit := action == Restart;
      if hit && !dryRun {
        recreated := recreated + [e.service];
      }
    }

    // One container that could be inspected and has a service is judged; another is skipped.
    method Look(service: Option<string>, reading: Option<Reading>, now: nat, dryRun: bool, count: nat,
                ghost before: States, ghost recs: seq<string>, ghost done: seq<Entry>)
      returns (total: nat)
      requires Valid(cfg) && Swept(before, recs, done, dryRun, count)
      modifies this
      ensures Swept(before, recs, done + EntryOf(service, reading, now), dryRun, total)
    {
      total := count;
      if service.Some? && reading.Some? {
        var e := Entry(service.value, Obs(reading.value.health, reading.value.streak, now));
        FoldOne(cfg, before, done, e);
        var hit := Judge(e, dryRun);
        if hit {
          total := total + 1;
        }
      } else {
        assert done + [] == done;
      }
    }

    method SweepVms(vms: seq<Vm>, now: nat, dryRun: bool) returns (count: nat, seen: map<string, Health>)
      requires Valid(cfg)
      modifies this
      ensures seen == Seen(vms)
      ensures Swept(old(states), old(recreated), VmEntries(vms, now), dryRun, count)
    {
      count, seen := 0, map[];
      var i := 0;
      while i < |vms|
        invariant 0 <= i <= |vms| && seen == Seen(vms[..i])
        invariant Swept(old(states), old(recreated), VmEntries(vms[..i], now), dryRun, count)
      {
        VmTurn(vms, i, now);
        if vms[i].reading.Some? {
          seen := seen[vms[i].id := vms[i].reading.value.health];
        }
        count := Look(vms[i].service, vms[i].reading, now, dryRun, count, old(states), old(recreated),
                      VmEntries(vms[..i], now));
        i := i + 1;
      }
      assert vms[..i] == vms;
    }

    method SweepSidecars(sidecars: seq<Sidecar>, vms: seq<Vm>, seen: map<string, Health>, now: nat, dryRun: bool)
      returns (count: nat)
      requires Valid(cfg) && seen == Seen(vms)
      modifies this
      ensures Swept(old(states), old(recreated), SidecarEntries(sidecars, vms, now), dryRun, count)
    {
      count := 0;
      var i := 0;
      while i < |sidecars|
        invariant 0 <= i <= |sidecars|
        invariant Swept(old(states), old(recreated), SidecarEntries(sidecars[..i], vms, now), dryRun, count)
      {
        assert sidecars[..i + 1][..i] == sidecars[..i];
        ghost var done := SidecarEntries(sidecars[..i], vms, now);
        var s := sidecars[i];
        var owner := OwnerOf(s.owner, vms);
        if owner.Some? && owner.value.id in seen && seen[owner.value.id] == Healthy {
          count := Look(s.service, s.reading, now, dryRun, count, old(states), old(recreated), done);
        } else {
          assert done + [] == done;
        }
        i := i + 1;
      }
      assert sidecars[..i] == sidecars;
    }

    // The records, the recreations and the count after these observations.
    ghost predicate Swept(before: States, done: seq<string>, entries: seq<Entry>, dryRun: bool, count: nat)
      requires Valid(cfg)
      reads this
    {
      SweptTo(cfg, before, done, entries, dryRun, states, recreated, count)
    }

    /** One poll: a dry run changes nothing, a real one folds every observation into its record. */
    method SweepOnce(vms: seq<Vm>, sidecars: seq<Sidecar>, watchSidecars: bool, now: nat, dryRun: bool)
      returns (count: nat)
      requires Valid(cfg)
      modifies this
      ensures Swept(old(states), old(recreated), PollEntries(vms, sidecars, watchSidecars, now), dryRun, count)
    {
      ghost var s0, r0 := states, recreated;
      var seen;
      count, seen := SweepVms(vms, now, dryRun);
      if watchSidecars {
        ghost var s1, r1 := states, recreated;
        ghost var first, second := VmEntries(vms, now), SidecarEntries(sidecars, vms, now);
        var more := SweepSidecars(sidecars, vms, seen, now, dryRun);
        SweptBoth(cfg, s0, r0, first, dryRun, s1, r1, count, second, states, recreated, more);
        count := count + more;
      }
    }

    /** The daemon's polls one after another. From no records at all, one service is recreated
        at most one budget of times, and one more for each full reset time they lasted. */
    method Run(polls: seq<Poll>)
      requires Valid(cfg) && OnTheClock(polls)
      modifies this
      ensures states == Fold(cfg, old(states), RunEntries(polls))
      ensures recreated == old(recreated) + Recreated(cfg, old(states), RunEntries(polls))
      ensures old(states) == map[] && old(recreated) == [] && polls != [] ==>
        EachAtMost(recreated, Most(cfg, polls[|polls| - 1].now - polls[0].now))
    {
      ghost var s0, r0 := states, recreated;
      var i := 0;
      while i < |polls|
        invariant 0 <= i <= |polls|
        invariant SweptSoFar(cfg, s0, r0, RunEntries(polls[..i]), states, recreated)
      {
        assert polls[..i + 1][..i] == polls[..i];
        ghost var s1, r1, done := states, recreated, RunEntries(polls[..i]);
        var p := polls[i];
        var count := SweepOnce(p.vms, p.sidecars, p.watchSidecars, p.now, false);
        SweptMore(cfg, s0, r0, done, s1, r1, EntriesOf(p), states, recreated, count);
        i := i + 1;
      }
      assert polls[..i] == polls;
      if s0 == map[] && r0 == [] && polls != [] {
        RunIsBounded(cfg, polls);
      }
    }
  }

  datatype Poll = Poll(vms: seq<Vm>, sidecars: seq<Sidecar>, watchSidecars: bool, now: nat)

  function EntriesOf(p: Poll): seq<Entry> { PollEntries(p.vms, p.sidecars, p.watchSidecars, p.now) }

  function RunEntries(polls: seq<Poll>): seq<Entry> {
    if polls == [] then [] else RunEntries(polls[..|polls| - 1]) + EntriesOf(polls[|polls| - 1])
  }

  predicate OnTheClock(polls: seq<Poll>) {
    && (forall i :: 0 <= i < |polls| ==> polls[i].now > 0)
    && (forall i, j :: 0 <= i < j < |polls| ==> polls[i].now <= polls[j].now)
  }

  function PollEntries(vms: seq<Vm>, sidecars: seq<Sidecar>, watchSidecars: bool, now: nat): seq<Entry> {
    if watchSidecars then VmEntries(vms, now) + SidecarEntries(sidecars, vms, now) else VmEntries(vms, now)
  }

  // ---------------------------------------------------------------- one service's record

  function Of(entries: seq<Entry>, service: string): seq<Obs> {
    if entries == [] then []
    else
      Of(entries[..|entries| - 1], service)
      + (if entries[|entries| - 1].service == service then [entries[|entries| - 1].obs] else [])
  }

  /** A service's record is decide folded over that service's own observations, whatever else
      was swept, and its recreations are that trace's restarts. */
  lemma {:induction false} RecordsAreSeparate(cfg: Config, entries: seq<Entry>, service: string)
    requires Valid(cfg)
    ensures Load(Fold(cfg, map[], entries), service) == After(cfg, Of(entries, service))
    ensures multiset(Recreated(cfg, map[], entries))[service] == Restarts(cfg, Of(entries, service))
  {
    if entries != [] {
      var init, e := entries[..|entries| - 1], entries[|entries| - 1];
      RecordsAreSeparate(cfg, init, service);
      assert entries == init + [e];
      FoldOne(cfg, map[], init, e);
      if e.service == service {
        assert Of(entries, service) == Of(init, service) + [e.obs];
        AfterOne(cfg, Of(init, service), e.obs);
      } else {
        assert Of(entries, service) == Of(init, service);
      }
    }
  }

  lemma AfterOne(cfg: Config, trace: seq<Obs>, o: Obs)
    requires Valid(cfg)
    ensures After(cfg, trace + [o]) == Decided(cfg, After(cfg, trace), o).0
    ensures Restarts(cfg, trace + [o]) ==
            Restarts(cfg, trace) + (if Decided(cfg, After(cfg, trace), o).1 == Restart then 1 else 0)
  {
    assert (trace + [o])[..|trace|] == trace;
  }

  ghost predicate InOrder(entries: seq<Entry>) {
    && (forall i :: 0 <= i < |entries| ==> entries[i].obs.now > 0)
    && (forall i, j :: 0 <= i < j < |entries| ==> entries[i].obs.now <= entries[j].obs.now)
  }

  // In order, and none outside these times.
  ghost predicate Spans(entries: seq<Entry>, first: nat, last: nat) {
    InOrder(entries) && forall i :: 0 <= i < |entries| ==> first <= entries[i].obs.now <= last
  }

  ghost predicate Within(trace: seq<Obs>, first: nat, last: nat) {
    Ordered(trace) && forall i :: 0 <= i < |trace| ==> first <= trace[i].now <= last
  }

  lemma WithinMore(trace: seq<Obs>, first: nat, last: nat, o: Obs)
    requires Within(trace, first, o.now) && 0 < o.now && first <= o.now <= last
    ensures Within(trace, first, last) && Within(trace + [o], first, last)
  {
  }

  lemma SpansInit(entries: seq<Entry>, first: nat, last: nat)
    requires Spans(entries, first, last) && entries != []
    ensures var n := |entries| - 1;
      Spans(entries[..n], first, entries[n].obs.now) && 0 < entries[n].obs.now && first <= entries[n].obs.now <= last
  {
    assert forall i :: 0 <= i < |entries| - 1 ==> entries[..|entries| - 1][i] == entries[i];
  }

  lemma {:induction false} OfSpans(entries: seq<Entry>, service: string, first: nat, last: nat)
    requires Spans(entries, first, last)
    ensures Within(Of(entries, service), first, last)
  {
    if entries != [] {
      var init, e := entries[..|entries| - 1], entries[|entries| - 1];
      SpansInit(entries, first, last);
      OfSpans(init, service, first, e.obs.now);
      WithinMore(Of(init, service), first, last, e.obs);
    }
  }

  lemma SpanIsBounded(cfg: Config, entries: seq<Entry>, service: string, first: nat, last: nat)
    requires Valid(cfg) && first <= last && Spans(entries, first, last)
    ensures multiset(Recreated(cfg, map[], entries))[service] <= Most(cfg, last - first)
  {
    OfSpans(entries, service, first, last);
    WithinRun(cfg, Of(entries, service), first, last);
    RecordsAreSeparate(cfg, entries, service);
  }

  /** Over any run of polls, one service is recreated at most one budget of times, and one
      budget more for each full reset time the run lasted. */
  lemma RecreationsAreBounded(cfg: Config, entries: seq<Entry>, service: string)
    requires Valid(cfg) && InOrder(entries) && entries != []
    ensures multiset(Recreated(cfg, map[], entries))[service] <=
            Most(cfg, entries[|entries| - 1].obs.now - entries[0].obs.now)
  {
    SpanIsBounded(cfg, entries, service, entries[0].obs.now, entries[|entries| - 1].obs.now);
  }

  ghost predicate AllAt(entries: seq<Entry>, now: nat) {
    forall i :: 0 <= i < |entries| ==> entries[i].obs.now == now
  }

  lemma {:induction false} VmsAt(vms: seq<Vm>, now: nat)
    ensures AllAt(VmEntries(vms, now), now)
  {
    if vms != [] {
      VmsAt(vms[..|vms| - 1], now);
    }
  }

  lemma {:induction false} SidecarsAt(sidecars: seq<Sidecar>, vms: seq<Vm>, now: nat)
    ensures AllAt(SidecarEntries(sidecars, vms, now), now)
  {
    if sidecars != [] {
      SidecarsAt(sidecars[..|sidecars| - 1], vms, now);
    }
  }

  lemma SpansMore(entries: seq<Entry>, first: nat, last: nat, more: seq<Entry>, now: nat)
    requires 0 < first <= last <= now && Spans(entries, first, last) && AllAt(more, now)
    ensures Spans(entries + more, first, now)
  {
  }

  lemma {:induction false} RunSpans(polls: seq<Poll>)
    requires OnTheClock(polls) && polls != []
    ensures Spans(RunEntries(polls), polls[0].now, polls[|polls| - 1].now)
  {
    var init, p := polls[..|polls| - 1], polls[|polls| - 1];
    VmsAt(p.vms, p.now);
    SidecarsAt(p.sidecars, p.vms, p.now);
    if init == [] {
      SpansMore([], p.now, p.now, EntriesOf(p), p.now);
      assert RunEntries(init) == [];
    } else {
      RunSpans(init);
      SpansMore(RunEntries(init), polls[0].now, init[|init| - 1].now, EntriesOf(p), p.now);
    }
  }

  // No service more often than this.
  ghost predicate EachAtMost(services: seq<string>, most: nat) {
    forall service :: multiset(services)[service] <= most
  }

  lemma SpanIsBoundedForEach(cfg: Config, entries: seq<Entry>, names: seq<string>, first: nat, last: nat)
    requires Valid(cfg) && first <= last && Spans(entries, first, last) && names == Recreated(cfg, map[], entries)
    ensures EachAtMost(names, Most(cfg, last - first))
  {
    var most := Most(cfg, last - first);
    forall service
      ensures multiset(names)[service] <= most
    {
      SpanIsBounded(cfg, entries, service, first, last);
    }
  }

  lemma RunIsBounded(cfg: Config, polls: seq<Poll>)
    requires Valid(cfg) && OnTheClock(polls) && polls != []
    ensures EachAtMost(Recreated(cfg, map[], RunEntries(polls)), Most(cfg, polls[|polls| - 1].now - polls[0].now))
  {
    RunSpans(polls);
    var entries := RunEntries(polls);
    SpanIsBoundedForEach(cfg, entries, Recreated(cfg, map[], entries), polls[0].now, polls[|polls| - 1].now);
  }

  lemma WithinRun(cfg: Config, trace: seq<Obs>, first: nat, last: nat)
    requires Valid(cfg) && first <= last && Within(trace, first, last)
    ensures Restarts(cfg, trace) <= Most(cfg, last - first)
  {
    if trace != [] {
      RestartsAreBounded(cfg, trace);
      MostMono(cfg, trace[|trace| - 1].now - trace[0].now, last - first);
    }
  }

  // ---------------------------------------------------------------- a VM and its sidecar

  ghost predicate UniqueIds(vms: seq<Vm>) {
    forall i, j :: 0 <= i < j < |vms| ==> vms[i].id != vms[j].id
  }

  lemma {:induction false} SeenIs(vms: seq<Vm>, i: nat)
    requires UniqueIds(vms) && i < |vms|
    ensures vms[i].id in Seen(vms) <==> vms[i].reading.Some?
    ensures vms[i].reading.Some? ==> Seen(vms)[vms[i].id] == vms[i].reading.value.health
  {
    var init := vms[..|vms| - 1];
    if i < |init| {
      SeenIs(init, i);
    } else {
      NotSeen(init, vms[i].id);
    }
  }

  lemma {:induction false} NotSeen(vms: seq<Vm>, id: string)
    requires forall i :: 0 <= i < |vms| ==> vms[i].id != id
    ensures id !in Seen(vms)
  {
    if vms != [] {
      NotSeen(vms[..|vms| - 1], id);
    }
  }

  /** A sidecar is judged only when its owner was read as healthy in the same poll, and then
      the poll waits on that owner: it never recreates a VM and, on its own, a sidecar of it. */
  lemma OwnerIsLeftAlone(cfg: Config, states: States, s: Sidecar, vms: seq<Vm>, now: nat)
    requires Valid(cfg) && UniqueIds(vms) && Watched(s, vms)
    ensures var owner := OwnerOf(s.owner, vms).value;
            && owner.reading.Some? && owner.reading.value.health == Healthy
            && forall e :: e in EntryOf(owner.service, owner.reading, now) ==> Judged(cfg, states, e).1 == Wait
  {
    var owner := OwnerOf(s.owner, vms).value;
    var i :| 0 <= i < |vms| && vms[i] == owner;
    SeenIs(vms, i);
  }
}
