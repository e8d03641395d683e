/** One reconcile establishes the desired state, and a second one with the same profiles and clock changes nothing. */
module SupervisorReconcile {
  import opened Wrappers
  import opened SupervisorModel
  import opened SupervisorSafety

  predicate DistinctNames(ps: seq<Profile>) {
    forall i, j :: 0 <= i < j < |ps| ==> ps[i].name != ps[j].name
  }

  /** Reconciling this profile again would change nothing. */
  predicate Settled(s: State, p: Profile, now: int) {
    && p.name in s.slots && s.slots[p.name].profile == p
    && SettledSlot(s.slots[p.name], s.shuttingDown, now)
  }

  predicate SettledSlot(sl: Slot, shuttingDown: bool, now: int) {
    && !(sl.state.Starting? && sl.child.Some? && sl.startedAt.Some? && now - sl.startedAt.value >= RUNNING_AFTER_MS)
    && !Starts(sl, shuttingDown, now)
    && (!sl.profile.enabled ==> if sl.child.Some? then sl.draining else sl.state.Stopped?)
  }

  /** The desired state, as the program's documentation promises it. */
  predicate Desired(s: State, ps: seq<Profile>, now: int) {
    && (forall i :: 0 <= i < |ps| ==> ps[i].name in s.slots && DesiredSlot(s.slots[ps[i].name], ps[i], s.shuttingDown, now))
    && (forall n :: n in s.slots && n !in NamesOf(ps) ==> s.slots[n].child.Some? && s.slots[n].draining)
  }

  predicate DesiredSlot(sl: Slot, p: Profile, shuttingDown: bool, now: int) {
    && sl.profile == p
    && (p.enabled && !shuttingDown && !BackingOff(sl, now) ==> sl.child.Some?)
    && (!p.enabled ==> sl.child.None? || sl.draining)
  }

  // ------------------------------------------------------------------ one profile

  lemma SettleSlotSettles(sl: Slot, shuttingDown: bool, stopTimeoutMs: int, now: int)
    requires SlotOk(sl.profile.name, sl) && !Starts(sl, shuttingDown, now)
    requires !(sl.state.Starting? && sl.child.Some? && sl.startedAt.Some? && now - sl.startedAt.value >= RUNNING_AFTER_MS)
    ensures SettledSlot(SettleSlot(sl, stopTimeoutMs, now), shuttingDown, now)
    ensures SettleSlot(sl, stopTimeoutMs, now).profile == sl.profile
  {
  }

  lemma SpawnSettles(sl: Slot, proc: Proc, now: int)
    requires sl.profile.enabled
    ensures SettledSlot(SpawnSlot(sl, proc, now), false, now) && SpawnSlot(sl, proc, now).profile == sl.profile
  {
  }

  lemma RefreshedSettled(sl: Slot, p: Profile, now: int)
    requires SlotOk(p.name, sl)
    ensures var r := Refreshed(sl, p, now);
      !(r.state.Starting? && r.child.Some? && r.startedAt.Some? && now - r.startedAt.value >= RUNNING_AFTER_MS)
  {
  }

  predicate SameExcept(s: State, t: State, name: Name) {
    && t.shuttingDown == s.shuttingDown
    && t.slots.Keys == s.slots.Keys + {name}
    && forall n :: n in s.slots && n != name ==> t.slots[n] == s.slots[n]
  }

  lemma SettledCarries(s: State, t: State, p: Profile, name: Name, now: int)
    requires Settled(s, p, now) && SameExcept(s, t, name) && p.name != name
    ensures Settled(t, p, now)
  {
    hide SettledSlot;
  }

  lemma ReplacedSettles(s: State, e: State, t: State, sl: Slot, p: Profile, now: int)
    requires SameExcept(s, e, p.name) && t.slots == e.slots[p.name := sl] && t.shuttingDown == e.shuttingDown
    requires sl.profile == p && SettledSlot(sl, s.shuttingDown, now)
    ensures Settled(t, p, now) && SameExcept(s, t, p.name)
  {
    hide SettledSlot;
  }

  lemma EnsuredOnlyAdds(s: State, p: Profile)
    ensures SameExcept(s, Ensured(s, p), p.name)
  {
    hide NewSlot;
  }

  /** What a reconcile of p does to the table: the slot of p is settled and no other slot changes. */
  lemma ReconcileOneSettles(s: State, p: Profile, now: int)
    requires Inv(s)
    ensures Settled(ReconcileOne(s, p, now), p, now) && SameExcept(s, ReconcileOne(s, p, now), p.name)
  {
    EnsuredKeepsInv(s, p);
    var e := Ensured(s, p);
    EnsuredOnlyAdds(s, p);
    SlotOfName(e, p.name);
    RefreshedOk(e.slots[p.name], p, now);
    RefreshedSettled(e.slots[p.name], p, now);
    var sl := Refreshed(e.slots[p.name], p, now);
    if Starts(sl, s.shuttingDown, now) {
      SpawnSettles(sl, e.os.next, now);
      hide Inv, SlotOk, Ensured, Refreshed, SettledSlot, SpawnSlot, SameExcept, Settled;
      ReplacedSettles(s, e, Spawn(e, sl, now), SpawnSlot(sl, e.os.next, now), p, now);
    } else {
      SettleSlotSettles(sl, s.shuttingDown, s.cfg.stopTimeoutMs, now);
      hide Inv, SlotOk, Ensured, Refreshed, SettledSlot, SettleSlot, SettleSignals, SameExcept, Settled;
      ReplacedSettles(s, e, ReconcileOne(s, p, now), SettleSlot(sl, s.cfg.stopTimeoutMs, now), p, now);
    }
  }

  lemma SettledSlotIsFixed(sl: Slot, shuttingDown: bool, stopTimeoutMs: int, now: int)
    requires SettledSlot(sl, shuttingDown, now)
    ensures Refreshed(sl, sl.profile, now) == sl && !Starts(sl, shuttingDown, now)
    ensures SettleSlot(sl, stopTimeoutMs, now) == sl && SettleSignals(sl, now) == {}
  {
  }

  lemma SettledIsFixed(s: State, p: Profile, now: int)
    requires Settled(s, p, now)
    ensures ReconcileOne(s, p, now) == s
  {
    var sl := s.slots[p.name];
    SettledSlotIsFixed(sl, s.shuttingDown, s.cfg.stopTimeoutMs, now);
    hide SettledSlot, Refreshed, SettleSlot, SettleSignals, Starts;
    assert s.slots[p.name := sl] == s.slots;
    assert s.os.signals + {} == s.os.signals;
  }

  // ------------------------------------------------------------------ the list

  ghost predicate AllSettled(s: State, ps: seq<Profile>, now: int) {
    forall i :: 0 <= i < |ps| ==> Settled(s, ps[i], now)
  }

  lemma OneMoreSettled(m: State, ps: seq<Profile>, now: int)
    requires ps != [] && DistinctNames(ps) && Inv(m) && AllSettled(m, ps[..|ps| - 1], now)
    ensures AllSettled(ReconcileOne(m, ps[|ps| - 1], now), ps, now)
  {
    var k := |ps| - 1;
    ReconcileOneSettles(m, ps[k], now);
    hide Inv, ReconcileOne, Settled, SameExcept;
    forall i | 0 <= i < |ps| ensures Settled(ReconcileOne(m, ps[k], now), ps[i], now) {
      if i < k {
        assert ps[..k][i] == ps[i];
        SettledCarries(m, ReconcileOne(m, ps[k], now), ps[i], ps[k].name, now);
      }
    }
  }

  lemma {:induction false} ListSettles(s: State, ps: seq<Profile>, now: int)
    requires Inv(s) && DistinctNames(ps)
    ensures AllSettled(ReconcileList(s, ps, now), ps, now)
  {
    hide Inv, ReconcileOne, AllSettled;
    if ps == [] {
      NothingToSettle(ReconcileList(s, ps, now), now);
    } else {
      ListSettles(s, ps[..|ps| - 1], now);
      ReconcileListKeepsInv(s, ps[..|ps| - 1], now);
      OneMoreSettled(ReconcileList(s, ps[..|ps| - 1], now), ps, now);
    }
  }

  lemma NothingToSettle(s: State, now: int)
    ensures AllSettled(s, [], now)
  {
  }

  lemma {:induction false} SettledListIsFixed(s: State, ps: seq<Profile>, now: int)
    requires forall i :: 0 <= i < |ps| ==> Settled(s, ps[i], now)
    ensures ReconcileList(s, ps, now) == s
  {
    hide Settled, ReconcileOne;
    if ps != [] {
      SettledListIsFixed(s, ps[..|ps| - 1], now);
      SettledIsFixed(s, ps[|ps| - 1], now);
    }
  }

  // ------------------------------------------------------------------ the sweep

  lemma SweepSettles(s: State, seen: set<Name>, now: int)
    requires SlotsOk(s)
    ensures var t := Sweep(s, seen, now);
      && t.shuttingDown == s.shuttingDown
      && (forall n :: n in t.slots && n !in seen ==> t.slots[n].child.Some? && t.slots[n].draining)
      && (forall n :: n in s.slots && n in seen ==> n in t.slots && t.slots[n] == s.slots[n])
  {
    var t := Sweep(s, seen, now);
    forall n | n in t.slots && n !in seen ensures t.slots[n].child.Some? && t.slots[n].draining {
      BeginDrainOk(n, s.slots[n], Safe, s.cfg.stopTimeoutMs, now);
    }
  }

  lemma SweptIsFixed(s: State, seen: set<Name>, now: int)
    requires forall n :: n in s.slots && n !in seen ==> s.slots[n].child.Some? && s.slots[n].draining
    ensures Sweep(s, seen, now) == s
  {
    hide BeginDrain, DrainSignals;
    assert Unseen(s, seen) == {};
    var d := DrainNames(s, {}, Safe, s.cfg.stopTimeoutMs, now);
    assert d.slots == s.slots;
    assert AllDrainSignals(s.slots, {}, Safe, now) == {};
    assert s.os.signals + {} == s.os.signals;
    assert Sweep(s, seen, now).slots == s.slots;
  }

  // ------------------------------------------------------------------ the theorems

  lemma ReconcileSettles(s: State, ps: seq<Profile>, now: int)
    requires Inv(s) && DistinctNames(ps)
    ensures var t := Reconcile(s, ps, now);
      && t.shuttingDown == s.shuttingDown
      && (forall i :: 0 <= i < |ps| ==> Settled(t, ps[i], now))
      && (forall n :: n in t.slots && n !in NamesOf(ps) ==> t.slots[n].child.Some? && t.slots[n].draining)
  {
    ListSettles(s, ps, now);
    ReconcileListKeepsInv(s, ps, now);
    var m := ReconcileList(s, ps, now);
    assert SlotsOk(m) && m.shuttingDown == s.shuttingDown;
    hide Inv, SlotsOk, SettledSlot, Sweep, ReconcileList;
    SweepSettles(m, NamesOf(ps), now);
    forall i | 0 <= i < |ps| ensures Settled(Reconcile(s, ps, now), ps[i], now) {
      assert ps[i].name in NamesOf(ps);
    }
  }

  /** For any list of profiles with distinct names, in any state a run can reach, one reconcile gives the desired state. */
  lemma ReconcileEstablishesDesired(s: State, ps: seq<Profile>, now: int)
    requires Inv(s) && DistinctNames(ps)
    ensures Desired(Reconcile(s, ps, now), ps, now)
  {
    hide Inv, Reconcile, BackingOff;
    ReconcileSettles(s, ps, now);
  }

  lemma ReconcileIdempotent(s: State, ps: seq<Profile>, now: int)
    requires Inv(s) && DistinctNames(ps)
    ensures Reconcile(Reconcile(s, ps, now), ps, now) == Reconcile(s, ps, now)
  {
    ReconcileSettles(s, ps, now);
    var t := Reconcile(s, ps, now);
    hide Inv, ReconcileList, Sweep, Settled, NamesOf;
    SettledListIsFixed(t, ps, now);
    SweptIsFixed(t, NamesOf(ps), now);
  }
}
