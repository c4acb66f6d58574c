/**
 * The single process-wide device-helper slot (`DeployProvider.Meadow`), shared by the deploy
 * provider and the debug launch provider.
 *
 * A device helper (`MeadowDeviceHelper`) is identified by its creation number: helpers
 * 0 .. created-1 have been created so far. The slot holds at most one of them (a null slot
 * is `None`), and `disposed` records every helper whose `Dispose` has been called. Disposing
 * does not clear the slot: a disposed helper stays in it until a new helper replaces it.
 */
module DeviceSlot {
  import opened Common
  import opened DeviceCalls

  /** The helper a slot holds, as a set (empty for a null slot). */
  function Held(slot: Option<HelperId>): (s: set<HelperId>)
    ensures forall h :: h in s <==> slot == Some(h)
  {
    if slot.Some? then {slot.value} else {}
  }

  /** The `Dispose` call that `Meadow?.Dispose()` makes on a slot. */
  function DisposeCalls(slot: Option<HelperId>): (calls: seq<ExternalCall>)
    ensures slot.None? <==> calls == []
    ensures forall c :: c in calls ==> c == DisposeHelper(slot.value)
  {
    if slot.Some? then [DisposeHelper(slot.value)] else []
  }

  /** The helpers created so far that have not been disposed. */
  ghost function LiveHelpers(disposed: set<HelperId>, created: nat): set<HelperId>
  {
    set h: HelperId | h < created && h !in disposed
  }

  /**
   * The exclusivity invariant: the slot and the disposed set only ever hold helpers that were
   * created, and every created helper that is not in the slot has been disposed.
   */
  ghost predicate Exclusive(slot: Option<HelperId>, disposed: set<HelperId>, created: nat)
  {
    (slot.Some? ==> slot.value < created) &&
    (forall h :: h in disposed ==> h < created) &&
    (forall h: HelperId :: h < created && h !in disposed ==> slot == Some(h))
  }

  /** Under the invariant at most one helper is live, and it is the one in the slot. */
  lemma ExclusiveAtMostOneLive(slot: Option<HelperId>, disposed: set<HelperId>, created: nat)
    requires Exclusive(slot, disposed, created)
    ensures LiveHelpers(disposed, created) <= Held(slot)
    ensures |LiveHelpers(disposed, created)| <= 1
  {
    var live := LiveHelpers(disposed, created);
    assert live <= Held(slot);
    SubsetCardinality(live, Held(slot));
  }

  lemma {:induction false} SubsetCardinality(a: set<HelperId>, b: set<HelperId>)
    requires a <= b
    ensures |a| <= |b|
  {
    if a != {} {
      var x :| x in a;
      SubsetCardinality(a - {x}, b - {x});
    }
  }

  /** Disposing the helper in the slot keeps the invariant and leaves no helper live. */
  lemma DisposeKeepsExclusive(slot: Option<HelperId>, disposed: set<HelperId>, created: nat)
    requires Exclusive(slot, disposed, created)
    ensures Exclusive(slot, disposed + Held(slot), created)
    ensures LiveHelpers(disposed + Held(slot), created) == {}
  {
  }

  /**
   * Installing a new helper keeps the invariant provided the helper it replaces was already
   * disposed; the new helper is then the only live one.
   */
  lemma InstallKeepsExclusive(slot: Option<HelperId>, disposed: set<HelperId>, created: nat)
    requires Exclusive(slot, disposed, created)
    requires slot.None? || slot.value in disposed
    ensures Exclusive(Some(created), disposed, created + 1)
    ensures LiveHelpers(disposed, created + 1) == {created}
  {
    assert created in LiveHelpers(disposed, created + 1);
  }

  /** The static slot itself. */
  class HelperSlot {
    var current: Option<HelperId>
    var disposed: set<HelperId>
    var created: nat

    ghost predicate Valid()
      reads this
    {
      Exclusive(current, disposed, created)
    }

    ghost function Live(): set<HelperId>
      reads this
    {
      LiveHelpers(disposed, created)
    }

    /** The slot still points at a helper that has been disposed. */
    ghost predicate Stale()
      reads this
    {
      current.Some? && current.value in disposed
    }

    constructor ()
      ensures Valid() && Live() == {}
      ensures current == None && disposed == {} && created == 0
    {
      current := None;
      disposed := {};
      created := 0;
    }

    /** `Meadow?.Dispose()`: disposes the helper in the slot, if any, and leaves it in the slot. */
    method DisposeCurrent() returns (calls: seq<ExternalCall>)
      requires Valid()
      modifies this`disposed
      ensures Valid() && Live() == {}
      ensures current == old(current) && created == old(created)
      ensures disposed == old(disposed) + Held(current)
      ensures current.Some? ==> Stale()
      ensures calls == DisposeCalls(current)
    {
      DisposeKeepsExclusive(current, disposed, created);
      disposed := disposed + Held(current);
      calls := DisposeCalls(current);
    }

    /**
     * `Meadow = new MeadowDeviceHelper(device, logger)`: creates a helper and stores it in
     * the slot. The helper it overwrites must have been disposed first.
     */
    method Install() returns (h: HelperId, calls: seq<ExternalCall>)
      requires Valid()
      requires current.None? || current.value in disposed
      modifies this`current, this`created
      ensures Valid() && Live() == {h}
      ensures h == old(created) && current == Some(h)
      ensures created == old(created) + 1 && disposed == old(disposed)
      ensures calls == [CreateHelper(h)]
    {
      InstallKeepsExclusive(current, disposed, created);
      h := created;
      current := Some(h);
      created := created + 1;
      calls := [CreateHelper(h)];
    }
  }
}
