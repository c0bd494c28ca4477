/**
 * The generation counter bump wired to every terms-of-service save: `add` the
 * counter at 0 if it is absent, then `incr` it.  A raw (fixture) save skips it.
 */
module SignalHandlers {
  import opened Wrappers
  import opened Keys
  import opened VersionedCache

  /** The counter the bump produces: 1 from an absent counter, v + 1 from v. */
  function NextCounter(e: Entries): int
    requires CounterValid(e)
  {
    if Counter(e).Some? then Counter(e).value + 1 else 1
  }

  /** `cache.add('django:tos:key_version', 0)` followed by `cache.incr('django:tos:key_version')`. */
  function Bumped(e: Entries): (r: Entries)
    requires CounterValid(e)
    ensures CounterValid(r)
    ensures Counter(r) == Some(NextCounter(e))
    ensures r - {CounterSlot} == e - {CounterSlot}
  {
    Incremented(Added(e, CounterSlot, Int(0)), CounterSlot)
  }

  /** The handler's effect for one save. */
  function OnSave(e: Entries, raw: bool): (r: Entries)
    requires CounterValid(e)
    ensures CounterValid(r)
    ensures raw ==> r == e
    ensures !raw ==> Counter(r) == Some(NextCounter(e))
    ensures r - {CounterSlot} == e - {CounterSlot}
  {
    if raw then e else Bumped(e)
  }

  method InvalidateCachedAgreements(cache: Cache, raw: bool)
    requires cache.Valid()
    modifies cache
    ensures cache.Valid()
    ensures cache.entries == OnSave(old(cache.entries), raw)
  {
    if raw {
      return;
    }
    var added := cache.Add(KeyVersionKey, Int(0), None);
    var incremented := cache.Incr(KeyVersionKey, None);
    assert incremented.Ok?;
  }

  /** A run of saves, each raw or not, applied in order. */
  function HandleSaves(e: Entries, raws: seq<bool>): (r: Entries)
    requires CounterValid(e)
    ensures CounterValid(r)
    decreases |raws|
  {
    if raws == [] then e else HandleSaves(OnSave(e, raws[0]), raws[1..])
  }

  function NonRawCount(raws: seq<bool>): nat
  {
    if raws == [] then 0 else (if raws[0] then 0 else 1) + NonRawCount(raws[1..])
  }

  /**
   * Each non-raw save adds exactly one to the counter and raw saves add
   * nothing; the counter stays absent only while no non-raw save happened.
   */
  lemma {:induction false} HandleSavesCounter(e: Entries, raws: seq<bool>)
    requires CounterValid(e)
    ensures Counter(HandleSaves(e, raws)) ==
      if Counter(e).None? && NonRawCount(raws) == 0 then None
      else Some((if Counter(e).Some? then Counter(e).value else 0) + NonRawCount(raws))
    decreases |raws|
  {
    if raws != [] {
      HandleSavesCounter(OnSave(e, raws[0]), raws[1..]);
    }
  }

  /** N non-raw saves from an empty cache leave the counter at N. */
  lemma {:induction false} BumpsFromEmpty(raws: seq<bool>)
    requires forall i :: 0 <= i < |raws| ==> !raws[i]
    ensures Counter(HandleSaves(map[], raws)) == if raws == [] then None else Some(|raws|)
  {
    AllNonRaw(raws);
    HandleSavesCounter(map[], raws);
  }

  lemma {:induction false} AllNonRaw(raws: seq<bool>)
    requires forall i :: 0 <= i < |raws| ==> !raws[i]
    ensures NonRawCount(raws) == |raws|
  {
    if raws != [] {
      AllNonRaw(raws[1..]);
    }
  }

  /** The counter never decreases over any run of saves. */
  lemma HandleSavesMonotone(e: Entries, raws: seq<bool>)
    requires CounterValid(e) && Counter(e).Some?
    ensures Counter(HandleSaves(e, raws)).Some?
    ensures Counter(e).value <= Counter(HandleSaves(e, raws)).value
  {
    HandleSavesCounter(e, raws);
  }

  /** Saves touch no key but the counter. */
  lemma {:induction false} HandleSavesOnlyCounter(e: Entries, raws: seq<bool>)
    requires CounterValid(e)
    ensures HandleSaves(e, raws) - {CounterSlot} == e - {CounterSlot}
    decreases |raws|
  {
    if raws != [] {
      HandleSavesOnlyCounter(OnSave(e, raws[0]), raws[1..]);
    }
  }

  /**
   * Invalidation by abandonment: when the counter exists and the generation
   * invariant holds, a bump moves the current version above every stored
   * derived entry, so every derived lookup at the new version misses.
   */
  lemma BumpHidesDerivedEntries(e: Entries)
    requires CounterValid(e) && Counter(e).Some? && NoDerivedAboveCurrent(e)
    ensures CurrentVersion(Bumped(e)) == CurrentVersion(e) + 1
    ensures NoDerivedAboveCurrent(Bumped(e))
    ensures forall key :: key != KeyVersionKey ==> Lookup(Bumped(e), CurrentVersion(Bumped(e)), key) == None
  {
    var r := Bumped(e);
    forall key | key != KeyVersionKey
      ensures Lookup(r, CurrentVersion(r), key) == None
    {
      assert (CurrentVersion(r), key) !in e;
      assert (CurrentVersion(r), key) != CounterSlot;
    }
  }

  /**
   * Every bump keeps the generation invariant, whether the counter existed
   * (the version rises) or not (it stays at the default version).
   */
  lemma BumpKeepsGeneration(e: Entries)
    requires CounterValid(e) && NoDerivedAboveCurrent(e)
    ensures NoDerivedAboveCurrent(Bumped(e))
  {
  }

  /**
   * The first bump from an absent counter lands on the default version, the
   * very version derived keys were read and written at while the counter was
   * absent: those entries stay visible.
   */
  lemma FirstBumpKeepsDefaultVersion(e: Entries)
    requires CounterValid(e) && Counter(e).None?
    ensures CurrentVersion(e) == DefaultVersion == CurrentVersion(Bumped(e))
    ensures forall key :: key != KeyVersionKey ==>
      Lookup(Bumped(e), CurrentVersion(Bumped(e)), key) == Lookup(e, CurrentVersion(e), key)
  {
    var r := Bumped(e);
    forall key | key != KeyVersionKey
      ensures Lookup(r, CurrentVersion(r), key) == Lookup(e, CurrentVersion(e), key)
    {
      assert (DefaultVersion, key) != CounterSlot;
      assert (DefaultVersion, key) in r <==> (DefaultVersion, key) in e;
    }
  }
}
