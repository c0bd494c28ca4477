/**
 * The cache-maintenance helpers: the boot-time counter initialiser, the
 * unguarded counter bump, the bulk staff-skip index and the per-user sync.
 */
module Utils {
  import opened Wrappers
  import opened Keys
  import opened VersionedCache
  import opened Models
  import SignalHandlers

  /** `not cache.get('django:tos:key_version', False)`: absent, or a falsy counter. */
  predicate CounterFalsy(e: Entries)
  {
    !FoundTruthy(e, DefaultVersion, KeyVersionKey)
  }

  /** `initialize_cache_version` */
  function Initialized(e: Entries): (r: Entries)
    requires CounterValid(e)
    ensures CounterValid(r)
    ensures CounterFalsy(e) ==> Counter(r) == Some(1)
    ensures !CounterFalsy(e) ==> r == e
    ensures r - {CounterSlot} == e - {CounterSlot}
  {
    if CounterFalsy(e) then SignalHandlers.Bumped(e) else e
  }

  /** Initialising never stores a derived entry above the current version. */
  lemma InitializedKeepsGeneration(e: Entries)
    requires CounterValid(e) && NoDerivedAboveCurrent(e)
    ensures NoDerivedAboveCurrent(Initialized(e))
  {
    SignalHandlers.BumpKeepsGeneration(e);
  }

  /** Booting twice is booting once. */
  lemma InitializeIdempotent(e: Entries)
    requires CounterValid(e)
    ensures Initialized(Initialized(e)) == Initialized(e)
  {
  }

  /** This copy of the bump has no `raw` guard: every call adds one. */
  method InvalidateCachedAgreements(cache: Cache)
    requires cache.Valid()
    modifies cache
    ensures cache.Valid()
    ensures cache.entries == SignalHandlers.Bumped(old(cache.entries))
  {
    var added := cache.Add(KeyVersionKey, Int(0), None);
    var incremented := cache.Incr(KeyVersionKey, None);
    assert incremented.Ok?;
  }

  method InitializeCacheVersion(cache: Cache)
    requires cache.Valid()
    modifies cache
    ensures cache.Valid()
    ensures cache.entries == Initialized(old(cache.entries))
  {
    var current := cache.Get(KeyVersionKey, None);
    if !(current.Some? && Truthy(current.value)) {
      InvalidateCachedAgreements(cache);
    }
  }

  /** `cache.get('django:tos:key_version')`, as the `version=` argument. */
  function KeyVersion(current: Option<Value>): (r: Option<Version>)
    ensures current.None? ==> Resolve(r) == DefaultVersion
    ensures current.Some? && current.value.Int? ==> Resolve(r) == current.value.n
  {
    if current.Some? && current.value.Int? then Some(current.value.n) else None
  }

  predicate IsStaffOrSuperuser(u: User)
  {
    u.isStaff || u.isSuperuser
  }

  predicate HasStaffId(users: seq<User>, id: UserId)
  {
    exists u :: u in users && u.id == id && IsStaffOrSuperuser(u)
  }

  /** The mapping handed to `set_many`: one `True` per staff or superuser. */
  function StaffSkipMapping(users: seq<User>): (m: map<string, Value>)
    ensures forall key :: key in m ==> m[key] == Bool(true)
    ensures forall u :: u in users && IsStaffOrSuperuser(u) ==> SkipKey(Decimal(u.id)) in m
    ensures forall key :: key in m ==> exists u :: u in users && IsStaffOrSuperuser(u) && key == SkipKey(Decimal(u.id))
  {
    map u | u in users && IsStaffOrSuperuser(u) :: SkipKey(Decimal(u.id)) := Bool(true)
  }

  /** The staff mapping holds a user's skip key exactly when a staff or superuser has that id. */
  lemma StaffMappingHasId(users: seq<User>, id: UserId)
    ensures SkipKey(Decimal(id)) in StaffSkipMapping(users) <==> HasStaffId(users, id)
  {
    if SkipKey(Decimal(id)) in StaffSkipMapping(users) {
      var u :| u in users && IsStaffOrSuperuser(u) && SkipKey(Decimal(u.id)) == SkipKey(Decimal(id));
      SkipKeyInjective(Decimal(u.id), Decimal(id));
      DecimalInjective(u.id, id);
    }
  }

  /** `add_staff_users_to_tos_cache` */
  function StaffIndexed(e: Entries, users: seq<User>, raw: bool): (r: Entries)
    requires CounterValid(e)
    ensures CounterValid(r)
    ensures raw ==> r == e
    ensures e.Keys <= r.Keys
    ensures Counter(r) == Counter(e)
    ensures forall k :: k in e && (k.0 != CurrentVersion(e) || !IsSkipKey(k.1)) ==> r[k] == e[k]
    ensures forall k :: k in r && k !in e ==> k.0 == CurrentVersion(e) && IsSkipKey(k.1)
  {
    NoSkipKeyIsCounter(users);
    if raw then e else SetManyEntries(e, CurrentVersion(e), StaffSkipMapping(users))
  }

  /**
   * After the bulk index, a user id's skip entry at the current version is
   * `True` exactly for the ids of staff and superusers; every other id's
   * entry is what it was.
   */
  lemma StaffIndexedExactly(e: Entries, users: seq<User>, id: UserId)
    requires CounterValid(e)
    ensures Lookup(StaffIndexed(e, users, false), CurrentVersion(e), SkipKey(Decimal(id))) ==
      if HasStaffId(users, id) then Some(Bool(true)) else Lookup(e, CurrentVersion(e), SkipKey(Decimal(id)))
  {
    StaffMappingHasId(users, id);
    SetManyLookup(e, CurrentVersion(e), StaffSkipMapping(users), CurrentVersion(e), SkipKey(Decimal(id)));
  }

  /** The key starts with `django:tos:skip_tos_check:`. */
  predicate IsSkipKey(key: string)
  {
    |SkipPrefix| <= |key| && key[..|SkipPrefix|] == SkipPrefix
  }

  lemma NoSkipKeyIsCounter(users: seq<User>)
    ensures KeyVersionKey !in StaffSkipMapping(users)
    ensures forall key :: key in StaffSkipMapping(users) ==> IsSkipKey(key)
  {
    forall key | key in StaffSkipMapping(users)
      ensures key != KeyVersionKey && IsSkipKey(key)
    {
      var u :| u in users && IsStaffOrSuperuser(u) && key == SkipKey(Decimal(u.id));
      KeyFamiliesDisjoint(Decimal(u.id), "");
      assert key[..|SkipPrefix|] == SkipPrefix;
    }
  }

  method AddStaffUsersToTosCache(cache: Cache, users: seq<User>, raw: bool)
    requires cache.Valid()
    modifies cache
    ensures cache.Valid()
    ensures cache.entries == StaffIndexed(old(cache.entries), users, raw)
  {
    if raw {
      return;
    }
    var current := cache.Get(KeyVersionKey, None);
    var keyVersion := KeyVersion(current);
    NoSkipKeyIsCounter(users);
    cache.SetMany(StaffSkipMapping(users), keyVersion);
  }

  /**
   * `set_staff_in_cache_for_tos` as written: the demotion guard reads the
   * skip entry at the default version, the delete removes it at key_version.
   */
  function SyncedAsWritten(e: Entries, u: User, raw: bool): (r: Entries)
    requires CounterValid(e)
    ensures CounterValid(r) && Counter(r) == Counter(e)
    ensures raw ==> r == e
    ensures !raw && IsStaffOrSuperuser(u) ==>
      && Lookup(r, CurrentVersion(e), SkipKey(Decimal(u.id))) == Some(Bool(true))
      && r - {(CurrentVersion(e), SkipKey(Decimal(u.id)))} == e - {(CurrentVersion(e), SkipKey(Decimal(u.id)))}
    ensures !raw && !IsStaffOrSuperuser(u) && FoundTruthy(e, DefaultVersion, SkipKey(Decimal(u.id))) ==>
      r == e - {(CurrentVersion(e), SkipKey(Decimal(u.id)))}
    ensures !raw && !IsStaffOrSuperuser(u) && !FoundTruthy(e, DefaultVersion, SkipKey(Decimal(u.id))) ==>
      r == e
  {
    var key := SkipKey(Decimal(u.id));
    KeyFamiliesDisjoint(Decimal(u.id), "");
    if raw then e
    else if IsStaffOrSuperuser(u) then e[(CurrentVersion(e), key) := Bool(true)]
    else if FoundTruthy(e, DefaultVersion, key) then e - {(CurrentVersion(e), key)}
    else e
  }

  /**
   * The sync as intended: the demotion guard and the delete both use
   * key_version.  Afterwards the user's skip entry is truthy at the current
   * version exactly when the user is staff or superuser.
   */
  function Synced(e: Entries, u: User, raw: bool): (r: Entries)
    requires CounterValid(e)
    ensures CounterValid(r) && Counter(r) == Counter(e)
    ensures raw ==> r == e
    ensures !raw ==> (FoundTruthy(r, CurrentVersion(r), SkipKey(Decimal(u.id))) <==> IsStaffOrSuperuser(u))
    ensures r - {(CurrentVersion(e), SkipKey(Decimal(u.id)))} == e - {(CurrentVersion(e), SkipKey(Decimal(u.id)))}
  {
    var key := SkipKey(Decimal(u.id));
    KeyFamiliesDisjoint(Decimal(u.id), "");
    if raw then e
    else if IsStaffOrSuperuser(u) then e[(CurrentVersion(e), key) := Bool(true)]
    else if FoundTruthy(e, CurrentVersion(e), key) then e - {(CurrentVersion(e), key)}
    else e
  }

  method SetStaffInCacheForTos(cache: Cache, instance: User, raw: bool)
    requires cache.Valid()
    modifies cache
    ensures cache.Valid()
    ensures cache.entries == SyncedAsWritten(old(cache.entries), instance, raw)
  {
    if raw {
      return;
    }
    var current := cache.Get(KeyVersionKey, None);
    var keyVersion := KeyVersion(current);
    var key := SkipKey(Decimal(instance.id));
    KeyFamiliesDisjoint(Decimal(instance.id), "");
    if IsStaffOrSuperuser(instance) {
      cache.Set(key, Bool(true), keyVersion);
    } else {
      var found := cache.Get(key, None);
      if found.Some? && Truthy(found.value) {
        cache.Delete(key, keyVersion);
      }
    }
  }

  /** The corrected sync: the demotion guard reads at key_version too. */
  method SetStaffInCacheForTosCorrected(cache: Cache, instance: User, raw: bool)
    requires cache.Valid()
    modifies cache
    ensures cache.Valid()
    ensures cache.entries == Synced(old(cache.entries), instance, raw)
  {
    if raw {
      return;
    }
    var current := cache.Get(KeyVersionKey, None);
    var keyVersion := KeyVersion(current);
    var key := SkipKey(Decimal(instance.id));
    KeyFamiliesDisjoint(Decimal(instance.id), "");
    if IsStaffOrSuperuser(instance) {
      cache.Set(key, Bool(true), keyVersion);
    } else {
      var found := cache.Get(key, keyVersion);
      if found.Some? && Truthy(found.value) {
        cache.Delete(key, keyVersion);
      }
    }
  }

  /**
   * The as-written sync does not remove a demoted user's bypass once the
   * counter has moved past the default version: with key_version 2 and a
   * skip entry for user 7 at version 2, syncing non-staff user 7 leaves it.
   */
  lemma DemotedUserKeepsSkipEntry()
    ensures var e := map[CounterSlot := Int(2), (2, SkipKey(Decimal(7))) := Bool(true)];
      var u := User(7, false, false);
      && CounterValid(e)
      && !IsStaffOrSuperuser(u)
      && FoundTruthy(SyncedAsWritten(e, u, false), CurrentVersion(e), SkipKey(Decimal(u.id)))
  {
    var e := map[CounterSlot := Int(2), (2, SkipKey(Decimal(7))) := Bool(true)];
    KeyFamiliesDisjoint(Decimal(7), "");
    assert CurrentVersion(e) == 2;
    assert !FoundTruthy(e, DefaultVersion, SkipKey(Decimal(7)));
  }

  /** Both syncs coincide while the current version is the default one. */
  lemma SyncsAgreeAtDefaultVersion(e: Entries, u: User, raw: bool)
    requires CounterValid(e) && CurrentVersion(e) == DefaultVersion
    ensures SyncedAsWritten(e, u, raw) == Synced(e, u, raw)
  {
  }

  /** The staff index and both syncs keep the generation invariant. */
  lemma StaffWritesKeepGeneration(e: Entries, users: seq<User>, u: User, raw: bool)
    requires CounterValid(e) && NoDerivedAboveCurrent(e)
    ensures NoDerivedAboveCurrent(StaffIndexed(e, users, raw))
    ensures NoDerivedAboveCurrent(SyncedAsWritten(e, u, raw))
    ensures NoDerivedAboveCurrent(Synced(e, u, raw))
  {
  }
}
