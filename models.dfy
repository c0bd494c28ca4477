/**
 * The persistent records: terms-of-service documents, user agreements and the
 * auth users the staff index reads; and the single-active rule that a
 * document's `save` enforces.
 */
module Models {

  type TosId = nat

  type UserId = nat

  /** `created` is the text `%s` renders for the creation timestamp. */
  datatype TermsOfService = TermsOfService(id: TosId, created: string, active: bool, content: string)

  /** An agreement row: this user accepted this terms-of-service record. */
  datatype UserAgreement = UserAgreement(user: UserId, termsOfService: TosId)

  /** The fields of the auth user the core reads. */
  datatype User = User(id: UserId, isStaff: bool, isSuperuser: bool)

  predicate HasSuffix(s: string, suffix: string)
  {
    |suffix| <= |s| && s[|s| - |suffix|..] == suffix
  }

  /** `'%s: %s' % (created, 'active' or 'inactive')` */
  function Unicode(t: TermsOfService): (r: string)
    ensures |r| == |t.created| + if t.active then 8 else 10
    ensures r[..|t.created|] == t.created
    ensures HasSuffix(r, ": active") <==> t.active
    ensures HasSuffix(r, ": inactive") <==> !t.active
  {
    var status := if t.active then "active" else "inactive";
    var r := t.created + ": " + status;
    var n := |r|;
    assert r[n - 8] == (if t.active then ':' else 'i');
    assert r[n - 8..] == (if t.active then ": active" else "inactive");
    assert !t.active ==> r[n - 10..] == ": inactive";
    r
  }

  predicate HasId(rows: seq<TermsOfService>, id: TosId)
  {
    exists i :: 0 <= i < |rows| && rows[i].id == id
  }

  /** Primary keys are unique. */
  predicate UniqueIds(rows: seq<TermsOfService>)
  {
    forall i, j :: 0 <= i < j < |rows| ==> rows[i].id != rows[j].id
  }

  /** `TermsOfService.objects.exclude(id=id).update(active=False)` */
  function DeactivateOthers(rows: seq<TermsOfService>, id: TosId): (r: seq<TermsOfService>)
    ensures |r| == |rows|
    ensures forall i :: 0 <= i < |rows| && rows[i].id == id ==> r[i] == rows[i]
    ensures forall i :: 0 <= i < |rows| && rows[i].id != id ==> r[i] == rows[i].(active := false)
  {
    if rows == [] then []
    else [if rows[0].id == id then rows[0] else rows[0].(active := false)] + DeactivateOthers(rows[1..], id)
  }

  /** Persisting a record by primary key: update the row with its id, or insert it. */
  function Upsert(rows: seq<TermsOfService>, t: TermsOfService): (r: seq<TermsOfService>)
    ensures HasId(rows, t.id) ==> |r| == |rows|
    ensures !HasId(rows, t.id) ==> r == rows + [t]
    ensures forall i :: 0 <= i < |rows| && rows[i].id == t.id ==> r[i] == t
    ensures forall i :: 0 <= i < |rows| && rows[i].id != t.id ==> r[i] == rows[i]
    ensures t in r
  {
    if HasId(rows, t.id) then seq(|rows|, i requires 0 <= i < |rows| => if rows[i].id == t.id then t else rows[i])
    else rows + [t]
  }

  /**
   * `TermsOfService.save`: every other record is made inactive, then the
   * record itself is persisted as given.
   */
  function Saved(rows: seq<TermsOfService>, t: TermsOfService): (r: seq<TermsOfService>)
    ensures |r| == if HasId(rows, t.id) then |rows| else |rows| + 1
    ensures !HasId(rows, t.id) ==> r[|rows|] == t
    ensures forall i :: 0 <= i < |rows| && rows[i].id == t.id ==> r[i] == t
    ensures forall i :: 0 <= i < |rows| && rows[i].id != t.id ==> r[i] == rows[i].(active := false)
    ensures forall i :: 0 <= i < |r| && r[i].active ==> r[i] == t
    ensures t in r
    ensures UniqueIds(rows) ==> UniqueIds(r)
  {
    Upsert(DeactivateOthers(rows, t.id), t)
  }

  /** `TermsOfService.objects.filter(active=True)`, in table order. */
  function ActiveRows(rows: seq<TermsOfService>): (r: seq<TermsOfService>)
    ensures forall x :: x in r ==> x in rows && x.active
    ensures forall x :: x in rows && x.active ==> x in r
    ensures forall x :: multiset(r)[x] == if x.active then multiset(rows)[x] else 0
    ensures |r| <= |rows|
  {
    if rows == [] then []
    else
      assert rows == [rows[0]] + rows[1..];
      (if rows[0].active then [rows[0]] else []) + ActiveRows(rows[1..])
  }

  lemma {:induction false} NoActiveRows(rows: seq<TermsOfService>)
    requires forall i :: 0 <= i < |rows| ==> !rows[i].active
    ensures ActiveRows(rows) == []
  {
    if rows != [] {
      NoActiveRows(rows[1..]);
    }
  }

  lemma {:induction false} ActiveRowsOfSingle(rows: seq<TermsOfService>, k: nat)
    requires k < |rows|
    requires forall i :: 0 <= i < |rows| ==> (rows[i].active <==> i == k)
    ensures ActiveRows(rows) == [rows[k]]
  {
    if k == 0 {
      NoActiveRows(rows[1..]);
    } else {
      ActiveRowsOfSingle(rows[1..], k - 1);
    }
  }

  /**
   * Saving an active record over a table with unique ids leaves it the one
   * and only active record.
   */
  lemma SavedActiveIsOnlyActive(rows: seq<TermsOfService>, t: TermsOfService)
    requires UniqueIds(rows) && t.active
    ensures ActiveRows(Saved(rows, t)) == [t]
  {
    var r := Saved(rows, t);
    var k :| 0 <= k < |r| && r[k] == t;
    forall i | 0 <= i < |r|
      ensures r[i].active <==> i == k
    {
      if r[i].active {
        assert r[i].id == r[k].id;
      }
    }
    ActiveRowsOfSingle(r, k);
  }

  /** The terms-of-service table, with its auto-increment counter. */
  class TosTable {
    var rows: seq<TermsOfService>
    var nextId: TosId

    predicate Valid()
      reads this
    {
      UniqueIds(rows) && forall i :: 0 <= i < |rows| ==> rows[i].id < nextId
    }

    constructor ()
      ensures Valid() && rows == [] && nextId == 1
    {
      rows := [];
      nextId := 1;
    }

    /** `TermsOfService.save()` */
    method Save(t: TermsOfService)
      requires Valid()
      modifies this
      ensures Valid()
      ensures rows == Saved(old(rows), t)
      ensures nextId == if t.id < old(nextId) then old(nextId) else t.id + 1
    {
      rows := DeactivateOthers(rows, t.id);
      rows := Upsert(rows, t);
      if nextId <= t.id {
        nextId := t.id + 1;
      }
      assert forall i :: 0 <= i < |old(rows)| ==> rows[i].id == old(rows)[i].id;
    }

    /** `TermsOfService.objects.create(...)`: a fresh id, then `save`. */
    method Create(created: string, active: bool, content: string) returns (t: TermsOfService)
      requires Valid()
      modifies this
      ensures Valid()
      ensures t == TermsOfService(old(nextId), created, active, content)
      ensures !HasId(old(rows), t.id)
      ensures rows == Saved(old(rows), t)
      ensures nextId == old(nextId) + 1
    {
      t := TermsOfService(nextId, created, active, content);
      Save(t);
    }
  }
}
