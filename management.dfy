/**
 * The bootstrap run after the database is synchronised: if no terms of
 * service are active, create a blank active one.
 */
module Management {
  import opened Models

  const BlankContent: string := "blank terms of service"

  /**
   * `TermsOfService.objects.get(active=True)` finds the one active record,
   * finds none (the handled `DoesNotExist`, answered by creating one), or
   * finds several (`MultipleObjectsReturned`, which propagates).
   */
  datatype SyncOutcome =
    | AlreadyActive(existing: TermsOfService)
    | CreatedDefault(created: TermsOfService)
    | MultipleObjectsReturned

  /** The record the bootstrap creates, with the table's next id. */
  function DefaultTos(id: TosId, created: string): TermsOfService
  {
    TermsOfService(id, created, true, BlankContent)
  }

  /**
   * `create_default_tos_on_sync`.  The creation timestamp is supplied by the
   * caller (the clock is not modelled).
   */
  method CreateDefaultTosOnSync(table: TosTable, created: string) returns (r: SyncOutcome)
    requires table.Valid()
    modifies table
    ensures table.Valid()
    ensures |ActiveRows(old(table.rows))| == 1 ==>
      r == AlreadyActive(ActiveRows(old(table.rows))[0]) && table.rows == old(table.rows) && table.nextId == old(table.nextId)
    ensures |ActiveRows(old(table.rows))| == 0 ==>
      && r == CreatedDefault(DefaultTos(old(table.nextId), created))
      && table.rows == Saved(old(table.rows), r.created)
      && table.nextId == old(table.nextId) + 1
    ensures |ActiveRows(old(table.rows))| >= 2 ==>
      r == MultipleObjectsReturned && table.rows == old(table.rows) && table.nextId == old(table.nextId)
    // whichever way it goes, an active record exists afterwards
    ensures |ActiveRows(table.rows)| >= 1
  {
    var active := ActiveRows(table.rows);
    if |active| == 1 {
      return AlreadyActive(active[0]);
    } else if |active| == 0 {
      BootstrapCreatesSoleActive(table.rows, table.nextId, created);
      var t := table.Create(created, true, BlankContent);
      return CreatedDefault(t);
    } else {
      return MultipleObjectsReturned;
    }
  }

  lemma NoneActive(rows: seq<TermsOfService>)
    requires ActiveRows(rows) == []
    ensures forall i :: 0 <= i < |rows| ==> !rows[i].active
  {
    forall i | 0 <= i < |rows|
      ensures !rows[i].active
    {
      assert rows[i] in rows;
    }
  }

  /** Saving a record with a fresh id over inactive rows only appends it. */
  lemma SavedFreshOntoInactive(rows: seq<TermsOfService>, t: TermsOfService)
    requires !HasId(rows, t.id)
    requires forall i :: 0 <= i < |rows| ==> !rows[i].active
    ensures Saved(rows, t) == rows + [t]
  {
    var r := Saved(rows, t);
    assert forall i :: 0 <= i < |rows| ==> r[i] == rows[i];
  }

  /**
   * With no active record, the bootstrap's record is appended and becomes the
   * one and only active record: the table grows by exactly one, nothing else
   * turns active, and afterwards an active record exists.
   */
  lemma BootstrapCreatesSoleActive(rows: seq<TermsOfService>, nextId: TosId, created: string)
    requires UniqueIds(rows) && forall i :: 0 <= i < |rows| ==> rows[i].id < nextId
    requires ActiveRows(rows) == []
    ensures Saved(rows, DefaultTos(nextId, created)) == rows + [DefaultTos(nextId, created)]
    ensures ActiveRows(Saved(rows, DefaultTos(nextId, created))) == [DefaultTos(nextId, created)]
  {
    assert !HasId(rows, nextId);
    NoneActive(rows);
    SavedFreshOntoInactive(rows, DefaultTos(nextId, created));
    SavedActiveIsOnlyActive(rows, DefaultTos(nextId, created));
  }
}
