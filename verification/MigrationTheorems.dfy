/**
 What the migrations achieve: from every valid older database they complete, keep every row on its old
 columns, and end in a valid database of the current version; and interrupting them anywhere, any number
 of times, makes no difference to the end result.
 */
module MigrationTheorems {
  import opened Common
  import opened ResumableChain
  import opened Migration

  // ---- Valid databases -------------------------------------------------------------------------

  ghost predicate Holds(db: Db, name: TableName, shape: Shape) {
    name in db.tables && db.tables[name].shape == shape && RowsFit(db.tables[name])
  }

  /** Tables and indexes that are none of the product's stay out of its way. */
  ghost predicate OthersApart(db: Db) {
    && (forall t :: t in db.tables && t.Elsewhere? ==>
          db.tables[t].shape.references.None? || db.tables[t].shape.references.value.Elsewhere?)
    && (forall i :: i in db.indexes && i.OtherIndex? ==> db.indexes[i].Elsewhere?)
  }

  ghost predicate NoTemporaries(db: Db) {
    DeviceIdentityV2 !in db.tables && DetectionEventV4 !in db.tables && DetectionEventV6 !in db.tables && SnapshotOutboxV6 !in db.tables
  }

  ghost predicate EventsAt(db: Db, v: nat) {
    if v < 3 then DetectionEvent !in db.tables && EventIndex !in db.indexes
    else Holds(db, DetectionEvent, EventShape(v)) && EventIndex in db.indexes && db.indexes[EventIndex] == DetectionEvent
  }

  /** Every snapshot row belongs to a stored event. */
  ghost predicate OutboxAt(db: Db, v: nat) {
    if v < 5 then SnapshotOutbox !in db.tables && OutboxIndex !in db.indexes
    else
      && Holds(db, SnapshotOutbox, OutboxShape(v)) && OutboxIndex in db.indexes && db.indexes[OutboxIndex] == SnapshotOutbox
      && DetectionEvent in db.tables && db.tables[SnapshotOutbox].rows.Keys <= db.tables[DetectionEvent].rows.Keys
  }

  ghost predicate IdentityAt(db: Db, v: nat) {
    if v == 0 then DeviceIdentity !in db.tables && ConfigCache !in db.tables
    else Holds(db, DeviceIdentity, IdentityShape(v)) && Holds(db, ConfigCache, ConfigShape())
  }

  ghost predicate Valid(db: Db, v: nat) {
    && v <= CURRENT_VERSION
    && db.versions == (if v == 0 then None else Some([Integer(v)]))
    && NoTemporaries(db) && OthersApart(db)
    && IdentityAt(db, v) && EventsAt(db, v) && OutboxAt(db, v)
  }

  // ---- One migration, as it should come out ----------------------------------------------------

  function Rebuilt(db: Db, name: TableName, shape: Shape, carried: set<Column>, added: Row): Db
    requires name in db.tables
  {
    db.(tables := db.tables[name := Table(shape, CarryAll(db.tables[name].rows, carried, added))],
        indexes := map i | i in db.indexes && db.indexes[i] != name :: db.indexes[i])
  }

  function Indexed(db: Db, index: IndexName, on: TableName): Db {
    db.(indexes := db.indexes[index := on])
  }

  function Versioned(db: Db, v: nat): Db {
    db.(versions := Some([Integer(v)]))
  }

  ghost function Upgrade(db: Db, v: nat): Db
    requires Valid(db, v) && v < CURRENT_VERSION
  {
    match v
    case 0 =>
      Versioned(db.(tables := db.tables[DeviceIdentity := Table(IdentityShape(1), map[])][ConfigCache := Table(ConfigShape(), map[])]), 1)
    case 1 =>
      Versioned(Rebuilt(db, DeviceIdentity, IdentityShape(2), IDENTITY_V1, map[OperationalState := Text("Operational")]), 2)
    case 2 => Versioned(Indexed(db.(tables := db.tables[DetectionEvent := Table(EventShape(3), map[])]), EventIndex, DetectionEvent), 3)
    case 3 =>
      Versioned(Indexed(Rebuilt(db, DetectionEvent, EventShape(4), EVENT_V3, map[DeliveredAtUtc := Null]), EventIndex, DetectionEvent), 4)
    case 4 => Versioned(Indexed(db.(tables := db.tables[SnapshotOutbox := Table(OutboxShape(5), map[])]), OutboxIndex, SnapshotOutbox), 5)
    case _ =>
      var events := Indexed(Rebuilt(db, DetectionEvent, EventShape(6), EVENT_V3 + {DeliveredAtUtc}, map[FinalizedAtUtc := Null]),
                            EventIndex, DetectionEvent);
      Versioned(Indexed(Rebuilt(events, SnapshotOutbox, OutboxShape(6), OUTBOX_COLUMNS, map[]), OutboxIndex, SnapshotOutbox), 6)
  }

  // ---- Executing statements --------------------------------------------------------------------

  lemma {:induction false} WorkAppend(db: Db, a: seq<Statement>, b: seq<Statement>, fk: bool)
    requires Work(db, a, fk, None).Ok?
    ensures Work(db, a + b, fk, None) == Work(Work(db, a, fk, None).value, b, fk, None)
    decreases |a|
  {
    if a == [] {
      assert a + b == b;
    } else {
      assert (a + b)[0] == a[0] && (a + b)[1..] == a[1..] + b;
      WorkAppend(Exec(db, a[0], fk).value, a[1..], b, fk);
    }
  }

  lemma WorkOne(db: Db, s: Statement, fk: bool)
    requires Exec(db, s, fk).Ok?
    ensures Work(db, [s], fk, None) == Ok(Exec(db, s, fk).value)
  {
    assert [s][1..] == [];
  }

  lemma WorkTwo(db: Db, s: Statement, t: Statement, fk: bool)
    requires Exec(db, s, fk).Ok? && Exec(Exec(db, s, fk).value, t, fk).Ok?
    ensures Work(db, [s, t], fk, None) == Ok(Exec(Exec(db, s, fk).value, t, fk).value)
  {
    WorkOne(db, s, fk);
    WorkOne(Exec(db, s, fk).value, t, fk);
    WorkAppend(db, [s], [t], fk);
    assert [s] + [t] == [s, t];
  }

  ghost predicate CanRebuild(db: Db, name: TableName, temporary: TableName, shape: Shape, carried: set<Column>, added: Row, fk: bool) {
    && name in db.tables && temporary !in db.tables && name != temporary
    && (forall k :: k in db.tables[name].rows ==> Fits(k, Carry(db.tables[name].rows[k], carried, added), shape))
    && (fk ==> shape.references != Some(name) && !Referenced(db, name))
    && (fk && shape.references.Some? ==> shape.references.value in db.tables && db.tables[name].rows == map[])
    && shape.references != Some(temporary)
    && (forall t :: t in db.tables ==> db.tables[t].shape.references != Some(temporary))
    && (forall i :: i in db.indexes ==> db.indexes[i] != temporary)
  }

  /** Create, copy, drop, rename: the table is replaced by its widened copy and nothing else changes,
      except that the old table's indexes are gone. */
  lemma RebuildWorks(db: Db, name: TableName, temporary: TableName, shape: Shape, carried: set<Column>, added: Row, fk: bool)
    requires CanRebuild(db, name, temporary, shape, carried, added, fk)
    ensures Work(db, Rebuild(name, temporary, shape, carried, added), fk, None) == Ok(Rebuilt(db, name, shape, carried, added))
  {
    var copied := CarryAll(db.tables[name].rows, carried, added);
    var created := db.(tables := db.tables[temporary := Table(shape, map[])]);
    var filled := db.(tables := db.tables[temporary := Table(shape, copied)]);
    CopyWorks(db, name, temporary, shape, carried, added, fk);
    WorkTwo(db, CreateTable(temporary, shape, false), CopyInto(temporary, name, carried, added), fk);
    SwapWorks(db, name, temporary, Table(shape, copied), fk);
    WorkTwo(filled, DropTable(name), RenameTable(temporary, name), fk);
    var first, second := [CreateTable(temporary, shape, false), CopyInto(temporary, name, carried, added)], [DropTable(name), RenameTable(temporary, name)];
    WorkAppend(db, first, second, fk);
    assert first + second == Rebuild(name, temporary, shape, carried, added);
  }

  lemma CopyWorks(db: Db, name: TableName, temporary: TableName, shape: Shape, carried: set<Column>, added: Row, fk: bool)
    requires CanRebuild(db, name, temporary, shape, carried, added, fk)
    ensures var created := db.(tables := db.tables[temporary := Table(shape, map[])]);
            && Exec(db, CreateTable(temporary, shape, false), fk) == Ok(created)
            && Exec(created, CopyInto(temporary, name, carried, added), fk)
                 == Ok(db.(tables := db.tables[temporary := Table(shape, CarryAll(db.tables[name].rows, carried, added))]))
  {
    var created := db.(tables := db.tables[temporary := Table(shape, map[])]);
    CopyExec(created, name, temporary, carried, added, fk);
    UpdateTwice(db.tables, temporary, Table(shape, map[]), Table(shape, CarryAll(db.tables[name].rows, carried, added)));
  }

  lemma UpdateTwice(tables: map<TableName, Table>, name: TableName, first: Table, second: Table)
    ensures tables[name := first][name := second] == tables[name := second]
  {
  }

  /** Copying into an empty table whose constraints the carried rows meet. */
  lemma CopyExec(db: Db, source: TableName, target: TableName, carried: set<Column>, added: Row, fk: bool)
    requires source in db.tables && target in db.tables && source != target && db.tables[target].rows == map[]
    requires forall k :: k in db.tables[source].rows ==> Fits(k, Carry(db.tables[source].rows[k], carried, added), db.tables[target].shape)
    requires fk && db.tables[target].shape.references.Some? ==>
               db.tables[target].shape.references.value in db.tables && db.tables[source].rows == map[]
    ensures Exec(db, CopyInto(target, source, carried, added), fk)
         == Ok(db.(tables := db.tables[target := Table(db.tables[target].shape, CarryAll(db.tables[source].rows, carried, added))]))
  {
    var copied := CarryAll(db.tables[source].rows, carried, added);
    assert db.tables[target].rows + copied == copied;
    assert RowsFit(Table(db.tables[target].shape, copied));
  }

  lemma SwapWorks(db: Db, name: TableName, temporary: TableName, t: Table, fk: bool)
    requires name in db.tables && temporary !in db.tables && name != temporary
    requires fk ==> t.shape.references != Some(name) && !Referenced(db, name)
    requires t.shape.references != Some(temporary)
    requires forall u :: u in db.tables ==> db.tables[u].shape.references != Some(temporary)
    requires forall i :: i in db.indexes ==> db.indexes[i] != temporary
    ensures var filled := db.(tables := db.tables[temporary := t]);
            var dropped := Exec(filled, DropTable(name), fk);
            && dropped.Ok?
            && Exec(dropped.value, RenameTable(temporary, name), fk)
                 == Ok(db.(tables := db.tables[name := t], indexes := map i | i in db.indexes && db.indexes[i] != name :: db.indexes[i]))
  {
    var filled := db.(tables := db.tables[temporary := t]);
    var kept := map i | i in db.indexes && db.indexes[i] != name :: db.indexes[i];
    DropWorks(db, name, temporary, t, fk);
    RenameWorks(Db(db.versions, filled.tables - {name}, kept), name, temporary, t, fk);
    assert (filled.tables - {name} - {temporary})[name := t] == db.tables[name := t];
  }

  lemma DropWorks(db: Db, name: TableName, temporary: TableName, t: Table, fk: bool)
    requires name in db.tables && temporary !in db.tables && name != temporary
    requires fk ==> t.shape.references != Some(name) && !Referenced(db, name)
    ensures Exec(db.(tables := db.tables[temporary := t]), DropTable(name), fk)
         == Ok(Db(db.versions, db.tables[temporary := t] - {name}, map i | i in db.indexes && db.indexes[i] != name :: db.indexes[i]))
  {
    assert fk ==> !Referenced(db.(tables := db.tables[temporary := t]), name);
  }

  lemma RenameWorks(db: Db, name: TableName, temporary: TableName, t: Table, fk: bool)
    requires name !in db.tables && temporary in db.tables && db.tables[temporary] == t && name != temporary
    requires forall u :: u in db.tables ==> db.tables[u].shape.references != Some(temporary)
    requires forall i :: i in db.indexes ==> db.indexes[i] != temporary
    ensures Exec(db, RenameTable(temporary, name), fk) == Ok(db.(tables := (db.tables - {temporary})[name := t]))
  {
    var moved := (db.tables - {temporary})[name := t];
    assert Retarget(moved, temporary, name) == moved;
    assert (map i | i in db.indexes :: if db.indexes[i] == temporary then name else db.indexes[i]) == db.indexes;
  }

  // ---- Rows fit their new shapes ---------------------------------------------------------------

  /** A carried row fits the widened shape when the new columns are disjoint, keep their NOT NULLs, and
      the widened check holds of it. */
  lemma CarriedFits(k: Value, r: Row, narrow: Shape, wide: Shape, added: Row)
    requires Fits(k, r, narrow) && added.Keys !! narrow.columns
    requires wide.columns == narrow.columns + added.Keys && wide.key == narrow.key
    requires forall c :: c in wide.notNull && c in added ==> added[c] != Null
    requires forall c :: c in wide.notNull && c !in added ==> c in narrow.notNull
    requires Satisfies(Carry(r, narrow.columns, added), wide.check)
    ensures Fits(k, Carry(r, narrow.columns, added), wide)
  {
    CarriedValues(r, narrow.columns, added);
  }

  lemma CarriedValues(r: Row, carried: set<Column>, added: Row)
    requires r.Keys == carried && added.Keys !! carried
    ensures Carry(r, carried, added).Keys == carried + added.Keys
    ensures forall c :: c in carried ==> Carry(r, carried, added)[c] == r[c]
    ensures forall c :: c in added ==> Carry(r, carried, added)[c] == added[c]
  {
  }

  lemma IdentityRowFits(k: Value, r: Row)
    requires Fits(k, r, IdentityShape(1))
    ensures Fits(k, Carry(r, IDENTITY_V1, map[OperationalState := Text("Operational")]), IdentityShape(2))
  {
    var added: Row := map[OperationalState := Text("Operational")];
    CarriedValues(r, IDENTITY_V1, added);
    assert ProtectedSharedSecret in IDENTITY_V1 && SingletonGuard in IDENTITY_V1;
    CarriedFits(k, r, IdentityShape(1), IdentityShape(2), added);
  }

  lemma EventRowFits4(k: Value, r: Row)
    requires Fits(k, r, EventShape(3))
    ensures Fits(k, Carry(r, EVENT_V3, map[DeliveredAtUtc := Null]), EventShape(4))
  {
    CarriedValues(r, EVENT_V3, map[DeliveredAtUtc := Null]);
    assert DeliveryStatus in EVENT_V3;
    CarriedFits(k, r, EventShape(3), EventShape(4), map[DeliveredAtUtc := Null]);
  }

  lemma EventRowFits6(k: Value, r: Row)
    requires Fits(k, r, EventShape(5))
    ensures Fits(k, Carry(r, EVENT_V3 + {DeliveredAtUtc}, map[FinalizedAtUtc := Null]), EventShape(6))
  {
    CarriedValues(r, EVENT_V3 + {DeliveredAtUtc}, map[FinalizedAtUtc := Null]);
    assert DeliveryStatus in EVENT_V3;
    EventShapes();
    CarriedFits(k, r, EventShape(5), EventShape(6), map[FinalizedAtUtc := Null]);
  }

  lemma EventShapes()
    ensures EventShape(6).columns == EventShape(5).columns + {FinalizedAtUtc} && FinalizedAtUtc !in EventShape(5).columns
    ensures EventShape(6).notNull == EventShape(5).notNull && FinalizedAtUtc !in EventShape(6).notNull
  {
  }

  lemma OutboxRowFits6(k: Value, r: Row)
    requires Fits(k, r, OutboxShape(5))
    ensures Carry(r, OUTBOX_COLUMNS, map[]) == r && Fits(k, r, OutboxShape(6))
  {
    assert r.Keys == OUTBOX_COLUMNS;
    var r' := Carry(r, OUTBOX_COLUMNS, map[]);
    assert r'.Keys == r.Keys && forall c :: c in r ==> r'[c] == r[c];
    assert r' == r;
    var narrow, wide := {"pending", "uploaded"}, {"pending", "uploaded", "suppressed_by_quota"};
    assert narrow <= wide;
    assert Satisfies(r, OutboxStates(narrow));
    assert Satisfies(r, OutboxStates(wide));
  }

  // ---- Each migration completes ----------------------------------------------------------------

  ghost predicate Completes(db: Db, v: nat)
    requires Valid(db, v) && v < CURRENT_VERSION
  {
    Work(db, MigrationFrom(v), KeysOnDuring(v), None) == Ok(Upgrade(db, v))
  }

  predicate Temporary(t: TableName) {
    t.DeviceIdentityV2? || t.DetectionEventV4? || t.DetectionEventV6? || t.SnapshotOutboxV6?
  }

  /** Nothing in a valid database refers to a temporary table, and before version 5 nothing of the
      product refers to anything. */
  lemma NothingRefers(db: Db, v: nat, temporary: TableName)
    requires Valid(db, v) && Temporary(temporary)
    ensures temporary !in db.tables
    ensures forall t :: t in db.tables ==> db.tables[t].shape.references != Some(temporary)
    ensures forall i :: i in db.indexes ==> db.indexes[i] != temporary
    ensures v < 5 ==> forall t :: t in db.tables && !t.Elsewhere? ==> db.tables[t].shape.references.None?
  {
  }

  lemma CompletesFrom0(db: Db)
    requires Valid(db, 0)
    ensures Completes(db, 0)
  {
    var a := db.(versions := Some([]));
    var b := a.(tables := a.tables[DeviceIdentity := Table(IdentityShape(1), map[])]);
    var c := b.(tables := b.tables[ConfigCache := Table(ConfigShape(), map[])]);
    WorkTwo(db, CreateVersionTable, CreateTable(DeviceIdentity, IdentityShape(1), true), true);
    WorkTwo(b, CreateTable(ConfigCache, ConfigShape(), true), InsertVersion(1), true);
    var first := [CreateVersionTable, CreateTable(DeviceIdentity, IdentityShape(1), true)];
    var second := [CreateTable(ConfigCache, ConfigShape(), true), InsertVersion(1)];
    WorkAppend(db, first, second, true);
    assert first + second == MigrationFrom(0);
    assert [] + [Integer(1)] == [Integer(1)];
  }

  lemma VersionSet(db: Db, v: nat, w: nat, fk: bool)
    requires db.versions == Some([Integer(v)])
    ensures Exec(db, UpdateVersion(w), fk) == Ok(Versioned(db, w))
    ensures Work(db, [UpdateVersion(w)], fk, None) == Ok(Versioned(db, w))
  {
    assert seq(1, i => Integer(w)) == [Integer(w)];
    WorkOne(db, UpdateVersion(w), fk);
  }

  /** Creating an index that is missing, then recording the version. */
  lemma IndexThenVersion(db: Db, index: IndexName, on: TableName, v: nat, w: nat, fk: bool)
    requires index !in db.indexes && on in db.tables && db.versions == Some([Integer(v)])
    ensures Work(db, [CreateIndexIfMissing(index, on), UpdateVersion(w)], fk, None) == Ok(Versioned(Indexed(db, index, on), w))
  {
    VersionSet(Indexed(db, index, on), v, w, fk);
    WorkTwo(db, CreateIndexIfMissing(index, on), UpdateVersion(w), fk);
  }

  lemma CompletesFrom1(db: Db)
    requires Valid(db, 1)
    ensures Completes(db, 1)
  {
    var added: Row := map[OperationalState := Text("Operational")];
    var before := db.tables[DeviceIdentity];
    forall k | k in before.rows
      ensures Fits(k, Carry(before.rows[k], IDENTITY_V1, added), IdentityShape(2))
    {
      IdentityRowFits(k, before.rows[k]);
    }
    NothingRefers(db, 1, DeviceIdentityV2);
    RebuildWorks(db, DeviceIdentity, DeviceIdentityV2, IdentityShape(2), IDENTITY_V1, added, true);
    VersionSet(Rebuilt(db, DeviceIdentity, IdentityShape(2), IDENTITY_V1, added), 1, 2, true);
    WorkAppend(db, Rebuild(DeviceIdentity, DeviceIdentityV2, IdentityShape(2), IDENTITY_V1, added), [UpdateVersion(2)], true);
  }

  /** Creating a missing table, its index, and recording the version. */
  lemma AdditiveWorks(db: Db, name: TableName, shape: Shape, index: IndexName, v: nat, w: nat)
    requires name !in db.tables && index !in db.indexes && db.versions == Some([Integer(v)])
    ensures Work(db, [CreateTable(name, shape, true), CreateIndexIfMissing(index, name), UpdateVersion(w)], true, None)
         == Ok(Versioned(Indexed(db.(tables := db.tables[name := Table(shape, map[])]), index, name), w))
  {
    var created := db.(tables := db.tables[name := Table(shape, map[])]);
    WorkOne(db, CreateTable(name, shape, true), true);
    IndexThenVersion(created, index, name, v, w, true);
    WorkAppend(db, [CreateTable(name, shape, true)], [CreateIndexIfMissing(index, name), UpdateVersion(w)], true);
    assert [CreateTable(name, shape, true)] + [CreateIndexIfMissing(index, name), UpdateVersion(w)]
        == [CreateTable(name, shape, true), CreateIndexIfMissing(index, name), UpdateVersion(w)];
  }

  lemma CompletesFrom2(db: Db)
    requires Valid(db, 2)
    ensures Completes(db, 2)
  {
    AdditiveWorks(db, DetectionEvent, EventShape(3), EventIndex, 2, 3);
  }

  lemma CompletesFrom3(db: Db)
    requires Valid(db, 3)
    ensures Completes(db, 3)
  {
    var added: Row := map[DeliveredAtUtc := Null];
    var before := db.tables[DetectionEvent];
    forall k | k in before.rows
      ensures Fits(k, Carry(before.rows[k], EVENT_V3, added), EventShape(4))
    {
      EventRowFits4(k, before.rows[k]);
    }
    NothingRefers(db, 3, DetectionEventV4);
    RebuildWorks(db, DetectionEvent, DetectionEventV4, EventShape(4), EVENT_V3, added, true);
    IndexThenVersion(Rebuilt(db, DetectionEvent, EventShape(4), EVENT_V3, added), EventIndex, DetectionEvent, 3, 4, true);
    WorkAppend(db, Rebuild(DetectionEvent, DetectionEventV4, EventShape(4), EVENT_V3, added),
               [CreateIndexIfMissing(EventIndex, DetectionEvent), UpdateVersion(4)], true);
  }

  lemma CompletesFrom4(db: Db)
    requires Valid(db, 4)
    ensures Completes(db, 4)
  {
    AdditiveWorks(db, SnapshotOutbox, OutboxShape(5), OutboxIndex, 4, 5);
  }

  ghost function EventsWidened(db: Db): Db
    requires DetectionEvent in db.tables
  {
    Indexed(Rebuilt(db, DetectionEvent, EventShape(6), EVENT_V3 + {DeliveredAtUtc}, map[FinalizedAtUtc := Null]), EventIndex, DetectionEvent)
  }

  function WidenEvents(): seq<Statement> {
    Rebuild(DetectionEvent, DetectionEventV6, EventShape(6), EVENT_V3 + {DeliveredAtUtc}, map[FinalizedAtUtc := Null])
      + [CreateIndexIfMissing(EventIndex, DetectionEvent)]
  }

  lemma WidenEventsWorks(db: Db, fk: bool)
    requires Valid(db, 5) && (fk ==> db.tables[SnapshotOutbox].rows == map[])
    ensures Work(db, WidenEvents(), fk, None) == Ok(EventsWidened(db))
  {
    var added: Row := map[FinalizedAtUtc := Null];
    var carried := EVENT_V3 + {DeliveredAtUtc};
    var before := db.tables[DetectionEvent];
    forall k | k in before.rows
      ensures Fits(k, Carry(before.rows[k], carried, added), EventShape(6))
    {
      EventRowFits6(k, before.rows[k]);
    }
    NothingRefers(db, 5, DetectionEventV6);
    RebuildWorks(db, DetectionEvent, DetectionEventV6, EventShape(6), carried, added, fk);
    WorkOne(Rebuilt(db, DetectionEvent, EventShape(6), carried, added), CreateIndexIfMissing(EventIndex, DetectionEvent), fk);
    WorkAppend(db, Rebuild(DetectionEvent, DetectionEventV6, EventShape(6), carried, added),
               [CreateIndexIfMissing(EventIndex, DetectionEvent)], fk);
  }

  function WidenOutbox(): seq<Statement> {
    Rebuild(SnapshotOutbox, SnapshotOutboxV6, OutboxShape(6), OUTBOX_COLUMNS, map[])
      + [CreateIndexIfMissing(OutboxIndex, SnapshotOutbox), UpdateVersion(6)]
  }

  lemma WidenOutboxWorks(db: Db, fk: bool)
    requires SnapshotOutbox in db.tables && SnapshotOutboxV6 !in db.tables && db.versions == Some([Integer(5)])
    requires forall k :: k in db.tables[SnapshotOutbox].rows ==> Fits(k, db.tables[SnapshotOutbox].rows[k], OutboxShape(5))
    requires forall t :: t in db.tables ==> db.tables[t].shape.references != Some(SnapshotOutboxV6)
    requires forall i :: i in db.indexes ==> db.indexes[i] != SnapshotOutboxV6
    requires OutboxIndex in db.indexes && db.indexes[OutboxIndex] == SnapshotOutbox
    requires fk ==> db.tables[SnapshotOutbox].rows == map[] && DetectionEvent in db.tables && !Referenced(db, SnapshotOutbox)
    ensures Work(db, WidenOutbox(), fk, None)
         == Ok(Versioned(Indexed(Rebuilt(db, SnapshotOutbox, OutboxShape(6), OUTBOX_COLUMNS, map[]), OutboxIndex, SnapshotOutbox), 6))
  {
    var before := db.tables[SnapshotOutbox];
    forall k | k in before.rows
      ensures Fits(k, Carry(before.rows[k], OUTBOX_COLUMNS, map[]), OutboxShape(6))
    {
      OutboxRowFits6(k, before.rows[k]);
    }
    RebuildWorks(db, SnapshotOutbox, SnapshotOutboxV6, OutboxShape(6), OUTBOX_COLUMNS, map[], fk);
    IndexThenVersion(Rebuilt(db, SnapshotOutbox, OutboxShape(6), OUTBOX_COLUMNS, map[]), OutboxIndex, SnapshotOutbox, 5, 6, fk);
    WorkAppend(db, Rebuild(SnapshotOutbox, SnapshotOutboxV6, OutboxShape(6), OUTBOX_COLUMNS, map[]),
               [CreateIndexIfMissing(OutboxIndex, SnapshotOutbox), UpdateVersion(6)], fk);
  }

  /** Widening the events leaves everything the second rebuild needs as it was. */
  lemma EventsWidenedReady(db: Db)
    requires Valid(db, 5)
    ensures var d := EventsWidened(db);
            && d.versions == db.versions && SnapshotOutbox in d.tables && d.tables[SnapshotOutbox] == db.tables[SnapshotOutbox]
            && d.tables.Keys == db.tables.Keys && d.indexes == db.indexes
            && (forall t :: t in d.tables ==> d.tables[t].shape.references == db.tables[t].shape.references)
            && !Referenced(d, SnapshotOutbox)
  {
    ValidOwnIndexes(db);
    ReindexedOthers(db, DetectionEvent, EventIndex, EventShape(6), EVENT_V3 + {DeliveredAtUtc}, map[FinalizedAtUtc := Null]);
    NobodyRefersToOutbox(db);
  }

  lemma NobodyRefersToOutbox(db: Db)
    requires Valid(db, 5)
    ensures forall t :: t in db.tables ==> db.tables[t].shape.references != Some(SnapshotOutbox)
    ensures db.tables[DetectionEvent].shape.references == None
  {
  }

  lemma WidenOutboxAfter(db: Db, fk: bool)
    requires Valid(db, 5) && (fk ==> db.tables[SnapshotOutbox].rows == map[])
    ensures Work(EventsWidened(db), WidenOutbox(), fk, None) == Ok(Upgrade(db, 5))
  {
    NothingRefers(db, 5, SnapshotOutboxV6);
    EventsWidenedReady(db);
    WidenOutboxWorks(EventsWidened(db), fk);
    LastUpgrade(db);
  }

  lemma LastWorks(db: Db, fk: bool)
    requires Valid(db, 5) && (fk ==> db.tables[SnapshotOutbox].rows == map[])
    ensures Work(db, MigrationFrom(5), fk, None) == Ok(Upgrade(db, 5))
  {
    WidenEventsWorks(db, fk);
    WidenOutboxAfter(db, fk);
    WorkAppend(db, WidenEvents(), WidenOutbox(), fk);
    LastParts();
  }

  lemma LastParts()
    ensures MigrationFrom(5) == WidenEvents() + WidenOutbox()
  {
  }

  lemma CompletesFrom5(db: Db)
    requires Valid(db, 5)
    ensures Completes(db, 5)
  {
    LastWorks(db, false);
  }

  lemma CompletesFrom(db: Db, v: nat)
    requires Valid(db, v) && v < CURRENT_VERSION
    ensures Completes(db, v)
  {
    match v
    case 0 => CompletesFrom0(db);
    case 1 => CompletesFrom1(db);
    case 2 => CompletesFrom2(db);
    case 3 => CompletesFrom3(db);
    case 4 => CompletesFrom4(db);
    case _ => CompletesFrom5(db);
  }

  // ---- Each migration keeps the database valid and its rows --------------------------------------

  /** Nothing is lost: every old row is there under its key, with every old column as it was, and no row
      is added. */
  ghost predicate KeepsRows(now: Db, before: Db) {
    && (forall t :: t in before.tables ==> t in now.tables && KeepsTable(now.tables[t], before.tables[t]))
    && (forall t :: t in now.tables && t !in before.tables ==> now.tables[t].rows == map[])
    && (forall t :: t in before.tables && t.Elsewhere? ==> now.tables[t] == before.tables[t])
  }

  ghost predicate KeepsTable(now: Table, before: Table) {
    now.rows.Keys == before.rows.Keys && forall k :: k in before.rows ==> KeepsRow(now.rows[k], before.rows[k])
  }

  ghost predicate KeepsRow(now: Row, before: Row) {
    forall c :: c in before ==> c in now && now[c] == before[c]
  }

  /** A rebuild that carries all old columns over and adds only new ones keeps every row. */
  lemma RebuiltKeeps(rows: map<Value, Row>, old': Shape, shape: Shape, carried: set<Column>, added: Row)
    requires RowsFit(Table(old', rows)) && carried == old'.columns && added.Keys !! carried
    ensures KeepsTable(Table(shape, CarryAll(rows, carried, added)), Table(old', rows))
  {
  }

  ghost predicate Advances(db: Db, v: nat)
    requires Valid(db, v) && v < CURRENT_VERSION
  {
    Valid(Upgrade(db, v), v + 1) && KeepsRows(Upgrade(db, v), db)
  }

  lemma AdvancesFrom0(db: Db)
    requires Valid(db, 0)
    ensures Advances(db, 0)
  {
    FirstValid(db);
    FirstKeeps(db);
  }

  lemma FirstValid(db: Db)
    requires Valid(db, 0)
    ensures Valid(Upgrade(db, 0), 1)
  {
    var d := Upgrade(db, 0);
    assert Holds(d, DeviceIdentity, IdentityShape(1)) && Holds(d, ConfigCache, ConfigShape());
    assert d.indexes == db.indexes;
  }

  lemma FirstKeeps(db: Db)
    requires Valid(db, 0)
    ensures KeepsRows(Upgrade(db, 0), db)
  {
  }

  lemma AdvancesFrom1(db: Db)
    requires Valid(db, 1)
    ensures Advances(db, 1)
  {
    var added: Row := map[OperationalState := Text("Operational")];
    var before := db.tables[DeviceIdentity];
    forall k | k in before.rows
      ensures Fits(k, Carry(before.rows[k], IDENTITY_V1, added), IdentityShape(2))
    {
      IdentityRowFits(k, before.rows[k]);
    }
    RebuiltKeeps(before.rows, IdentityShape(1), IdentityShape(2), IDENTITY_V1, added);
  }

  lemma AdvancesFrom2(db: Db)
    requires Valid(db, 2)
    ensures Advances(db, 2)
  {
  }

  lemma AdvancesFrom3(db: Db)
    requires Valid(db, 3)
    ensures Advances(db, 3)
  {
    var added: Row := map[DeliveredAtUtc := Null];
    var before := db.tables[DetectionEvent];
    forall k | k in before.rows
      ensures Fits(k, Carry(before.rows[k], EVENT_V3, added), EventShape(4))
    {
      EventRowFits4(k, before.rows[k]);
    }
    RebuiltKeeps(before.rows, EventShape(3), EventShape(4), EVENT_V3, added);
  }

  lemma AdvancesFrom4(db: Db)
    requires Valid(db, 4)
    ensures Advances(db, 4)
  {
  }

  function OutboxWidened(db: Db): Db
    requires SnapshotOutbox in db.tables
  {
    Versioned(Indexed(Rebuilt(db, SnapshotOutbox, OutboxShape(6), OUTBOX_COLUMNS, map[]), OutboxIndex, SnapshotOutbox), 6)
  }

  lemma EventsWidenedKeeps(db: Db)
    requires Valid(db, 5)
    ensures var d := EventsWidened(db);
            && Holds(d, DetectionEvent, EventShape(6))
            && d.tables[DetectionEvent].rows.Keys == db.tables[DetectionEvent].rows.Keys
            && KeepsTable(d.tables[DetectionEvent], db.tables[DetectionEvent])
  {
    var added: Row := map[FinalizedAtUtc := Null];
    var carried := EVENT_V3 + {DeliveredAtUtc};
    var events := db.tables[DetectionEvent];
    forall k | k in events.rows
      ensures Fits(k, Carry(events.rows[k], carried, added), EventShape(6))
    {
      EventRowFits6(k, events.rows[k]);
    }
    RebuiltKeeps(events.rows, EventShape(5), EventShape(6), carried, added);
  }

  lemma OutboxWidenedKeeps(db: Db)
    requires SnapshotOutbox in db.tables && db.tables[SnapshotOutbox].shape == OutboxShape(5) && RowsFit(db.tables[SnapshotOutbox])
    ensures var d := OutboxWidened(db);
            && Holds(d, SnapshotOutbox, OutboxShape(6)) && d.tables[SnapshotOutbox].rows == db.tables[SnapshotOutbox].rows
  {
    var outbox := db.tables[SnapshotOutbox];
    forall k | k in outbox.rows
      ensures Carry(outbox.rows[k], OUTBOX_COLUMNS, map[]) == outbox.rows[k] && Fits(k, outbox.rows[k], OutboxShape(6))
    {
      OutboxRowFits6(k, outbox.rows[k]);
    }
    assert CarryAll(outbox.rows, OUTBOX_COLUMNS, map[]) == outbox.rows;
  }

  lemma AdvancesFrom5(db: Db)
    requires Valid(db, 5)
    ensures Advances(db, 5)
  {
    var e := OutboxWidened(EventsWidened(db));
    EventsWidenedKeeps(db);
    EventsWidenedReady(db);
    OutboxWidenedKeeps(EventsWidened(db));
    ValidOwnIndexes(db);
    OthersUntouched(db);
    ValidFrom5(db, e);
    KeepsFrom5(db, e);
    LastUpgrade(db);
  }

  lemma LastUpgrade(db: Db)
    requires Valid(db, 5)
    ensures OutboxWidened(EventsWidened(db)) == Upgrade(db, 5)
  {
  }

  /** Each of the two tables has its own index and no other. */
  ghost predicate OwnIndexes(db: Db) {
    && DetectionEvent in db.tables && SnapshotOutbox in db.tables && EventIndex in db.indexes && OutboxIndex in db.indexes
    && (forall i :: i in db.indexes ==> (db.indexes[i] == DetectionEvent <==> i == EventIndex))
    && (forall i :: i in db.indexes ==> (db.indexes[i] == SnapshotOutbox <==> i == OutboxIndex))
  }

  lemma ValidOwnIndexes(db: Db)
    requires Valid(db, 5)
    ensures OwnIndexes(db)
  {
  }

  /** Rebuilding one table and recreating its index leaves the other tables and all indexes as they were. */
  lemma ReindexedOthers(db: Db, name: TableName, index: IndexName, shape: Shape, carried: set<Column>, added: Row)
    requires name in db.tables && index in db.indexes
    requires forall i :: i in db.indexes ==> (db.indexes[i] == name <==> i == index)
    ensures var d := Indexed(Rebuilt(db, name, shape, carried, added), index, name);
            && d.tables.Keys == db.tables.Keys && d.indexes == db.indexes && d.versions == db.versions
            && forall t :: t in db.tables && t != name ==> d.tables[t] == db.tables[t]
  {
  }

  lemma OthersUntouched(db: Db)
    requires OwnIndexes(db)
    ensures var d := EventsWidened(db); var e := OutboxWidened(d);
            && e.tables.Keys == db.tables.Keys && e.indexes == db.indexes
            && e.tables[DetectionEvent] == d.tables[DetectionEvent]
            && forall t :: t in db.tables && t != DetectionEvent && t != SnapshotOutbox ==> e.tables[t] == db.tables[t]
  {
    ReindexedOthers(db, DetectionEvent, EventIndex, EventShape(6), EVENT_V3 + {DeliveredAtUtc}, map[FinalizedAtUtc := Null]);
    ReindexedOthers(EventsWidened(db), SnapshotOutbox, OutboxIndex, OutboxShape(6), OUTBOX_COLUMNS, map[]);
  }

  lemma KeepsFrom5(db: Db, e: Db)
    requires e.tables.Keys == db.tables.Keys && DetectionEvent in db.tables && SnapshotOutbox in db.tables
    requires forall t :: t in db.tables && t != DetectionEvent && t != SnapshotOutbox ==> e.tables[t] == db.tables[t]
    requires KeepsTable(e.tables[DetectionEvent], db.tables[DetectionEvent])
    requires e.tables[SnapshotOutbox].rows == db.tables[SnapshotOutbox].rows
    ensures KeepsRows(e, db)
  {
  }

  lemma ValidFrom5(db: Db, e: Db)
    requires Valid(db, 5) && e.tables.Keys == db.tables.Keys && e.versions == Some([Integer(6)])
    requires forall t :: t in db.tables && t != DetectionEvent && t != SnapshotOutbox ==> e.tables[t] == db.tables[t]
    requires Holds(e, DetectionEvent, EventShape(6)) && Holds(e, SnapshotOutbox, OutboxShape(6))
    requires e.tables[DetectionEvent].rows.Keys == db.tables[DetectionEvent].rows.Keys
    requires e.tables[SnapshotOutbox].rows == db.tables[SnapshotOutbox].rows
    requires e.indexes == db.indexes
    ensures Valid(e, 6)
  {
  }

  lemma AdvancesFrom(db: Db, v: nat)
    requires Valid(db, v) && v < CURRENT_VERSION
    ensures Advances(db, v)
  {
    match v
    case 0 => AdvancesFrom0(db);
    case 1 => AdvancesFrom1(db);
    case 2 => AdvancesFrom2(db);
    case 3 => AdvancesFrom3(db);
    case 4 => AdvancesFrom4(db);
    case _ => AdvancesFrom5(db);
  }

  lemma KeepsRowsTransitive(a: Db, b: Db, c: Db)
    requires KeepsRows(b, a) && KeepsRows(c, b)
    ensures KeepsRows(c, a)
  {
    forall t | t in a.tables
      ensures t in c.tables && KeepsTable(c.tables[t], a.tables[t])
    {
      assert KeepsTable(b.tables[t], a.tables[t]) && KeepsTable(c.tables[t], b.tables[t]);
      forall k | k in a.tables[t].rows
        ensures KeepsRow(c.tables[t].rows[k], a.tables[t].rows[k])
      {
        assert KeepsRow(b.tables[t].rows[k], a.tables[t].rows[k]) && KeepsRow(c.tables[t].rows[k], b.tables[t].rows[k]);
      }
    }
    forall t | t in c.tables && t !in a.tables
      ensures c.tables[t].rows == map[]
    {
      if t in b.tables {
        assert KeepsTable(c.tables[t], b.tables[t]) && b.tables[t].rows == map[];
      }
    }
  }

  // ---- The whole chain -------------------------------------------------------------------------

  ghost function Upgraded(db: Db, v: nat): Db {
    if Valid(db, v) && v < CURRENT_VERSION then Upgrade(db, v) else db
  }

  lemma {:induction false} UninterruptedWork(db: Db, statements: seq<Statement>, fk: bool, i: Interruption)
    requires Work(db, statements, fk, i).Ok?
    ensures Work(db, statements, fk, None) == Work(db, statements, fk, i)
    decreases |statements|
  {
    if statements != [] {
      UninterruptedWork(Exec(db, statements[0], fk).value, statements[1..], fk, Remaining(i, 1));
    }
  }

  lemma StepUpgrades(db: Db, v: nat, i: Interruption)
    requires Valid(db, v) && v < CURRENT_VERSION
    ensures StepFrom(db, v, None) == Kept(Upgraded(db, v), None)
    ensures StepFrom(db, v, i).Ended? || StepFrom(db, v, i).next == Upgraded(db, v)
  {
    CompletesFrom(db, v);
    if Work(db, MigrationFrom(v), KeysOnDuring(v), i).Ok? {
      UninterruptedWork(db, MigrationFrom(v), KeysOnDuring(v), i);
    }
  }

  lemma UpgradedAdvances(db: Db, v: nat)
    requires Valid(db, v) && v < CURRENT_VERSION
    ensures Valid(Upgraded(db, v), v + 1) && KeepsRows(Upgraded(db, v), db)
  {
    AdvancesFrom(db, v);
  }

  /** The migrations are a chain in which every kept step is the upgrade, and is kept when uninterrupted. */
  lemma StepsAreUpgrades()
    ensures Upgrading(StepFrom, Upgraded, Valid, CURRENT_VERSION)
  {
    forall db, v: nat | v < CURRENT_VERSION && Valid(db, v)
      ensures Valid(Upgraded(db, v), v + 1) && StepFrom(db, v, None) == Kept(Upgraded(db, v), None)
    {
      StepUpgrades(db, v, None);
      UpgradedAdvances(db, v);
    }
    forall db, v: nat, i | v < CURRENT_VERSION && Valid(db, v)
      ensures StepFrom(db, v, i).Ended? || StepFrom(db, v, i).next == Upgraded(db, v)
    {
      StepUpgrades(db, v, i);
    }
  }

  function VersionNumber(db: Db): nat {
    match ReadVersion(db)
    case At(v) => v
    case _ => 0
  }

  /** A valid database is read as being at its version. */
  lemma InitializeIsRun(db: Db, v: nat, i: Interruption)
    requires Valid(db, v)
    ensures VersionNumber(db) == v
    ensures Initialize(db, i) == (Run(db, v, CURRENT_VERSION, i, StepFrom).0,
                                  if Run(db, v, CURRENT_VERSION, i, StepFrom).1.Some? then Run(db, v, CURRENT_VERSION, i, StepFrom).1.value
                                  else Ready(CURRENT_VERSION))
  {
  }

  ghost function CurrentForm(db: Db, v: nat): Db {
    Target(db, v, CURRENT_VERSION, Upgraded)
  }

  /** From every valid database of version 0 to 6, an uninterrupted call ends at the current version with
      a valid database that holds every old row on its old columns. */
  lemma InitializeCompletes(db: Db, v: nat)
    requires Valid(db, v)
    ensures Initialize(db, None) == (CurrentForm(db, v), Ready(CURRENT_VERSION))
    ensures Valid(CurrentForm(db, v), CURRENT_VERSION) && KeepsRows(CurrentForm(db, v), db)
  {
    InitializeIsRun(db, v, None);
    StepsAreUpgrades();
    RunCompletes(db, v, CURRENT_VERSION, StepFrom, Upgraded, Valid);
    CurrentFormKeeps(db, v);
  }

  lemma CurrentFormKeeps(db: Db, v: nat)
    requires Valid(db, v)
    ensures KeepsRows(CurrentForm(db, v), db)
  {
    forall a
      ensures KeepsRows(a, a)
    {
    }
    forall a, b, c | KeepsRows(b, a) && KeepsRows(c, b)
      ensures KeepsRows(c, a)
    {
      KeepsRowsTransitive(a, b, c);
    }
    forall a, w: nat | w < CURRENT_VERSION && Valid(a, w)
      ensures Valid(Upgraded(a, w), w + 1) && KeepsRows(Upgraded(a, w), a)
    {
      UpgradedAdvances(a, w);
    }
    TargetRelated(db, v, CURRENT_VERSION, Upgraded, Valid, KeepsRows);
  }

  function AfterInterruptions(db: Db, interruptions: seq<nat>): Db
    decreases |interruptions|
  {
    if interruptions == [] then db else AfterInterruptions(Initialize(db, Some(interruptions[0])).0, interruptions[1..])
  }

  /** Crash-resume equivalence: after any finite sequence of interrupted calls, one completed call gives
      the same database as an uninterrupted run would have given from the start. */
  lemma {:induction false} CrashResume(db: Db, v: nat, interruptions: seq<nat>)
    requires Valid(db, v)
    ensures Initialize(AfterInterruptions(db, interruptions), None) == Initialize(db, None)
    decreases |interruptions|
  {
    if interruptions != [] {
      var w, next := OneInterruption(db, v, interruptions[0]);
      CrashResume(next, w, interruptions[1..]);
    }
  }

  /** One interrupted call leaves a valid database from which the same end is reached. */
  lemma OneInterruption(db: Db, v: nat, at: nat) returns (w: nat, next: Db)
    requires Valid(db, v)
    ensures next == Initialize(db, Some(at)).0
    ensures Valid(next, w) && Initialize(next, None) == Initialize(db, None)
  {
    StepsAreUpgrades();
    InitializeIsRun(db, v, Some(at));
    w := InterruptedOnTheWay(db, v, CURRENT_VERSION, Some(at), StepFrom, Upgraded, Valid);
    next := Initialize(db, Some(at)).0;
    InitializeCompletes(db, v);
    InitializeCompletes(next, w);
  }

  /** A database of a newer version, or one whose version cannot be trusted, is reported and not touched. */
  lemma UntouchedUnlessKnown(db: Db, i: Interruption)
    requires ReadVersion(db).Invalid? || (ReadVersion(db).At? && ReadVersion(db).v > CURRENT_VERSION)
    ensures Initialize(db, i) == (db, if ReadVersion(db).Invalid? then InvalidState else Unsupported)
  {
  }

  // ---- Why foreign keys are off for the last migration -----------------------------------------

  /** With foreign keys left on, the last migration would fail exactly when some snapshot row exists. */
  lemma LastMigrationNeedsKeysOff(db: Db)
    requires Valid(db, 5)
    ensures Work(db, MigrationFrom(5), true, None) == Err(Failed(ForeignKeyFailed)) <==> db.tables[SnapshotOutbox].rows != map[]
  {
    if db.tables[SnapshotOutbox].rows == map[] {
      LastWorks(db, true);
    } else {
      DropRefused(db);
    }
  }

  lemma DropRefused(db: Db)
    requires Valid(db, 5) && db.tables[SnapshotOutbox].rows != map[]
    ensures Work(db, MigrationFrom(5), true, None) == Err(Failed(ForeignKeyFailed))
  {
    var added: Row := map[FinalizedAtUtc := Null];
    var carried := EVENT_V3 + {DeliveredAtUtc};
    var events := db.tables[DetectionEvent];
    LastSplit(carried, added);
    var first := [CreateTable(DetectionEventV6, EventShape(6), false), CopyInto(DetectionEventV6, DetectionEvent, carried, added)];
    var rest := [RenameTable(DetectionEventV6, DetectionEvent), CreateIndexIfMissing(EventIndex, DetectionEvent)] + WidenOutbox();
    var filled := db.(tables := db.tables[DetectionEventV6 := Table(EventShape(6), CarryAll(events.rows, carried, added))]);
    EventsFill(db);
    DropFromFilled(db, filled);
    WorkFails(filled, DropTable(DetectionEvent), rest, true);
    WorkAppend(db, first, [DropTable(DetectionEvent)] + rest, true);
  }

  /** The first half of the last migration fills the wide table. */
  lemma EventsFill(db: Db)
    requires Valid(db, 5)
    ensures var carried := EVENT_V3 + {DeliveredAtUtc}; var added: Row := map[FinalizedAtUtc := Null];
            Work(db, [CreateTable(DetectionEventV6, EventShape(6), false), CopyInto(DetectionEventV6, DetectionEvent, carried, added)], true, None)
              == Ok(db.(tables := db.tables[DetectionEventV6 := Table(EventShape(6), CarryAll(db.tables[DetectionEvent].rows, carried, added))]))
  {
    var rows := db.tables[DetectionEvent].rows;
    forall k | k in rows
      ensures Fits(k, Carry(rows[k], EVENT_V3 + {DeliveredAtUtc}, map[FinalizedAtUtc := Null]), EventShape(6))
    {
      EventRowFits6(k, rows[k]);
    }
    CopyAlone(db, DetectionEvent, DetectionEventV6, EventShape(6), EVENT_V3 + {DeliveredAtUtc}, map[FinalizedAtUtc := Null]);
  }

  lemma DropFromFilled(db: Db, filled: Db)
    requires Valid(db, 5) && db.tables[SnapshotOutbox].rows != map[]
    requires DetectionEvent in filled.tables && SnapshotOutbox in filled.tables
    requires filled.tables[DetectionEvent] == db.tables[DetectionEvent] && filled.tables[SnapshotOutbox] == db.tables[SnapshotOutbox]
    ensures Exec(filled, DropTable(DetectionEvent), true) == Err(ForeignKeyFailed)
  {
    var k :| k in db.tables[SnapshotOutbox].rows;
    DropFails(filled, DetectionEvent, SnapshotOutbox, k);
  }

  lemma LastSplit(carried: set<Column>, added: Row)
    requires carried == EVENT_V3 + {DeliveredAtUtc} && added == map[FinalizedAtUtc := Null]
    ensures [CreateTable(DetectionEventV6, EventShape(6), false), CopyInto(DetectionEventV6, DetectionEvent, carried, added)]
              + ([DropTable(DetectionEvent)]
                 + ([RenameTable(DetectionEventV6, DetectionEvent), CreateIndexIfMissing(EventIndex, DetectionEvent)] + WidenOutbox()))
         == MigrationFrom(5)
  {
    assert WidenEvents()
        == [CreateTable(DetectionEventV6, EventShape(6), false), CopyInto(DetectionEventV6, DetectionEvent, carried, added)]
             + [DropTable(DetectionEvent)]
             + [RenameTable(DetectionEventV6, DetectionEvent), CreateIndexIfMissing(EventIndex, DetectionEvent)];
    LastParts();
  }

  lemma DropFails(db: Db, name: TableName, child: TableName, k: Value)
    requires name in db.tables && child in db.tables && child != name && db.tables[child].shape.references == Some(name)
    requires k in db.tables[child].rows && k in db.tables[name].rows
    ensures Exec(db, DropTable(name), true) == Err(ForeignKeyFailed)
  {
    assert k in db.tables[child].rows.Keys * db.tables[name].rows.Keys;
    assert Referenced(db, name);
  }

  lemma CopyAlone(db: Db, name: TableName, temporary: TableName, shape: Shape, carried: set<Column>, added: Row)
    requires name in db.tables && temporary !in db.tables && name != temporary && shape.references.None?
    requires forall k :: k in db.tables[name].rows ==> Fits(k, Carry(db.tables[name].rows[k], carried, added), shape)
    ensures Work(db, [CreateTable(temporary, shape, false), CopyInto(temporary, name, carried, added)], true, None)
         == Ok(db.(tables := db.tables[temporary := Table(shape, CarryAll(db.tables[name].rows, carried, added))]))
  {
    var created := db.(tables := db.tables[temporary := Table(shape, map[])]);
    var filled := Table(shape, CarryAll(db.tables[name].rows, carried, added));
    CopyExec(created, name, temporary, carried, added, true);
    UpdateTwice(db.tables, temporary, Table(shape, map[]), filled);
    WorkTwo(db, CreateTable(temporary, shape, false), CopyInto(temporary, name, carried, added), true);
  }

  lemma WorkFails(db: Db, s: Statement, rest: seq<Statement>, fk: bool)
    requires Exec(db, s, fk).Err?
    ensures Work(db, [s] + rest, fk, None) == Err(Failed(Exec(db, s, fk).error))
  {
  }
}
