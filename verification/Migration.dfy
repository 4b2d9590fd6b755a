/**
 The Agent's schema migrations, statement by statement, on a model of the tables they touch.  A
 statement is executed on the working copy of a transaction; an error rolls the copy back and a crash
 loses it, so the durable database changes only at a commit.  A copy statement is given by the set of
 columns it carries over and the constants it adds.
 */
module Migration {
  import opened Common
  import opened ResumableChain

  datatype Value = Null | Text(s: string) | Integer(n: int) | Number(r: real)

  datatype Column =
    | SingletonGuard | DeviceId | ProtectedSharedSecret | ActivatedAt | LastActivatedAt | OperationalState
    | ConfigJson | UpdatedAt
    | EventId | CameraId | SourceId | ClassId | ClassName | Confidence | FrameNumber | DetectedAtUtc | FrameWidth
    | FrameHeight | BboxLeft | BboxTop | BboxWidth | BboxHeight | DeliveryStatus | DeliveredAtUtc | FinalizedAtUtc | CreatedAtUtc
    | LocalPath | CaptureStatus | UploadStatus | BackendAlertId | ContentType | SizeBytes | ContentSha256 | CapturedAtUtc
    | UploadedAtUtc | AttemptCount | LastAttemptAtUtc | LastErrorCategory

  type Row = map<Column, Value>

  /** The tables of this product; `Elsewhere` stands for any other table in the file. */
  datatype TableName =
    | DeviceIdentity | ConfigCache | DetectionEvent | SnapshotOutbox
    | DeviceIdentityV2 | DetectionEventV4 | DetectionEventV6 | SnapshotOutboxV6
    | Elsewhere(name: string)

  datatype IndexName = EventIndex | OutboxIndex | OtherIndex(name: string)

  /** The CHECK constraints, as the version that introduced each allows them. */
  datatype Check =
    | Singleton                       // SingletonGuard = 1
    | SingletonWithState              // ... and the secret is there exactly when Operational
    | Delivery(allowed: set<string>)  // DeliveryStatus
    | OutboxStates(allowed: set<string>)  // CaptureStatus and UploadStatus
    | AnyRow

  datatype Shape = Shape(columns: set<Column>, notNull: set<Column>, key: Column, check: Check, references: Option<TableName>)

  datatype Table = Table(shape: Shape, rows: map<Value, Row>)

  /** `versions` holds the rows of SchemaVersion, or nothing when that table does not exist. */
  datatype Db = Db(versions: Option<seq<Value>>, tables: map<TableName, Table>, indexes: map<IndexName, TableName>)

  predicate In(r: Row, c: Column, texts: set<string>) {
    c in r && r[c].Text? && r[c].s in texts
  }

  predicate Satisfies(r: Row, check: Check) {
    match check
    case Singleton => SingletonGuard in r && r[SingletonGuard] == Integer(1)
    case SingletonWithState =>
      && SingletonGuard in r && r[SingletonGuard] == Integer(1)
      && In(r, OperationalState, {"Operational", "ReactivationRequired"})
      && ProtectedSharedSecret in r
      && (r[OperationalState] == Text("Operational") <==> r[ProtectedSharedSecret] != Null)
    case Delivery(allowed) => In(r, DeliveryStatus, allowed)
    case OutboxStates(allowed) => In(r, CaptureStatus, {"captured", "capture_failed"}) && In(r, UploadStatus, allowed)
    case AnyRow => true
  }

  predicate Fits(k: Value, r: Row, shape: Shape) {
    && r.Keys == shape.columns && shape.key in r && r[shape.key] == k
    && (forall c :: c in shape.notNull && c in r ==> r[c] != Null)
    && Satisfies(r, shape.check)
  }

  predicate RowsFit(t: Table) {
    forall k :: k in t.rows ==> Fits(k, t.rows[k], t.shape)
  }

  // ---- Shapes ----------------------------------------------------------------------------------

  const IDENTITY_V1: set<Column> := {SingletonGuard, DeviceId, ProtectedSharedSecret, ActivatedAt, LastActivatedAt}
  const CONFIG_COLUMNS: set<Column> := {SingletonGuard, ConfigJson, UpdatedAt}
  const EVENT_V3: set<Column> := {
    EventId, DeviceId, CameraId, SourceId, ClassId, ClassName, Confidence, FrameNumber, DetectedAtUtc, FrameWidth,
    FrameHeight, BboxLeft, BboxTop, BboxWidth, BboxHeight, DeliveryStatus, CreatedAtUtc}
  const OUTBOX_COLUMNS: set<Column> := {
    EventId, LocalPath, CaptureStatus, UploadStatus, BackendAlertId, ContentType, SizeBytes, ContentSha256, CapturedAtUtc,
    UploadedAtUtc, AttemptCount, LastAttemptAtUtc, LastErrorCategory}

  function IdentityShape(v: int): Shape {
    if v == 1 then Shape(IDENTITY_V1, IDENTITY_V1, SingletonGuard, Singleton, None)
    else Shape(IDENTITY_V1 + {OperationalState}, (IDENTITY_V1 - {ProtectedSharedSecret}) + {OperationalState}, SingletonGuard,
               SingletonWithState, None)
  }

  function ConfigShape(): Shape {
    Shape(CONFIG_COLUMNS, CONFIG_COLUMNS, SingletonGuard, Singleton, None)
  }

  function EventShape(v: int): Shape {
    if v == 3 then Shape(EVENT_V3, EVENT_V3 - {EventId}, EventId, Delivery({"pending", "delivered"}), None)
    else if v <= 5 then
      Shape(EVENT_V3 + {DeliveredAtUtc}, EVENT_V3 - {EventId}, EventId, Delivery({"pending", "delivered"}), None)
    else
      Shape(EVENT_V3 + {DeliveredAtUtc, FinalizedAtUtc}, EVENT_V3 - {EventId}, EventId,
            Delivery({"pending", "delivered", "suppressed_by_quota"}), None)
  }

  function OutboxShape(v: int): Shape {
    Shape(OUTBOX_COLUMNS,
          OUTBOX_COLUMNS - {EventId, BackendAlertId, UploadedAtUtc, LastAttemptAtUtc, LastErrorCategory}, EventId,
          OutboxStates(if v == 5 then {"pending", "uploaded"} else {"pending", "uploaded", "suppressed_by_quota"}),
          Some(DetectionEvent))
  }

  // ---- Statements ------------------------------------------------------------------------------

  datatype Statement =
    | CreateVersionTable
    | CreateTable(name: TableName, shape: Shape, ifNotExists: bool)
    | CreateIndexIfMissing(index: IndexName, on: TableName)
    | CopyInto(target: TableName, source: TableName, carried: set<Column>, added: Row)
    | DropTable(name: TableName)
    | RenameTable(from: TableName, name: TableName)
    | InsertVersion(version: int)
    | UpdateVersion(version: int)

  datatype SqlError = TableExists | NoSuchTable | ConstraintFailed | ForeignKeyFailed

  function Carry(r: Row, carried: set<Column>, added: Row): Row {
    (map c | c in carried && c in r :: r[c]) + added
  }

  function CarryAll(rows: map<Value, Row>, carried: set<Column>, added: Row): map<Value, Row> {
    map k | k in rows :: Carry(rows[k], carried, added)
  }

  /** Some row elsewhere points at a row of this table. */
  predicate Referenced(db: Db, name: TableName) {
    name in db.tables
    && exists t :: t in db.tables && t != name && db.tables[t].shape.references == Some(name)
                   && !(db.tables[t].rows.Keys !! db.tables[name].rows.Keys)
  }

  predicate PointsSomewhere(db: Db, t: Table) {
    t.shape.references.Some? ==>
      t.shape.references.value in db.tables && t.rows.Keys <= db.tables[t.shape.references.value].rows.Keys
  }

  function Exec(db: Db, s: Statement, foreignKeys: bool): Result<Db, SqlError> {
    match s
    case CreateVersionTable => Ok(if db.versions.Some? then db else db.(versions := Some([])))
    case CreateTable(name, shape, ifNotExists) =>
      if name in db.tables then if ifNotExists then Ok(db) else Err(TableExists)
      else Ok(db.(tables := db.tables[name := Table(shape, map[])]))
    case CreateIndexIfMissing(index, on) =>
      if index in db.indexes then Ok(db)
      else if on !in db.tables then Err(NoSuchTable)
      else Ok(db.(indexes := db.indexes[index := on]))
    case CopyInto(target, source, carried, added) =>
      if target !in db.tables || source !in db.tables then Err(NoSuchTable)
      else
        var copied := CarryAll(db.tables[source].rows, carried, added);
        var filled := Table(db.tables[target].shape, db.tables[target].rows + copied);
        if !(copied.Keys !! db.tables[target].rows.Keys) || !RowsFit(filled) then Err(ConstraintFailed)
        else if foreignKeys && !PointsSomewhere(db, filled) then Err(ForeignKeyFailed)
        else Ok(db.(tables := db.tables[target := filled]))
    case DropTable(name) =>
      if name !in db.tables then Err(NoSuchTable)
      else if foreignKeys && Referenced(db, name) then Err(ForeignKeyFailed)
      else Ok(db.(tables := db.tables - {name}, indexes := map i | i in db.indexes && db.indexes[i] != name :: db.indexes[i]))
    case RenameTable(from, name) =>
      if from !in db.tables then Err(NoSuchTable)
      else if name in db.tables then Err(TableExists)
      else Ok(db.(tables := Retarget((db.tables - {from})[name := db.tables[from]], from, name),
                  indexes := map i | i in db.indexes :: if db.indexes[i] == from then name else db.indexes[i]))
    case InsertVersion(v) =>
      if db.versions.None? then Err(NoSuchTable) else Ok(db.(versions := Some(db.versions.value + [Integer(v)])))
    case UpdateVersion(v) =>
      if db.versions.None? then Err(NoSuchTable)
      else Ok(db.(versions := Some(seq(|db.versions.value|, i => Integer(v)))))
  }

  /** A rename follows the references to the renamed table. */
  function Retarget(tables: map<TableName, Table>, from: TableName, name: TableName): map<TableName, Table> {
    map t | t in tables ::
      if tables[t].shape.references == Some(from) then tables[t].(shape := tables[t].shape.(references := Some(name))) else tables[t]
  }

  // ---- The migrations --------------------------------------------------------------------------

  function Rebuild(name: TableName, temporary: TableName, shape: Shape, carried: set<Column>, added: Row): seq<Statement> {
    [CreateTable(temporary, shape, false), CopyInto(temporary, name, carried, added), DropTable(name), RenameTable(temporary, name)]
  }

  /** The statements that take a database from version `v` to the next. */
  function MigrationFrom(v: nat): seq<Statement>
    requires v < 6
  {
    match v
    case 0 =>
      [CreateVersionTable, CreateTable(DeviceIdentity, IdentityShape(1), true), CreateTable(ConfigCache, ConfigShape(), true),
       InsertVersion(1)]
    case 1 =>
      Rebuild(DeviceIdentity, DeviceIdentityV2, IdentityShape(2), IDENTITY_V1, map[OperationalState := Text("Operational")])
        + [UpdateVersion(2)]
    case 2 => [CreateTable(DetectionEvent, EventShape(3), true), CreateIndexIfMissing(EventIndex, DetectionEvent), UpdateVersion(3)]
    case 3 =>
      Rebuild(DetectionEvent, DetectionEventV4, EventShape(4), EVENT_V3, map[DeliveredAtUtc := Null])
        + [CreateIndexIfMissing(EventIndex, DetectionEvent), UpdateVersion(4)]
    case 4 => [CreateTable(SnapshotOutbox, OutboxShape(5), true), CreateIndexIfMissing(OutboxIndex, SnapshotOutbox), UpdateVersion(5)]
    case _ =>
      Rebuild(DetectionEvent, DetectionEventV6, EventShape(6), EVENT_V3 + {DeliveredAtUtc}, map[FinalizedAtUtc := Null])
        + [CreateIndexIfMissing(EventIndex, DetectionEvent)]
        + Rebuild(SnapshotOutbox, SnapshotOutboxV6, OutboxShape(6), OUTBOX_COLUMNS, map[])
        + [CreateIndexIfMissing(OutboxIndex, SnapshotOutbox), UpdateVersion(6)]
  }

  const CURRENT_VERSION: nat := 6

  /** Only the last migration runs with foreign keys off. */
  predicate KeysOnDuring(v: nat) {
    v != 5
  }

  datatype VersionState = Fresh | At(v: int) | Invalid

  function ReadVersion(db: Db): VersionState {
    if db.versions.None? then Fresh
    else if |db.versions.value| != 1 then Invalid
    else if !db.versions.value[0].Integer? || db.versions.value[0].n < 1 then Invalid
    else At(db.versions.value[0].n)
  }

  datatype Outcome = Ready(version: int) | Unsupported | InvalidState | Failed(error: SqlError) | Interrupted

  /** Work is counted in statements, each commit counting as one. */
  function Cost(v: nat): nat
    requires v < 6
  {
    |MigrationFrom(v)| + 1
  }

  function Remaining(i: Interruption, used: nat): Interruption
    requires i.Some? ==> used <= i.value
  {
    if i.None? then None else Some(i.value - used)
  }

  /** Runs statements on a working copy until one fails or the interruption strikes. */
  function Work(db: Db, statements: seq<Statement>, foreignKeys: bool, i: Interruption): Result<Db, Outcome>
    decreases |statements|
  {
    if i == Some(0) then Err(Interrupted)
    else if statements == [] then Ok(db)
    else
      match Exec(db, statements[0], foreignKeys)
      case Err(e) => Err(Failed(e))
      case Ok(next) => Work(next, statements[1..], foreignKeys, Remaining(i, 1))
  }

  /** One migration on the durable database: kept entirely or not at all. */
  function StepFrom(db: Db, v: nat, i: Interruption): StepResult<Db, Outcome> {
    if v >= CURRENT_VERSION then Ended(Unsupported)
    else
      match Work(db, MigrationFrom(v), KeysOnDuring(v), i)
      case Err(o) => Ended(o)
      case Ok(next) =>
        WorkCost(db, MigrationFrom(v), KeysOnDuring(v), i);
        Kept(next, Remaining(i, Cost(v)))
  }

  function Migrate(db: Db, v: nat, i: Interruption): (Db, Outcome) {
    if v > CURRENT_VERSION then (db, Unsupported)
    else
      var (end, stopped) := Run(db, v, CURRENT_VERSION, i, StepFrom);
      (end, if stopped.Some? then stopped.value else Ready(CURRENT_VERSION))
  }

  lemma {:induction false} WorkCost(db: Db, statements: seq<Statement>, foreignKeys: bool, i: Interruption)
    requires Work(db, statements, foreignKeys, i).Ok?
    ensures i.Some? ==> i.value >= |statements| + 1
    decreases |statements|
  {
    if statements != [] {
      WorkCost(Exec(db, statements[0], foreignKeys).value, statements[1..], foreignKeys, Remaining(i, 1));
    }
  }

  function Initialize(db: Db, i: Interruption): (Db, Outcome) {
    match ReadVersion(db)
    case Invalid => (db, InvalidState)
    case Fresh => Migrate(db, 0, i)
    case At(v) => Migrate(db, v, i)
  }

  /** How a call that has got this far ends. */
  function Progress(db: Db, version: nat, left: Interruption, failure: Option<Outcome>): (Db, Outcome) {
    if failure.Some? then (db, failure.value) else Migrate(db, version, left)
  }

  // ---- The connection --------------------------------------------------------------------------

  class Connection {
    var durable: Db
    var working: Db
    var inTransaction: bool
    var foreignKeys: bool

    constructor (durable: Db)
      ensures this.durable == durable && !inTransaction && foreignKeys
    {
      this.durable, working := durable, durable;
      inTransaction, foreignKeys := false, true;
    }

    /** One explicit transaction: every statement, then the commit; any failure rolls back. */
    method RunTransaction(statements: seq<Statement>, i: Interruption) returns (error: Option<Outcome>)
      requires !inTransaction
      modifies this`durable, this`working, this`inTransaction
      ensures !inTransaction
      ensures match Work(old(durable), statements, foreignKeys, i)
              case Ok(next) => error == None && durable == next
              case Err(o) => error == Some(o) && durable == old(durable)
    {
      working, inTransaction := durable, true;
      var n := 0;
      while n < |statements|
        invariant 0 <= n <= |statements| && durable == old(durable) && inTransaction
        invariant i.Some? ==> n <= i.value
        invariant Work(working, statements[n..], foreignKeys, Remaining(i, n)) == Work(old(durable), statements, foreignKeys, i)
      {
        if i == Some(n) {
          inTransaction := false;
          return Some(Interrupted);
        }
        assert statements[n..][0] == statements[n] && statements[n..][1..] == statements[n + 1..];
        match Exec(working, statements[n], foreignKeys) {
          case Err(e) =>
            inTransaction := false;
            return Some(Failed(e));
          case Ok(next) =>
            working := next;
        }
        n := n + 1;
      }
      assert statements[n..] == [];
      if i == Some(n) {
        inTransaction := false;
        return Some(Interrupted);
      }
      durable, inTransaction := working, false;
      return None;
    }

    /** One migration; the last one switches foreign keys off around its transaction and always back on. */
    method MigrateFrom(v: nat, i: Interruption) returns (error: Option<Outcome>)
      requires v < 6 && !inTransaction && foreignKeys
      modifies this
      ensures !inTransaction && foreignKeys
      ensures match Work(old(durable), MigrationFrom(v), KeysOnDuring(v), i)
              case Ok(next) => error == None && durable == next
              case Err(o) => error == Some(o) && durable == old(durable)
    {
      if v == 5 {
        foreignKeys := false;
        error := RunTransaction(MigrationFrom(v), i);
        foreignKeys := true;
      } else {
        error := RunTransaction(MigrationFrom(v), i);
      }
    }

    /** Takes one link of the chain when the database is at that version and nothing has failed yet. */
    method Advance(from: nat, version: nat, left: Interruption, failure: Option<Outcome>)
      returns (version': nat, left': Interruption, failure': Option<Outcome>)
      requires from < 6 && !inTransaction && foreignKeys
      modifies this
      ensures !inTransaction && foreignKeys
      ensures Progress(durable, version', left', failure') == Progress(old(durable), version, left, failure)
      ensures failure'.None? ==> failure.None? && version' == if version == from then from + 1 else version
    {
      version', left', failure' := version, left, failure;
      if failure.None? && version == from {
        failure' := MigrateFrom(from, left);
        if failure'.None? {
          WorkCost(old(durable), MigrationFrom(from), KeysOnDuring(from), left);
          version', left' := from + 1, Remaining(left, Cost(from));
        }
      }
    }

    method InitializeSchema(i: Interruption) returns (outcome: Outcome)
      requires !inTransaction && foreignKeys
      modifies this
      ensures (durable, outcome) == Initialize(old(durable), i)
      ensures !inTransaction && foreignKeys
    {
      var state := ReadVersion(durable);
      if state.Invalid? {
        return InvalidState;
      }
      var version, left, failure: Option<Outcome> := if state.Fresh? then 0 else state.v, i, None;
      version, left, failure := Advance(0, version, left, failure);
      version, left, failure := Advance(1, version, left, failure);
      version, left, failure := Advance(2, version, left, failure);
      version, left, failure := Advance(3, version, left, failure);
      version, left, failure := Advance(4, version, left, failure);
      version, left, failure := Advance(5, version, left, failure);
      if failure.Some? {
        return failure.value;
      }
      return if version == CURRENT_VERSION then Ready(version) else Unsupported;
    }
  }
}
