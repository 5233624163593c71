/** The `sessions` table and its transactions.

    Each transaction is a function on tables; `SessionStore` is the class that performs it in place,
    commits it, or rolls it back. Columns that are constants or derived from the id (hosts, paths,
    container name, date, dbs_json) are left out. */
module Store {
  import opened Config
  import opened Ports
  import opened Wrappers

  /** A uuid4 and a ticket key; only equality matters. */
  type Sid = nat
  type Ticket = nat

  datatype Status = Starting | Ready | Expired | Nuked | Error

  datatype DbCred = DbCred(name: string, user: string, password: string, tables: Option<seq<string>>)

  datatype Creds = Creds(dbs: seq<DbCred>, rootPassword: string)

  /** `creds_enc`: the placeholder byte of a fresh row, or a Fernet token. */
  datatype Blob = Placeholder | Token(payload: Creds)

  /** Why `reserve_session` raised: the allocator found no port, or the transaction itself failed. */
  datatype ReserveError = OutOfPorts | StoreRaised

  function Encrypt(c: Creds): Blob {
    Token(c)
  }

  /** Decrypting the placeholder byte raises (it is not a token). */
  function Decrypt(b: Blob): Option<Creds> {
    if b.Token? then Some(b.payload) else None
  }

  datatype Row = Row(
    id: Sid,
    ticket: Ticket,
    port: int,
    creds: Blob,
    createdAt: int,
    expiresAt: int,
    maxExtendedUntil: int,
    ttlExtended: bool,
    status: Status
  )

  type Table = map<Sid, Row>

  /** The statuses whose row holds its port. */
  predicate Live(s: Status) {
    s.Starting? || s.Ready? || s.Expired?
  }

  function LiveSids(t: Table): set<Sid> {
    set sid | sid in t && Live(t[sid].status)
  }

  function UsedPorts(t: Table): set<int> {
    set sid | sid in t && Live(t[sid].status) :: t[sid].port
  }

  /** The row a create inserts before it does any work. */
  function PlaceholderRow(sid: Sid, ticket: Ticket, createdAt: int, port: int): Row {
    Row(sid, ticket, port, Placeholder, createdAt, createdAt + PLACEHOLDER_SECONDS, createdAt, false, Starting)
  }

  // ---- what each transaction does to one row ----

  predicate DueExpired(r: Row, now: int) {
    (r.status.Ready? || r.status.Expired?) && r.expiresAt < now
  }

  predicate DueStuck(r: Row, now: int) {
    (r.status.Starting? || r.status.Error?) && r.expiresAt < now
  }

  function ExpireRow(r: Row, now: int): Row {
    if DueExpired(r, now) then r.(status := Expired) else r
  }

  function ReadyRow(r: Row, creds: Blob, expiresAt: int, maxExtendedUntil: int): Row {
    if r.status.Starting? then
      r.(status := Ready, creds := creds, expiresAt := expiresAt, maxExtendedUntil := maxExtendedUntil)
    else r
  }

  function MarkNukedRow(r: Row): Row {
    if r.status.Nuked? || r.status.Expired? then r else r.(status := Nuked)
  }

  function TtlRow(r: Row, expiresAt: int, ttlExtended: bool): Row {
    r.(expiresAt := expiresAt, ttlExtended := ttlExtended)
  }

  // ---- the transactions as functions on tables ----

  /** `reserve_session`: the table is unchanged when no port is free. */
  function Reserve(t: Table, cfg: Settings, sid: Sid, ticket: Ticket, createdAt: int): Table {
    match FirstFree(UsedPorts(t), cfg)
    case None => t
    case Some(p) => t[sid := PlaceholderRow(sid, ticket, createdAt, p)]
  }

  function ExpireDue(t: Table, now: int): Table {
    map sid | sid in t :: ExpireRow(t[sid], now)
  }

  /** An UPDATE of one id: no row, no change. */
  function UpdateRow(t: Table, sid: Sid, f: Row -> Row): Table {
    if sid in t then t[sid := f(t[sid])] else t
  }

  function WithStatus(t: Table, sid: Sid, status: Status): Table {
    UpdateRow(t, sid, (r: Row) => r.(status := status))
  }

  function WithReady(t: Table, sid: Sid, creds: Blob, expiresAt: int, maxExtendedUntil: int): Table {
    UpdateRow(t, sid, (r: Row) => ReadyRow(r, creds, expiresAt, maxExtendedUntil))
  }

  function WithMarkNuked(t: Table, sid: Sid): Table {
    UpdateRow(t, sid, (r: Row) => MarkNukedRow(r))
  }

  function WithTtl(t: Table, sid: Sid, expiresAt: int, ttlExtended: bool): Table {
    UpdateRow(t, sid, (r: Row) => TtlRow(r, expiresAt, ttlExtended))
  }

  /** `recs` lists, in some order and without repetition, exactly the rows of `t` that `due` selects. */
  ghost predicate Selects(recs: seq<Row>, t: Table, due: Row -> bool) {
    && (forall i | 0 <= i < |recs| :: recs[i].id in t && t[recs[i].id] == recs[i] && due(recs[i]))
    && (forall i, j | 0 <= i < j < |recs| :: recs[i].id != recs[j].id)
    && (forall sid | sid in t && due(t[sid]) :: exists i :: 0 <= i < |recs| && recs[i].id == sid)
  }

  /** Every row is stored under its own id (the primary key). */
  ghost predicate Keyed(t: Table) {
    forall sid | sid in t :: t[sid].id == sid
  }

  /** A SELECT without ORDER BY: the due rows in an unspecified order. */
  method Select(t: Table, due: Row -> bool) returns (recs: seq<Row>)
    requires Keyed(t)
    ensures Selects(recs, t, due)
  {
    recs := [];
    var todo := t.Keys;
    while todo != {}
      invariant todo <= t.Keys
      invariant forall i | 0 <= i < |recs| :: recs[i].id in t.Keys - todo && t[recs[i].id] == recs[i] && due(recs[i])
      invariant forall i, j | 0 <= i < j < |recs| :: recs[i].id != recs[j].id
      invariant forall sid | sid in t.Keys - todo && due(t[sid]) :: exists i :: 0 <= i < |recs| && recs[i].id == sid
      decreases |todo|
    {
      ghost var before, done := recs, t.Keys - todo;
      var sid :| sid in todo;
      if due(t[sid]) {
        recs := recs + [t[sid]];
        assert recs[|before|].id == sid;
      }
      todo := todo - {sid};
      forall k | k in t.Keys - todo && due(t[k])
        ensures exists i :: 0 <= i < |recs| && recs[i].id == k
      {
        if k in done {
          var i :| 0 <= i < |before| && before[i].id == k;
          assert recs[i].id == k;
        }
      }
    }
  }

  /** Which ports are taken: those of the rows in starting, ready or expired. */
  lemma UsedPortsExactly(t: Table, port: int)
    ensures port in UsedPorts(t) <==> exists sid ::
      sid in t && t[sid].port == port && (t[sid].status.Starting? || t[sid].status.Ready? || t[sid].status.Expired?)
  {
  }

  /** The SQLite-backed store. Every transaction may raise (lock timeout, disk error, failed COMMIT); whether
      it does is an input, `fails`. `_tx` then rolls back, so a raising method leaves `rows` as it was. */
  class SessionStore {
    var rows: Table

    constructor ()
      ensures rows == map[]
    {
      rows := map[];
    }

    /** The tail of `_tx`: commit, or roll back to what the transaction started from. */
    method Commit(before: Table, fails: bool) returns (raised: bool)
      modifies this
      ensures raised == fails
      ensures rows == if raised then before else old(rows)
    {
      raised := fails;
      if raised {
        rows := before;
      }
    }

    method ReserveSession(cfg: Settings, sid: Sid, ticket: Ticket, createdAt: int, fails: bool)
      returns (r: Result<Row, ReserveError>)
      requires sid !in rows
      modifies this
      ensures r == Failure(OutOfPorts) <==> cfg.PortRange() <= UsedPorts(old(rows))
      ensures r == Failure(StoreRaised) <==> fails && !(cfg.PortRange() <= UsedPorts(old(rows)))
      ensures r.Failure? ==> rows == old(rows)
      ensures r.Success? ==>
        && rows == old(rows)[sid := r.value] == Reserve(old(rows), cfg, sid, ticket, createdAt)
        && r.value.id == sid && r.value.ticket == ticket && r.value.status.Starting? && r.value.creds.Placeholder?
        && r.value.createdAt == createdAt && r.value.expiresAt == createdAt + 3600
        && r.value.maxExtendedUntil == createdAt && !r.value.ttlExtended
        && r.value.port in cfg.PortRange() - UsedPorts(old(rows))
        && forall p | p in cfg.PortRange() - UsedPorts(old(rows)) :: r.value.port <= p
    {
      var before := rows;
      var port := AllocatePort(UsedPorts(rows), cfg);
      match port
      case Failure(_) =>
        r := Failure(OutOfPorts);
      case Success(p) =>
        var record := PlaceholderRow(sid, ticket, createdAt, p);
        rows := rows[sid := record];
        var raised := Commit(before, fails);
        r := if raised then Failure(StoreRaised) else Success(record);
    }

    method Get(sid: Sid) returns (r: Option<Row>)
      ensures r == if sid in rows then Some(rows[sid]) else None
    {
      r := if sid in rows then Some(rows[sid]) else None;
    }

    /** The returned records are the overdue ready and expired rows as they were before the update. */
    method ClaimExpired(now: int, fails: bool) returns (raised: bool, recs: seq<Row>)
      requires Keyed(rows)
      modifies this
      ensures raised == fails
      ensures raised ==> rows == old(rows)
      ensures !raised ==>
        && Selects(recs, old(rows), (r: Row) => (r.status.Ready? || r.status.Expired?) && r.expiresAt < now)
        && Selects(recs, old(rows), r => DueExpired(r, now))
        && rows == ExpireDue(old(rows), now)
        && forall sid | sid in old(rows) ::
             rows[sid] == old(rows)[sid].(
               status := if old(rows)[sid].status.Ready? && old(rows)[sid].expiresAt < now then Expired
                         else old(rows)[sid].status)
    {
      var before := rows;
      recs := Select(rows, r => DueExpired(r, now));
      rows := map sid | sid in rows :: ExpireRow(rows[sid], now);
      raised := Commit(before, fails);
    }

    /** The returned records are the overdue starting and error rows; nothing changes. */
    method ClaimStuck(now: int, fails: bool) returns (raised: bool, recs: seq<Row>)
      requires Keyed(rows)
      modifies this
      ensures raised == fails && rows == old(rows)
      ensures !raised ==>
        && Selects(recs, rows, (r: Row) => (r.status.Starting? || r.status.Error?) && r.expiresAt < now)
        && Selects(recs, rows, r => DueStuck(r, now))
    {
      recs := Select(rows, r => DueStuck(r, now));
      raised := Commit(rows, fails);
    }

    method SetStatus(sid: Sid, status: Status, fails: bool) returns (raised: bool)
      modifies this
      ensures raised == fails
      ensures rows == if raised then old(rows) else WithStatus(old(rows), sid, status)
      ensures rows == if raised || sid !in old(rows) then old(rows)
                      else old(rows)[sid := old(rows)[sid].(status := status)]
    {
      var before := rows;
      if sid in rows {
        rows := rows[sid := rows[sid].(status := status)];
      }
      raised := Commit(before, fails);
    }

    method UpdateToReady(sid: Sid, creds: Blob, expiresAt: int, maxExtendedUntil: int, fails: bool)
      returns (raised: bool, moved: bool)
      modifies this
      ensures raised == fails
      ensures moved <==> sid in old(rows) && old(rows)[sid].status.Starting?
      ensures !raised ==> rows == WithReady(old(rows), sid, creds, expiresAt, maxExtendedUntil)
      ensures rows == if raised || !moved then old(rows)
                      else old(rows)[sid := old(rows)[sid].(
                             status := Ready, creds := creds, expiresAt := expiresAt,
                             maxExtendedUntil := maxExtendedUntil)]
    {
      var before := rows;
      moved := sid in rows && rows[sid].status.Starting?;
      if moved {
        rows := rows[sid := rows[sid].(
          status := Ready, creds := creds, expiresAt := expiresAt, maxExtendedUntil := maxExtendedUntil)];
      }
      raised := Commit(before, fails);
      assert sid in before ==> before[sid := before[sid]] == before;
    }

    method MarkNuked(sid: Sid, fails: bool) returns (raised: bool)
      modifies this
      ensures raised == fails
      ensures rows == if raised then old(rows) else WithMarkNuked(old(rows), sid)
      ensures rows == if raised || sid !in old(rows) || old(rows)[sid].status.Nuked? || old(rows)[sid].status.Expired?
                      then old(rows)
                      else old(rows)[sid := old(rows)[sid].(status := Nuked)]
    {
      var before := rows;
      if sid in rows && !rows[sid].status.Nuked? && !rows[sid].status.Expired? {
        rows := rows[sid := rows[sid].(status := Nuked)];
      }
      raised := Commit(before, fails);
      assert sid in before ==> before[sid := before[sid]] == before;
    }

    method UpdateTtl(sid: Sid, expiresAt: int, ttlExtended: bool, fails: bool) returns (raised: bool)
      modifies this
      ensures raised == fails
      ensures rows == if raised then old(rows) else WithTtl(old(rows), sid, expiresAt, ttlExtended)
      ensures rows == if raised || sid !in old(rows) then old(rows)
                      else old(rows)[sid := old(rows)[sid].(expiresAt := expiresAt, ttlExtended := ttlExtended)]
    {
      var before := rows;
      if sid in rows {
        rows := rows[sid := TtlRow(rows[sid], expiresAt, ttlExtended)];
      }
      raised := Commit(before, fails);
    }
  }
}
