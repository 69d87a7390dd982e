/** The alert store of services/postgres_handler.py: table alertas_taticos
    as an in-memory map keyed by its unique column id_alerta, the upsert
    statement's insert-or-update rule, the lazy reconnect guard and the
    swallowing of every failed write. What the environment decides (whether
    the server accepts a connection, whether it drops the connection during
    a write, whether the driver and the server accept the bound values, the
    value of NOW()) comes in as parameters. */
module Store {
  import opened Values

  /** A psycopg2 connection object; `open` is false once it is closed or the
      server has dropped it. The object stays non-None either way. */
  datatype Connection = Connection(open: bool)

  /** A row of alertas_taticos without its surrogate `id SERIAL` column. */
  datatype Row = Row(
    timestamp: Value,
    source: Value,
    categoria: Value,
    severidade: Value,
    areaAfetada: Value,
    mensagemTatica: Value,
    briefingIa: Value,
    dataProcessamento: int)

  /** The table, keyed by id_alerta. */
  type Table = map<Value, Row>

  /** The exceptions a write can raise inside its `try`. */
  datatype WriteError =
    | NoConnection                  // `None.cursor()`
    | ConnectionClosed              // `cursor()` on a closed connection
    | MissingParameter(name: string) // a `%(name)s` placeholder without a key
    | NotNullViolation(column: string)
    | Rejected                      // any other driver or server error

  /** The named placeholders of the upsert statement, in statement order. */
  const Placeholders: seq<string> :=
    ["id_alerta", "timestamp", "source", "categoria", "severidade", "area_afetada", "mensagem_tática", "briefing"]

  /** The copy of the alert bound to the statement: the alert's own
      "briefing", or an empty JSON object when it has none. */
  function InsertParameters(alert: Payload): (params: Payload)
    ensures params.Keys == alert.Keys + {"briefing"}
    ensures forall k :: k in alert && k != "briefing" ==> params[k] == alert[k]
    ensures "briefing" in alert ==> params == alert
    ensures "briefing" !in alert ==> params["briefing"] == Map(map[])
  {
    Put(alert, "briefing", Get(alert, "briefing", Map(map[])))
  }

  /** The first placeholder, in statement order, that has no key. */
  function FirstMissing(params: Payload, names: seq<string>): (missing: Option<string>)
    ensures missing.None? <==> forall i :: 0 <= i < |names| ==> names[i] in params
    ensures missing.Some? ==> missing.value in names && missing.value !in params
  {
    if names == [] then None
    else if names[0] !in params then Some(names[0])
    else FirstMissing(params, names[1..])
  }

  /** Every placeholder has a key. */
  predicate Bindable(params: Payload) {
    && "id_alerta" in params && "timestamp" in params && "source" in params && "categoria" in params
    && "severidade" in params && "area_afetada" in params && "mensagem_tática" in params && "briefing" in params
  }

  lemma BindableIffNoneMissing(params: Payload)
    ensures Bindable(params) <==> FirstMissing(params, Placeholders).None?
  {
    if FirstMissing(params, Placeholders).None? {
      assert forall i :: 0 <= i < |Placeholders| ==> Placeholders[i] in params;
      assert Placeholders[0] in params && Placeholders[1] in params && Placeholders[2] in params;
      assert Placeholders[3] in params && Placeholders[4] in params && Placeholders[5] in params;
      assert Placeholders[6] in params && Placeholders[7] in params;
    }
  }

  /** The row the INSERT branch would create. */
  function NewRow(params: Payload, now: int): Row
    requires Bindable(params)
  {
    Row(params["timestamp"], params["source"], params["categoria"], params["severidade"],
        params["area_afetada"], params["mensagem_tática"], params["briefing"], now)
  }

  /** `INSERT ... ON CONFLICT (id_alerta) DO UPDATE SET severidade,
      mensagem_tatica, briefing_ia, data_processamento`. */
  function Upsert(table: Table, id: Value, row: Row): (updated: Table)
    ensures updated.Keys == table.Keys + {id}
    ensures forall k :: k in table && k != id ==> updated[k] == table[k]
  {
    if id in table then
      table[id := table[id].(severidade := row.severidade, mensagemTatica := row.mensagemTatica,
                             briefingIa := row.briefingIa, dataProcessamento := row.dataProcessamento)]
    else
      table[id := row]
  }

  /** A new id adds exactly one row, which is the inserted row. */
  lemma UpsertNewId(table: Table, id: Value, row: Row)
    requires id !in table
    ensures |Upsert(table, id, row)| == |table| + 1
    ensures Upsert(table, id, row)[id] == row
  {
  }

  /** An existing id keeps one row: its four mutable columns come from the
      new row, its event time, source, category and area stay. */
  lemma UpsertExistingId(table: Table, id: Value, row: Row)
    requires id in table
    ensures |Upsert(table, id, row)| == |table|
    ensures var r := Upsert(table, id, row)[id];
            && r.severidade == row.severidade && r.mensagemTatica == row.mensagemTatica
            && r.briefingIa == row.briefingIa && r.dataProcessamento == row.dataProcessamento
            && r.timestamp == table[id].timestamp && r.source == table[id].source
            && r.categoria == table[id].categoria && r.areaAfetada == table[id].areaAfetada
  {
  }

  /** Two writes with one id leave one row whose mutable columns are the
      second write's. */
  lemma UpsertLastWriteWins(table: Table, id: Value, first: Row, second: Row)
    ensures var t := Upsert(Upsert(table, id, first), id, second);
            && t.Keys == table.Keys + {id}
            && t[id].severidade == second.severidade && t[id].mensagemTatica == second.mensagemTatica
            && t[id].briefingIa == second.briefingIa && t[id].dataProcessamento == second.dataProcessamento
  {
  }

  /** Writing the same row again changes nothing but the processing time. */
  lemma UpsertResave(table: Table, id: Value, row: Row, later: int)
    ensures Upsert(Upsert(table, id, row), id, row.(dataProcessamento := later))
         == Upsert(table, id, row.(dataProcessamento := later))
  {
  }

  /** Everything the write needs: an open connection, a key for every
      placeholder, values for the NOT NULL columns and a driver that
      accepts the values. */
  predicate Writable(conn: Option<Connection>, params: Payload, accepted: bool) {
    && conn == Some(Connection(true))
    && Bindable(params)
    && params["id_alerta"] != Null
    && params["timestamp"] != Null
    && accepted
  }

  /** `cur.execute(query, data_to_insert)`: the upserted table, or the
      exception that the statement raises. */
  function Execute(table: Table, conn: Option<Connection>, params: Payload, accepted: bool, now: int)
    : (r: Result<Table, WriteError>)
    ensures r.Ok? <==> Writable(conn, params, accepted)
    ensures r.Ok? ==> r.value == Upsert(table, params["id_alerta"], NewRow(params, now))
    ensures conn.None? ==> r == Err(NoConnection)
  {
    BindableIffNoneMissing(params);
    if conn.None? then Err(NoConnection)
    else if !conn.value.open then Err(ConnectionClosed)
    else match FirstMissing(params, Placeholders)
      case Some(name) => Err(MissingParameter(name))
      case None =>
        if params["id_alerta"] == Null then Err(NotNullViolation("id_alerta"))
        else if params["timestamp"] == Null then Err(NotNullViolation("timestamp"))
        else if !accepted then Err(Rejected)
        else Ok(Upsert(table, params["id_alerta"], NewRow(params, now)))
  }

  /** The table after `save_alert`'s write: the upsert on success, the old
      table after any exception (logged and swallowed). */
  function Saved(table: Table, conn: Option<Connection>, alert: Payload, accepted: bool, now: int): Table {
    match Execute(table, conn, InsertParameters(alert), accepted, now)
    case Ok(updated) => updated
    case Err(_) => table
  }

  /** Saving the same alert again changes nothing but the processing time
      of its row. */
  lemma SaveResave(table: Table, conn: Option<Connection>, alert: Payload, accepted: bool, now: int, later: int)
    ensures Saved(Saved(table, conn, alert, accepted, now), conn, alert, accepted, later)
         == Saved(table, conn, alert, accepted, later)
  {
  }

  /** A failed write leaves the table as it was. */
  lemma FailedSaveChangesNothing(table: Table, conn: Option<Connection>, alert: Payload, accepted: bool, now: int)
    requires !Writable(conn, InsertParameters(alert), accepted)
    ensures Saved(table, conn, alert, accepted, now) == table
  {
  }

  /** A save touches at most the row of the alert's own id. */
  lemma SaveKeepsOtherRows(table: Table, conn: Option<Connection>, alert: Payload, accepted: bool, now: int)
    ensures var t := Saved(table, conn, alert, accepted, now);
            && table.Keys <= t.Keys
            && |t.Keys - table.Keys| <= 1
            && forall k :: k in table && k != Get(alert, "id_alerta", Null) ==> t[k] == table[k]
  {
  }

  /** A successful save of an id that is not yet in the table adds exactly
      the row made of the payload's fields. */
  lemma SaveNewAlert(table: Table, conn: Option<Connection>, alert: Payload, accepted: bool, now: int)
    requires Writable(conn, InsertParameters(alert), accepted)
    requires alert["id_alerta"] !in table
    ensures var t := Saved(table, conn, alert, accepted, now);
            && |t| == |table| + 1
            && t[alert["id_alerta"]] == Row(alert["timestamp"], alert["source"], alert["categoria"],
                                            alert["severidade"], alert["area_afetada"], alert["mensagem_tática"],
                                            Get(alert, "briefing", Map(map[])), now)
  {
  }

  /** A successful save of an id already in the table keeps a single row and
      replaces its severity, message, briefing and processing time only. */
  lemma SaveExistingAlert(table: Table, conn: Option<Connection>, alert: Payload, accepted: bool, now: int)
    requires Writable(conn, InsertParameters(alert), accepted)
    requires alert["id_alerta"] in table
    ensures var t := Saved(table, conn, alert, accepted, now);
            && |t| == |table|
            && t[alert["id_alerta"]] == table[alert["id_alerta"]].(
                 severidade := alert["severidade"], mensagemTatica := alert["mensagem_tática"],
                 briefingIa := Get(alert, "briefing", Map(map[])), dataProcessamento := now)
  {
  }

  /** The message column is bound from key "mensagem_tática" only: an alert
      without that key is never stored, whatever else it carries. */
  lemma AlertWithoutTacticalMessageIsNotStored(table: Table, conn: Option<Connection>, alert: Payload, accepted: bool, now: int)
    requires "mensagem_tática" !in alert
    ensures Saved(table, conn, alert, accepted, now) == table
  {
  }

  /** A closed connection is never replaced, so every later save fails. */
  lemma ClosedConnectionStoresNothing(table: Table, alert: Payload, accepted: bool, now: int)
    ensures Saved(table, Some(Connection(false)), alert, accepted, now) == table
  {
  }

  /** The connection after one `save_alert`: the guard connects only when
      there is no connection object, and a connection the server drops
      during the write is left closed by the driver. */
  function ConnAfterSave(conn: Option<Connection>, reachable: bool, dropped: bool): (after: Option<Connection>)
    ensures after.None? <==> conn.None? && !reachable
    ensures conn.None? && reachable && !dropped ==> after == Some(Connection(true))
    ensures conn == Some(Connection(false)) ==> after == conn
    ensures dropped ==> after != Some(Connection(true))
    ensures !dropped && conn.Some? ==> after == conn
  {
    var guarded := if conn.None? && reachable then Some(Connection(true)) else conn;
    if dropped && guarded.Some? then Some(Connection(false)) else guarded
  }

  /** A save with no connection object, a server that accepts one and keeps
      it, and writable parameters reconnects and stores the row. */
  lemma ReconnectedSaveStores(table: Table, alert: Payload, accepted: bool, now: int)
    requires Writable(Some(Connection(true)), InsertParameters(alert), accepted)
    ensures ConnAfterSave(None, true, false) == Some(Connection(true))
    ensures Saved(table, ConnAfterSave(None, true, false), alert, accepted, now)
         == Upsert(table, InsertParameters(alert)["id_alerta"], NewRow(InsertParameters(alert), now))
  {
  }

  /** A connection dropped during a save is never replaced: that save and
      every later one store nothing. */
  lemma DroppedConnectionStaysClosed(conn: Option<Connection>, reachable: bool, table: Table, alert: Payload,
                                     accepted: bool, now: int, laterReachable: bool, laterDropped: bool)
    requires ConnAfterSave(conn, reachable, true).Some?
    ensures ConnAfterSave(conn, reachable, true) == Some(Connection(false))
    ensures Saved(table, ConnAfterSave(conn, reachable, true), alert, accepted, now) == table
    ensures ConnAfterSave(ConnAfterSave(conn, reachable, true), laterReachable, laterDropped) == Some(Connection(false))
  {
  }

  /** `PostgresTacticalDB`, from an existing object on: the constructor's
      connection attempt may have left `conn` None. `saves` logs, in
      order, every dict handed to `save_alert`. */
  class TacticalDb {
    var conn: Option<Connection>
    var table: Table
    ghost var saves: seq<Payload>

    constructor Existing(conn: Option<Connection>, table: Table)
      ensures this.conn == conn && this.table == table && saves == []
    {
      this.conn := conn;
      this.table := table;
      saves := [];
    }

    /** `_connect`: never raises; on failure `conn` keeps its value. */
    method Connect(reachable: bool)
      modifies this`conn
      ensures conn == if reachable then Some(Connection(true)) else old(conn)
    {
      if reachable {
        conn := Some(Connection(true));
      }
    }

    /** `save_alert`: reconnects first when there is no connection object,
        then writes; a failed write is swallowed and leaves the table as it
        was. When the server drops the connection, the write fails and the
        driver marks the connection closed. The caller's dict is only read. */
    method SaveAlert(enrichedAlert: Dict, reachable: bool, dropped: bool, accepted: bool, now: int)
      modifies this`conn, this`table, this`saves
      ensures saves == old(saves) + [enrichedAlert.entries]
      ensures conn == ConnAfterSave(old(conn), reachable, dropped)
      ensures table == Saved(old(table), conn, enrichedAlert.entries, accepted, now)
    {
      saves := saves + [enrichedAlert.entries];
      if conn.None? {
        Connect(reachable);
      }
      if dropped && conn.Some? {
        conn := Some(Connection(false));
      }
      var dataToInsert := InsertParameters(enrichedAlert.entries);
      var outcome := Execute(table, conn, dataToInsert, accepted, now);
      match outcome {
        case Ok(updated) => table := updated;
        case Err(_) =>
      }
    }

    /** `close`: the connection object stays, closed. */
    method Close()
      modifies this`conn
      ensures conn == if old(conn).Some? then Some(Connection(false)) else None
    {
      if conn.Some? {
        conn := Some(Connection(false));
      }
    }
  }
}
