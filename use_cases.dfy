/** ProcessAlertUseCase of app/use_cases.py against the analyzer interface
    of domain/interfaces.py, the analyzer main.py wires in, and the callback
    that the queue consumer runs for each decoded message. */
module UseCases {
  import opened Values
  import opened Tactical
  import opened Store
  import opened Entities
  import opened Repository

  /** An AIAnalyzer, as what `analyze_threat` returns: the contents of the
      new dict it builds for a raw dict. */
  type AIAnalyzer = Payload -> Payload

  /** The analyzer main.py wires in: TacticalAIAnalyzer, with the model's
      answers to the requests it builds. */
  function TacticalAIAnalyzer(analyzer: TacticalAnalyzer, model: Request -> Option<Value>): AIAnalyzer {
    raw => AnalyzeThreat(analyzer, raw, model)
  }

  /** What the database side decides during one message: whether the server
      accepts a connection, whether it drops the connection during the write,
      whether the driver and the server accept the bound values, and the
      server's NOW(). */
  datatype Environment = Environment(dbReachable: bool, dbDrops: bool, driverAccepts: bool, now: int)

  /** `raw_alert_data.get('id_alerta', 'unknown')` */
  function AlertId(raw: Payload): (id: Value)
    ensures "id_alerta" in raw ==> id == raw["id_alerta"]
    ensures "id_alerta" !in raw ==> id == Str("unknown")
  {
    Get(raw, "id_alerta", Str("unknown"))
  }

  /** The dict the repository hands to the store for an Alert built by
      `execute`: the analyzer's answer when it is non-empty, the raw dict
      otherwise, after the id check with AlertId(raw). */
  function StoredRecord(raw: Payload, enriched: Payload): (record: Payload)
    ensures "id_alerta" in record
    ensures Truthy(Map(enriched)) ==>
              && record.Keys == enriched.Keys + {"id_alerta"}
              && forall k :: k in enriched ==> record[k] == enriched[k]
    ensures Truthy(Map(enriched)) && "id_alerta" !in enriched ==> record["id_alerta"] == AlertId(raw)
    ensures !Truthy(Map(enriched)) ==>
              && record.Keys == raw.Keys + {"id_alerta"}
              && record["id_alerta"] == AlertId(raw)
              && forall k :: k in raw ==> record[k] == raw[k]
  {
    WithId(if |enriched| > 0 then enriched else raw, AlertId(raw))
  }

  /** What the id check does to any enrichment of `raw` that adds only a
      "briefing": the raw keys survive and the id is AlertId(raw). */
  lemma IdentifiedEnrichment(raw: Payload, enriched: Payload)
    requires enriched.Keys == raw.Keys + {"briefing"}
    requires forall k :: k in raw && k != "briefing" ==> enriched[k] == raw[k]
    ensures WithId(enriched, AlertId(raw)).Keys == raw.Keys + {"briefing", "id_alerta"}
    ensures WithId(enriched, AlertId(raw))["id_alerta"] == AlertId(raw)
    ensures forall k :: k in raw && k != "briefing" ==> WithId(enriched, AlertId(raw))[k] == raw[k]
  {
  }

  /** With the tactical analyzer the answer is never empty, so the record
      stored is the analysis: every raw key but "briefing" with its raw
      value, the briefing, and AlertId(raw) as its id ("unknown" when the
      raw alert has none). */
  lemma TacticalRecord(analyzer: TacticalAnalyzer, model: Request -> Option<Value>, raw: Payload)
    ensures var enriched := TacticalAIAnalyzer(analyzer, model)(raw);
            && Truthy(Map(enriched))
            && var record := StoredRecord(raw, enriched);
            && record.Keys == raw.Keys + {"briefing", "id_alerta"}
            && record["id_alerta"] == AlertId(raw)
            && record["briefing"] == enriched["briefing"]
            && forall k :: k in raw && k != "briefing" ==> record[k] == raw[k]
  {
    var enriched := TacticalAIAnalyzer(analyzer, model)(raw);
    assert enriched == AnalyzeThreat(analyzer, raw, model);
    NonEmptyWithKey(enriched, "briefing");
    IdentifiedEnrichment(raw, enriched);
  }

  class ProcessAlertUseCase {
    const analyzer: AIAnalyzer
    const repository: PostgresAlertRepository

    constructor (analyzer: AIAnalyzer, repository: PostgresAlertRepository)
      ensures this.analyzer == analyzer && this.repository == repository
    {
      this.analyzer := analyzer;
      this.repository := repository;
    }

    /** `execute`: analyse the raw dict, build the Alert from the id, the raw
        dict and the analysis, and save it: the store receives exactly one
        dict, StoredRecord of the raw dict and the analysis. The raw dict
        changes only when the analysis is empty, and then it is the record
        written in place. */
    method Execute(rawAlertData: Dict, env: Environment)
      modifies rawAlertData, repository.db
      ensures var raw := old(rawAlertData.entries);
              && repository.db.saves == old(repository.db.saves) + [StoredRecord(raw, analyzer(raw))]
              && (Truthy(Map(analyzer(raw))) ==> rawAlertData.entries == raw)
              && (!Truthy(Map(analyzer(raw))) ==> rawAlertData.entries == StoredRecord(raw, analyzer(raw)))
      ensures var raw := old(rawAlertData.entries);
              var db := repository.db;
              && db.conn == ConnAfterSave(old(db.conn), env.dbReachable, env.dbDrops)
              && db.table == Saved(old(db.table), db.conn, StoredRecord(raw, analyzer(raw)), env.driverAccepts, env.now)
    {
      var alertId := AlertId(rawAlertData.entries);
      var enriched := analyzer(rawAlertData.entries);
      var enrichedData := new Dict(enriched);
      var alert := new Alert(alertId, rawAlertData, enrichedData);
      assert SelectRecord(alert).entries == (if |enriched| > 0 then enriched else rawAlertData.entries);
      repository.SaveAlert(alert, env.dbReachable, env.dbDrops, env.driverAccepts, env.now);
    }
  }

  /** main.py's `alert_callback` for one decoded message: a JSON object is
      processed; any other value has no `.get`, so `execute` raises at its
      first line, the callback logs the error, and nothing changes. */
  method AlertCallback(useCase: ProcessAlertUseCase, data: Value, env: Environment)
    modifies useCase.repository.db
    ensures !data.Map? ==> unchanged(useCase.repository.db)
    ensures data.Map? ==>
              var db := useCase.repository.db;
              && db.saves == old(db.saves) + [StoredRecord(data.fields, useCase.analyzer(data.fields))]
              && db.conn == ConnAfterSave(old(db.conn), env.dbReachable, env.dbDrops)
              && db.table == Saved(old(db.table), db.conn, StoredRecord(data.fields, useCase.analyzer(data.fields)),
                                   env.driverAccepts, env.now)
  {
    if data.Map? {
      var raw := new Dict(data.fields);
      useCase.Execute(raw, env);
    }
  }
}
