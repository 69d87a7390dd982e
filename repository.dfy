/** PostgresAlertRepositoryAdapter of infra/postgres_repository.py: picks
    the alert's enriched dict, or its raw dict when there is none, makes sure
    that dict carries an "id_alerta" (writing into the alert's own dict), and
    hands it to the store. */
module Repository {
  import opened Values
  import opened Store
  import opened Entities

  /** `alert.enriched_data if alert.enriched_data else alert.raw_data`:
      a dict is truthy when it has an entry. */
  function SelectRecord(alert: Alert): (record: Dict)
    reads alert, alert.enrichedData
    ensures alert.enrichedData != null && Truthy(Map(alert.enrichedData.entries)) ==> record == alert.enrichedData
    ensures (alert.enrichedData == null || !Truthy(Map(alert.enrichedData.entries))) ==> record == alert.rawData
  {
    if alert.enrichedData != null && |alert.enrichedData.entries| > 0 then alert.enrichedData else alert.rawData
  }

  /** The record after the id check: an "id_alerta" already there is kept,
      a missing one is set to `id`, and no other key changes. */
  function WithId(record: Payload, id: Value): (r: Payload)
    ensures r.Keys == record.Keys + {"id_alerta"}
    ensures forall k :: k in record ==> r[k] == record[k]
    ensures "id_alerta" !in record ==> r["id_alerta"] == id
  {
    if "id_alerta" in record then record else Put(record, "id_alerta", id)
  }

  /** Saving twice adds nothing: the id check is idempotent. */
  lemma WithIdIdempotent(record: Payload, id: Value, other: Value)
    ensures WithId(WithId(record, id), other) == WithId(record, id)
  {
  }

  class PostgresAlertRepository {
    const db: TacticalDb

    constructor (db: TacticalDb)
      ensures this.db == db
    {
      this.db := db;
    }

    /** `save_alert`: the chosen dict is updated in place, then passed once
        to the store; the alert's fields keep pointing at the same dicts. */
    method SaveAlert(alert: Alert, reachable: bool, dropped: bool, accepted: bool, now: int)
      modifies db, SelectRecord(alert)
      ensures var record := old(SelectRecord(alert));
              && record.entries == WithId(old(record.entries), alert.id)
              && db.saves == old(db.saves) + [record.entries]
              && db.conn == ConnAfterSave(old(db.conn), reachable, dropped)
              && db.table == Saved(old(db.table), db.conn, record.entries, accepted, now)
    {
      var dataToSave := SelectRecord(alert);
      if "id_alerta" !in dataToSave.entries {
        dataToSave.entries := dataToSave.entries["id_alerta" := alert.id];
      }
      db.SaveAlert(dataToSave, reachable, dropped, accepted, now);
    }
  }
}
