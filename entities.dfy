/** The Alert entity of domain/entities.py: a mutable record holding the
    alert's id, the raw dict it arrived as and, once analysed, the enriched
    dict. The dicts are heap objects shared with whoever built the alert. */
module Entities {
  import opened Values

  class Alert {
    var id: Value
    var rawData: Dict
    var enrichedData: Dict?

    /** `Alert(id=..., raw_data=..., enriched_data=...)` */
    constructor (id: Value, rawData: Dict, enrichedData: Dict?)
      ensures this.id == id && this.rawData == rawData && this.enrichedData == enrichedData
    {
      this.id := id;
      this.rawData := rawData;
      this.enrichedData := enrichedData;
    }

    /** `Alert(id=..., raw_data=...)`: enriched_data defaults to None. */
    constructor Unenriched(id: Value, rawData: Dict)
      ensures this.id == id && this.rawData == rawData && this.enrichedData == null
    {
      this.id := id;
      this.rawData := rawData;
      this.enrichedData := null;
    }

    /** `mark_enriched`: sets enriched_data whatever it held before, and
        leaves the id, the raw dict and every dict's contents alone. */
    method MarkEnriched(enrichedData: Dict)
      modifies this`enrichedData
      ensures this.enrichedData == enrichedData
      ensures id == old(id) && rawData == old(rawData)
    {
      this.enrichedData := enrichedData;
    }
  }
}
