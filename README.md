# odin-core: the per-message alert pipeline in Dafny

odin-core takes raw civil-defence alerts from a queue, one at a time. For each alert it:

- asks a generative model for a tactical briefing, with a fixed fallback briefing when anything fails;
- resolves the record to persist;
- upserts that record into the PostgreSQL table `alertas_taticos`.

This project models that pipeline and proves what each step promises. It has six modules:

- `Values` (`values.dfy`): decoded JSON values (`Value`), alert dicts as string-keyed maps (`Payload`), Python truthiness, `dict.get`, the `{**d, k: v}` spread, and heap-allocated dicts (`Dict`). `Dict` makes in-place writes and aliasing between the alert, the repository and the store visible.
- `Tactical` (`tactical.dfy`): `TacticalAIAnalyzer` from `services/gemini_handler.py`. It covers:
  - construction and its API-key check;
  - the five-zone perimeter table and the perimeter-context lookup: `str.upper`, the substring test, the comprehension and `" | ".join`;
  - field extraction with its defaults;
  - the merge of the model's briefing, or of the fallback, into a new mapping.

  The model call and the `json.loads` of its answer together are a parameter `model: Request -> Option<Value>`, where `None` means that either one raised.
- `Store` (`store.dfy`): `PostgresTacticalDB` from `services/postgres_handler.py`, as a class `TacticalDb`. It holds:
  - the connection, as `Option<Connection>`: `None` when no connection object exists, and a closed connection stays a non-`None` object;
  - the table, as `map<Value, Row>` keyed by `id_alerta`.

  The module covers the lazy reconnect guard, `_connect`, `close`, and the copy whose briefing defaults to `{}`. The write itself is the pure function `Execute`. It returns the upserted table or the exception the statement raises: no connection, a closed connection, a missing placeholder key, a NOT NULL violation, or a value the driver or server refuses. `save_alert` swallows every one of these. What the environment decides is passed in as a parameter: whether the server accepts a connection, whether it drops the connection during the write, whether the bound values are accepted, and `NOW()`.
- `Entities` (`entities.dfy`): the `Alert` dataclass of `domain/entities.py` and `mark_enriched`.
- `Repository` (`repository.dfy`): `PostgresAlertRepositoryAdapter.save_alert` from `infra/postgres_repository.py`. It chooses the enriched dict or the raw dict, writes a missing `id_alerta` into that dict in place, and calls the store once.
- `UseCases` (`use_cases.dfy`): `ProcessAlertUseCase.execute` from `app/use_cases.py` and `alert_callback` from `main.py`.
  - The analyzer is held through the `AIAnalyzer` interface of `domain/interfaces.py`, as the function from a raw dict to the contents of the new dict it returns.
  - `TacticalAIAnalyzer(analyzer, model)` is the analyzer that `main.py` wires in.
  - The store keeps a ghost log, `saves`, of every dict handed to its `save_alert`, in order. Each `save_alert` appends its argument to the log. `execute` is proved to append exactly one entry to it.

Behaviours of the code worth noting:

- The reconnect guard in `save_alert` fires only when `conn` is `None` (`services/postgres_handler.py:58-59`). A connection that was closed is never replaced, so every later write fails and is swallowed (`Store.ClosedConnectionStoresNothing`). A connection the server drops during a write is left closed by the driver, so the same holds from then on (`Store.DroppedConnectionStaysClosed`).
- `mark_enriched` has no once-only guard, so a second call overwrites the first.
- The raw dict is not immutable under every analyzer. When an analyzer returns an empty dict and the raw dict has no 'id_alerta', the repository writes the id into the raw dict itself. An analyzer that returned its own argument would expose the raw dict in the same way; the model does not represent such an analyzer (see `## Left out`). The tactical analyzer never returns an empty dict, and it always builds a new one.
- The extraction defaults are Portuguese strings ('Desconhecida', 'Evento Geral', 'Desconhecido').

## Model

| member | source | states |
|---|---|---|
| `Values.Put` | services/gemini_handler.py:109 | the spread `{**p, key: v}` has every key of `p` plus `key`, maps `key` to `v`, and keeps every other entry |
| `Values.Truthy` | infra/postgres_repository.py:19 | Python truthiness: None, False, 0 and empty strings, lists and dicts are false, everything else is true |
| `Values.Get` | app/use_cases.py:12 | `dict.get(key, default)`: the key's value when present, the default otherwise |
| `Tactical.NewTacticalAnalyzer` | services/gemini_handler.py:9-14 | construction fails with ValueError exactly when the API key is empty; otherwise the analyzer carries the perimeter table |
| `Tactical.UpperChar` | services/gemini_handler.py:69 | upper-casing one character leaves no lower-case letter and changes only lower-case letters |
| `Tactical.Upper` | services/gemini_handler.py:69 | `str.upper` leaves no lower-case letter in the string |
| `Tactical.UpperConcat` | services/gemini_handler.py:69 | upper-casing works character by character: the upper case of a concatenation is the concatenation of the upper cases |
| `Tactical.UpperOfUpperCase` | services/gemini_handler.py:69 | a string with no lower-case letter is its own upper case |
| `Tactical.UpperIdempotent` | services/gemini_handler.py:69 | upper-casing twice is upper-casing once |
| `Tactical.UpperInfix` | services/gemini_handler.py:69 | upper-casing a string in three pieces upper-cases each piece |
| `Tactical.PerimeterKeysAreUpper` | services/gemini_handler.py:59-65 | every key of the perimeter table is already upper case |
| `Tactical.Contains` | services/gemini_handler.py:70 | `key in s`: the empty key occurs in every string, and a key that occurs is no longer than the string |
| `Tactical.ContainsIff` | services/gemini_handler.py:70 | `key in s` holds exactly when some position of `s` starts an occurrence of `key` |
| `Tactical.ContainsPrefix` | services/gemini_handler.py:70 | a string contains each of its prefixes |
| `Tactical.ContainsInfix` | services/gemini_handler.py:70 | `p + w + q` contains `w` |
| `Tactical.ContainsShift` | services/gemini_handler.py:70 | putting text in front of a string keeps every substring it had |
| `Tactical.Matches` | services/gemini_handler.py:70 | the comprehension yields at most one description per zone |
| `Tactical.MatchesMember` | services/gemini_handler.py:70 | a description is in the comprehension exactly when some zone that carries it has its key inside the upper-cased location |
| `Tactical.MatchesAppend` | services/gemini_handler.py:70 | the comprehension follows table order: matching a table in two parts concatenates the two results |
| `Tactical.Join` | services/gemini_handler.py:73 | a non-empty join starts with its first part |
| `Tactical.JoinContainsParts` | services/gemini_handler.py:73 | every part occurs in the joined context, whatever the separator |
| `Tactical.TacticalContext` | services/gemini_handler.py:67-74 | a location in which no zone key occurs, once upper-cased, gets the outside-perimeter sentence |
| `Tactical.DescriptionsAreNotTheDefault` | services/gemini_handler.py:59-74 | no zone description can be mistaken for the outside-perimeter sentence: they differ in the first character |
| `Tactical.ContextIsDefaultIffNoZone` | services/gemini_handler.py:67-74 | the context is the outside-perimeter sentence exactly when no zone key occurs in the upper-cased location, and it is never empty |
| `Tactical.ContextNamesMatchedZone` | services/gemini_handler.py:67-73 | every zone whose key occurs in the upper-cased location has its description in the context |
| `Tactical.UpperKeepsOccurrence` | services/gemini_handler.py:69-70 | an occurrence of `w` in `s` is an occurrence of `upper(w)` in `upper(s)` |
| `Tactical.CaseInsensitiveMatch` | services/gemini_handler.py:59-73 | a location that contains a zone's key, written in any case, gets that zone's description |
| `Tactical.ContextIgnoresCase` | services/gemini_handler.py:67-74 | the context of a location and of its upper case are the same |
| `Tactical.LemeUpper` | services/gemini_handler.py:69 | "Leme/SP" upper-cases to "LEME/SP" |
| `Tactical.LemeMatches` | services/gemini_handler.py:59-70 | in "LEME/SP" only the LEME key occurs |
| `Tactical.LemeContext` | services/gemini_handler.py:59-74 | the context of "Leme/SP" is exactly the secondary base's description |
| `Tactical.ExtractFields` | services/gemini_handler.py:81 | the message is the tactical message when that is truthy, and the description (default '') otherwise; the message is truthy exactly when the tactical message or the description is |
| `Tactical.ExtractionDefaults` | services/gemini_handler.py:79-82 | severity, category and area are the alert's values when present and 'Desconhecida', 'Evento Geral', 'Desconhecido' otherwise; with neither message key the message is '' |
| `Tactical.BuildRequest` | services/gemini_handler.py:79-87 | a request is built exactly when the affected area is a string (anything else has no `.upper()` and raises inside the `try`). It then carries the extracted category, severity and message, the area as its location, and the perimeter context of that area |
| `Tactical.Briefing` | services/gemini_handler.py:103-122 | the briefing is the fallback when no request could be built, and otherwise either the fallback or the model's parsed answer to the request |
| `Tactical.AnalyzeThreat` | services/gemini_handler.py:76-122 | the result is a new mapping with the input's keys plus "briefing", and every other key keeps its value; it is total, so nothing escapes for a mapping input |
| `Tactical.AnalyzeThreatSucceeds` | services/gemini_handler.py:103-109 | when the request is built and the model's answer parses, the result is the input with only "briefing" set to the parsed answer |
| `Tactical.AnalyzeThreatFallsBack` | services/gemini_handler.py:111-122 | when the area is not a string, or the call or the parse fails, the result is the input with "briefing" set to the fallback briefing |
| `Tactical.FallbackEscalates` | services/gemini_handler.py:114-121 | the fallback briefing (the constant `Tactical.FallbackBriefing`) has exactly four keys: the "Erro de Análise" threat level, a two-step plan and a family-contact flag that is true |
| `Store.InsertParameters` | services/postgres_handler.py:77-78 | the bound copy has the alert's keys plus "briefing", is the alert itself when it has a briefing, and binds `{}` as the briefing otherwise |
| `Store.FirstMissing` | services/postgres_handler.py:66-67 | no placeholder is reported missing exactly when every placeholder has a key; a reported one has no key |
| `Store.Bindable` | services/postgres_handler.py:66-67 | every one of the eight named placeholders has a key in the bound dict |
| `Store.NewRow` | services/postgres_handler.py:62-68 | the inserted row takes its columns from the placeholders bound to them, and `data_processamento` from `NOW()` |
| `Store.BindableIffNoneMissing` | services/postgres_handler.py:61-68 | the statement's eight placeholders are all bound exactly when none of them is missing |
| `Store.Upsert` | services/postgres_handler.py:61-73 | the table afterwards has the old ids plus the written id, and every other row is untouched |
| `Store.UpsertNewId` | services/postgres_handler.py:62-68 | a new id adds exactly one row, the inserted one |
| `Store.UpsertExistingId` | services/postgres_handler.py:69-73 | on conflict the row count stays; severidade, mensagem_tatica, briefing_ia and data_processamento come from the new row; timestamp, source, categoria and area_afetada stay |
| `Store.UpsertLastWriteWins` | services/postgres_handler.py:69-73 | two writes with one id leave one row whose mutable columns are the second write's |
| `Store.UpsertResave` | services/postgres_handler.py:69-73 | writing the same row again changes nothing but data_processamento |
| `Store.Writable` | services/postgres_handler.py:80-82 | the conditions under which `cur.execute` does not raise: an open connection, every placeholder bound, non-NULL id_alerta and timestamp, and values the driver accepts |
| `Store.Execute` | services/postgres_handler.py:80-82 | the statement succeeds exactly when the connection is open, every placeholder is bound, id_alerta and timestamp are not NULL (the NOT NULL columns at 39-40) and the driver accepts the values; it then upserts the row built from the parameters; with no connection object it fails |
| `Store.Saved` | services/postgres_handler.py:77-85 | the table after `save_alert`'s write: the upsert of the bound copy on success, the old table after the swallowed exception |
| `Store.SaveResave` | services/postgres_handler.py:56-85 | saving the same alert twice leaves what one save at the later time leaves |
| `Store.FailedSaveChangesNothing` | services/postgres_handler.py:80-85 | a failed write is swallowed and leaves the table unchanged |
| `Store.SaveKeepsOtherRows` | services/postgres_handler.py:69 | a save adds at most one id and never changes a row with another id_alerta |
| `Store.SaveNewAlert` | services/postgres_handler.py:62-68 | saving a new id adds exactly one row, built from the alert's fields, with mensagem_tatica read from 'mensagem_tática' and `{}` as the briefing when the alert has none |
| `Store.SaveExistingAlert` | services/postgres_handler.py:69-73 | saving an existing id keeps one row and replaces only its severity, message, briefing and processing time |
| `Store.AlertWithoutTacticalMessageIsNotStored` | services/postgres_handler.py:67 | an alert without the key 'mensagem_tática' is never stored, whatever else it carries (for example a 'descricao' alone) |
| `Store.ClosedConnectionStoresNothing` | services/postgres_handler.py:58-59 | with a closed connection object the guard does not reconnect and no save changes the table |
| `Store.TacticalDb.Connect` | services/postgres_handler.py:26-32 | `_connect` never raises; on success the connection is open, on failure `conn` keeps its value |
| `Store.ConnAfterSave` | services/postgres_handler.py:58-59 | after a save there is a connection object unless there was none and the server refused one; with no object, a server that accepts and no drop, the new connection is open; a closed connection stays as it is; a connection dropped during the write is not open afterwards; without a drop an existing object is kept |
| `Store.ReconnectedSaveStores` | services/postgres_handler.py:56-82 | a save that starts with no connection object, against a server that accepts and keeps the connection, reconnects and upserts the row built from writable parameters |
| `Store.DroppedConnectionStaysClosed` | services/postgres_handler.py:58-85 | a connection dropped during a save is closed afterwards, that save stores nothing, and no later save replaces it |
| `Store.TacticalDb.SaveAlert` | services/postgres_handler.py:56-85 | appends the dict it is given to the save log; reconnects only when there is no connection object, and a connection the server drops during the write ends closed; the table is the upsert on success and unchanged on any failure; the caller's dict is not modified |
| `Store.TacticalDb.Close` | services/postgres_handler.py:87-89 | a present connection becomes a closed one and stays present; no connection stays none |
| `Entities.Alert.constructor` | domain/entities.py:4-8 | the alert holds the given id, raw dict and enriched dict |
| `Entities.Alert.Unenriched` | domain/entities.py:8 | without an enriched dict, enriched_data is None |
| `Entities.Alert.MarkEnriched` | domain/entities.py:10-11 | sets enriched_data to its argument whatever it held before, and changes neither id nor raw_data |
| `Repository.SelectRecord` | infra/postgres_repository.py:19 | the record is the enriched dict when that is present and non-empty, and the raw dict otherwise |
| `Repository.WithId` | infra/postgres_repository.py:21-22 | afterwards the record has an id_alerta; an existing one is kept, a missing one becomes the alert's id, and no other key is added, removed or changed |
| `Repository.WithIdIdempotent` | infra/postgres_repository.py:21-22 | a second id check changes nothing |
| `Repository.PostgresAlertRepository.constructor` | infra/postgres_repository.py:14-15 | the repository holds the store it is given; the source builds its own `PostgresTacticalDB()`, whose constructor is not modelled (see `## Left out`) |
| `Repository.PostgresAlertRepository.SaveAlert` | infra/postgres_repository.py:17-23 | the chosen dict itself gets the id check; the store is then called once, with that same dict, which is the one entry added to its save log |
| `UseCases.TacticalAIAnalyzer` | infra/gemini_analyzer.py:13-18 | the analyzer main.py wires in (main.py:20): `analyze_threat` of the tactical analyzer with the given model |
| `UseCases.AlertId` | app/use_cases.py:12 | the alert id is the raw 'id_alerta' when present and 'unknown' otherwise |
| `UseCases.StoredRecord` | app/use_cases.py:16-22 | the record the pipeline stores always has an id_alerta. For a non-empty analysis it is the analysis plus the id, which is AlertId(raw) when the analysis has none. For an empty one it is the raw dict with AlertId(raw) |
| `UseCases.IdentifiedEnrichment` | infra/postgres_repository.py:21-22 | the id check on an analysis that adds only "briefing" keeps the raw keys and sets the id to AlertId(raw) |
| `UseCases.TacticalRecord` | app/use_cases.py:16-22 | with the tactical analyzer the analysis is never empty. The stored record then has the raw keys plus "briefing" and "id_alerta", the raw values, the briefing, and AlertId(raw) as its id ('unknown' when the raw alert has none) |
| `UseCases.ProcessAlertUseCase.constructor` | app/use_cases.py:7-9 | the use case holds the given analyzer and repository |
| `UseCases.ProcessAlertUseCase.Execute` | app/use_cases.py:11-23 | the store receives exactly one dict, StoredRecord of the raw dict and the analyzer's answer, i.e. the record of the Alert made of AlertId(raw), the raw dict and the analysis. The raw dict changes only when the analysis is empty. The connection and the table end as that one save leaves them: the guard, a possible drop, then the write |
| `UseCases.AlertCallback` | main.py:27-31 | a JSON object is processed by execute: the store receives exactly one dict, the StoredRecord of the object, and the connection and the table end as that save leaves them. Any other message makes execute raise at its first line, the callback swallows it, and nothing changes |

## Left out

- The queue consumer loop (`infra/redis_consumer.py`), `json.loads` of queue messages, the process bootstrap and KeyboardInterrupt exit in `main.py`, `config.py` and all logging: transport I/O, an infinite loop, and environment loading. The callback is modelled for one already-decoded message.
- The interfaces of `domain/interfaces.py`: Dafny traits are not used here. `AIAnalyzer` is a function type. The repository and the store are concrete classes, since the wired-in code uses one implementation of each. `MessageConsumer` is not modelled.
- The import-time stub store of `infra/postgres_repository.py:5-11`, whose `save_alert` does nothing. It is used only when `services/postgres_handler.py` cannot be imported.
- Repository.PostgresAlertRepository.constructor: the repository is given an existing store rather than building `PostgresTacticalDB()` itself, because that constructor is not modelled (below).
- `infra/gemini_analyzer.py`: it only delegates to `TacticalAIAnalyzer`, which is what `UseCases.TacticalAIAnalyzer` wires in. Its import-time stub, which does not merge the input keys, is not modelled.
- The prompt text, the system instruction and `generation_config`, including its floating-point settings: the model's behaviour is the opaque parameter `model`. Its answer is any `Value`, and JSON numbers with a fraction are not represented.
- UseCases.ProcessAlertUseCase.Execute: the analyzer is a total, pure function from the raw dict to the contents of a new dict. Three behaviours an arbitrary `AIAnalyzer` could have are therefore not represented: an exception from a collaborator propagating out of `execute`, an analyzer that mutates its argument, and an analyzer that returns its argument. With the analyzer `main.py` wires in, none of them happens for a dict: `analyze_threat` catches every exception in its body and always builds a new dict (`Tactical.AnalyzeThreat`), and the store swallows every write error. The analyzer is also fixed for the life of a use case, so the model's answer to a request does not vary between messages; the lemmas of `Tactical` hold for every model function.
- Tactical.Upper: Python's full Unicode case mapping is not modelled. Only ASCII and Latin-1 letters are upper-cased (ß to "SS", µ to U+039C, ÿ to U+0178); every other character is left unchanged. The table's keys are within that range.
- The `PostgresTacticalDB` constructor (`services/postgres_handler.py:8-24`) is not modelled. As written it cannot succeed: `settings.DB_URL` is not defined in `config.py`, and `re` is used but never imported. Its password masking is a regular expression. A `TacticalDb` starts from an existing object whose `conn` may or may not be present.
- `_init_schema` and `CREATE TABLE IF NOT EXISTS`, and the surrogate `id SERIAL` column.
- SQL type coercion and column lengths: ids are opaque `Value`s, and whether the driver and server accept the bound values is the parameter `accepted`. A textual id such as 'unknown' refused by the BIGINT column falls there. A textual id that PostgreSQL would coerce to the same BIGINT as a numeric id is treated as a different key.
- The `Json` adapter: the briefing is stored as the `Value` it wraps.
- The order of keys in a Python dict: payloads are maps.
- Alerts that are not JSON objects reaching `analyze_threat` directly: the pipeline always hands it a dict.
