/** The tactical analyzer of services/gemini_handler.py: the perimeter-context
    lookup, the extraction of the prompt fields from a raw alert, and the merge
    of the model's briefing (or of the fixed fallback briefing) into the alert.
    The generative-model call together with `json.loads` is the parameter
    `model`: `Some(parsed)` when both succeed, `None` when either raises. */
module Tactical {
  import opened Values

  /** One entry of the perimeter table: a place name (upper case) and what it
      means to the operator. */
  datatype Zone = Zone(key: string, description: string)

  /** The analyzer's perimeter table, in its iteration order. The longer
      descriptions, like `OutsidePerimeter`, are written as two literals:
      the verifier does not see the characters of a literal this long, and
      `DescriptionsAreNotTheDefault` needs their first ones. */
  const Perimeter: seq<Zone> := [
    Zone("RIO CLARO", "Base Principal (Jd. Portugal). " + "Operador e Esposa."),
    Zone("LEME", "Base Secundária (Crítica). " + "Filho (Gael) e Pais."),
    Zone("SÃO PAULO", "Base Terciária. Irmã."),
    Zone("CORDEIRÓPOLIS", "Rota de fuga/trânsito."),
    Zone("ARARAS", "Rota de fuga/trânsito.")
  ]

  /** The context given when the location names no zone of the table. */
  const OutsidePerimeter: string := "Zona externa ao perímetro primário. " + "Monitorar por efeito cascata."

  const Separator: string := " | "

  /** An analyzer as its constructor leaves it; nothing in it changes later. */
  datatype TacticalAnalyzer = TacticalAnalyzer(perimeter: seq<Zone>)

  datatype ConfigError = ValueError(message: string)

  /** Construction refuses an empty API key. */
  function NewTacticalAnalyzer(apiKey: string): (r: Result<TacticalAnalyzer, ConfigError>)
    ensures r.Err? <==> apiKey == ""
    ensures r.Ok? ==> r.value.perimeter == Perimeter
  {
    if apiKey == "" then Err(ValueError("API Key is missing"))
    else Ok(TacticalAnalyzer(Perimeter))
  }

  // ---------------------------------------------------------------------------
  // Upper-casing (`str.upper`) for ASCII and Latin-1 letters

  /** The characters `UpperChar` changes. */
  predicate Lower(c: char) {
    || 'a' <= c <= 'z'
    || ('\U{DF}' <= c <= '\U{FF}' && c != '\U{F7}')
    || c == '\U{B5}'
  }

  /** Python's upper-case mapping of one character, for the ASCII and Latin-1
      ranges; every other character is left as it is. */
  function UpperChar(c: char): (u: string)
    ensures Lower(c) || u == [c]
    ensures forall i :: 0 <= i < |u| ==> !Lower(u[i])
  {
    if 'a' <= c <= 'z' || ('\U{E0}' <= c <= '\U{FE}' && c != '\U{F7}') then [(c as int - 32) as char]
    else if c == '\U{DF}' then "SS"
    else if c == '\U{B5}' then "\U{39C}"
    else if c == '\U{FF}' then "\U{178}"
    else [c]
  }

  /** `s.upper()`: no lower-case letter is left, and a string that has none is
      returned unchanged. */
  function Upper(s: string): (u: string)
    ensures forall i :: 0 <= i < |u| ==> !Lower(u[i])
  {
    if s == [] then [] else UpperChar(s[0]) + Upper(s[1..])
  }

  lemma {:induction false} UpperConcat(a: string, b: string)
    ensures Upper(a + b) == Upper(a) + Upper(b)
  {
    if a == [] {
      assert a + b == b;
    } else {
      assert (a + b)[0] == a[0];
      assert (a + b)[1..] == a[1..] + b;
      UpperConcat(a[1..], b);
    }
  }

  /** A string without lower-case letters is its own upper case. */
  lemma {:induction false} UpperOfUpperCase(s: string)
    requires forall i :: 0 <= i < |s| ==> !Lower(s[i])
    ensures Upper(s) == s
  {
    if s != [] {
      assert forall i :: 0 <= i < |s[1..]| ==> s[1..][i] == s[i + 1];
      UpperOfUpperCase(s[1..]);
    }
  }

  lemma UpperIdempotent(s: string)
    ensures Upper(Upper(s)) == Upper(s)
  {
    UpperOfUpperCase(Upper(s));
  }

  /** Every key of the perimeter table is already upper case. */
  lemma PerimeterKeysAreUpper()
    ensures forall i :: 0 <= i < |Perimeter| ==> Upper(Perimeter[i].key) == Perimeter[i].key
  {
    forall i | 0 <= i < |Perimeter|
      ensures Upper(Perimeter[i].key) == Perimeter[i].key
    {
      var key := Perimeter[i].key;
      forall j | 0 <= j < |key| ensures !Lower(key[j]) {
        assert 'A' <= key[j] <= 'Z' || key[j] == ' ' || key[j] == 'Ã' || key[j] == 'Ó';
      }
      UpperOfUpperCase(key);
    }
  }

  // ---------------------------------------------------------------------------
  // Substring test (`key in s`)

  ghost predicate OccursAt(key: string, s: string, i: int) {
    0 <= i && i + |key| <= |s| && s[i..i + |key|] == key
  }

  /** `key in s`: the empty string occurs in every string, and nothing
      occurs in a shorter one. */
  function Contains(s: string, key: string): (found: bool)
    ensures key == [] ==> found
    ensures found ==> |key| <= |s|
    decreases |s|
  {
    if |key| > |s| then false
    else if s[..|key|] == key then true
    else Contains(s[1..], key)
  }

  /** `Contains` holds exactly when some position of `s` starts an occurrence
      of `key`. */
  lemma {:induction false} ContainsIff(s: string, key: string)
    ensures Contains(s, key) <==> exists i :: OccursAt(key, s, i)
    decreases |s|
  {
    if |key| > |s| {
    } else if s[..|key|] == key {
      assert OccursAt(key, s, 0);
    } else {
      ContainsIff(s[1..], key);
      forall i | OccursAt(key, s[1..], i) ensures OccursAt(key, s, i + 1) {
        assert s[1..][i..i + |key|] == s[i + 1..i + 1 + |key|];
      }
      forall i | OccursAt(key, s, i) ensures OccursAt(key, s[1..], i - 1) {
        assert i != 0;
        assert s[1..][i - 1..i - 1 + |key|] == s[i..i + |key|];
      }
    }
  }

  /** A string contains each of its prefixes. */
  lemma ContainsPrefix(s: string, w: string)
    requires |w| <= |s| && s[..|w|] == w
    ensures Contains(s, w)
  {
  }

  lemma ContainsInfix(p: string, w: string, q: string)
    ensures Contains(p + w + q, w)
  {
    assert OccursAt(w, p + w + q, |p|) by {
      assert (p + w + q)[|p|..|p| + |w|] == w;
    }
    ContainsIff(p + w + q, w);
  }

  /** An occurrence in `s` is an occurrence in `p + s`, shifted by `|p|`. */
  lemma {:induction false} ContainsShift(p: string, s: string, w: string)
    requires Contains(s, w)
    ensures Contains(p + s, w)
  {
    ContainsIff(s, w);
    var i :| OccursAt(w, s, i);
    assert (p + s)[|p| + i..|p| + i + |w|] == s[i..i + |w|];
    assert OccursAt(w, p + s, |p| + i);
    ContainsIff(p + s, w);
  }

  // ---------------------------------------------------------------------------
  // The perimeter context

  /** The descriptions of the zones whose key occurs in `upperLocation`, in
      table order (the list comprehension). */
  function Matches(zones: seq<Zone>, upperLocation: string): (found: seq<string>)
    ensures |found| <= |zones|
  {
    if zones == [] then []
    else (if Contains(upperLocation, zones[0].key) then [zones[0].description] else [])
         + Matches(zones[1..], upperLocation)
  }

  /** A description is found exactly when the key of a zone that carries it
      occurs in the location. */
  lemma {:induction false} MatchesMember(zones: seq<Zone>, upperLocation: string, d: string)
    ensures d in Matches(zones, upperLocation) <==>
            exists i :: 0 <= i < |zones| && zones[i].description == d && Contains(upperLocation, zones[i].key)
  {
    if zones != [] {
      MatchesMember(zones[1..], upperLocation, d);
      if exists i :: 0 <= i < |zones| && zones[i].description == d && Contains(upperLocation, zones[i].key) {
        var i :| 0 <= i < |zones| && zones[i].description == d && Contains(upperLocation, zones[i].key);
        if i > 0 {
          assert zones[1..][i - 1] == zones[i];
        }
      }
      if d in Matches(zones[1..], upperLocation) {
        var i :| 0 <= i < |zones[1..]| && zones[1..][i].description == d && Contains(upperLocation, zones[1..][i].key);
        assert zones[i + 1] == zones[1..][i];
      }
    }
  }

  /** Matching distributes over the table: the order of the result is the
      order of the table. */
  lemma {:induction false} MatchesAppend(a: seq<Zone>, b: seq<Zone>, upperLocation: string)
    ensures Matches(a + b, upperLocation) == Matches(a, upperLocation) + Matches(b, upperLocation)
  {
    if a == [] {
      assert a + b == b;
    } else {
      var head := if Contains(upperLocation, a[0].key) then [a[0].description] else [];
      assert (a + b)[0] == a[0];
      assert (a + b)[1..] == a[1..] + b;
      calc {
        Matches(a + b, upperLocation);
        head + Matches(a[1..] + b, upperLocation);
        { MatchesAppend(a[1..], b, upperLocation); }
        head + (Matches(a[1..], upperLocation) + Matches(b, upperLocation));
        (head + Matches(a[1..], upperLocation)) + Matches(b, upperLocation);
        Matches(a, upperLocation) + Matches(b, upperLocation);
      }
    }
  }

  /** `sep.join(parts)` */
  function Join(parts: seq<string>, sep: string): (joined: string)
    ensures |parts| > 0 ==> |joined| >= |parts[0]| && joined[..|parts[0]|] == parts[0]
  {
    if |parts| == 0 then ""
    else if |parts| == 1 then parts[0]
    else parts[0] + sep + Join(parts[1..], sep)
  }

  /** Every part occurs in the joined string. */
  lemma {:induction false} JoinContainsParts(parts: seq<string>, sep: string, k: int)
    requires 0 <= k < |parts|
    ensures Contains(Join(parts, sep), parts[k])
  {
    if k == 0 {
      ContainsPrefix(Join(parts, sep), parts[0]);
    } else {
      JoinContainsParts(parts[1..], sep, k - 1);
      ContainsShift(parts[0] + sep, Join(parts[1..], sep), parts[k]);
    }
  }

  /** `_get_tactical_context`: the joined descriptions of the matching zones,
      or the outside-perimeter sentence, which is what a location naming
      no zone gets. */
  function TacticalContext(zones: seq<Zone>, location: string): (context: string)
    ensures (forall i :: 0 <= i < |zones| ==> !Contains(Upper(location), zones[i].key)) ==> context == OutsidePerimeter
  {
    var found := Matches(zones, Upper(location));
    if |found| > 0 then
      MatchesMember(zones, Upper(location), found[0]);
      Join(found, Separator)
    else OutsidePerimeter
  }

  lemma DescriptionsAreNotTheDefault(i: int)
    requires 0 <= i < |Perimeter|
    ensures |Perimeter[i].description| > 0 && Perimeter[i].description[0] != OutsidePerimeter[0]
  {
  }

  /** The context is the outside-perimeter sentence exactly when no key of the
      table occurs in the upper-cased location; it is never empty. */
  lemma ContextIsDefaultIffNoZone(location: string)
    ensures TacticalContext(Perimeter, location) == OutsidePerimeter <==>
            forall i :: 0 <= i < |Perimeter| ==> !Contains(Upper(location), Perimeter[i].key)
    ensures |TacticalContext(Perimeter, location)| > 0
  {
    var found := Matches(Perimeter, Upper(location));
    if |found| > 0 {
      MatchesMember(Perimeter, Upper(location), found[0]);
      var i :| 0 <= i < |Perimeter| && Perimeter[i].description == found[0] && Contains(Upper(location), Perimeter[i].key);
      var joined := Join(found, Separator);
      DescriptionsAreNotTheDefault(i);
      assert joined[..|found[0]|] == found[0];
      assert joined[0] == found[0][0];
    } else {
      forall i | 0 <= i < |Perimeter|
        ensures !Contains(Upper(location), Perimeter[i].key)
      {
        MatchesMember(Perimeter, Upper(location), Perimeter[i].description);
      }
    }
  }

  /** A zone whose key occurs in the upper-cased location has its
      description in the context. */
  lemma ContextNamesMatchedZone(zones: seq<Zone>, location: string, i: int)
    requires 0 <= i < |zones| && Contains(Upper(location), zones[i].key)
    ensures Contains(TacticalContext(zones, location), zones[i].description)
  {
    var found := Matches(zones, Upper(location));
    MatchesMember(zones, Upper(location), zones[i].description);
    var k :| 0 <= k < |found| && found[k] == zones[i].description;
    JoinContainsParts(found, Separator, k);
  }

  lemma UpperInfix(before: string, w: string, after: string)
    ensures Upper(before + w + after) == Upper(before) + Upper(w) + Upper(after)
  {
    UpperConcat(before + w, after);
    UpperConcat(before, w);
  }

  /** Upper-casing keeps occurrences: an occurrence of `w` in `s` is an
      occurrence of `Upper(w)` in `Upper(s)`. */
  lemma UpperKeepsOccurrence(s: string, w: string)
    requires Contains(s, w)
    ensures Contains(Upper(s), Upper(w))
  {
    ContainsIff(s, w);
    var j :| OccursAt(w, s, j);
    var before, after := s[..j], s[j + |w|..];
    assert s == before + w + after;
    UpperInfix(before, w, after);
    ContainsInfix(Upper(before), Upper(w), Upper(after));
  }

  /** Matching ignores case: a location that contains the key spelled in any
      case gets the zone's description. */
  lemma CaseInsensitiveMatch(zones: seq<Zone>, location: string, written: string, i: int)
    requires 0 <= i < |zones| && Contains(location, written) && Upper(written) == zones[i].key
    ensures Contains(TacticalContext(zones, location), zones[i].description)
  {
    UpperKeepsOccurrence(location, written);
    ContextNamesMatchedZone(zones, location, i);
  }

  /** The context depends on the location only through its upper-case form. */
  lemma ContextIgnoresCase(zones: seq<Zone>, location: string)
    ensures TacticalContext(zones, Upper(location)) == TacticalContext(zones, location)
  {
    UpperIdempotent(location);
  }

  lemma LemeUpper()
    ensures Upper("Leme/SP") == "LEME/SP"
  {
  }

  lemma LemeMatches()
    ensures Matches(Perimeter, "LEME/SP") == [Perimeter[1].description]
  {
    var u := "LEME/SP";
    assert Contains(u, "LEME") by { assert u[..4] == "LEME"; }
    assert !Contains(u, "ARARAS") by {
      assert !Contains(u[2..], "ARARAS");
      assert u[1..][..6] != "ARARAS" by { assert u[1..][..6][0] == 'E'; }
      assert u[..6] != "ARARAS" by { assert u[..6][0] == 'L'; }
    }
    assert Matches(Perimeter[4..], u) == [];
    assert Matches(Perimeter[3..], u) == [];
    assert Matches(Perimeter[2..], u) == [];
    assert Matches(Perimeter[1..], u) == [Perimeter[1].description];
  }

  /** "Leme/SP" lies in the secondary base's zone and in no other. */
  lemma LemeContext()
    ensures TacticalContext(Perimeter, "Leme/SP") == Perimeter[1].description
  {
    LemeUpper();
    LemeMatches();
  }

  // ---------------------------------------------------------------------------
  // analyze_threat

  /** What `analyze_threat` reads from the raw alert. */
  datatype Fields = Fields(severity: Value, category: Value, message: Value, location: Value)

  /** The four lookups with their defaults; the message is the tactical
      message when it is truthy and the description otherwise. */
  function ExtractFields(alert: Payload): (f: Fields)
    ensures Truthy(Get(alert, "mensagem_tática", Str(""))) ==> f.message == alert["mensagem_tática"]
    ensures !Truthy(Get(alert, "mensagem_tática", Str(""))) ==> f.message == Get(alert, "descricao", Str(""))
    ensures Truthy(f.message) <==>
              Truthy(Get(alert, "mensagem_tática", Str(""))) || Truthy(Get(alert, "descricao", Str("")))
  {
    var tactical := Get(alert, "mensagem_tática", Str(""));
    Fields(
      Get(alert, "severidade", Str("Desconhecida")),
      Get(alert, "categoria", Str("Evento Geral")),
      if Truthy(tactical) then tactical else Get(alert, "descricao", Str("")),
      Get(alert, "area_afetada", Str("Desconhecido")))
  }

  /** The defaults of the extraction. */
  lemma ExtractionDefaults(alert: Payload)
    ensures "severidade" !in alert ==> ExtractFields(alert).severity == Str("Desconhecida")
    ensures "categoria" !in alert ==> ExtractFields(alert).category == Str("Evento Geral")
    ensures "area_afetada" !in alert ==> ExtractFields(alert).location == Str("Desconhecido")
    ensures "mensagem_tática" !in alert && "descricao" !in alert ==> ExtractFields(alert).message == Str("")
    ensures "severidade" in alert ==> ExtractFields(alert).severity == alert["severidade"]
    ensures "categoria" in alert ==> ExtractFields(alert).category == alert["categoria"]
    ensures "area_afetada" in alert ==> ExtractFields(alert).location == alert["area_afetada"]
  {
  }

  /** The facts the model is asked to assess, with the operator context. */
  datatype Request = Request(category: Value, severity: Value, location: string, message: Value, operatorContext: string)

  /** The request put to the model; `None` when the location has no
      `.upper()` (it is not a string), which raises inside the `try`. */
  function BuildRequest(analyzer: TacticalAnalyzer, alert: Payload): (request: Option<Request>)
    ensures request.Some? <==> ExtractFields(alert).location.Str?
    ensures var f := ExtractFields(alert);
            request.Some? ==> request.value == Request(f.category, f.severity, f.location.s, f.message,
                                                       TacticalContext(analyzer.perimeter, f.location.s))
  {
    var f := ExtractFields(alert);
    if f.location.Str? then
      Some(Request(f.category, f.severity, f.location.s, f.message, TacticalContext(analyzer.perimeter, f.location.s)))
    else None
  }

  /** The briefing used when the model call, the JSON parse or the context
      lookup fails: it always asks for the family contact. */
  const FallbackBriefing: Value := Map(map[
    "nivel_ameaca_tatico" := Str("Erro de Análise"),
    "impacto_estimado" := Str("Falha no processamento neural."),
    "plano_acao" := List([Str("Verificar logs do Odin"), Str("Monitorar manualmente")]),
    "acionar_contato_familia" := Bool(true)
  ])

  /** `analyze_threat`: a new mapping with every key of the alert and key
      "briefing" set to the model's parsed answer or to the fallback. */
  function AnalyzeThreat(analyzer: TacticalAnalyzer, alert: Payload, model: Request -> Option<Value>): (enriched: Payload)
    ensures enriched.Keys == alert.Keys + {"briefing"}
    ensures forall k :: k in alert && k != "briefing" ==> enriched[k] == alert[k]
  {
    Put(alert, "briefing", Briefing(BuildRequest(analyzer, alert), model))
  }

  /** The parsed answer of the model, or the fallback when anything fails. */
  function Briefing(request: Option<Request>, model: Request -> Option<Value>): (briefing: Value)
    ensures request.None? ==> briefing == FallbackBriefing
    ensures briefing == FallbackBriefing || (request.Some? && model(request.value) == Some(briefing))
  {
    if request.None? then FallbackBriefing
    else
      match model(request.value)
      case Some(parsed) => parsed
      case None => FallbackBriefing
  }

  /** On success the only change to the alert is its briefing, which is the
      parsed answer to the request built from the alert. */
  lemma AnalyzeThreatSucceeds(analyzer: TacticalAnalyzer, alert: Payload, model: Request -> Option<Value>,
                              request: Request, parsed: Value)
    requires BuildRequest(analyzer, alert) == Some(request) && model(request) == Some(parsed)
    ensures AnalyzeThreat(analyzer, alert, model) == Put(alert, "briefing", parsed)
  {
    calc {
      AnalyzeThreat(analyzer, alert, model);
      Put(alert, "briefing", Briefing(BuildRequest(analyzer, alert), model));
      { assert BuildRequest(analyzer, alert) == Some(request); }
      Put(alert, "briefing", Briefing(Some(request), model));
      Put(alert, "briefing", parsed);
    }
  }

  /** On any failure the alert gets the fallback briefing. */
  lemma AnalyzeThreatFallsBack(analyzer: TacticalAnalyzer, alert: Payload, model: Request -> Option<Value>)
    requires BuildRequest(analyzer, alert).None? || model(BuildRequest(analyzer, alert).value).None?
    ensures AnalyzeThreat(analyzer, alert, model) == Put(alert, "briefing", FallbackBriefing)
  {
  }

  /** The fallback's threat level is the analysis-error sentinel, its plan
      has two steps, and it always asks for the family contact. */
  lemma FallbackEscalates()
    ensures FallbackBriefing.Map?
    ensures FallbackBriefing.fields.Keys == {"nivel_ameaca_tatico", "impacto_estimado", "plano_acao", "acionar_contato_familia"}
    ensures FallbackBriefing.fields["nivel_ameaca_tatico"] == Str("Erro de Análise")
    ensures FallbackBriefing.fields["plano_acao"].List? && |FallbackBriefing.fields["plano_acao"].items| == 2
    ensures FallbackBriefing.fields["acionar_contato_familia"] == Bool(true)
  {
  }

}
