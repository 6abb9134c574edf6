/** Event envelopes: construction, integrity hash and validation. */
module Envelope {
  import opened Common

  /** Payload values, as far as the validators tell them apart. */
  datatype PayloadValue =
    | Numeric(n: real)
    | Text(s: string)
    | Stamp(parsed: Option<int>)  // an ISO timestamp; None when it does not parse
    | Structured                  // lists, objects, booleans, null

  /** Provenance of one numeric field. */
  type Entry = map<string, string>

  datatype ProvenanceValue = NumericFields(entries: map<string, Entry>) | OtherValue(text: string)

  type Provenance = map<string, ProvenanceValue>

  datatype Event = Event(
    schemaVersion: string, eventId: string, eventType: string, symbol: Option<string>, timeframe: Option<string>,
    payload: Option<map<string, PayloadValue>>,  // None: not an object
    provenance: Option<Provenance>,              // None: not an object
    integrityHash: Option<string>,               // None: not a string
    rest: string,                                // the other required fields, canonical
    missing: set<string>, unknown: set<string>)

  /** The hash of an event whose own hash field is blank. */
  type Digest = Event -> string

  const EVENT_SCHEMA_VERSION := "p2.4-event-v1"

  const ALLOWED_EVENT_TYPES := {
    "SYSTEM_HEALTH", "DATA_QUALITY_WARNING", "SUPER_POTENTIAL_CANDIDATE_INTERNAL", "SUPER_POTENTIAL_CONFIRMED",
    "SUPER_POTENTIAL_INVALIDATED", "SYSTEM_INCIDENT"}

  const AGENT_SOURCES := {"agent", "llm", "specialist"}

  const EXPLICIT_CLASSES := {"REALTIME", "DELAYED_15MIN", "DAILY_MACRO", "COMPUTED", "STALE"}

  datatype Issue = Issue(path: string, rule: string)

  function LowerChar(c: char): char {
    if 'A' <= c <= 'Z' then c - 'A' + 'a' else c
  }

  function Lower(s: string): string {
    seq(|s|, i requires 0 <= i < |s| => LowerChar(s[i]))
  }

  function Get(entry: Entry, key: string): string {
    if key in entry then entry[key] else ""
  }

  // ---------- numeric provenance ----------

  function NumericKeys(payload: map<string, PayloadValue>): set<string> {
    set k | k in payload && payload[k].Numeric?
  }

  /** The provenance of one numeric field is complete, explicit and not an agent's. */
  predicate EntryValid(entry: Entry) {
    && Get(entry, "source") != "" && Get(entry, "source_system") != "" && Get(entry, "fetched_at_utc") != ""
    && Get(entry, "realtime_class") in EXPLICIT_CLASSES
    && (Get(entry, "realtime_class") == "COMPUTED" ==> Get(entry, "formula_version") != "")
    && Lower(Get(entry, "source_system")) !in AGENT_SOURCES
  }

  /** `provenance.get("numeric_fields")` when it is an object. */
  function NumericEntries(p: Provenance): Option<map<string, Entry>> {
    if "numeric_fields" in p && p["numeric_fields"].NumericFields? then Some(p["numeric_fields"].entries) else None
  }

  ghost predicate NumericsSourced(payload: map<string, PayloadValue>, p: Provenance) {
    NumericKeys(payload) == {} ||
    (NumericEntries(p).Some? && forall k :: k in NumericKeys(payload) ==> k in NumericEntries(p).value && EntryValid(NumericEntries(p).value[k]))
  }

  /** The checks of one entry, in the order of the source. */
  method EntryIssues(field: string, entry: Entry) returns (issues: seq<Issue>)
    ensures issues == [] <==> EntryValid(entry)
  {
    issues := [];
    var required := ["source", "source_system", "fetched_at_utc", "realtime_class"];
    for i := 0 to |required|
      invariant issues == [] <==> forall j :: 0 <= j < i ==> Get(entry, required[j]) != ""
    {
      if Get(entry, required[i]) == "" {
        issues := issues + [Issue(field + "." + required[i], "missing")];
      }
    }
    assert issues == [] <==> Get(entry, required[0]) != "" && Get(entry, required[1]) != "" && Get(entry, required[2]) != "" && Get(entry, required[3]) != "";
    if Get(entry, "realtime_class") !in EXPLICIT_CLASSES {
      issues := issues + [Issue(field + ".realtime_class", "invalid")];
    }
    if Get(entry, "realtime_class") == "COMPUTED" && Get(entry, "formula_version") == "" {
      issues := issues + [Issue(field + ".formula_version", "missing")];
    }
    if Lower(Get(entry, "source_system")) in AGENT_SOURCES {
      issues := issues + [Issue(field + ".source_system", "forbidden")];
    }
  }

  /** `_validate_numeric_provenance`. */
  method NumericIssues(payload: map<string, PayloadValue>, p: Provenance) returns (issues: seq<Issue>)
    ensures issues == [] <==> NumericsSourced(payload, p)
  {
    var fields := NumericKeys(payload);
    if fields == {} {
      return [];
    }
    if NumericEntries(p).None? {
      return [Issue("provenance.numeric_fields", "missing")];
    }
    var entries := NumericEntries(p).value;
    issues := [];
    var rest := fields;
    while rest != {}
      invariant rest <= fields
      invariant issues == [] <==> forall k :: k in fields - rest ==> k in entries && EntryValid(entries[k])
    {
      var field :| field in rest;
      if field !in entries {
        issues := issues + [Issue(field, "missing")];
      } else {
        var more := EntryIssues(field, entries[field]);
        issues := issues + more;
      }
      rest := rest - {field};
    }
  }

  // ---------- the envelope ----------

  ghost predicate Valid(digest: Digest, e: Event) {
    && e.missing == {} && e.unknown == {}
    && e.schemaVersion == EVENT_SCHEMA_VERSION && e.eventType in ALLOWED_EVENT_TYPES
    && e.payload.Some? && e.provenance.Some? && NumericsSourced(e.payload.value, e.provenance.value)
    && e.symbol.Some? && e.timeframe.Some?
    && e.integrityHash == Some(digest(e.(integrityHash := Some(""))))
  }

  /** `validate_event_envelope`: no issue exactly when every rule holds. */
  method ValidateEnvelope(digest: Digest, e: Event) returns (issues: seq<Issue>)
    ensures issues == [] <==> Valid(digest, e)
  {
    issues := [];
    if e.missing != {} {
      issues := issues + [Issue("event", "missing")];
    }
    if e.schemaVersion != EVENT_SCHEMA_VERSION {
      issues := issues + [Issue("schema_version", "version_mismatch")];
    }
    if e.eventType !in ALLOWED_EVENT_TYPES {
      issues := issues + [Issue("event_type", "unsupported")];
    }
    if e.unknown != {} {
      issues := issues + [Issue("event", "unknown_field")];
    }
    if e.payload.None? {
      issues := issues + [Issue("payload", "type")];
    }
    if e.provenance.None? {
      issues := issues + [Issue("provenance", "type")];
    } else if e.payload.Some? {
      var more := NumericIssues(e.payload.value, e.provenance.value);
      issues := issues + more;
    }
    if e.symbol.None? || e.timeframe.None? {
      issues := issues + [Issue("symbol", "missing")];
    }
    if e.integrityHash.None? {
      issues := issues + [Issue("integrity_hash", "missing")];
    } else if e.integrityHash.value != digest(e.(integrityHash := Some(""))) {
      issues := issues + [Issue("integrity_hash", "mismatch")];
    }
  }

  /** `build_event_envelope`: all fields set, then sealed with its own hash. */
  function Build(digest: Digest, id: string, eventType: string, symbol: string, timeframe: string,
                 payload: map<string, PayloadValue>, p: Provenance, rest: string): Event {
    var blank := Event(EVENT_SCHEMA_VERSION, id, eventType, Some(symbol), Some(timeframe), Some(payload), Some(p), Some(""), rest, {}, {});
    blank.(integrityHash := Some(digest(blank)))
  }

  /** A built envelope carries what it was given. */
  lemma BuiltCarries(digest: Digest, id: string, eventType: string, symbol: string, timeframe: string,
                     payload: map<string, PayloadValue>, p: Provenance, rest: string)
    ensures var e := Build(digest, id, eventType, symbol, timeframe, payload, p, rest);
            && e.eventId == id && e.eventType == eventType && e.symbol == Some(symbol) && e.timeframe == Some(timeframe)
            && e.payload == Some(payload) && e.provenance == Some(p) && e.rest == rest
            && e.integrityHash == Some(digest(e.(integrityHash := Some(""))))
  {
    var e := Build(digest, id, eventType, symbol, timeframe, payload, p, rest);
    assert e.(integrityHash := Some("")).(integrityHash := e.integrityHash) == e;
  }

  /** A built envelope validates exactly when its type is allowed and its numbers are sourced. */
  lemma BuiltValid(digest: Digest, id: string, eventType: string, symbol: string, timeframe: string,
                   payload: map<string, PayloadValue>, p: Provenance, rest: string)
    ensures Valid(digest, Build(digest, id, eventType, symbol, timeframe, payload, p, rest))
            <==> eventType in ALLOWED_EVENT_TYPES && NumericsSourced(payload, p)
  {
    var e := Build(digest, id, eventType, symbol, timeframe, payload, p, rest);
    assert e.(integrityHash := Some("")).(integrityHash := e.integrityHash) == e;
  }

  /** With an injective digest, no other event carries the hash of a valid one: any change is detected. */
  lemma HashDetectsChange(digest: Digest, e: Event, changed: Event)
    requires Valid(digest, e) && changed.integrityHash == e.integrityHash && changed != e
    requires forall x, y :: digest(x) == digest(y) ==> x == y
    ensures !Valid(digest, changed)
  {
    assert e.(integrityHash := Some("")).(integrityHash := e.integrityHash) == e;
    assert changed.(integrityHash := Some("")).(integrityHash := changed.integrityHash) == changed;
  }

  // ---------- the rules, one by one ----------

  /** What the provenance of a number has to say. */
  lemma EntryMeans(entry: Entry)
    ensures EntryValid(entry) <==>
            && "source" in entry && entry["source"] != "" && "source_system" in entry && entry["source_system"] != ""
            && "fetched_at_utc" in entry && entry["fetched_at_utc"] != ""
            && "realtime_class" in entry
            && (entry["realtime_class"] == "REALTIME" || entry["realtime_class"] == "DELAYED_15MIN" || entry["realtime_class"] == "DAILY_MACRO"
                || entry["realtime_class"] == "STALE"
                || (entry["realtime_class"] == "COMPUTED" && "formula_version" in entry && entry["formula_version"] != ""))
            && Lower(entry["source_system"]) != "agent" && Lower(entry["source_system"]) != "llm" && Lower(entry["source_system"]) != "specialist"
  {
    assert |"REALTIME"| == 8 && |"DELAYED_15MIN"| == 13 && |"DAILY_MACRO"| == 11 && |"STALE"| == 5 && |"COMPUTED"| == 8;
    assert "REALTIME"[0] == 'R' && "COMPUTED"[0] == 'C';
  }

  /** An agent stays an agent in any capitalization. */
  lemma AgentInAnyCase(entry: Entry)
    requires "source_system" in entry && (entry["source_system"] == "Agent" || entry["source_system"] == "LLM" || entry["source_system"] == "SPECIALIST")
    ensures !EntryValid(entry)
  {
    EntryMeans(entry);
    assert Lower("Agent") == "agent" && Lower("LLM") == "llm" && Lower("SPECIALIST") == "specialist";
  }

  /** The numeric fields of a payload are those that hold numbers, and each needs a valid entry of its own. */
  lemma SourcedMeans(payload: map<string, PayloadValue>, p: Provenance)
    ensures NumericsSourced(payload, p) <==>
            forall k :: k in payload && payload[k].Numeric? ==>
              "numeric_fields" in p && p["numeric_fields"].NumericFields? && k in p["numeric_fields"].entries && EntryValid(p["numeric_fields"].entries[k])
  {
    hide EntryValid;
    assert forall k :: k in NumericKeys(payload) <==> k in payload && payload[k].Numeric?;
    if k :| k in payload && payload[k].Numeric? {
      assert k in NumericKeys(payload);
    }
  }

  /** The version and the six kinds of a valid event, and what it may not lack. */
  lemma ValidMeans(digest: Digest, e: Event)
    requires Valid(digest, e)
    ensures e.schemaVersion == "p2.4-event-v1" && e.missing == {} && e.unknown == {} && e.payload.Some? && e.provenance.Some?
    ensures e.symbol.Some? && e.timeframe.Some? && e.integrityHash == Some(digest(e.(integrityHash := Some(""))))
    ensures e.eventType == "SYSTEM_HEALTH" || e.eventType == "DATA_QUALITY_WARNING" || e.eventType == "SUPER_POTENTIAL_CANDIDATE_INTERNAL"
            || e.eventType == "SUPER_POTENTIAL_CONFIRMED" || e.eventType == "SUPER_POTENTIAL_INVALIDATED" || e.eventType == "SYSTEM_INCIDENT"
  {
  }
}
