/** From signal to publication: scoring, event building, the consumer's gates and the market publisher. */
module Publication {
  import opened Common
  import opened Envelope

  // ---------- scoring a signal ----------

  datatype SignalState = NO_SETUP | CANDIDATE_INTERNAL | CONFIRMED | INVALIDATED

  datatype Thresholds = Thresholds(
    version: string, candidate: real, confirmed: real, invalidation: real, minimumEvidence: int, dataQuality: string,
    headroom: real, agreement: int, freshness: int, dedupWindow: int, invalidationExpiry: int)

  datatype Signal = Signal(
    symbol: string, timeframe: string, setupId: string, triggerVersion: string, score: real, evidenceCount: nat,
    dataQuality: string, headroom: real, agreement: int, fetchedAt: string, fetchedTime: int,
    invalidationRule: string, provenance: Provenance)

  datatype Decision = Decision(
    state: SignalState, score: real, thresholdVersion: string, failedGates: seq<string>, invalidationRule: string,
    provenance: Provenance, createdAt: int, expiresAt: int, dedupKey: string)

  function StateName(s: SignalState): string {
    match s
    case NO_SETUP => "NO_SETUP"
    case CANDIDATE_INTERNAL => "CANDIDATE_INTERNAL"
    case CONFIRMED => "CONFIRMED"
    case INVALIDATED => "INVALIDATED"
  }

  predicate GatesPass(s: Signal, c: Thresholds, now: int) {
    && s.evidenceCount >= c.minimumEvidence && s.dataQuality == c.dataQuality && s.headroom >= c.headroom
    && s.agreement >= c.agreement && now - s.fetchedTime <= c.freshness && s.provenance != map[]
  }

  function Listed(failed: bool, name: string): seq<string> {
    if failed then [name] else []
  }

  /** The names of the failed gates, in the order of the checks. */
  function FailedGates(s: Signal, c: Thresholds, now: int): seq<string> {
    Listed(s.evidenceCount < c.minimumEvidence, "minimum_evidence_count") + Listed(s.dataQuality != c.dataQuality, "minimum_data_quality")
    + Listed(s.headroom < c.headroom, "minimum_headroom") + Listed(s.agreement < c.agreement, "timeframe_agreement")
    + Listed(now - s.fetchedTime > c.freshness, "freshness") + Listed(s.provenance == map[], "provenance")
  }

  /** A gate is listed exactly when its own condition fails. */
  lemma GatesMean(s: Signal, c: Thresholds, now: int)
    ensures var gates := Elements(FailedGates(s, c, now));
            && ("minimum_evidence_count" in gates <==> s.evidenceCount < c.minimumEvidence)
            && ("minimum_data_quality" in gates <==> s.dataQuality != c.dataQuality)
            && ("minimum_headroom" in gates <==> s.headroom < c.headroom)
            && ("timeframe_agreement" in gates <==> s.agreement < c.agreement)
            && ("freshness" in gates <==> now - s.fetchedTime > c.freshness)
            && ("provenance" in gates <==> s.provenance == map[])
            && gates <= {"minimum_evidence_count", "minimum_data_quality", "minimum_headroom", "timeframe_agreement", "freshness", "provenance"}
  {
    GatesUnion(s, c, now);
    GateNamesDiffer();
    hide FailedGates, Elements, One;
    InOne(s.evidenceCount < c.minimumEvidence, "minimum_evidence_count");
    InOne(s.dataQuality != c.dataQuality, "minimum_data_quality");
    InOne(s.headroom < c.headroom, "minimum_headroom");
    InOne(s.agreement < c.agreement, "timeframe_agreement");
    InOne(now - s.fetchedTime > c.freshness, "freshness");
    InOne(s.provenance == map[], "provenance");
  }

  function One(failed: bool, name: string): set<string> {
    if failed then {name} else {}
  }

  lemma InOne(failed: bool, name: string)
    ensures forall n :: n in One(failed, name) <==> failed && n == name
  {
  }

  lemma ListedElements(failed: bool, name: string)
    ensures Elements(Listed(failed, name)) == One(failed, name)
  {
  }

  lemma GateNamesDiffer()
    ensures Distinct(["minimum_evidence_count", "minimum_data_quality", "minimum_headroom", "timeframe_agreement", "freshness", "provenance"])
  {
    assert |"minimum_evidence_count"| == 22 && |"minimum_data_quality"| == 20 && |"minimum_headroom"| == 16;
    assert |"timeframe_agreement"| == 19 && |"freshness"| == 9 && |"provenance"| == 10;
  }

  lemma GatesUnion(s: Signal, c: Thresholds, now: int)
    ensures Elements(FailedGates(s, c, now)) ==
            One(s.evidenceCount < c.minimumEvidence, "minimum_evidence_count") + One(s.dataQuality != c.dataQuality, "minimum_data_quality")
            + One(s.headroom < c.headroom, "minimum_headroom") + One(s.agreement < c.agreement, "timeframe_agreement")
            + One(now - s.fetchedTime > c.freshness, "freshness") + One(s.provenance == map[], "provenance")
  {
    var a, b := Listed(s.evidenceCount < c.minimumEvidence, "minimum_evidence_count"), Listed(s.dataQuality != c.dataQuality, "minimum_data_quality");
    var d, e := Listed(s.headroom < c.headroom, "minimum_headroom"), Listed(s.agreement < c.agreement, "timeframe_agreement");
    var f, g := Listed(now - s.fetchedTime > c.freshness, "freshness"), Listed(s.provenance == map[], "provenance");
    ListedElements(s.evidenceCount < c.minimumEvidence, "minimum_evidence_count");
    ListedElements(s.dataQuality != c.dataQuality, "minimum_data_quality");
    ListedElements(s.headroom < c.headroom, "minimum_headroom");
    ListedElements(s.agreement < c.agreement, "timeframe_agreement");
    ListedElements(now - s.fetchedTime > c.freshness, "freshness");
    ListedElements(s.provenance == map[], "provenance");
    hide Listed, Elements, One;
    ElementsConcat(a, b);
    ElementsConcat(a + b, d);
    ElementsConcat(a + b + d, e);
    ElementsConcat(a + b + d + e, f);
    ElementsConcat(a + b + d + e + f, g);
  }

  /** No gate is listed exactly when all pass. */
  lemma NoneListed(s: Signal, c: Thresholds, now: int)
    ensures FailedGates(s, c, now) == [] <==> GatesPass(s, c, now)
  {
  }

  /** One gate: its name is added when it fails. */
  method CheckGate(before: seq<string>, failed: bool, name: string) returns (after: seq<string>)
    ensures after == before + Listed(failed, name)
  {
    after := before;
    if failed {
      after := after + [name];
    }
  }

  /** `evaluate_signal`. */
  method EvaluateSignal(s: Signal, c: Thresholds, now: int) returns (d: Decision)
    ensures d.failedGates == FailedGates(s, c, now)
    ensures d.failedGates == [] <==> GatesPass(s, c, now)
    ensures d.state == CONFIRMED <==> GatesPass(s, c, now) && s.score >= c.confirmed
    ensures d.state == CANDIDATE_INTERNAL <==> GatesPass(s, c, now) && c.candidate <= s.score < c.confirmed
    ensures d.state == INVALIDATED <==> GatesPass(s, c, now) && s.score < c.confirmed && s.score < c.candidate && s.score <= c.invalidation
    ensures WellDecided(s, c, d) && d.createdAt == now
  {
    hide Listed;
    var failed := CheckGate([], s.evidenceCount < c.minimumEvidence, "minimum_evidence_count");
    failed := CheckGate(failed, s.dataQuality != c.dataQuality, "minimum_data_quality");
    failed := CheckGate(failed, s.headroom < c.headroom, "minimum_headroom");
    failed := CheckGate(failed, s.agreement < c.agreement, "timeframe_agreement");
    failed := CheckGate(failed, now - s.fetchedTime > c.freshness, "freshness");
    failed := CheckGate(failed, s.provenance == map[], "provenance");
    assert failed == FailedGates(s, c, now) by {
      assert [] + Listed(s.evidenceCount < c.minimumEvidence, "minimum_evidence_count")
          == Listed(s.evidenceCount < c.minimumEvidence, "minimum_evidence_count");
    }
    NoneListed(s, c, now);
    hide GatesPass, FailedGates;
    var state :=
      if failed != [] then NO_SETUP
      else if s.score >= c.confirmed then CONFIRMED
      else if s.score >= c.candidate then CANDIDATE_INTERNAL
      else if s.score <= c.invalidation then INVALIDATED
      else NO_SETUP;
    var expires := now + if state == INVALIDATED then c.invalidationExpiry else c.dedupWindow;
    return Decision(state, s.score, c.version, failed, s.invalidationRule, s.provenance, now, expires, SignalKey(state, s));
  }

  function SignalKey(state: SignalState, s: Signal): string {
    "SUPER_POTENTIAL_" + StateName(state) + ":" + s.symbol + ":" + s.timeframe + ":" + s.setupId + ":" + s.triggerVersion
  }

  /** What a decision carries over from its signal and thresholds. */
  ghost predicate WellDecided(s: Signal, c: Thresholds, d: Decision) {
    && d.score == s.score && d.thresholdVersion == c.version && d.provenance == s.provenance && d.invalidationRule == s.invalidationRule
    && d.expiresAt == d.createdAt + (if d.state == INVALIDATED then c.invalidationExpiry else c.dedupWindow)
    && d.dedupKey == SignalKey(d.state, s)
  }

  // ---------- building the event ----------

  function EventType(s: SignalState): string {
    "SUPER_POTENTIAL_" + StateName(s)
  }

  function ScoreEntry(s: Signal, d: Decision): Entry {
    map["source" := "python_signal_engine", "source_system" := "python", "fetched_at_utc" := s.fetchedAt,
        "realtime_class" := "COMPUTED", "formula_version" := d.thresholdVersion]
  }

  function SignalPayload(d: Decision): map<string, PayloadValue> {
    map["score" := Numeric(d.score), "score_components" := Structured, "threshold_version" := Text(d.thresholdVersion),
        "trigger_reasons" := Structured, "failed_gates" := Structured, "invalidation_rule" := Text(d.invalidationRule),
        "evidence_ids" := Structured, "created_at_utc" := Stamp(Some(d.createdAt)),
        "expires_at_utc" := Stamp(Some(d.expiresAt)), "dedup_key" := Text(d.dedupKey)]
  }

  function SignalProvenance(s: Signal, d: Decision): Provenance {
    d.provenance["numeric_fields" := NumericFields(map["score" := ScoreEntry(s, d)])]
  }

  /** `build_signal_event`; None is the ValueError for a state that is not publishable. */
  function BuildSignalEvent(digest: Digest, id: string, rest: string, s: Signal, d: Decision): Option<Event> {
    if d.state == NO_SETUP then None
    else Some(Build(digest, id, EventType(d.state), s.symbol, s.timeframe, SignalPayload(d), SignalProvenance(s, d), rest))
  }

  lemma ScoreEntryValid(s: Signal, d: Decision)
    ensures EntryValid(ScoreEntry(s, d)) <==> s.fetchedAt != "" && d.thresholdVersion != ""
  {
    assert Lower("python") == "python";
    var entry := ScoreEntry(s, d);
    assert Get(entry, "source") == "python_signal_engine" && Get(entry, "source_system") == "python";
    assert Get(entry, "realtime_class") == "COMPUTED" && Get(entry, "fetched_at_utc") == s.fetchedAt;
    assert Get(entry, "formula_version") == d.thresholdVersion;
    assert "python"[0] == 'p' && "agent"[0] == 'a' && "llm"[0] == 'l' && "specialist"[0] == 's';
  }

  lemma SignalTypesAllowed(state: SignalState)
    requires state != NO_SETUP
    ensures EventType(state) in ALLOWED_EVENT_TYPES
  {
    assert EventType(CONFIRMED) == "SUPER_POTENTIAL_CONFIRMED";
    assert EventType(INVALIDATED) == "SUPER_POTENTIAL_INVALIDATED";
    assert EventType(CANDIDATE_INTERNAL) == "SUPER_POTENTIAL_CANDIDATE_INTERNAL";
  }

  /** A built signal event validates if and only if the threshold version and the fetch time are not empty. */
  lemma SignalEventValid(digest: Digest, id: string, rest: string, s: Signal, d: Decision)
    requires d.state != NO_SETUP
    ensures Valid(digest, BuildSignalEvent(digest, id, rest, s, d).value) <==> s.fetchedAt != "" && d.thresholdVersion != ""
  {
    SignalTypesAllowed(d.state);
    BuiltValid(digest, id, EventType(d.state), s.symbol, s.timeframe, SignalPayload(d), SignalProvenance(s, d), rest);
    ScoreEntryValid(s, d);
    assert "score" in SignalPayload(d);
    assert NumericKeys(SignalPayload(d)) == {"score"};
    assert NumericEntries(SignalProvenance(s, d)) == Some(map["score" := ScoreEntry(s, d)]);
  }

  ghost predicate CarriesDecision(p: map<string, PayloadValue>, d: Decision) {
    && "score" in p && p["score"] == Numeric(d.score)
    && "threshold_version" in p && p["threshold_version"] == Text(d.thresholdVersion)
    && "invalidation_rule" in p && p["invalidation_rule"] == Text(d.invalidationRule)
    && "created_at_utc" in p && p["created_at_utc"] == Stamp(Some(d.createdAt))
    && "expires_at_utc" in p && p["expires_at_utc"] == Stamp(Some(d.expiresAt))
    && "dedup_key" in p && p["dedup_key"] == Text(d.dedupKey)
  }

  /** A signal event carries its signal's market and its decision's score, rules and times. */
  lemma SignalEventCarries(digest: Digest, id: string, rest: string, s: Signal, d: Decision)
    ensures BuildSignalEvent(digest, id, rest, s, d) == None <==> d.state == NO_SETUP
    ensures d.state != NO_SETUP ==>
              var e := BuildSignalEvent(digest, id, rest, s, d).value;
              && e.eventId == id && e.symbol == Some(s.symbol) && e.timeframe == Some(s.timeframe) && e.payload.Some? && e.provenance.Some?
              && CarriesDecision(e.payload.value, d)
              && forall k :: k in d.provenance && k != "numeric_fields" ==> k in e.provenance.value && e.provenance.value[k] == d.provenance[k]
  {
  }

  // ---------- the consumer ----------

  datatype Action = PUBLISH | HOLD | REJECT

  datatype Reason =
    | SchemaInvalid | AgentNumericSource | MissingProvenance | DuplicateEventId | CandidateInternal | Expired
    | NotInAllowlist | AllGatesPassed

  const ALLOWED_PUBLISH := {"SUPER_POTENTIAL_CONFIRMED", "SUPER_POTENTIAL_INVALIDATED", "DATA_QUALITY_WARNING", "SYSTEM_INCIDENT"}

  const FORBIDDEN_PUBLISH := {"SUPER_POTENTIAL_CANDIDATE_INTERNAL", "SYSTEM_HEALTH"}

  /** A missing expiry never expires; one that does not parse always has. */
  predicate IsExpired(e: Event, now: int)
    requires e.payload.Some?
  {
    "expires_at_utc" in e.payload.value &&
    match e.payload.value["expires_at_utc"]
    case Stamp(t) => t.None? || t.value <= now
    case Text(_) => true
    case _ => false
  }

  predicate HasAgentSource(p: Provenance) {
    NumericEntries(p).Some? &&
    var entries := NumericEntries(p).value;
    exists k :: k in entries && Lower(Get(entries[k], "source_system")) in AGENT_SOURCES
  }

  /** The verdict of `consume_event` against the ids published so far. */
  ghost function Verdict(digest: Digest, seen: set<string>, e: Event, now: int): (Action, Reason) {
    if !Valid(digest, e) then (REJECT, SchemaInvalid)
    else if HasAgentSource(e.provenance.value) then (REJECT, AgentNumericSource)
    else if e.provenance.value == map[] then (REJECT, MissingProvenance)
    else if e.eventId in seen then (REJECT, DuplicateEventId)
    else if e.eventType in FORBIDDEN_PUBLISH then (HOLD, CandidateInternal)
    else if IsExpired(e, now) then (REJECT, Expired)
    else if e.eventType !in ALLOWED_PUBLISH then (HOLD, NotInAllowlist)
    else (PUBLISH, AllGatesPassed)
  }

  ghost function SeenAfter(digest: Digest, seen: set<string>, e: Event, now: int): set<string> {
    if Verdict(digest, seen, e, now).0 == PUBLISH then seen + {e.eventId} else seen
  }

  class EventConsumer {
    const digest: Digest
    var seen: set<string>

    constructor (digest: Digest)
      ensures this.digest == digest && seen == {}
    {
      this.digest := digest;
      seen := {};
    }

    /** `consume_event` with the shared set of published ids. */
    method Consume(e: Event, now: int) returns (action: Action, reason: Reason)
      modifies this`seen
      ensures (action, reason) == Verdict(digest, old(seen), e, now)
      ensures seen == SeenAfter(digest, old(seen), e, now)
    {
      var issues := ValidateEnvelope(digest, e);
      if issues != [] {
        return REJECT, SchemaInvalid;
      }
      if HasAgentSource(e.provenance.value) {
        return REJECT, AgentNumericSource;
      }
      if e.provenance.value == map[] {
        return REJECT, MissingProvenance;
      }
      if e.eventId in seen {
        return REJECT, DuplicateEventId;
      }
      if e.eventType in FORBIDDEN_PUBLISH {
        return HOLD, CandidateInternal;
      }
      if IsExpired(e, now) {
        return REJECT, Expired;
      }
      if e.eventType !in ALLOWED_PUBLISH {
        return HOLD, NotInAllowlist;
      }
      seen := seen + {e.eventId};
      return PUBLISH, AllGatesPassed;
    }
  }

  /**
   * The whole pipeline: a built signal event that validates, has not been published and is consumed
   * before its expiry is published when CONFIRMED or INVALIDATED and held when CANDIDATE_INTERNAL; after
   * the expiry the former are rejected as expired.
   */
  lemma SignalPipeline(digest: Digest, id: string, rest: string, s: Signal, d: Decision, seen: set<string>, now: int)
    requires d.state != NO_SETUP && s.fetchedAt != "" && d.thresholdVersion != "" && id !in seen
    ensures var verdict := Verdict(digest, seen, BuildSignalEvent(digest, id, rest, s, d).value, now);
            if d.state == CANDIDATE_INTERNAL then verdict == (HOLD, CandidateInternal)
            else if now < d.expiresAt then verdict == (PUBLISH, AllGatesPassed)
            else verdict == (REJECT, Expired)
  {
    var e := BuildSignalEvent(digest, id, rest, s, d).value;
    SignalEventValid(digest, id, rest, s, d);
    ScoreEntryValid(s, d);
    assert NumericEntries(e.provenance.value) == Some(map["score" := ScoreEntry(s, d)]);
    assert !HasAgentSource(e.provenance.value);
    assert "numeric_fields" in e.provenance.value;
    assert e.payload.value["expires_at_utc"] == Stamp(Some(d.expiresAt));
    EventTypeSets(d.state);
  }

  lemma EventTypeSets(state: SignalState)
    requires state != NO_SETUP
    ensures EventType(state) in FORBIDDEN_PUBLISH <==> state == CANDIDATE_INTERNAL
    ensures EventType(state) in ALLOWED_PUBLISH <==> state != CANDIDATE_INTERNAL
  {
    assert EventType(CONFIRMED) == "SUPER_POTENTIAL_CONFIRMED";
    assert EventType(INVALIDATED) == "SUPER_POTENTIAL_INVALIDATED";
    assert EventType(CANDIDATE_INTERNAL) == "SUPER_POTENTIAL_CANDIDATE_INTERNAL";
    assert |"SUPER_POTENTIAL_CONFIRMED"| == 25 && |"SUPER_POTENTIAL_INVALIDATED"| == 27 && |"SUPER_POTENTIAL_CANDIDATE_INTERNAL"| == 34;
    assert |"DATA_QUALITY_WARNING"| == 20 && |"SYSTEM_INCIDENT"| == 15 && |"SYSTEM_HEALTH"| == 13;
  }

  /** An expiry that does not parse has passed; a missing one, or one that is not text, never has. */
  lemma ExpiryMeans(e: Event, now: int)
    requires e.payload.Some?
    ensures "expires_at_utc" !in e.payload.value ==> !IsExpired(e, now)
    ensures "expires_at_utc" in e.payload.value ==>
              match e.payload.value["expires_at_utc"]
              case Stamp(None) => IsExpired(e, now)
              case Stamp(Some(t)) => IsExpired(e, now) <==> t <= now
              case Text(_) => IsExpired(e, now)
              case _ => !IsExpired(e, now)
  {
  }

  /** No agent, model or specialist is the source of any number, however it is capitalized. */
  ghost predicate NoAgentNumbers(p: Provenance) {
    "numeric_fields" in p && p["numeric_fields"].NumericFields? ==>
      forall k :: k in p["numeric_fields"].entries ==>
        var system := Lower(Get(p["numeric_fields"].entries[k], "source_system"));
        system != "agent" && system != "llm" && system != "specialist"
  }

  /** The gates that come before the kind of the event. */
  ghost predicate Sourced(digest: Digest, seen: set<string>, e: Event) {
    Valid(digest, e) && NoAgentNumbers(e.provenance.value) && e.provenance.value != map[] && e.eventId !in seen
  }

  lemma AgentNumbersExactly(p: Provenance)
    ensures HasAgentSource(p) <==> !NoAgentNumbers(p)
  {
  }

  /** Exactly which events are published, held and refused for their age, and that nothing else is published. */
  lemma VerdictMeans(digest: Digest, seen: set<string>, e: Event, now: int)
    ensures var (action, reason) := Verdict(digest, seen, e, now);
            && (action == PUBLISH <==>
                  && Sourced(digest, seen, e) && !IsExpired(e, now)
                  && (e.eventType == "SUPER_POTENTIAL_CONFIRMED" || e.eventType == "SUPER_POTENTIAL_INVALIDATED"
                      || e.eventType == "DATA_QUALITY_WARNING" || e.eventType == "SYSTEM_INCIDENT"))
            && (action == HOLD <==>
                  Sourced(digest, seen, e) && (e.eventType == "SUPER_POTENTIAL_CANDIDATE_INTERNAL" || e.eventType == "SYSTEM_HEALTH"))
            && (reason == SchemaInvalid <==> !Valid(digest, e))
            && (reason == DuplicateEventId ==> e.eventId in seen)
            && (Valid(digest, e) && NoAgentNumbers(e.provenance.value) && e.provenance.value != map[] && e.eventId in seen ==> reason == DuplicateEventId)
            && (Valid(digest, e) && !NoAgentNumbers(e.provenance.value) ==> reason == AgentNumericSource)
  {
    hide NoAgentNumbers, HasAgentSource, IsExpired, Lower, NumericsSourced;
    if e.provenance.Some? {
      AgentNumbersExactly(e.provenance.value);
    }
    TypesDiffer(e.eventType);
  }

  lemma TypesDiffer(t: string)
    ensures t in FORBIDDEN_PUBLISH ==> t !in ALLOWED_PUBLISH
    ensures t in ALLOWED_EVENT_TYPES ==> t in FORBIDDEN_PUBLISH || t in ALLOWED_PUBLISH
  {
    assert |"SUPER_POTENTIAL_CONFIRMED"| == 25 && |"SUPER_POTENTIAL_INVALIDATED"| == 27 && |"SUPER_POTENTIAL_CANDIDATE_INTERNAL"| == 34;
    assert |"DATA_QUALITY_WARNING"| == 20 && |"SYSTEM_INCIDENT"| == 15 && |"SYSTEM_HEALTH"| == 13;
  }

  // ---------- each event id is published at most once ----------

  /** The ids published by a stream of events, in order. */
  ghost function Published(digest: Digest, seen: set<string>, stream: seq<(Event, int)>): seq<string>
    decreases |stream|
  {
    if stream == [] then []
    else
      var (e, now) := stream[0];
      (if Verdict(digest, seen, e, now).0 == PUBLISH then [e.eventId] else [])
      + Published(digest, SeenAfter(digest, seen, e, now), stream[1..])
  }

  ghost function SeenAtEnd(digest: Digest, seen: set<string>, stream: seq<(Event, int)>): set<string>
    decreases |stream|
  {
    if stream == [] then seen else SeenAtEnd(digest, SeenAfter(digest, seen, stream[0].0, stream[0].1), stream[1..])
  }

  /** Over any stream each id is published at most once, and the seen set grows by exactly the published ids. */
  lemma {:induction false} PublishesOnce(digest: Digest, seen: set<string>, stream: seq<(Event, int)>)
    ensures Distinct(Published(digest, seen, stream))
    ensures Elements(Published(digest, seen, stream)) !! seen
    ensures SeenAtEnd(digest, seen, stream) == seen + Elements(Published(digest, seen, stream))
    decreases |stream|
  {
    if stream != [] {
      hide Verdict;
      var (e, now) := stream[0];
      PublishedIsUnseen(digest, seen, e, now);
      var next := SeenAfter(digest, seen, e, now);
      var tail := Published(digest, next, stream[1..]);
      PublishesOnce(digest, next, stream[1..]);
      if Verdict(digest, seen, e, now).0 == PUBLISH {
        ElementsConcat([e.eventId], tail);
        forall i | 0 <= i < |tail|
          ensures tail[i] != e.eventId
        {
          assert tail[i] in Elements(tail);
        }
      }
    }
  }

  lemma PublishedIsUnseen(digest: Digest, seen: set<string>, e: Event, now: int)
    ensures Verdict(digest, seen, e, now).0 == PUBLISH ==> e.eventId !in seen
  {
  }

  // ---------- the market publisher ----------

  datatype MarketPayload = MarketPayload(
    eventType: string, symbol: string, timeframe: string, setupId: string, triggerVersion: string, dedupKey: string,
    expiresAt: int, hasEvidence: bool, hasProvenance: bool, fits: bool)

  datatype Delivery = Delivered | Refused

  const MARKET_EVENTS := {
    "SUPER_POTENTIAL_CONFIRMED", "SUPER_POTENTIAL_INVALIDATED", "DATA_QUALITY_WARNING", "SYSTEM_INCIDENT", "SYSTEM_RECOVERED"}

  function MarketKey(eventType: string, symbol: string, timeframe: string, setupId: string, triggerVersion: string): string {
    eventType + ":" + symbol + ":" + timeframe + ":" + setupId + ":" + triggerVersion
  }

  /** `_validate_payload`; the second half of the tests, `fits`, is the length of the formatted message. */
  predicate Acceptable(p: MarketPayload, now: int) {
    && p.eventType in MARKET_EVENTS && now < p.expiresAt && p.hasEvidence && p.hasProvenance
    && p.dedupKey == MarketKey(p.eventType, p.symbol, p.timeframe, p.setupId, p.triggerVersion)
  }

  /** The dedup key of a signal decision is the key that the publisher expects for its event type. */
  lemma SignalKeyAccepted(s: Signal, c: Thresholds, d: Decision)
    requires WellDecided(s, c, d)
    ensures d.dedupKey == MarketKey(EventType(d.state), s.symbol, s.timeframe, s.setupId, s.triggerVersion)
  {
  }

  /** One call: the payload, the clock of the payload check, and the store's clock at its two readings. */
  datatype Call = Call(payload: MarketPayload, checkedAt: int, seenAt: int, markedAt: int)

  function SeenKey(store: map<string, int>, key: string, now: int): bool {
    key in store && store[key] > now
  }

  predicate Accepted(store: map<string, int>, call: Call) {
    Acceptable(call.payload, call.checkedAt) && !SeenKey(store, call.payload.dedupKey, call.seenAt) && call.payload.fits
  }

  function StoreAfter(cooldown: int, store: map<string, int>, call: Call): map<string, int> {
    if Accepted(store, call) then store[call.payload.dedupKey := call.markedAt + cooldown] else store
  }

  class TelegramPublisher {
    const cooldown: int
    var store: map<string, int>

    constructor (cooldown: int)
      ensures this.cooldown == cooldown && store == map[]
    {
      this.cooldown := cooldown;
      store := map[];
    }

    /** `format_market`: check, look up, format, mark. */
    method FormatMarket(call: Call) returns (r: Delivery)
      modifies this`store
      ensures r == if Accepted(old(store), call) then Delivered else Refused
      ensures store == StoreAfter(cooldown, old(store), call)
    {
      if !Acceptable(call.payload, call.checkedAt) {
        return Refused;
      }
      if call.payload.dedupKey in store && store[call.payload.dedupKey] > call.seenAt {
        return Refused;
      }
      if !call.payload.fits {
        return Refused;
      }
      store := store[call.payload.dedupKey := call.markedAt + cooldown];
      return Delivered;
    }
  }

  ghost function StoreAtEnd(cooldown: int, store: map<string, int>, calls: seq<Call>): map<string, int> {
    if calls == [] then store
    else StoreAfter(cooldown, StoreAtEnd(cooldown, store, calls[..|calls| - 1]), calls[|calls| - 1])
  }

  /** The readings of the store's clock never run backwards. */
  ghost predicate ClockForward(calls: seq<Call>) {
    && (forall i :: 0 <= i < |calls| ==> calls[i].seenAt <= calls[i].markedAt)
    && (forall i, j :: 0 <= i < j < |calls| ==> calls[i].markedAt <= calls[j].seenAt)
  }

  ghost predicate AcceptedAt(cooldown: int, store: map<string, int>, calls: seq<Call>, i: nat)
    requires i < |calls|
  {
    Accepted(StoreAtEnd(cooldown, store, calls[..i]), calls[i])
  }

  /** After an accepted call the stored expiry of its key stays at least one cooldown after it. */
  lemma {:induction false} ExpiryHeld(cooldown: int, store: map<string, int>, calls: seq<Call>, i: nat, n: nat)
    requires i < n <= |calls| && ClockForward(calls) && AcceptedAt(cooldown, store, calls, i)
    ensures var after, key := StoreAtEnd(cooldown, store, calls[..n]), calls[i].payload.dedupKey;
            key in after && after[key] >= calls[i].markedAt + cooldown
  {
    assert calls[..n][..n - 1] == calls[..n - 1] && calls[..n][n - 1] == calls[n - 1];
    if i < n - 1 {
      ExpiryHeld(cooldown, store, calls, i, n - 1);
    }
  }

  /** Two accepted calls with the same key are at least one cooldown apart on the store's clock. */
  lemma CooldownRespected(cooldown: int, store: map<string, int>, calls: seq<Call>, i: nat, j: nat)
    requires i < j < |calls| && ClockForward(calls)
    requires AcceptedAt(cooldown, store, calls, i) && AcceptedAt(cooldown, store, calls, j)
    requires calls[i].payload.dedupKey == calls[j].payload.dedupKey
    ensures calls[j].seenAt - calls[i].markedAt >= cooldown
  {
    ExpiryHeld(cooldown, store, calls, i, j);
  }

  // ---------- what is delivered ----------

  /** Exactly which payloads are delivered: one of five kinds, not expired, with evidence, provenance and its own key, unseen, and fitting. */
  lemma DeliveredExactly(store: map<string, int>, call: Call)
    ensures var p := call.payload;
            Accepted(store, call) <==>
              && (p.eventType == "SUPER_POTENTIAL_CONFIRMED" || p.eventType == "SUPER_POTENTIAL_INVALIDATED" || p.eventType == "DATA_QUALITY_WARNING"
                  || p.eventType == "SYSTEM_INCIDENT" || p.eventType == "SYSTEM_RECOVERED")
              && call.checkedAt < p.expiresAt && p.hasEvidence && p.hasProvenance && p.fits
              && p.dedupKey == p.eventType + ":" + p.symbol + ":" + p.timeframe + ":" + p.setupId + ":" + p.triggerVersion
              && (p.dedupKey in store ==> store[p.dedupKey] <= call.seenAt)
  {
  }

  /** Without an accepted call of the key, its stored expiry stays as it is. */
  lemma {:induction false} ExpiryUntouched(cooldown: int, store: map<string, int>, calls: seq<Call>, key: string, i: nat, j: nat)
    requires i <= j <= |calls|
    requires forall k :: i <= k < j && calls[k].payload.dedupKey == key ==> !AcceptedAt(cooldown, store, calls, k)
    ensures var before, after := StoreAtEnd(cooldown, store, calls[..i]), StoreAtEnd(cooldown, store, calls[..j]);
            (key in after <==> key in before) && (key in before ==> after[key] == before[key])
  {
    if i < j {
      ExpiryUntouched(cooldown, store, calls, key, i, j - 1);
      assert calls[..j][..j - 1] == calls[..j - 1] && calls[..j][j - 1] == calls[j - 1];
      hide Accepted;
    }
  }

  /** The cooldown ends: one cooldown after an accepted call, with none in between, the same key is delivered again. */
  lemma DeliveredAgain(cooldown: int, store: map<string, int>, calls: seq<Call>, i: nat, j: nat)
    requires i < j < |calls| && AcceptedAt(cooldown, store, calls, i)
    requires calls[i].payload.dedupKey == calls[j].payload.dedupKey && Acceptable(calls[j].payload, calls[j].checkedAt) && calls[j].payload.fits
    requires forall k :: i < k < j && calls[k].payload.dedupKey == calls[i].payload.dedupKey ==> !AcceptedAt(cooldown, store, calls, k)
    ensures AcceptedAt(cooldown, store, calls, j) <==> calls[j].seenAt - calls[i].markedAt >= cooldown
  {
    var key := calls[i].payload.dedupKey;
    ExpiryUntouched(cooldown, store, calls, key, i + 1, j);
    assert calls[..i + 1][..i] == calls[..i] && calls[..i + 1][i] == calls[i];
    hide Acceptable;
  }
}
