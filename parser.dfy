/**
 * The event parsers and their dispatcher (ha/monitor/k8s/parser.py): NodeEventParser.parse for
 * host events, PodEventParser.parse for pod events, and EventParser.parse, which picks one by the
 * watched object kind.  Each parse reads and updates the shared cache and returns zero or one alert.
 */
module Parser {
  import opened Wrappers
  import opened Readiness
  import opened Transition

  /** The pod label that holds the pod's stable machine id (the constant's literal lives outside this model). */
  const MachineIdLabel: string := "machineid"

  /** `metadata` of the raw object; `labels` is None when the key is missing. */
  datatype ObjectMeta = ObjectMeta(name: Option<string>, labels: Option<map<string, string>>)

  /** `spec` of a pod. */
  datatype PodSpec = PodSpec(nodeName: Option<string>)

  /**
   * The raw object of a watch event.  `spec` is None when the key is missing; `conditions` is
   * None when `status.conditions` cannot be reached.
   */
  datatype RawObject = RawObject(metadata: ObjectMeta, spec: Option<PodSpec>, conditions: Option<seq<Condition>>)

  /** A watch event: its change type and its raw object. */
  datatype WatchEvent = WatchEvent(change: ChangeType, rawObject: RawObject)

  /** The alert a parse returns.  `node` and `generationId` are filled by the pod parser only. */
  datatype Alert = Alert(
    resourceType: string,
    resourceName: string,
    eventType: AlertState,
    timestamp: string,
    node: Option<string>,
    generationId: Option<string>)

  /** The two parser variants. */
  datatype ParserKind = NodeParser | PodParser

  /** The dispatcher's registry: watched object kind to parser. */
  const ParserMap: map<string, ParserKind> := map["node" := NodeParser, "pod" := PodParser]

  /** NotSupportedObjectError, carrying its message. */
  datatype ParseError = NotSupportedObject(message: string)

  /** The alert's `resource_type`: a pod is reported as a cluster "node". */
  function ResourceType(kind: ParserKind): string
  {
    match kind
    case NodeParser => "host"
    case PodParser => "node"
  }

  /**
   * The fields a parser reads without a guard are present: the host's name (the alert's resource
   * name) or the pod's labels, machine-id label and spec.
   */
  predicate Parsable(kind: ParserKind, event: WatchEvent)
  {
    var meta := event.rawObject.metadata;
    match kind
    case NodeParser => meta.name.Some?
    case PodParser =>
      meta.labels.Some? && MachineIdLabel in meta.labels.value && event.rawObject.spec.Some?
  }

  /** The cache key: the host's metadata name, or the pod's machine-id label. */
  function Identity(kind: ParserKind, event: WatchEvent): string
    requires Parsable(kind, event)
  {
    var meta := event.rawObject.metadata;
    match kind
    case NodeParser => meta.name.value
    case PodParser => meta.labels.value[MachineIdLabel]
  }

  /** The alert a parser returns once the transition has decided on `state`. */
  function AlertFor(kind: ParserKind, event: WatchEvent, state: AlertState, timestamp: string): Alert
    requires Parsable(kind, event)
  {
    match kind
    case NodeParser => Alert(ResourceType(kind), Identity(kind, event), state, timestamp, None, None)
    case PodParser =>
      Alert(ResourceType(kind), Identity(kind, event), state, timestamp,
            event.rawObject.spec.value.nodeName, event.rawObject.metadata.name)
  }

  datatype Outcome = Outcome(cache: Cache, alert: Option<Alert>)

  /** The effect of one parse call on the cache, and the alert it returns. */
  function ParseOutcome(kind: ParserKind, m: Cache, event: WatchEvent, timestamp: string): (r: Outcome)
    requires Parsable(kind, event)
    ensures var name := Identity(kind, event);
      m.Keys <= r.cache.Keys <= m.Keys + {name} &&
      forall k :: k != name && k in m ==> r.cache[k] == m[k]
    ensures r.alert.Some? ==>
      var a := r.alert.value; var name := Identity(kind, event);
      a.resourceType == ResourceType(kind) && a.resourceName == name && a.timestamp == timestamp &&
      ReadinessOf(event.rawObject.conditions).Some? &&
      (event.change == Added || event.change == Modified) &&
      name in r.cache && (a.eventType == Online <==> r.cache[name] == Some(TrueValue))
    ensures r.alert.Some? && kind == PodParser ==>
      r.alert.value.node == event.rawObject.spec.value.nodeName &&
      r.alert.value.generationId == event.rawObject.metadata.name
  {
    var name := Identity(kind, event);
    var step := Step(m, Observation(name, ReadinessOf(event.rawObject.conditions), event.change));
    Outcome(step.cache, if step.alert.Some? then Some(AlertFor(kind, event, step.alert.value, timestamp)) else None)
  }

  /** NodeEventParser.parse: a host event, keyed by the host's metadata name. */
  method ParseNodeEvent(event: WatchEvent, cache: StateCache, timestamp: string) returns (alert: Option<Alert>)
    requires Parsable(NodeParser, event)
    modifies cache
    ensures var r := ParseOutcome(NodeParser, old(cache.entries), event, timestamp);
      cache.entries == r.cache && alert == r.alert
  {
    var name := event.rawObject.metadata.name.value;
    var ready := ExtractReadiness(event.rawObject.conditions);
    var state := ApplyTransition(cache, name, ready, event.change);
    if state.Some? {
      alert := Some(Alert("host", name, state.value, timestamp, None, None));
    } else {
      alert := None;
    }
  }

  /** PodEventParser.parse: a pod event, keyed by the pod's machine-id label. */
  method ParsePodEvent(event: WatchEvent, cache: StateCache, timestamp: string) returns (alert: Option<Alert>)
    requires Parsable(PodParser, event)
    modifies cache
    ensures var r := ParseOutcome(PodParser, old(cache.entries), event, timestamp);
      cache.entries == r.cache && alert == r.alert
  {
    var name := event.rawObject.metadata.labels.value[MachineIdLabel];
    var node := event.rawObject.spec.value.nodeName;
    var generationId := event.rawObject.metadata.name;
    var ready := ExtractReadiness(event.rawObject.conditions);
    var state := ApplyTransition(cache, name, ready, event.change);
    if state.Some? {
      alert := Some(Alert("node", name, state.value, timestamp, node, generationId));
    } else {
      alert := None;
    }
  }

  /**
   * EventParser.parse: routes "node" to the host parser and "pod" to the pod parser; any other
   * kind fails with NotSupportedObjectError before the cache is touched.
   */
  method Parse(kObject: string, event: WatchEvent, cache: StateCache, timestamp: string)
    returns (r: Result<Option<Alert>, ParseError>)
    requires kObject in ParserMap ==> Parsable(ParserMap[kObject], event)
    modifies cache
    ensures kObject !in ParserMap ==>
      r == Failure(NotSupportedObject("object = " + kObject)) && cache.entries == old(cache.entries)
    ensures kObject in ParserMap ==>
      var o := ParseOutcome(ParserMap[kObject], old(cache.entries), event, timestamp);
      r == Success(o.alert) && cache.entries == o.cache
  {
    if kObject in ParserMap {
      var alert;
      match ParserMap[kObject] {
        case NodeParser => alert := ParseNodeEvent(event, cache, timestamp);
        case PodParser => alert := ParsePodEvent(event, cache, timestamp);
      }
      return Success(alert);
    }
    return Failure(NotSupportedObject("object = " + kObject));
  }

  /** The registry holds exactly the two kinds, and they reach different parsers. */
  lemma RegistryRoutes(kObject: string)
    ensures kObject in ParserMap <==> kObject == "node" || kObject == "pod"
    ensures kObject == "node" ==> ParserMap[kObject] == NodeParser
    ensures kObject == "pod" ==> ParserMap[kObject] == PodParser
  {
  }
}
