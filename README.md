# Kubernetes watch-event parser: the event-to-alert state machine

This project models the core of `ha/monitor/k8s/parser.py` from the CORTX high-availability
monitor. The monitor turns a Kubernetes watch event for a host or a pod into zero or one health
alert. It decides whether to alert from a shared in-memory `cached_state` dictionary, which maps a
resource name to its last lowercased readiness value. The entry is `None` when the resource was
seen but its readiness could not be determined.

Modules:

- `Wrappers` (`wrappers.dfy`): `Option` and `Result`.
- `Readiness` (`readiness.dfy`): the scan of `status.conditions`. `ExtractReadiness` is the loop
  that keeps the last `Ready` status and stops at the first condition whose read would raise.
  It is proved equal to `ReadinessOf`, which is built from the reference definition `LastReady`.
  Lowercasing is ASCII `Lower`.
- `Transition` (`transition.dfy`): the transition logic both parsers share.
  - `Next` is the per-name automaton. Its states are absent, `Seen(None)`, `Seen(Some("true"))`
    and `Seen(Some(other))`.
  - `Step` applies `Next` to the whole cache.
  - `StateCache` is the dictionary that every call updates in place. `ApplyTransition` is the
    imperative transition over that dictionary, proved equal to `Step`.
  - `Run`, `RunOne` and the lemmas about them describe whole streams of events.
- `Parser` (`parser.dfy`): the watch event and alert records, the two parsers
  (`ParseNodeEvent`, `ParsePodEvent`), and the dispatcher `Parse` with its registry `ParserMap`.
- `ParserScenarios` (`scenarios.dfy`): two concrete event sequences, one for a host and one for a pod, replayed through the model.

The two parsers differ only in three things: the cache key, the alert's `resource_type`, and the
pod's extra `node` and `generation_id` fields. Both call one transition method.

Two behaviours of the code are easy to misread:

- The dispatcher's registry keys are `'node'` and `'pod'` (parser.py:167-170). `"host"` is only
  the host alert's `resource_type`.
- A MODIFIED event that does not cross the ready / not-ready boundary leaves the cache untouched
  (parser.py:85-87, 154-156). The stored value is not refreshed.

## Model

| member | source | states |
|---|---|---|
| `Readiness.ExtractReadiness` | ha/monitor/k8s/parser.py:53-59 | The loop over the conditions returns exactly `ReadinessOf`. This is the last Ready status before the first condition that raises. It is None when the conditions path is missing. |
| `Readiness.ScannedLength` | ha/monitor/k8s/parser.py:54-59 | The scan gets through exactly the conditions before the first malformed one. A condition is malformed when it has no `type`, or when it is Ready-typed and has no `status`. |
| `Readiness.LastReadyIff` | ha/monitor/k8s/parser.py:55-57 | `LastReady(cs)` is `Some(s)` if and only if some Ready condition has status `s` and no later condition is a Ready condition. The type match is exact. |
| `Readiness.ReadinessIsLastScannedReady` | ha/monitor/k8s/parser.py:122-128 | The same if-and-only-if for the parser's result, restricted to the conditions scanned before the exception. |
| `Readiness.MalformedStopsScan` | ha/monitor/k8s/parser.py:123-128 | Conditions after the first malformed one never affect readiness. A Ready status found before that point survives. |
| `Readiness.Lower` | ha/monitor/k8s/parser.py:67 | The lowercased status has the same length as the input. Each ASCII capital becomes its lower-case letter, and every other character is kept, so "True" and "TRUE" both compare equal to "true". |
| `Transition.Next` | ha/monitor/k8s/parser.py:61-94 | Per-name automaton. An alert leaves the name cached as the lowercased status, and the alert is Online exactly when that status is "true". Failed needs a prior "true". Online needs ADDED or a prior non-"true". An absent name stays absent or becomes seen. A name becomes "true" only with an Online alert. |
| `Transition.Step` | ha/monitor/k8s/parser.py:130-163 | A call writes at most one key, the parsed name. It never removes a key. Every other entry is unchanged. |
| `Transition.UndeterminedRecordsUnknown` | ha/monitor/k8s/parser.py:61-64 | Undetermined readiness sets the entry to None and returns no alert, for every change type. |
| `Transition.AddedStoresLowered` | ha/monitor/k8s/parser.py:66-73 | ADDED stores the lowercased status whatever the prior entry. It alerts Online if and only if the status is "true", and otherwise returns no alert. |
| `Transition.ModifiedUnseenIgnored` | ha/monitor/k8s/parser.py:88-90 | MODIFIED with determined readiness for a name not in the cache returns no alert and leaves the cache unchanged. (With undetermined readiness the entry is set to None first, as in `UndeterminedRecordsUnknown`.) |
| `Transition.ModifiedCrossing` | ha/monitor/k8s/parser.py:76-87 | MODIFIED of a cached name. A move from not-"true" (including None) to "true" stores the value and alerts Online. A move from "true" to not-"true" stores it and alerts Failed. Without a crossing there is no alert and no write. |
| `Transition.OtherChangeIgnored` | ha/monitor/k8s/parser.py:92-94 | With a determined status, a change type other than ADDED or MODIFIED, such as DELETED, changes nothing and returns no alert. |
| `Transition.StepTwice` | ha/monitor/k8s/parser.py:154-156 | Replaying an event leaves the cache as the first call left it. A replayed MODIFIED or other event alerts nothing. A replayed ADDED repeats its alert. |
| `Transition.ApplyTransition` | ha/monitor/k8s/parser.py:130-163 | The in-place transition over the cache dictionary gives exactly the new cache and the alert state of `Step`. |
| `Transition.RunProjects` | ha/monitor/k8s/parser.py:132-159 | Over any stream of events on one shared cache, a name's final entry and its alerts are those of its own automaton run over only that name's events. Resources do not interact. |
| `Transition.FailedFollowsOnline` | ha/monitor/k8s/parser.py:75-84 | In any stream for one name, each Failed alert comes right after an Online alert, or it is the first alert and the name started cached "true". A name ends cached "true" only when it started "true" with no alert, or when its last alert was Online. |
| `Transition.ModifiedAlertsAlternate` | ha/monitor/k8s/parser.py:144-156 | For a seen name that receives only MODIFIED events with determined readiness, alerts strictly alternate. The first alert leaves the starting readiness. The final entry is "true" exactly when the last alert was Online, or, with no alerts, when the name started "true". |
| `Parser.ParseOutcome` | ha/monitor/k8s/parser.py:106-120 | A parse writes at most the parsed identity's key. An alert carries the parser's resource type, the identity and the timestamp. It needs determined readiness and an ADDED or MODIFIED event. It is Online exactly when the identity is now cached "true". A pod alert carries `spec.nodeName` as `node` and `metadata.name` as `generation_id`. |
| `Parser.ParseNodeEvent` | ha/monitor/k8s/parser.py:42-94 | The host parser, keyed by `metadata.name` with resource type "host", updates the cache and returns the alert of `ParseOutcome`. |
| `Parser.ParsePodEvent` | ha/monitor/k8s/parser.py:106-163 | The pod parser, keyed by the machine-id label with resource type "node", updates the cache and returns the alert of `ParseOutcome`. |
| `Parser.Parse` | ha/monitor/k8s/parser.py:172-178 | A registered kind runs its parser. Any other kind fails with NotSupportedObjectError("object = kind") and leaves the cache unchanged. |
| `Parser.RegistryRoutes` | ha/monitor/k8s/parser.py:167-170 | The registry holds exactly "node", which goes to the host parser, and "pod", which goes to the pod parser. |
| `ParserScenarios.HostScenario` | ha/monitor/k8s/parser.py:66-87 | Host node2: ADDED "True" alerts Online and caches "true". MODIFIED "False" alerts Failed and caches "false". A second MODIFIED "False" is silent and changes nothing. |
| `ParserScenarios.PodScenario` | ha/monitor/k8s/parser.py:135-153 | A pod with machine id cortx-data123: ADDED "False" is silent and caches "false". MODIFIED "True" alerts Online with the pod's node and generation id. |

## Left out

- The alert's timestamp, `str(int(time.time()))`, is the wall clock. It is a `timestamp` parameter of each parse.
- `Log.debug` calls are logging only.
- `K8sAlert` and the constants module `ha.monitor.k8s.const` are not part of this model.
  - The Ready tag is taken to be "Ready" and the ready value "true".
  - The machine-id label key is a placeholder string. No proof depends on its value.
  - The event states are the `ChangeType` constructors. `Other` stands for DELETED and every other watch type.
  - The alert states are `Online` and `Failed`.
  - `K8sAlert`'s unset `node` and `generation_id` are None.
- Fields read without a guard are preconditions (`Parsable`), because reading them raises an uncaught KeyError:
  - the event's raw object, `an_event[RAW_OBJECT]` (parser.py:46, 110), always present in `WatchEvent`;
  - the raw object's `metadata` (parser.py:50, 112, 119), always present in `RawObject`;
  - the pod's `metadata.labels` and `spec` (parser.py:112, 117);
  - the event type (parser.py:135), always present in `WatchEvent`.
- A missing host name or machine-id label leaves `resource_name` at `K8sAlert`'s unseen default. The model requires them present.
- The host parser sees a missing event type only through that same unseen default. The model does not cover that case.
- Lowercasing is ASCII only. Python's `str.lower` also folds non-ASCII letters.
- Payload values of the wrong type are not modelled. For example, a non-string status would make `.lower()` raise. Statuses are strings.
- A condition entry that is not a dictionary raises when read, like a missing `type`. It is modelled as a condition with no `type`.
- Concurrency: the cache is used by one sequential caller.
- ha/test/integration/health_monitor/test_k8s_publisher.py is message-bus and polling plumbing, and is not part of this model.
