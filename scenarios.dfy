/** Two concrete event sequences, one for a host and one for a pod, replayed through the model. */
module ParserScenarios {
  import opened Wrappers
  import opened Readiness
  import opened Transition
  import opened Parser

  lemma LowerExamples()
    ensures Lower("True") == TrueValue
    ensures Lower("False") == "false"
  {
    assert Lower("True") == ['t', 'r', 'u', 'e'];
    assert Lower("False") == ['f', 'a', 'l', 's', 'e'];
  }

  /** A host event whose only condition is Ready with the given status. */
  function HostEvent(change: ChangeType, status: string): WatchEvent
  {
    WatchEvent(change, RawObject(ObjectMeta(Some("node2"), None), None, Some([Condition(Some(ReadyType), Some(status))])))
  }

  /** Host "node2": ADDED True alerts Online, MODIFIED False alerts Failed, MODIFIED False again is silent. */
  lemma HostScenario()
    ensures var r1 := ParseOutcome(NodeParser, map[], HostEvent(Added, "True"), "t1");
      r1.alert == Some(Alert("host", "node2", Online, "t1", None, None)) &&
      r1.cache == map["node2" := Some("true")] &&
      var r2 := ParseOutcome(NodeParser, r1.cache, HostEvent(Modified, "False"), "t2");
      r2.alert == Some(Alert("host", "node2", Failed, "t2", None, None)) &&
      r2.cache == map["node2" := Some("false")] &&
      var r3 := ParseOutcome(NodeParser, r2.cache, HostEvent(Modified, "False"), "t3");
      r3.alert == None && r3.cache == r2.cache
  {
    LowerExamples();
  }

  /** A pod event labelled with machine id "cortx-data123", scheduled on host "node5". */
  function PodEvent(change: ChangeType, status: string): WatchEvent
  {
    WatchEvent(change, RawObject(
      ObjectMeta(Some("cortx-data-pod-7"), Some(map[MachineIdLabel := "cortx-data123"])),
      Some(PodSpec(Some("node5"))),
      Some([Condition(Some(ReadyType), Some(status))])))
  }

  /** Pod "cortx-data123": ADDED False is silent but recorded; MODIFIED True then alerts Online. */
  lemma PodScenario()
    ensures var r1 := ParseOutcome(PodParser, map[], PodEvent(Added, "False"), "t1");
      r1.alert == None &&
      r1.cache == map["cortx-data123" := Some("false")] &&
      var r2 := ParseOutcome(PodParser, r1.cache, PodEvent(Modified, "True"), "t2");
      r2.alert == Some(Alert("node", "cortx-data123", Online, "t2", Some("node5"), Some("cortx-data-pod-7"))) &&
      r2.cache == map["cortx-data123" := Some("true")]
  {
    LowerExamples();
  }
}
