/**
 * Readiness extraction, shared by both event parsers
 * (ha/monitor/k8s/parser.py, the try/for blocks of NodeEventParser.parse and PodEventParser.parse).
 *
 * The parser walks `status.conditions` and keeps the `status` of the LAST condition whose `type`
 * is exactly the Ready tag.  Any exception raised while walking (the path is missing, a condition
 * has no `type`, a Ready condition has no `status`) is swallowed: the scan simply stops, and
 * whatever Ready status was seen before that point survives.
 */
module Readiness {
  import opened Wrappers

  /** The condition type that carries readiness; compared case-sensitively. */
  const ReadyType: string := "Ready"

  /** The lowercased status value meaning "ready". */
  const TrueValue: string := "true"

  /**
   * One entry of `status.conditions`.  A field is None when its key is missing from the entry
   * (reading it raises KeyError in the source).
   */
  datatype Condition = Condition(condType: Option<string>, status: Option<string>)

  /** True when reading this condition raises: no `type`, or a Ready condition without `status`. */
  predicate Malformed(c: Condition) {
    c.condType.None? || (c.condType.value == ReadyType && c.status.None?)
  }

  /** A well-formed condition that reports readiness. */
  predicate IsReadyCondition(c: Condition) {
    c.condType == Some(ReadyType) && c.status.Some?
  }

  /** The number of conditions the scan gets through: the index of the first malformed one, or all. */
  function ScannedLength(cs: seq<Condition>): (n: nat)
    ensures n <= |cs|
    ensures forall i :: 0 <= i < n ==> !Malformed(cs[i])
    ensures n < |cs| ==> Malformed(cs[n])
  {
    if cs == [] || Malformed(cs[0]) then 0 else 1 + ScannedLength(cs[1..])
  }

  /** Reference definition: the status of the last Ready condition of `cs`, if there is one. */
  function LastReady(cs: seq<Condition>): Option<string>
  {
    if cs == [] then None
    else if IsReadyCondition(cs[|cs| - 1]) then cs[|cs| - 1].status
    else LastReady(cs[..|cs| - 1])
  }

  /**
   * The ready status the parser ends up with, given `status.conditions` (None when that path is
   * missing).  None means "undetermined".
   */
  function ReadinessOf(conditions: Option<seq<Condition>>): Option<string>
  {
    match conditions
    case None => None
    case Some(cs) => LastReady(cs[..ScannedLength(cs)])
  }

  /** The scan itself, as the source runs it: a loop that overwrites the ready status and stops at the first exception. */
  method ExtractReadiness(conditions: Option<seq<Condition>>) returns (ready: Option<string>)
    ensures ready == ReadinessOf(conditions)
  {
    ready := None;
    if conditions.None? {
      return;
    }
    var cs := conditions.value;
    var i := 0;
    while i < |cs|
      invariant 0 <= i <= |cs|
      invariant forall j :: 0 <= j < i ==> !Malformed(cs[j])
      invariant ready == LastReady(cs[..i])
    {
      var c := cs[i];
      if c.condType.None? {
        break;
      }
      if c.condType.value == ReadyType {
        if c.status.None? {
          break;
        }
        ready := c.status;
      }
      assert cs[..i + 1][..i] == cs[..i];
      i := i + 1;
    }
    assert i == ScannedLength(cs);
  }

  /**
   * Readiness is determined as `s` exactly when some scanned condition is a Ready condition with
   * status `s` and no later scanned condition is a Ready condition.
   */
  lemma {:induction false} LastReadyIff(cs: seq<Condition>, s: string)
    ensures LastReady(cs) == Some(s) <==>
      exists i :: 0 <= i < |cs| && IsReadyCondition(cs[i]) && cs[i].status == Some(s) &&
        forall j :: i < j < |cs| ==> !IsReadyCondition(cs[j])
  {
    if cs != [] {
      var n := |cs| - 1;
      var init := cs[..n];
      LastReadyIff(init, s);
      if IsReadyCondition(cs[n]) {
        if cs[n].status == Some(s) {
          assert forall j :: n < j < |cs| ==> !IsReadyCondition(cs[j]);
        } else {
          forall i | 0 <= i < |cs| && IsReadyCondition(cs[i]) && cs[i].status == Some(s)
            ensures exists j :: i < j < |cs| && IsReadyCondition(cs[j])
          {
            assert i < n;
          }
        }
      } else {
        if LastReady(init) == Some(s) {
          var i :| 0 <= i < |init| && IsReadyCondition(init[i]) && init[i].status == Some(s) &&
            forall j :: i < j < |init| ==> !IsReadyCondition(init[j]);
          assert cs[i] == init[i];
          assert forall j :: i < j < |cs| ==> !IsReadyCondition(cs[j]) by {
            forall j | i < j < |cs| ensures !IsReadyCondition(cs[j]) {
              if j < n { assert cs[j] == init[j]; }
            }
          }
        } else {
          forall i | 0 <= i < |cs| && IsReadyCondition(cs[i]) && cs[i].status == Some(s)
            ensures exists j :: i < j < |cs| && IsReadyCondition(cs[j])
          {
            assert i < n && init[i] == cs[i];
            var j :| i < j < |init| && IsReadyCondition(init[j]);
            assert cs[j] == init[j];
          }
        }
      }
    }
  }

  /**
   * The determined readiness is the status of the last Ready condition before the scan stops;
   * undetermined when the path is missing or no such condition precedes the first malformed one.
   */
  lemma ReadinessIsLastScannedReady(cs: seq<Condition>, s: string)
    ensures ReadinessOf(Some(cs)) == Some(s) <==>
      exists i :: 0 <= i < ScannedLength(cs) && IsReadyCondition(cs[i]) && cs[i].status == Some(s) &&
        forall j :: i < j < ScannedLength(cs) ==> !IsReadyCondition(cs[j])
  {
    var n := ScannedLength(cs);
    LastReadyIff(cs[..n], s);
    assert forall i :: 0 <= i < n ==> cs[..n][i] == cs[i];
  }

  /** Whatever follows the first malformed condition is never looked at. */
  lemma MalformedStopsScan(scanned: seq<Condition>, bad: Condition, rest: seq<Condition>)
    requires forall i :: 0 <= i < |scanned| ==> !Malformed(scanned[i])
    requires Malformed(bad)
    ensures ReadinessOf(Some(scanned + [bad] + rest)) == ReadinessOf(Some(scanned))
  {
    var cs := scanned + [bad] + rest;
    ScannedPrefix(cs, |scanned|);
    ScannedPrefix(scanned, |scanned|);
    assert cs[..|scanned|] == scanned;
    assert scanned[..|scanned|] == scanned;
  }

  /** ScannedLength is the first malformed index. */
  lemma ScannedPrefix(cs: seq<Condition>, k: nat)
    requires k <= |cs|
    requires forall i :: 0 <= i < k ==> !Malformed(cs[i])
    requires k == |cs| || Malformed(cs[k])
    ensures ScannedLength(cs) == k
  {
  }

  /** Lowercase one character (ASCII letters only). */
  function LowerChar(c: char): char
  {
    if 'A' <= c <= 'Z' then (c as int + 32) as char else c
  }

  /** String lowercasing, as `str.lower()` acts on ASCII text. */
  function Lower(s: string): (r: string)
    ensures |r| == |s|
    ensures forall i :: 0 <= i < |r| ==> !('A' <= r[i] <= 'Z')
    ensures forall i :: 0 <= i < |r| && !('A' <= s[i] <= 'Z') ==> r[i] == s[i]
    ensures forall i :: 0 <= i < |r| && 'A' <= s[i] <= 'Z' ==> r[i] as int == s[i] as int + 32
  {
    seq(|s|, i requires 0 <= i < |s| => LowerChar(s[i]))
  }
}
