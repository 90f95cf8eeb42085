/** Kafka topics: the if-chain of the event receiver (cmd/hmcollector/rest.go) and the switch of the
    polling path (cmd/hmcollector/polling.go). */
module Routing {
  import opened Basics

  predicate HasPrefix(s: string, p: string) {
    |p| <= |s| && s[..|p|] == p
  }

  predicate HasSuffix(s: string, p: string) {
    |p| <= |s| && s[|s| - |p|..] == p
  }

  /** The if-chain of `parseRequest`; None means the event is dropped with an error log. */
  function Topic(id: string): Option<string> {
    if HasPrefix(id, "CrayTelemetry") then
      if HasSuffix(id, "Temperature") then Some("cray-telemetry-temperature")
      else if HasSuffix(id, "Voltage") then Some("cray-telemetry-voltage")
      else if HasSuffix(id, "Power") || HasSuffix(id, "Current") then Some("cray-telemetry-power")
      else if HasSuffix(id, "Energy") then Some("cray-telemetry-energy")
      else if HasSuffix(id, "Fan") || HasSuffix(id, "Rotational") then Some("cray-telemetry-fan")
      else if HasSuffix(id, "Pressure") then Some("cray-telemetry-pressure")
      else if HasSuffix(id, "LiquidFlow") then Some("cray-telemetry-liquidflow")
      else if HasSuffix(id, "Humidity") then Some("cray-telemetry-humidity")
      else if HasSuffix(id, "Metric") then Some("cray-telemetry-metric")
      else if HasSuffix(id, "PowerFactor") then Some("cray-telemetry-powerfactor")
      else if HasSuffix(id, "Frequency") then Some("cray-telemetry-frequency")
      else if HasSuffix(id, "Percent") then Some("cray-telemetry-percent")
      else None
    else if HasPrefix(id, "CrayFabricTelemetry") then Some("cray-fabric-telemetry")
    else if HasPrefix(id, "CrayFabricPerfTelemetry") then Some("cray-fabric-perf-telemetry")
    else if HasPrefix(id, "CrayFabricCritTelemetry") || HasPrefix(id, "CrayFabricCriticalTelemetry") then
      Some("cray-fabric-crit-telemetry")
    else if HasPrefix(id, "CrayFabricHealth") then Some("cray-fabric-health")
    else Some("cray-dmtf-resource-event")
  }

  /** The same routing as an unordered table: a prefix, a suffix and a topic. */
  datatype Rule = Rule(prefix: string, suffix: string, topic: string)

  const RULES: seq<Rule> := [
    Rule("CrayTelemetry", "Temperature", "cray-telemetry-temperature"),
    Rule("CrayTelemetry", "Voltage", "cray-telemetry-voltage"),
    Rule("CrayTelemetry", "Power", "cray-telemetry-power"),
    Rule("CrayTelemetry", "Current", "cray-telemetry-power"),
    Rule("CrayTelemetry", "Energy", "cray-telemetry-energy"),
    Rule("CrayTelemetry", "Fan", "cray-telemetry-fan"),
    Rule("CrayTelemetry", "Rotational", "cray-telemetry-fan"),
    Rule("CrayTelemetry", "Pressure", "cray-telemetry-pressure"),
    Rule("CrayTelemetry", "LiquidFlow", "cray-telemetry-liquidflow"),
    Rule("CrayTelemetry", "Humidity", "cray-telemetry-humidity"),
    Rule("CrayTelemetry", "Metric", "cray-telemetry-metric"),
    Rule("CrayTelemetry", "PowerFactor", "cray-telemetry-powerfactor"),
    Rule("CrayTelemetry", "Frequency", "cray-telemetry-frequency"),
    Rule("CrayTelemetry", "Percent", "cray-telemetry-percent"),
    Rule("CrayFabricTelemetry", "", "cray-fabric-telemetry"),
    Rule("CrayFabricPerfTelemetry", "", "cray-fabric-perf-telemetry"),
    Rule("CrayFabricCritTelemetry", "", "cray-fabric-crit-telemetry"),
    Rule("CrayFabricCriticalTelemetry", "", "cray-fabric-crit-telemetry"),
    Rule("CrayFabricHealth", "", "cray-fabric-health")
  ]

  predicate Fires(r: Rule, id: string) {
    HasPrefix(id, r.prefix) && HasSuffix(id, r.suffix)
  }

  lemma SuffixChar(s: string, p: string, k: nat)
    requires HasSuffix(s, p) && k < |p|
    ensures s[|s| - 1 - k] == p[|p| - 1 - k]
  {
    assert s[|s| - |p|..][|p| - 1 - k] == p[|p| - 1 - k];
  }

  lemma PrefixChar(s: string, p: string, k: nat)
    requires HasPrefix(s, p) && k < |p|
    ensures s[k] == p[k]
  {
    assert s[..|p|][k] == p[k];
  }

  /** The only rule a string can fire, read off a few of its letters: the 5th, 11th and 15th for the
      registry prefixes, the last, second-last and fourth-last for the telemetry suffixes. */
  function Which(s: string): nat {
    if |s| < 5 then |RULES|
    else if s[4] == 'T' then WhichSuffix(s[|s| - 1], s[|s| - 2], s[|s| - 4])
    else if |s| < 11 then |RULES|
    else if s[10] == 'T' then 14
    else if s[10] == 'P' then 15
    else if s[10] == 'H' then 18
    else if |s| > 14 && s[14] == 'T' then 16
    else 17
  }

  function WhichSuffix(last: char, second: char, fourth: char): nat {
    match last
    case 'e' => if second == 'g' then 1 else if fourth == 't' then 0 else 7
    case 'r' => if second == 'e' then 2 else 11
    case 't' => if fourth == 'r' then 3 else 13
    case 'y' => if second == 'g' then 4 else if second == 't' then 9 else 12
    case 'n' => 5
    case 'l' => 6
    case 'w' => 8
    case _ => 10
  }

  lemma TelemetryLetters(s: string, p: string)
    requires HasPrefix(s, "CrayTelemetry") && HasSuffix(s, p) && |p| >= 3
    ensures s[4] == 'T' && s[|s| - 1] == p[|p| - 1] && s[|s| - 2] == p[|p| - 2]
    ensures |p| >= 4 ==> s[|s| - 4] == p[|p| - 4]
  {
    PrefixChar(s, "CrayTelemetry", 4);
    SuffixChar(s, p, 0);
    SuffixChar(s, p, 1);
    if |p| >= 4 {
      SuffixChar(s, p, 3);
    }
  }

  /** The letters read from a suffix identify its rule. */
  lemma SuffixLetters(i: nat)
    requires i < 14
    ensures var r := RULES[i];
            && r.prefix == "CrayTelemetry"
            && if i == 5 then r.suffix == "Fan"
               else |r.suffix| >= 4 && WhichSuffix(r.suffix[|r.suffix| - 1], r.suffix[|r.suffix| - 2], r.suffix[|r.suffix| - 4]) == i
  {
  }

  lemma TelemetryRule(id: string, i: nat)
    requires i < 14 && Fires(RULES[i], id)
    ensures Which(id) == i
  {
    SuffixLetters(i);
    TelemetryLetters(id, RULES[i].suffix);
  }

  lemma FabricRule(id: string, i: nat)
    requires 14 <= i < 19 && Fires(RULES[i], id)
    ensures Which(id) == i
  {
    var p := RULES[i].prefix;
    assert |p| >= 15 && p[4] == 'F';
    PrefixChar(id, p, 4);
    PrefixChar(id, p, 10);
    PrefixChar(id, p, 14);
  }

  /** No string fires two rules, so the order of the branches is irrelevant. */
  lemma RulesAreDisjoint(id: string, i: nat, j: nat)
    requires i < |RULES| && j < |RULES| && Fires(RULES[i], id) && Fires(RULES[j], id)
    ensures i == j
  {
    if i < 14 { TelemetryRule(id, i); } else { FabricRule(id, i); }
    if j < 14 { TelemetryRule(id, j); } else { FabricRule(id, j); }
  }

  lemma TelemetryFirings1(id: string)
    ensures Fires(RULES[0], id) <==> HasPrefix(id, "CrayTelemetry") && HasSuffix(id, "Temperature")
    ensures Fires(RULES[1], id) <==> HasPrefix(id, "CrayTelemetry") && HasSuffix(id, "Voltage")
    ensures Fires(RULES[2], id) <==> HasPrefix(id, "CrayTelemetry") && HasSuffix(id, "Power")
    ensures Fires(RULES[3], id) <==> HasPrefix(id, "CrayTelemetry") && HasSuffix(id, "Current")
    ensures Fires(RULES[4], id) <==> HasPrefix(id, "CrayTelemetry") && HasSuffix(id, "Energy")
    ensures Fires(RULES[5], id) <==> HasPrefix(id, "CrayTelemetry") && HasSuffix(id, "Fan")
    ensures Fires(RULES[6], id) <==> HasPrefix(id, "CrayTelemetry") && HasSuffix(id, "Rotational")
  {
  }

  lemma TelemetryFirings2(id: string)
    ensures Fires(RULES[7], id) <==> HasPrefix(id, "CrayTelemetry") && HasSuffix(id, "Pressure")
    ensures Fires(RULES[8], id) <==> HasPrefix(id, "CrayTelemetry") && HasSuffix(id, "LiquidFlow")
    ensures Fires(RULES[9], id) <==> HasPrefix(id, "CrayTelemetry") && HasSuffix(id, "Humidity")
    ensures Fires(RULES[10], id) <==> HasPrefix(id, "CrayTelemetry") && HasSuffix(id, "Metric")
    ensures Fires(RULES[11], id) <==> HasPrefix(id, "CrayTelemetry") && HasSuffix(id, "PowerFactor")
    ensures Fires(RULES[12], id) <==> HasPrefix(id, "CrayTelemetry") && HasSuffix(id, "Frequency")
    ensures Fires(RULES[13], id) <==> HasPrefix(id, "CrayTelemetry") && HasSuffix(id, "Percent")
  {
  }

  lemma FabricFirings(id: string)
    ensures Fires(RULES[14], id) <==> HasPrefix(id, "CrayFabricTelemetry")
    ensures Fires(RULES[15], id) <==> HasPrefix(id, "CrayFabricPerfTelemetry")
    ensures Fires(RULES[16], id) <==> HasPrefix(id, "CrayFabricCritTelemetry")
    ensures Fires(RULES[17], id) <==> HasPrefix(id, "CrayFabricCriticalTelemetry")
    ensures Fires(RULES[18], id) <==> HasPrefix(id, "CrayFabricHealth")
  {
    assert id[|id|..] == "";
  }

  lemma FiresOnly(id: string, i: nat)
    requires i < |RULES| && Fires(RULES[i], id)
    ensures forall j | 0 <= j < |RULES| && j != i :: !Fires(RULES[j], id)
  {
    forall j | 0 <= j < |RULES| && j != i ensures !Fires(RULES[j], id) {
      if Fires(RULES[j], id) {
        RulesAreDisjoint(id, i, j);
      }
    }
  }

  lemma TelemetryRoutes(id: string, i: nat)
    requires i < 14 && Fires(RULES[i], id)
    ensures Topic(id) == Some(RULES[i].topic)
  {
    TelemetryFirings1(id);
    TelemetryFirings2(id);
    FiresOnly(id, i);
  }

  lemma FabricIsNotTelemetry(id: string, i: nat)
    requires 14 <= i < 19 && Fires(RULES[i], id)
    ensures !HasPrefix(id, "CrayTelemetry")
  {
    assert |RULES[i].prefix| > 4 && RULES[i].prefix[4] == 'F';
    PrefixChar(id, RULES[i].prefix, 4);
    if HasPrefix(id, "CrayTelemetry") {
      PrefixChar(id, "CrayTelemetry", 4);
    }
  }

  lemma FabricRoutes(id: string, i: nat)
    requires 14 <= i < 19 && Fires(RULES[i], id)
    ensures Topic(id) == Some(RULES[i].topic)
  {
    FabricIsNotTelemetry(id, i);
    FabricFirings(id);
    FiresOnly(id, i);
  }

  /** A string goes to the topic of the one rule it fires; if it fires none it goes to the generic topic,
      or nowhere if it is telemetry of unknown type. */
  lemma RoutingIsOrderFree(id: string, i: nat)
    requires i < |RULES|
    ensures Fires(RULES[i], id) ==>
              Topic(id) == Some(RULES[i].topic) && forall j | 0 <= j < |RULES| && Fires(RULES[j], id) :: j == i
    ensures (forall j | 0 <= j < |RULES| :: !Fires(RULES[j], id)) ==>
              Topic(id) == if HasPrefix(id, "CrayTelemetry") then None else Some("cray-dmtf-resource-event")
  {
    if Fires(RULES[i], id) {
      if i < 14 { TelemetryRoutes(id, i); } else { FabricRoutes(id, i); }
      FiresOnly(id, i);
    } else if forall j | 0 <= j < |RULES| :: !Fires(RULES[j], id) {
      TelemetryFirings1(id);
      TelemetryFirings2(id);
      FabricFirings(id);
    }
  }

  // ================================================ the polling path

  /** The switch of `collectData` on the IDs of the polling collectors. */
  function PollTopic(id: string): Option<string> {
    if id == "CrayTelemetry.Current" || id == "CrayTelemetry.Power" then Some("cray-telemetry-power")
    else if id == "CrayTelemetry.Voltage" then Some("cray-telemetry-voltage")
    else if id == "CrayTelemetry.Energy" then Some("cray-telemetry-energy")
    else if id == "CrayTelemetry.Temperature" then Some("cray-telemetry-temperature")
    else if id == "CrayTelemetry.Fan" then Some("cray-telemetry-fan")
    else if id == "ResourceEvent.1.0.ResourcePowerStateChanged" then Some("cray-dmtf-resource-event")
    else None
  }

  /** The message IDs of internal/river_collector/interface.go. */
  const COLLECTOR_IDS: seq<string> := [
    "CrayTelemetry.Power", "CrayTelemetry.Voltage", "CrayTelemetry.Energy", "CrayTelemetry.Current",
    "CrayTelemetry.Temperature", "CrayTelemetry.Fan", "ResourceEvent.1.0.ResourcePowerStateChanged"
  ]

  lemma PollRoutesCollectorIds(id: string)
    ensures PollTopic(id).Some? <==> id in COLLECTOR_IDS
  {
  }

  lemma TelemetryId(id: string, suffix: string, i: nat)
    requires i < 14 && id == "CrayTelemetry." + suffix && RULES[i].suffix == suffix
    ensures Topic(id) == Some(RULES[i].topic)
  {
    assert RULES[i].prefix == "CrayTelemetry";
    assert id[..13] == "CrayTelemetry" && id[|id| - |suffix|..] == suffix;
    TelemetryRoutes(id, i);
  }

  lemma ElectricPaths(id: string)
    requires id in ["CrayTelemetry.Current", "CrayTelemetry.Power", "CrayTelemetry.Voltage"]
    ensures Topic(id) == PollTopic(id)
  {
    if id == "CrayTelemetry.Current" { TelemetryId(id, "Current", 3); }
    else if id == "CrayTelemetry.Power" { TelemetryId(id, "Power", 2); }
    else { TelemetryId(id, "Voltage", 1); }
  }

  /** Every event a polling collector can produce has a topic, the same one on both paths; the polling
      path routes nothing else. */
  lemma PathsAgree(id: string)
    ensures PollTopic(id).Some? <==> id in COLLECTOR_IDS
    ensures id in COLLECTOR_IDS ==> Topic(id) == PollTopic(id)
  {
    PollRoutesCollectorIds(id);
    if id in ["CrayTelemetry.Current", "CrayTelemetry.Power", "CrayTelemetry.Voltage"] { ElectricPaths(id); }
    else if id == "CrayTelemetry.Energy" { TelemetryId(id, "Energy", 4); }
    else if id == "CrayTelemetry.Temperature" { TelemetryId(id, "Temperature", 0); }
    else if id == "CrayTelemetry.Fan" { TelemetryId(id, "Fan", 5); }
    else if id == "ResourceEvent.1.0.ResourcePowerStateChanged" {
      assert id[0] == 'R';
      NotCray(id);
    }
  }

  lemma NotCray(id: string)
    requires |id| > 0 && id[0] != 'C'
    ensures Topic(id) == Some("cray-dmtf-resource-event")
  {
    NotPrefix(id, "CrayTelemetry");
    NotPrefix(id, "CrayFabricTelemetry");
    NotPrefix(id, "CrayFabricPerfTelemetry");
    NotPrefix(id, "CrayFabricCritTelemetry");
    NotPrefix(id, "CrayFabricCriticalTelemetry");
    NotPrefix(id, "CrayFabricHealth");
  }

  lemma NotPrefix(id: string, p: string)
    requires |id| > 0 && |p| > 0 && id[0] != p[0]
    ensures !HasPrefix(id, p)
  {
    assert |p| <= |id| ==> id[..|p|][0] == id[0];
  }
}
