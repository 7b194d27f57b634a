/**
 * The risk breakdown of a scan: bytes per risk level, and which segments the
 * one-line summary shows.
 */
module CliRisk {
  import opened Folds
  import opened Scanner

  datatype RiskBreakdown = RiskBreakdown(safe: int, moderate: int, risky: int, total: int)

  /** The bytes of the targets at risk level `level`. */
  function LevelBytes(ts: seq<Target>, level: RiskLevel): int {
    SumWhere(ts, TargetRisk, level, TargetSize)
  }

  /**
   * `riskSummary`: every target adds its size to the total and to the field
   * of its level; a target with any other level adds only to the total.
   */
  method RiskSummary(targets: seq<Target>) returns (rb: RiskBreakdown)
    ensures rb.safe == LevelBytes(targets, Safe)
    ensures rb.moderate == LevelBytes(targets, Moderate)
    ensures rb.risky == LevelBytes(targets, Risky)
    ensures rb.total == Sum(targets, TargetSize)
  {
    rb := RiskBreakdown(0, 0, 0, 0);
    for i := 0 to |targets|
      invariant rb == Breakdown(targets[..i])
    {
      var t := targets[i];
      BreakdownStep(targets, i);
      if t.risk == Safe {
        rb := rb.(safe := rb.safe + t.size);
      } else if t.risk == Moderate {
        rb := rb.(moderate := rb.moderate + t.size);
      } else if t.risk == Risky {
        rb := rb.(risky := rb.risky + t.size);
      }
      rb := rb.(total := rb.total + t.size);
    }
    assert targets[..|targets|] == targets;
  }

  /** The bytes of `ts` per level and in all. */
  function Breakdown(ts: seq<Target>): RiskBreakdown {
    RiskBreakdown(LevelBytes(ts, Safe), LevelBytes(ts, Moderate), LevelBytes(ts, Risky), Sum(ts, TargetSize))
  }

  lemma BreakdownStep(ts: seq<Target>, i: nat)
    requires i < |ts|
    ensures var b, t := Breakdown(ts[..i]), ts[i];
            Breakdown(ts[..i + 1]) == RiskBreakdown(b.safe + (if t.risk == Safe then t.size else 0),
                                                    b.moderate + (if t.risk == Moderate then t.size else 0),
                                                    b.risky + (if t.risk == Risky then t.size else 0),
                                                    b.total + t.size)
  {
    SumWhereStep(ts, i, TargetRisk, Safe, TargetSize);
    SumWhereStep(ts, i, TargetRisk, Moderate, TargetSize);
    SumWhereStep(ts, i, TargetRisk, Risky, TargetSize);
    SumStep(ts, i, TargetSize);
  }

  /** When every target has one of the three named levels, the levels add up to the total. */
  lemma LevelsAddUp(targets: seq<Target>)
    requires forall i :: 0 <= i < |targets| ==> IsLevel(targets[i].risk)
    ensures LevelBytes(targets, Safe) + LevelBytes(targets, Moderate) + LevelBytes(targets, Risky)
            == Sum(targets, TargetSize)
  {
    var levels := [Safe, Moderate, Risky];
    assert Distinct(levels);
    assert forall i :: 0 <= i < |targets| ==> TargetRisk(targets[i]) in levels by {
      forall i | 0 <= i < |targets|
        ensures TargetRisk(targets[i]) in levels
      {
        assert IsLevel(targets[i].risk);
      }
    }
    assert SumGroups(levels, targets, TargetRisk, TargetSize) == Sum(targets, TargetSize) by {
      SumGroupsTotal(levels, targets, TargetRisk, TargetSize);
    }
    SumGroupsThree(Safe, Moderate, Risky, targets, TargetRisk, TargetSize);
  }

  lemma SumGroupsThree<T, K>(a: K, b: K, c: K, xs: seq<T>, key: T -> K, w: T -> int)
    ensures SumGroups([a, b, c], xs, key, w) == SumWhere(xs, key, a, w) + SumWhere(xs, key, b, w) + SumWhere(xs, key, c, w)
  {
    var ks := [a, b, c];
    assert ks[..2] == [a, b];
    assert [a, b][..1] == [a];
    assert [a][..0] == [];
    assert SumGroups([a], xs, key, w) == SumWhere(xs, key, a, w);
    assert SumGroups([a, b], xs, key, w) == SumGroups([a], xs, key, w) + SumWhere(xs, key, b, w);
    assert SumGroups(ks, xs, key, w) == SumGroups([a, b], xs, key, w) + SumWhere(xs, key, c, w);
  }

  /** One part of the summary line: a level's label with its bytes (and percentage). */
  datatype RiskSegment = SafeSegment(bytes: int) | ModerateSegment(bytes: int) | RiskySegment(bytes: int)

  function Rank(s: RiskSegment): int {
    match s
    case SafeSegment(_) => 0
    case ModerateSegment(_) => 1
    case RiskySegment(_) => 2
  }

  function Bit(b: bool): int { if b then 1 else 0 }

  /**
   * `riskSummaryLine`, as the list of segments it joins: nothing for an
   * empty breakdown; otherwise the Safe segment always, then Moderate and
   * Risky only when they hold bytes, in that order.
   */
  method RiskSummaryLine(rb: RiskBreakdown) returns (parts: seq<RiskSegment>)
    ensures parts == [] <==> rb.total == 0
    ensures rb.total != 0 ==> parts[0] == SafeSegment(rb.safe)
    ensures rb.total != 0 ==> |parts| == 1 + Bit(rb.moderate > 0) + Bit(rb.risky > 0)
    ensures ModerateSegment(rb.moderate) in parts <==> rb.total != 0 && rb.moderate > 0
    ensures RiskySegment(rb.risky) in parts <==> rb.total != 0 && rb.risky > 0
    ensures forall i, j :: 0 <= i < j < |parts| ==> Rank(parts[i]) < Rank(parts[j])
  {
    if rb.total == 0 {
      return [];
    }
    parts := [SafeSegment(rb.safe)];
    if rb.moderate > 0 {
      parts := parts + [ModerateSegment(rb.moderate)];
    }
    if rb.risky > 0 {
      parts := parts + [RiskySegment(rb.risky)];
    }
  }
}
