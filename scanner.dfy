/**
 * The shared vocabulary of the scanners: the ordered risk levels, a cleanup
 * target, and a scanner seen from outside.
 */
module Scanner {
  import opened Wrappers

  /** Go's `RiskLevel int`: any integer, of which three are named levels. */
  type RiskLevel = int

  const Safe: RiskLevel := 0
  const Moderate: RiskLevel := 1
  const Risky: RiskLevel := 2

  predicate IsLevel(r: RiskLevel) {
    r == Safe || r == Moderate || r == Risky
  }

  /** `RiskLevel.String`. */
  function RiskString(r: RiskLevel): (s: string)
    ensures s == "Unknown" <==> !IsLevel(r)
  {
    if r == Safe then "Safe"
    else if r == Moderate then "Moderate"
    else if r == Risky then "Risky"
    else "Unknown"
  }

  /** The levels are ordered Safe < Moderate < Risky, with no gaps. */
  lemma LevelsOrdered(r: RiskLevel)
    ensures IsLevel(r) <==> Safe <= r <= Risky
    ensures Safe < Moderate < Risky
  {
  }

  /** Distinct named levels have distinct names. */
  lemma RiskStringInjective(a: RiskLevel, b: RiskLevel)
    requires IsLevel(a) && IsLevel(b)
    requires RiskString(a) == RiskString(b)
    ensures a == b
  {
  }

  /**
   * A file or directory the tool proposes to clean. `modTime` is a Unix time
   * in seconds.
   */
  datatype Target = Target(
    path: string,
    size: int,
    category: string,
    description: string,
    risk: RiskLevel,
    modTime: int,
    isDir: bool)

  function TargetPath(t: Target): string { t.path }
  function TargetSize(t: Target): int { t.size }
  function TargetCategory(t: Target): string { t.category }
  function TargetRisk(t: Target): int { t.risk }

  /**
   * A `Scanner` as the engine sees it: its name, description and risk, and
   * the outcome its `Scan` would produce (targets, or an error message).
   */
  datatype Probe = Probe(
    name: string,
    description: string,
    risk: RiskLevel,
    found: seq<Target>,
    failure: Option<string>)
}
