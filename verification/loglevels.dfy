/**
 The audit-log severities and the threshold filter (`LogLevelsMap` and
 `shallLog` in payouts-substitutor/main.go).
 */
module LogLevels {

  const System: string := "system"
  const Errors: string := "errors"
  const Contracts: string := "contracts"
  const Redirects: string := "redirects"
  const Verbose: string := "verbose"
  const Debug: string := "debug"

  /** The rank table; a higher rank is a more important record. */
  const Ranks: map<string, int> :=
    map[Debug := 0, Verbose := 1, Contracts := 10, Redirects := 11, Errors := 100, System := 1000]

  /** Indexing a Go map with a missing key yields the zero value, so an
      unknown level ranks like `debug`. */
  function Rank(level: string): int {
    if level in Ranks then Ranks[level] else 0
  }

  /** A record of severity `level` passes a log configured at `configured`. */
  predicate ShallLog(configured: string, level: string) {
    Rank(level) >= Rank(configured)
  }

  /** A level the configuration may select: in the table and not `system`. */
  predicate IsConfigurable(level: string) {
    level in Ranks && Ranks[level] != Ranks[System]
  }

  /** The configurable levels are exactly the five named severities. */
  lemma ConfigurableLevels(level: string)
    ensures IsConfigurable(level) <==>
              level == Debug || level == Verbose || level == Contracts
              || level == Redirects || level == Errors
  {
  }

  /** The ranks order the severities debug < verbose < contracts < redirects
      < errors < system, and `system` outranks every string whatsoever. */
  lemma RankOrder(level: string)
    ensures Rank(Debug) < Rank(Verbose) < Rank(Contracts) < Rank(Redirects)
              < Rank(Errors) < Rank(System)
    ensures 0 <= Rank(level) <= Rank(System)
    ensures level !in Ranks ==> Rank(level) == 0
    ensures Rank(level) == Rank(System) <==> level == System
  {
  }

  /** The cycle banner is written under every configured level, valid or
      not, because nothing ranks above `system`. */
  lemma SystemAlwaysPasses(configured: string)
    ensures ShallLog(configured, System)
  {
    RankOrder(configured);
  }

  /** Raising a record's severity never stops it from being written. */
  lemma ShallLogMonotone(configured: string, level: string, higher: string)
    requires Rank(level) <= Rank(higher)
    requires ShallLog(configured, level)
    ensures ShallLog(configured, higher)
  {
  }

  /** Under a configurable threshold, `debug` records are written only when
      the threshold is `debug`, and `errors` records are always written. */
  lemma ThresholdExtremes(configured: string)
    requires IsConfigurable(configured)
    ensures ShallLog(configured, Debug) <==> configured == Debug
    ensures ShallLog(configured, Errors)
  {
  }
}
