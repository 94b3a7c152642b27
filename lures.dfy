/** The lure table of the page and the first-match lookup over it. */
module Lures {

  /** One row of the table: water temperatures in [min, max) get `lure`. */
  datatype LureRule = LureRule(min: real, max: real, lure: string)

  /** The table, in the order it is scanned. */
  const LURES: seq<LureRule> := [
    LureRule(0.0, 55.0, "Slow jig or fat worm"),
    LureRule(55.0, 65.0, "Carolina rig or dropshot"),
    LureRule(65.0, 75.0, "Crankbait or spinnerbait"),
    LureRule(75.0, 90.0, "Topwater popper")
  ]

  /** The recommendation when no row of the table matches. */
  const FALLBACK_LURE: string := "Plastic worm rig"

  /** The half-open range test of the scan. */
  predicate Matches(rule: LureRule, water: real) {
    rule.min <= water < rule.max
  }

  /** No row of `rules` matches `water`. */
  ghost predicate NoMatch(rules: seq<LureRule>, water: real) {
    forall j | 0 <= j < |rules| :: !Matches(rules[j], water)
  }

  /** Row `i` is the first row of `rules` that matches `water`. */
  ghost predicate IsFirstMatch(rules: seq<LureRule>, water: real, i: int) {
    0 <= i < |rules| && Matches(rules[i], water) &&
    forall j | 0 <= j < i :: !Matches(rules[j], water)
  }

  /** The scan: the lure of the first matching row, or the fallback. */
  function PickLureIn(rules: seq<LureRule>, water: real): (lure: string)
    ensures NoMatch(rules, water) ==> lure == FALLBACK_LURE
    ensures forall i | IsFirstMatch(rules, water, i) :: lure == rules[i].lure
  {
    if rules == [] then FALLBACK_LURE
    else if Matches(rules[0], water) then rules[0].lure
    else
      var rest := PickLureIn(rules[1..], water);
      assert forall i | IsFirstMatch(rules, water, i) :: i > 0 && IsFirstMatch(rules[1..], water, i - 1);
      rest
  }

  /**
   * The lookup the page performs: the lure of the one row of the table whose range holds `water`,
   * and the fallback exactly when `water` lies outside [0, 90).
   */
  function PickLure(water: real): (lure: string)
    ensures forall i | 0 <= i < |LURES| && Matches(LURES[i], water) :: lure == LURES[i].lure
    ensures lure == FALLBACK_LURE <==> (water < 0.0 || water >= 90.0)
  {
    TableFallbackExactly(water);
    PickLureIn(LURES, water)
  }

  /** Consecutive rows meet: each range ends where the next begins, and no range is reversed. */
  ghost predicate Contiguous(rules: seq<LureRule>) {
    (forall i | 0 <= i < |rules| :: rules[i].min <= rules[i].max) &&
    (forall i | 0 <= i < |rules| - 1 :: rules[i].max == rules[i + 1].min)
  }

  /** A contiguous, non-empty table covers exactly [first min, last max). */
  lemma {:induction false} ContiguousCovers(rules: seq<LureRule>, water: real)
    requires rules != [] && Contiguous(rules)
    ensures !NoMatch(rules, water) <==> rules[0].min <= water < rules[|rules| - 1].max
  {
    if |rules| > 1 {
      var rest := rules[1..];
      assert Contiguous(rest) by {
        forall i | 0 <= i < |rest| ensures rest[i].min <= rest[i].max {
          assert rest[i] == rules[i + 1];
        }
        forall i | 0 <= i < |rest| - 1 ensures rest[i].max == rest[i + 1].min {
          assert rest[i] == rules[i + 1] && rest[i + 1] == rules[i + 2];
        }
      }
      ContiguousCovers(rest, water);
      assert rest[0] == rules[1] && rest[|rest| - 1] == rules[|rules| - 1];
      MaxAtLeastFirst(rest);
      if !NoMatch(rules, water) {
        var j :| 0 <= j < |rules| && Matches(rules[j], water);
        if j > 0 {
          assert Matches(rest[j - 1], water);
        }
      }
      if rules[0].min <= water < rules[|rules| - 1].max && !Matches(rules[0], water) {
        var j :| 0 <= j < |rest| && Matches(rest[j], water);
        assert Matches(rules[j + 1], water);
      }
    }
  }

  /** In a contiguous table the last range ends no earlier than the first one starts. */
  lemma {:induction false} MaxAtLeastFirst(rules: seq<LureRule>)
    requires rules != [] && Contiguous(rules)
    ensures rules[0].min <= rules[|rules| - 1].max
  {
    if |rules| > 1 {
      var rest := rules[1..];
      assert Contiguous(rest) by {
        forall i | 0 <= i < |rest| ensures rest[i].min <= rest[i].max {
          assert rest[i] == rules[i + 1];
        }
        forall i | 0 <= i < |rest| - 1 ensures rest[i].max == rest[i + 1].min {
          assert rest[i] == rules[i + 1] && rest[i + 1] == rules[i + 2];
        }
      }
      MaxAtLeastFirst(rest);
    }
  }

  /** The page's table is contiguous over [0, 90). */
  lemma LuresContiguous()
    ensures Contiguous(LURES)
    ensures LURES[0].min == 0.0 && LURES[|LURES| - 1].max == 90.0
  {
  }

  /** No two rows of the page's table overlap, so at most one row matches any water temperature. */
  lemma LuresDisjoint(water: real, i: int, j: int)
    requires 0 <= i < |LURES| && 0 <= j < |LURES|
    requires Matches(LURES[i], water) && Matches(LURES[j], water)
    ensures i == j
  {
  }

  /** Scanning the page's table gives the fallback exactly when the water temperature lies outside [0, 90). */
  lemma TableFallbackExactly(water: real)
    ensures PickLureIn(LURES, water) == FALLBACK_LURE <==> (water < 0.0 || water >= 90.0)
  {
    LuresContiguous();
    ContiguousCovers(LURES, water);
    if 0.0 <= water < 90.0 {
      var i :| 0 <= i < |LURES| && Matches(LURES[i], water);
      var f := FirstMatchExists(LURES, water, i);
      assert IsFirstMatch(LURES, water, f);
      assert LURES[f].lure != FALLBACK_LURE;
    }
  }

  /** Some matching row exists, so a first matching row exists. */
  lemma {:induction false} FirstMatchExists(rules: seq<LureRule>, water: real, i: int) returns (f: int)
    requires 0 <= i < |rules| && Matches(rules[i], water)
    ensures IsFirstMatch(rules, water, f) && f <= i
  {
    if exists j | 0 <= j < i :: Matches(rules[j], water) {
      var j :| 0 <= j < i && Matches(rules[j], water);
      f := FirstMatchExists(rules, water, j);
    } else {
      f := i;
    }
  }

  /** Boundaries belong to the upper row: 55 gets the second row, 65 the third. */
  lemma PickLureBoundaries()
    ensures PickLure(55.0) == "Carolina rig or dropshot"
    ensures PickLure(65.0) == "Crankbait or spinnerbait"
    ensures PickLure(70.0) == "Crankbait or spinnerbait"
    ensures PickLure(90.0) == FALLBACK_LURE
  {
  }
}
