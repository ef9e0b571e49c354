/**
 * First-match-wins classification tables. The dashboard writes each classifier
 * as an if-chain; this module gives the same ladders as explicit data (an
 * ordered list of bands), so that the order of evaluation and the overlap of
 * bands can be stated and proved once.
 */
module Ladder {

  /** A set of integer codes claimed by one rung of a ladder. */
  datatype Range = Closed(lo: int, hi: int) | AtLeast(lo: int) {
    predicate Contains(x: int) {
      match this
      case Closed(lo, hi) => lo <= x <= hi
      case AtLeast(lo) => lo <= x
    }
  }

  /** One rung: the codes it claims and what it answers for them. */
  datatype Rule<T> = Rule(range: Range, result: T)

  /** The index of the first rule that claims `x`, or `|rules|` when none does. */
  function FirstMatch<T>(rules: seq<Rule<T>>, x: int): (k: nat)
    ensures k <= |rules|
    ensures k < |rules| ==> rules[k].range.Contains(x)
    ensures forall j :: 0 <= j < k ==> !rules[j].range.Contains(x)
    decreases |rules|
  {
    if |rules| == 0 then 0
    else if rules[0].range.Contains(x) then 0
    else 1 + FirstMatch(rules[1..], x)
  }

  /** The answer of the first rule claiming `x`, else `default`. */
  function Classify<T>(rules: seq<Rule<T>>, x: int, default: T): T {
    var k := FirstMatch(rules, x);
    if k < |rules| then rules[k].result else default
  }

  /** Whether some code lies in both ranges. */
  predicate Overlap(a: Range, b: Range) {
    match (a, b)
    case (Closed(l1, h1), Closed(l2, h2)) => l1 <= h1 && l2 <= h2 && l1 <= h2 && l2 <= h1
    case (Closed(l1, h1), AtLeast(l2)) => l1 <= h1 && l2 <= h1
    case (AtLeast(l1), Closed(l2, h2)) => l2 <= h2 && l1 <= h2
    case (AtLeast(_), AtLeast(_)) => true
  }

  lemma ContainsBothMeansOverlap(a: Range, b: Range, x: int)
    requires a.Contains(x) && b.Contains(x)
    ensures Overlap(a, b)
  {
  }

  /** No code is claimed by two rules. */
  ghost predicate Disjoint<T>(rules: seq<Rule<T>>) {
    forall i, j :: 0 <= i < j < |rules| ==> !Overlap(rules[i].range, rules[j].range)
  }

  /**
   * On a ladder whose rules are disjoint the order of the rules does not
   * matter: the rule that claims `x` is the one chosen.
   */
  lemma DisjointChoosesClaimingRule<T>(rules: seq<Rule<T>>, x: int, k: nat, default: T)
    requires Disjoint(rules)
    requires k < |rules| && rules[k].range.Contains(x)
    ensures FirstMatch(rules, x) == k
    ensures Classify(rules, x, default) == rules[k].result
  {
    var f := FirstMatch(rules, x);
    if f < k {
      ContainsBothMeansOverlap(rules[f].range, rules[k].range, x);
      assert false;
    }
  }

  /** When no rule claims `x`, the ladder falls through to its default. */
  lemma UnclaimedFallsThrough<T>(rules: seq<Rule<T>>, x: int, default: T)
    requires forall j :: 0 <= j < |rules| ==> !rules[j].range.Contains(x)
    ensures Classify(rules, x, default) == default
  {
  }

  /**
   * The index of the first inclusive upper bound that `x` does not exceed, or
   * `|bounds|` when `x` exceeds them all: the `if (x <= b) return ...` ladder.
   */
  function FirstAtMost(bounds: seq<real>, x: real): (k: nat)
    ensures k <= |bounds|
    ensures k < |bounds| ==> x <= bounds[k]
    ensures forall j :: 0 <= j < k ==> bounds[j] < x
    decreases |bounds|
  {
    if |bounds| == 0 then 0
    else if x <= bounds[0] then 0
    else 1 + FirstAtMost(bounds[1..], x)
  }

  /** A larger value never lands on an earlier band. */
  lemma FirstAtMostMonotone(bounds: seq<real>, x: real, y: real)
    requires x <= y
    ensures FirstAtMost(bounds, x) <= FirstAtMost(bounds, y)
  {
  }
}
