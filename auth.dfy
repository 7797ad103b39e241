/**
 * `src/contexts/AuthContext.jsx`: the chef title ladder and the provider's
 * level/title pair. `getChefTitle` keeps the thresholds the level reaches,
 * sorts them in descending order and reads the title of the first one, with
 * `|| 1` standing in when none is reached.
 */
module Auth {

  /** One entry of the `titles` object: a threshold level and its title. */
  datatype Rank = Rank(level: int, title: string)

  /** The `titles` object in key order (integer keys enumerate in ascending order). */
  const ChefRanks: seq<Rank> := [
    Rank(1, "Apprentice Chef"), Rank(5, "Novice Chef"), Rank(10, "Journeyman Chef"),
    Rank(15, "Expert Chef"), Rank(20, "Artisan Chef"), Rank(25, "Master Chef"),
    Rank(30, "Grand Master Chef"), Rank(35, "Illustrious Chef"), Rank(40, "Zen Master Chef"),
    Rank(45, "Draenor Chef"), Rank(50, "Legion Chef")]

  /** Thresholds strictly increase. */
  predicate Ascending(ranks: seq<Rank>) {
    forall a, b :: 0 <= a < b < |ranks| ==> ranks[a].level < ranks[b].level
  }

  /** `.map(Number).filter(titleLevel => level >= titleLevel)`. */
  function Qualifying(ranks: seq<Rank>, level: int): (q: seq<int>)
    ensures |q| <= |ranks|
    ensures forall x :: x in q ==> x <= level && exists k :: 0 <= k < |ranks| && ranks[k].level == x
    ensures forall k :: 0 <= k < |ranks| && ranks[k].level <= level ==> ranks[k].level in q
    decreases |ranks|
  {
    if ranks == [] then []
    else
      var rest := Qualifying(ranks[1..], level);
      assert forall x :: x in rest ==> exists k :: 0 <= k < |ranks| && ranks[k].level == x by {
        forall x | x in rest
          ensures exists k :: 0 <= k < |ranks| && ranks[k].level == x
        {
          var k :| 0 <= k < |ranks| - 1 && ranks[1..][k].level == x;
          assert ranks[k + 1].level == x;
        }
      }
      assert forall k :: 1 <= k < |ranks| ==> ranks[k] == ranks[1..][k - 1];
      (if level >= ranks[0].level then [ranks[0].level] else []) + rest
  }

  /** `.sort((a, b) => b - a)[0]`: the largest entry. */
  function Highest(q: seq<int>): int
    requires q != []
  {
    if |q| == 1 then q[0]
    else
      var rest := Highest(q[1..]);
      if q[0] >= rest then q[0] else rest
  }

  /** `titles[t]`: the title under key `t` ("" stands for `undefined`). */
  function TitleOf(ranks: seq<Rank>, t: int): string {
    if ranks == [] then ""
    else if ranks[0].level == t then ranks[0].title
    else TitleOf(ranks[1..], t)
  }

  /** `getChefTitle` over a given table. */
  function Title(ranks: seq<Rank>, level: int): string {
    var q := Qualifying(ranks, level);
    TitleOf(ranks, if q == [] || Highest(q) == 0 then 1 else Highest(q))
  }

  function ChefTitle(level: int): string {
    Title(ChefRanks, level)
  }

  // ---------------------------------------------------------------------
  // the reference ladder: the last threshold reached
  // ---------------------------------------------------------------------

  /** The position of the last threshold at or below `level`, or 0 when none is. */
  function RankIndex(ranks: seq<Rank>, level: int): nat {
    var n := |Qualifying(ranks, level)|;
    if n == 0 then 0 else n - 1
  }

  /** On an ascending table the thresholds reached are exactly the first ones, in order. */
  lemma {:induction false} QualifyingShape(ranks: seq<Rank>, level: int)
    requires Ascending(ranks)
    ensures var q := Qualifying(ranks, level);
      (forall k :: 0 <= k < |q| ==> q[k] == ranks[k].level && ranks[k].level <= level)
      && (forall k :: |q| <= k < |ranks| ==> ranks[k].level > level)
  {
    if ranks != [] {
      assert Ascending(ranks[1..]);
      QualifyingShape(ranks[1..], level);
      if level < ranks[0].level {
        assert forall k :: 0 <= k < |ranks| ==> ranks[k].level >= ranks[0].level;
      }
    }
  }

  /** The largest entry of an ascending list is its last. */
  lemma {:induction false} HighestIsLast(q: seq<int>)
    requires q != []
    requires forall a, b :: 0 <= a < b < |q| ==> q[a] < q[b]
    ensures Highest(q) == q[|q| - 1]
  {
    if |q| > 1 {
      HighestIsLast(q[1..]);
    }
  }

  lemma {:induction false} TitleOfAt(ranks: seq<Rank>, k: nat)
    requires Ascending(ranks) && k < |ranks|
    ensures TitleOf(ranks, ranks[k].level) == ranks[k].title
  {
    if k > 0 {
      assert ranks[0].level < ranks[k].level;
      assert Ascending(ranks[1..]);
      TitleOfAt(ranks[1..], k - 1);
    }
  }

  /**
   * On an ascending table whose first threshold is 1, the title is the one
   * at `RankIndex`: the last threshold at or below the level, so the next
   * threshold lies above it, and the first title for a level below every
   * threshold.
   */
  lemma TitleIsLastReached(ranks: seq<Rank>, level: int)
    requires Ascending(ranks) && |ranks| > 0 && ranks[0].level == 1
    ensures var k := RankIndex(ranks, level);
      k < |ranks| && Title(ranks, level) == ranks[k].title
      && (level >= 1 ==> ranks[k].level <= level)
      && (k + 1 < |ranks| ==> level < ranks[k + 1].level)
  {
    var q := Qualifying(ranks, level);
    QualifyingShape(ranks, level);
    if q == [] {
      TitleOfAt(ranks, 0);
    } else {
      HighestIsLast(q);
      TitleOfAt(ranks, |q| - 1);
    }
  }

  /** A higher level never sits lower on the ladder. */
  lemma RankIndexMonotone(ranks: seq<Rank>, l1: int, l2: int)
    requires Ascending(ranks) && l1 <= l2
    ensures RankIndex(ranks, l1) <= RankIndex(ranks, l2)
  {
    QualifyingShape(ranks, l1);
    QualifyingShape(ranks, l2);
    var n1 := |Qualifying(ranks, l1)|;
    var n2 := |Qualifying(ranks, l2)|;
    if n1 > 0 {
      assert ranks[n1 - 1].level <= l2;
    }
  }

  // ---------------------------------------------------------------------
  // the chef ladder
  // ---------------------------------------------------------------------

  lemma ChefRanksAscending()
    ensures Ascending(ChefRanks) && |ChefRanks| == 11 && ChefRanks[0].level == 1
  {
  }

  /** `getChefTitle(level)` is the title of the largest threshold at or below `level`. */
  lemma ChefTitleLargestThreshold(level: int)
    requires level >= 1
    ensures exists k :: 0 <= k < |ChefRanks| && ChefTitle(level) == ChefRanks[k].title
                        && ChefRanks[k].level <= level && (k + 1 < |ChefRanks| ==> level < ChefRanks[k + 1].level)
  {
    ChefRanksAscending();
    TitleIsLastReached(ChefRanks, level);
  }

  /** A level below 1 reaches no threshold, and `|| 1` gives the first title. */
  lemma ChefTitleBelowOne(level: int)
    requires level < 1
    ensures ChefTitle(level) == "Apprentice Chef"
  {
    ChefRanksAscending();
    TitleIsLastReached(ChefRanks, level);
    QualifyingShape(ChefRanks, level);
  }

  /** Every level from 50 on is a Legion Chef. */
  lemma ChefTitleLegion(level: int)
    requires level >= 50
    ensures ChefTitle(level) == "Legion Chef"
  {
    ChefRanksAscending();
    TitleIsLastReached(ChefRanks, level);
    QualifyingShape(ChefRanks, level);
    assert |Qualifying(ChefRanks, level)| == 11;
  }

  /** Titles climb with the level: the title of a higher level is never earlier on the ladder. */
  lemma ChefTitleMonotone(l1: int, l2: int)
    requires l1 <= l2
    ensures RankIndex(ChefRanks, l1) <= RankIndex(ChefRanks, l2)
    ensures ChefTitle(l1) == ChefRanks[RankIndex(ChefRanks, l1)].title
    ensures ChefTitle(l2) == ChefRanks[RankIndex(ChefRanks, l2)].title
  {
    ChefRanksAscending();
    RankIndexMonotone(ChefRanks, l1, l2);
    TitleIsLastReached(ChefRanks, l1);
    TitleIsLastReached(ChefRanks, l2);
  }

  // ---------------------------------------------------------------------
  // the provider's level and title
  // ---------------------------------------------------------------------

  /** The `chefLevel` / `chefTitle` state of `AuthProvider`. */
  class ChefStanding {
    var level: int
    var title: string

    ghost predicate Valid()
      reads this
    {
      title == ChefTitle(level)
    }

    /** `useState(1)` and `useState('Apprentice Chef')`. */
    constructor()
      ensures level == 1 && title == "Apprentice Chef"
      ensures Valid()
    {
      level := 1;
      title := "Apprentice Chef";
      ChefRanksAscending();
      TitleIsLastReached(ChefRanks, 1);
      QualifyingShape(ChefRanks, 1);
    }

    /** `updateChefLevel`: store the level and the title it earns. */
    method UpdateChefLevel(newLevel: int)
      modifies this
      ensures level == newLevel && title == ChefTitle(newLevel)
      ensures Valid()
    {
      level := newLevel;
      title := ChefTitle(newLevel);
    }
  }
}
