/** The triage score of the main admin dashboard: a weighted sum of how
    large an order is, how long it has waited and how urgent its status is,
    plus a boost for popular dishes and one for the lunch and dinner rush.
    Scores are exact; the rounding to two decimals is not modelled. */
module Priority {
  import opened Seqs
  import opened Text
  import opened Orders
  import opened OrderStatus

  const VALUE_WEIGHT: real := 0.5
  const STALENESS_WEIGHT: real := 0.3
  const ITEM_BOOST: real := 2.0
  const TIME_WINDOW_BOOST: real := 1.0
  const KEYWORDS: seq<string> := ["paneer", "thali", "dal", "sabzi"]

  /** The sub-scores kept beside the score (`_priorityExpl`). */
  datatype Explanation = Explanation(
    valueScore: real,
    stalenessScore: real,
    statusScore: real,
    itemBoost: real,
    timeWindowBoost: real,
    minutesSincePlaced: real)

  /** Minutes since the order was placed, never negative. */
  function MinutesSince(now: int, createdAt: int): (r: real)
    ensures r >= 0.0
    ensures now >= createdAt ==> r * 60000.0 == (now - createdAt) as real
    ensures now <= createdAt ==> r == 0.0
  {
    MaxR(0.0, (now - createdAt) as real / 60000.0)
  }

  /** min(1, total / 1000): baskets of 1000 or more saturate. */
  function ValueScore(total: real): (r: real)
    ensures r <= 1.0
    ensures total >= 0.0 ==> r >= 0.0
    ensures r == 1.0 <==> total >= 1000.0
    ensures total < 1000.0 ==> r * 1000.0 == total
  {
    MinR(1.0, total / 1000.0)
  }

  /** min(1, minutes / 90): an order waiting 90 minutes or more saturates. */
  function StalenessScore(minutes: real): (r: real)
    ensures r <= 1.0
    ensures minutes >= 0.0 ==> r >= 0.0
    ensures r == 1.0 <==> minutes >= 90.0
    ensures minutes < 90.0 ==> r * 90.0 == minutes
  {
    MinR(1.0, minutes / 90.0)
  }

  /** The status weights; a status outside the table weighs 0. */
  function StatusWeight(s: string): (w: real)
    ensures 0.0 <= w <= 5.0
    ensures !IsKnown(s) ==> w == 0.0
  {
    if s == PLACED then 5.0
    else if s == CONFIRMED then 4.0
    else if s == DISPATCHED then 2.0
    else if s == DELIVERED then 1.0
    else 0.0
  }

  /** The weight divided by the largest weight (5). */
  function StatusScore(s: string): (r: real)
    ensures 0.0 <= r <= 1.0
    ensures r == 1.0 <==> s == PLACED
  {
    StatusWeight(s) / 5.0
  }

  /** Some lower-cased item name contains one of the keywords. */
  predicate HasKeyword(items: seq<LineItem>)
  {
    exists k, i :: k in KEYWORDS && 0 <= i < |items| && Contains(Lower(items[i].name), k)
  }

  /** 12:00-15:59 and 19:00-22:59. */
  predicate InRush(hour: int)
  {
    (12 <= hour <= 15) || (19 <= hour <= 22)
  }

  /** The sub-scores prioritize computes for one order at time `now`, when the
      local clock reads `hour`. */
  function Explain(o: Order, now: int, hour: int): (e: Explanation)
    ensures e.valueScore == ValueScore(o.total) && e.stalenessScore == StalenessScore(e.minutesSincePlaced)
    ensures e.minutesSincePlaced == MinutesSince(now, o.createdAt)
    ensures e.statusScore == StatusScore(o.status)
    ensures e.itemBoost == (if HasKeyword(o.items) then ITEM_BOOST else 0.0)
    ensures e.timeWindowBoost == (if InRush(hour) then TIME_WINDOW_BOOST else 0.0)
  {
    var minutes := MinutesSince(now, o.createdAt);
    Explanation(
      ValueScore(o.total),
      StalenessScore(minutes),
      StatusScore(o.status),
      if HasKeyword(o.items) then ITEM_BOOST else 0.0,
      if InRush(hour) then TIME_WINDOW_BOOST else 0.0,
      minutes)
  }

  /** base + itemBoost + timeWindowBoost */
  function Score(e: Explanation): real
  {
    e.valueScore * VALUE_WEIGHT + e.stalenessScore * STALENESS_WEIGHT + e.statusScore
    + e.itemBoost + e.timeWindowBoost
  }

  function PriorityScore(o: Order, now: int, hour: int): real
  {
    Score(Explain(o, now, hour))
  }

  /** For a non-negative total the score lies between 0 and
      0.5 + 0.3 + 1 + 2 + 1 = 4.8, and it reaches 4.8 only with every
      sub-score saturated. */
  lemma ScoreBounds(o: Order, now: int, hour: int)
    requires o.total >= 0.0
    ensures 0.0 <= PriorityScore(o, now, hour) <= 4.8
    ensures PriorityScore(o, now, hour) == 4.8 ==>
      o.total >= 1000.0 && MinutesSince(now, o.createdAt) >= 90.0 && o.status == PLACED
      && HasKeyword(o.items) && InRush(hour)
  {
    var e := Explain(o, now, hour);
    assert 0.0 <= e.valueScore <= 1.0 && 0.0 <= e.stalenessScore <= 1.0;
  }

  /** Each step of the lifecycle lowers the status score, so among otherwise
      equal orders the one further behind comes first. */
  lemma TransitionLowersStatusScore(s: string, n: string)
    requires n in NextStatuses(s)
    ensures StatusScore(n) < StatusScore(s)
  {
  }

  /** Terminal and unknown statuses score at most 0.2, below every status that
      still has a transition (at least 0.4). */
  lemma TerminalScoresLowest(t: string, a: string)
    requires IsTerminal(t) || !IsKnown(t)
    requires NextStatuses(a) != []
    ensures StatusScore(t) <= 0.2 < 0.4 <= StatusScore(a)
  {
  }

  /** total 500, placed 30 minutes ago, PLACED, a paneer dish, at 13:00:
      0.25 + 0.1 + 1 + 2 + 1 = 4.35. */
  lemma ScoreExample()
    ensures PriorityScore(
      Order("A1", 0, None, Customer("Asha", "9876543210", "12 MG Road"),
            [LineItem("p1", "Paneer Butter Masala", 1, 500.0)], 500.0, "COD", "", PLACED),
      30 * 60000, 13) == 4.35
  {
    var o := Order("A1", 0, None, Customer("Asha", "9876543210", "12 MG Road"),
                   [LineItem("p1", "Paneer Butter Masala", 1, 500.0)], 500.0, "COD", "", PLACED);
    var low := Lower(o.items[0].name);
    assert low[..6] == "paneer";
    assert Occurs(low, "paneer", 0);
    assert HasKeyword(o.items) by {
      assert "paneer" in KEYWORDS && Contains(low, "paneer");
    }
    assert MinutesSince(30 * 60000, 0) == 30.0;
  }
}
