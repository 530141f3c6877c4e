/** The order lifecycle shared by the dashboards and the server: the five
    status names and the table of statuses an order may move to next. */
module OrderStatus {

  const PLACED: string := "PLACED"
  const CONFIRMED: string := "CONFIRMED"
  const DISPATCHED: string := "DISPATCHED"
  const DELIVERED: string := "DELIVERED"
  const CANCELLED: string := "CANCELLED"

  /** STATUS / ALLOWED_STATUSES, in lifecycle order. */
  const STATUS: seq<string> := [PLACED, CONFIRMED, DISPATCHED, DELIVERED, CANCELLED]

  predicate IsKnown(s: string)
  {
    s in STATUS
  }

  predicate IsTerminal(s: string)
  {
    s == DELIVERED || s == CANCELLED
  }

  /** The next-status table: the nextMap of the dashboards (`nextMap[status] || []`)
      and getNextActions of the second dashboard (`default: return []`). */
  function NextStatuses(s: string): (r: seq<string>)
    ensures forall i :: 0 <= i < |r| ==> IsKnown(r[i]) && r[i] != PLACED
    ensures r == [] <==> s != PLACED && s != CONFIRMED && s != DISPATCHED
    ensures CANCELLED in r <==> s == PLACED || s == CONFIRMED
    ensures |r| <= 2
  {
    if s == PLACED then [CONFIRMED, CANCELLED]
    else if s == CONFIRMED then [DISPATCHED, CANCELLED]
    else if s == DISPATCHED then [DELIVERED]
    else []
  }

  /** How far along the lifecycle a status is. */
  function Stage(s: string): nat
  {
    if s == PLACED then 0
    else if s == CONFIRMED then 1
    else if s == DISPATCHED then 2
    else 3
  }

  /** Every transition of the table moves strictly forward. */
  lemma NextAdvances(s: string, n: string)
    requires n in NextStatuses(s)
    ensures Stage(s) < Stage(n)
    ensures IsKnown(s)
  {
  }

  /** A terminal status, and every status outside STATUS, offers no transition. */
  lemma NoExitFromTerminal(s: string)
    ensures IsTerminal(s) || !IsKnown(s) <==> NextStatuses(s) == []
  {
  }

  /** A sequence of statuses in which each one is offered by the table after
      the one before. */
  ghost predicate IsRun(p: seq<string>)
  {
    forall i :: 0 <= i < |p| - 1 ==> p[i + 1] in NextStatuses(p[i])
  }

  /** Along a run the stage grows by at least one per step, so the lifecycle has
      no cycles and no run takes more than three transitions. */
  lemma {:induction false} RunAdvances(p: seq<string>)
    requires |p| > 0 && IsRun(p)
    ensures Stage(p[|p| - 1]) >= Stage(p[0]) + |p| - 1
    ensures |p| <= 4
  {
    if |p| > 1 {
      var q := p[1..];
      assert IsRun(q) by {
        forall i | 0 <= i < |q| - 1 ensures q[i + 1] in NextStatuses(q[i]) {
          assert q[i] == p[i + 1] && q[i + 1] == p[i + 2];
        }
      }
      RunAdvances(q);
      NextAdvances(p[0], p[1]);
    }
  }

  /** A run never comes back to a status it has left. */
  lemma RunNeverRepeats(p: seq<string>, i: int, j: int)
    requires IsRun(p) && 0 <= i < j < |p|
    ensures p[i] != p[j]
  {
    var q := p[i..j + 1];
    assert IsRun(q) by {
      forall k | 0 <= k < |q| - 1 ensures q[k + 1] in NextStatuses(q[k]) {
        assert q[k] == p[i + k] && q[k + 1] == p[i + k + 1];
      }
    }
    RunAdvances(q);
  }

  /** The buttons a dashboard draws on an order card. */
  datatype Button = StatusButton(next: string) | WhatsAppButton | PrintButton

  /** One status button per entry of the next-status table, in table order. */
  function StatusButtons(s: string): (r: seq<Button>)
    ensures |r| == |NextStatuses(s)|
    ensures forall i :: 0 <= i < |r| ==> r[i] == StatusButton(NextStatuses(s)[i])
  {
    seq(|NextStatuses(s)|, i requires 0 <= i < |NextStatuses(s)| => StatusButton(NextStatuses(s)[i]))
  }

  /** Every status of STATUS is reachable from PLACED through the table. */
  lemma AllReachable()
    ensures IsRun([PLACED, CONFIRMED, DISPATCHED, DELIVERED])
    ensures IsRun([PLACED, CANCELLED])
  {
  }
}
