/** The relative timestamp shown on every order card of the dashboards. */
module TimeAgo {
  import opened Text

  const MINUTE: int := 60000
  const HOUR: int := 3600000

  /** timeAgo(createdAt) read at time `now`, both in milliseconds. */
  function TimeAgo(now: int, createdAt: int): (r: string)
    ensures r == "just now" <==> now - createdAt < MINUTE
    ensures MINUTE <= now - createdAt < HOUR ==> r == NatToString((now - createdAt) / MINUTE) + "m ago"
    ensures HOUR <= now - createdAt ==> r == NatToString((now - createdAt) / HOUR) + "h ago"
  {
    var diff := now - createdAt;
    var mins := if diff < 0 then 0 else diff / MINUTE;
    if mins < 1 then "just now"
    else if mins < 60 then
      var r := NatToString(mins) + "m ago";
      assert r[|r| - 1] == 'o';
      r
    else
      assert mins / 60 == diff / HOUR;
      var r := NatToString(mins / 60) + "h ago";
      assert r[|r| - 1] == 'o';
      r
  }

  /** The number in a minutes or hours label reads back as the whole minutes
      or whole hours elapsed. */
  lemma TimeAgoReadsBack(now: int, createdAt: int)
    requires now - createdAt >= MINUTE
    ensures var r := TimeAgo(now, createdAt);
      |r| > 5 && ParseNat(r[..|r| - 5]) ==
        (if now - createdAt < HOUR then (now - createdAt) / MINUTE else (now - createdAt) / HOUR)
  {
    var diff := now - createdAt;
    var r := TimeAgo(now, createdAt);
    if diff < HOUR {
      var n := NatToString(diff / MINUTE);
      assert r[..|r| - 5] == n;
      ParseNatToString(diff / MINUTE);
    } else {
      var n := NatToString(diff / HOUR);
      assert r[..|r| - 5] == n;
      ParseNatToString(diff / HOUR);
    }
  }
}
