/** The admin overview: the employee counts, the four most recent
    registrations and the "time ago" caption beside each. Times are integer
    milliseconds supplied by the caller. */
module Dashboard {
  import opened Text

  const MsPerMinute := 60000
  const MsPerHour := 3600000
  const MsPerDay := 86400000

  /** The unit and count a "time ago" caption shows for an age in
      milliseconds (negative for a date in the future). */
  datatype Ago = Ago(count: int, unit: string)

  /** Days when at least one whole day has passed, else hours when at least
      one whole hour has, else whole minutes; each count is rounded down. */
  function TimeAgoParts(ms: int): (a: Ago)
    ensures a.unit == "day" <==> ms >= MsPerDay
    ensures a.unit == "hour" <==> MsPerHour <= ms < MsPerDay
    ensures a.unit == "minute" <==> ms < MsPerHour
  {
    var hours := ms / MsPerHour;
    var days := hours / 24;
    DaysFromHours(ms);
    if days > 0 then Ago(days, "day")
    else if hours > 0 then Ago(hours, "hour")
    else Ago(ms / MsPerMinute, "minute")
  }

  /** Taking whole days of whole hours is taking whole days. */
  lemma DaysFromHours(ms: int)
    ensures (ms / MsPerHour) / 24 == ms / MsPerDay
  {
    var h := ms / MsPerHour;
    var d := h / 24;
    assert h * MsPerHour <= ms < h * MsPerHour + MsPerHour;
    assert d * 24 <= h < d * 24 + 24;
    assert d * MsPerDay <= h * MsPerHour by {
      assert d * MsPerDay == (d * 24) * MsPerHour;
      MulMonotone(d * 24, h, MsPerHour);
    }
    assert h * MsPerHour + MsPerHour <= d * MsPerDay + MsPerDay by {
      assert d * MsPerDay + MsPerDay == (d * 24 + 24) * MsPerHour;
      MulMonotone(h + 1, d * 24 + 24, MsPerHour);
    }
    FloorUnique(ms, MsPerDay, d);
  }

  /** The count shown is the number of whole units elapsed. */
  lemma TimeAgoCount(ms: int)
    ensures var a := TimeAgoParts(ms);
      var unit := if a.unit == "day" then MsPerDay else if a.unit == "hour" then MsPerHour else MsPerMinute;
      a.count * unit <= ms < a.count * unit + unit
  {
    var a := TimeAgoParts(ms);
    var unit := if a.unit == "day" then MsPerDay else if a.unit == "hour" then MsPerHour else MsPerMinute;
    DaysFromHours(ms);
    assert a.count == ms / unit;
  }

  /** The counts of each branch: at least one day; one to twenty-three
      hours; at most fifty-nine minutes. */
  lemma TimeAgoRanges(ms: int)
    ensures var a := TimeAgoParts(ms);
      && (a.unit == "day" ==> a.count >= 1)
      && (a.unit == "hour" ==> 1 <= a.count <= 23)
      && (a.unit == "minute" ==> a.count <= 59)
  {
    DaysFromHours(ms);
  }

  /** The caption: the count, the unit with an "s" when the count is above
      one, and "ago". */
  function GetTimeAgo(ms: int): (s: string)
    ensures var a := TimeAgoParts(ms);
      var k := |IntToString(a.count)|;
      && |s| == k + 1 + |a.unit| + (if a.count > 1 then 1 else 0) + 4
      && |s| > k + 5
      && s[..k] == IntToString(a.count) && s[k] == ' '
      && s[k + 1..k + 1 + |a.unit|] == a.unit
      && s[|s| - 4..] == " ago"
      && (s[|s| - 5] == 's' <==> a.count > 1)
  {
    var a := TimeAgoParts(ms);
    var head := IntToString(a.count) + " " + a.unit;
    var s := head + (if a.count > 1 then "s" else "") + " ago";
    assert s[..|head|] == head;
    assert head[|IntToString(a.count)| + 1..] == a.unit;
    s
  }

  /** A count of one, and of zero, is written in the singular. */
  lemma SingularCaptions()
    ensures GetTimeAgo(0) == "0 minute ago"
    ensures GetTimeAgo(MsPerMinute) == "1 minute ago"
    ensures GetTimeAgo(2 * MsPerHour) == "2 hours ago"
  {
    DaysFromHours(0);
    DaysFromHours(MsPerMinute);
    DaysFromHours(2 * MsPerHour);
    assert TimeAgoParts(0) == Ago(0, "minute");
    assert TimeAgoParts(MsPerMinute) == Ago(1, "minute");
    assert TimeAgoParts(2 * MsPerHour) == Ago(2, "hour");
    assert IntToString(0) == "0" && IntToString(1) == "1" && IntToString(2) == "2";
  }

  // ---------------------------------------------------------------------------
  // Counts

  /** An employee as the overview fetches it. */
  datatype Registration = Registration(id: string, username: string, createdAt: int)

  /** The registrations made at or after `monthStart`. */
  function NewSince(rs: seq<Registration>, monthStart: int): (n: nat)
    ensures n <= |rs|
    ensures n == |rs| <==> forall i :: 0 <= i < |rs| ==> rs[i].createdAt >= monthStart
    ensures n == 0 <==> forall i :: 0 <= i < |rs| ==> rs[i].createdAt < monthStart
  {
    if rs == [] then 0
    else (if rs[0].createdAt >= monthStart then 1 else 0) + NewSince(rs[1..], monthStart)
  }

  /** The most recent registrations: the first four of the list, which the
      store returns newest first. */
  function Recent(rs: seq<Registration>): (r: seq<Registration>)
    ensures |r| <= 4 && r <= rs
    ensures |r| == 4 || r == rs
  {
    if |rs| <= 4 then rs else rs[..4]
  }

  /** The avatar letter: the first character of the username upper-cased,
      nothing for an empty name. */
  function Initial(username: string): (r: string)
    ensures |r| <= 1
    ensures r == [] <==> username == []
    ensures r != [] ==> r[0] == UpperChar(username[0])
  {
    if username == [] then [] else [UpperChar(username[0])]
  }

  /** The store's answer to the overview query. */
  datatype Reply = Rows(data: Option<seq<Registration>>) | QueryFailed | Threw

  class Overview {
    var totalEmployees: nat
    var newThisMonth: nat
    var recentActivity: seq<Registration>
    var loading: bool

    /** The figures always agree with each other. */
    predicate Valid()
      reads this
    {
      newThisMonth <= totalEmployees && |recentActivity| <= 4 && |recentActivity| <= totalEmployees
    }

    constructor ()
      ensures Valid() && totalEmployees == 0 && newThisMonth == 0 && recentActivity == [] && loading
    {
      totalEmployees, newThisMonth, recentActivity, loading := 0, 0, [], true;
    }

    /** Loading the figures: a returned list sets all three; an error, a
        throw or an empty answer keeps them; loading ends in every case. */
    method FetchDashboardData(reply: Reply, monthStart: int)
      requires Valid()
      modifies this
      ensures Valid() && !loading
      ensures reply.Rows? && reply.data.Some? ==>
        var rs := reply.data.value;
        totalEmployees == |rs| && newThisMonth == NewSince(rs, monthStart) && recentActivity == Recent(rs)
      ensures !(reply.Rows? && reply.data.Some?) ==>
        totalEmployees == old(totalEmployees) && newThisMonth == old(newThisMonth) && recentActivity == old(recentActivity)
    {
      if reply.Rows? && reply.data.Some? {
        var rs := reply.data.value;
        totalEmployees := |rs|;
        newThisMonth := NewSince(rs, monthStart);
        recentActivity := Recent(rs);
      }
      loading := false;
    }

    /** The figure in a card: an ellipsis while loading. */
    function TotalText(): (s: string)
      reads this
      ensures loading ==> s == "..."
      ensures !loading ==> AllDigits(s) && DecimalValue(s) == totalEmployees
    {
      if loading then "..." else (DecimalRoundTrip(totalEmployees); NatToString(totalEmployees))
    }
  }
}
