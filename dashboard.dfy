/** The admin dashboard (`getDashboardStats` in controllers/otherController.js):
    the last twelve Stats rows padded to a twelve-point series, the current
    counts, and month-over-month percentages with profit flags. */
module Dashboard {
  import opened Common
  import opened Seqs
  import opened Stats

  /** The values a JavaScript number takes in the percentage arithmetic:
      exact rationals for finite results, and the results of dividing by
      zero. */
  datatype Num = Finite(value: real) | PosInfinity | NegInfinity | NaN

  /** JavaScript `a / b` on two counts: the exact quotient over a non-zero
      divisor; over zero, an infinity of the dividend's sign, or NaN for
      `0 / 0`. */
  function Quotient(a: int, b: int): (q: Num)
    ensures q.Finite? <==> b != 0
    ensures q.Finite? ==> q.value * (b as real) == a as real
    ensures q == NaN <==> a == 0 && b == 0
    ensures q == PosInfinity <==> a > 0 && b == 0
    ensures q == NegInfinity <==> a < 0 && b == 0
  {
    if b != 0 then Finite(a as real / b as real)
    else if a > 0 then PosInfinity
    else if a < 0 then NegInfinity
    else NaN
  }

  /** JavaScript `x * 100`: a finite number is scaled, and the infinities
      and NaN are left as they are, so the sign and the kind survive. */
  function Hundredfold(x: Num): (h: Num)
    ensures h.Finite? <==> x.Finite?
    ensures x.Finite? ==> h.value == 100.0 * x.value
    ensures !x.Finite? ==> h == x
    ensures Negative(h) <==> Negative(x)
  {
    match x
    case Finite(v) => Finite(v * 100.0)
    case _ => x
  }

  /** JavaScript `x < 0`. It holds for negative finite numbers and negative
      infinity only; in particular it is false for NaN, so a NaN
      percentage counts as a profit. */
  function Negative(x: Num): (neg: bool)
    ensures !neg <==> x == NaN || x == PosInfinity || (x.Finite? && x.value >= 0.0)
  {
    match x
    case Finite(v) => v < 0.0
    case NegInfinity => true
    case _ => false
  }

  /** The values the handler passes to `res.json`; the serialiser renders
      the infinities and NaN as `null`. */
  datatype DashboardStats = DashboardStats(
    stats: seq<Snapshot>,
    usersCount: int,
    viewsCount: int,
    subscriptionCount: int,
    subscriptionPercentage: Num,
    viewsPercentage: Num,
    usersPercentage: Num,
    usersProfit: bool,
    viewsProfit: bool,
    subscriptionProfit: bool)

  const SeriesLength := 12

  /** `k` zero records; none when `k` is not positive. */
  function ZeroPads(k: int): (r: seq<Snapshot>)
    ensures |r| == if k > 0 then k else 0
    ensures forall j :: 0 <= j < |r| ==> r[j] == Zero
  {
    if k <= 0 then [] else seq(k, _ => Zero)
  }

  /** The series the handler sends: zero records up to twelve points, then
      the fetched rows in the order the query returned them. */
  function Padded(fetched: seq<Snapshot>): seq<Snapshot> {
    ZeroPads(SeriesLength - |fetched|) + fetched
  }

  /** Whatever the number of fetched rows up to twelve, the series has
      twelve points: the zero records first, then the rows. */
  lemma PaddedShape(fetched: seq<Snapshot>)
    requires |fetched| <= SeriesLength
    ensures |Padded(fetched)| == SeriesLength
    ensures forall k :: 0 <= k < SeriesLength - |fetched| ==> Padded(fetched)[k] == Zero
    ensures forall k :: 0 <= k < |fetched| ==> Padded(fetched)[SeriesLength - |fetched| + k] == fetched[k]
  {
  }

  /** One more zero record at the front is one more pad. */
  lemma ZeroPadsGrow(k: nat)
    ensures [Zero] + ZeroPads(k) == ZeroPads(k + 1)
  {
    var a, b := [Zero] + ZeroPads(k), ZeroPads(k + 1);
    assert |a| == |b|;
    forall j | 0 <= j < |a|
      ensures a[j] == b[j]
    {
    }
  }

  /** The first half of `getDashboardStats`: the fetched rows are pushed
      onto an empty array one by one, then zero records are unshifted onto
      its front until it holds twelve. */
  method PadSeries(fetched: seq<Snapshot>) returns (statsData: seq<Snapshot>)
    ensures statsData == Padded(fetched)
    ensures |statsData| >= SeriesLength
  {
    statsData := [];
    for i := 0 to |fetched|
      invariant statsData == fetched[..i]
    {
      assert fetched[..i + 1] == fetched[..i] + [fetched[i]];
      statsData := statsData + [fetched[i]];
    }
    assert fetched[..|fetched|] == fetched;

    var requiredSize := SeriesLength - |fetched|;
    var pads: nat := if requiredSize > 0 then requiredSize else 0;
    assert ZeroPads(pads) == ZeroPads(requiredSize);
    var i: nat := 0;
    while i < requiredSize
      invariant i <= pads
      invariant statsData == ZeroPads(i) + fetched
    {
      ZeroPadsGrow(i);
      statsData := [Zero] + statsData;  // unshift
      i := i + 1;
    }
    assert i == pads;
  }

  /** `getDashboardStats`. The rows arrive newest first and are padded at
      the front, so the series is not in time order. The `else` belongs to
      the subscription test alone: when the previous subscription count is
      zero, the users and views percentages are their current count times
      100 if their own previous value is zero and 0 otherwise, and every
      profit flag stays true; otherwise all three are `(curr - prev) / prev
      * 100`, which divides by zero when a users or views baseline is zero,
      and a flag is false exactly when its percentage is below zero. */
  method GetDashboardStats(fetched: seq<Snapshot>) returns (d: DashboardStats)
    ensures d.stats == Padded(fetched)
    ensures |d.stats| >= SeriesLength
    ensures d.usersCount == d.stats[11].users
    ensures d.viewsCount == d.stats[11].views
    ensures d.subscriptionCount == d.stats[11].subscription
    ensures var prev, curr := d.stats[10], d.stats[11];
            prev.subscription == 0 ==>
              && d.subscriptionPercentage == Finite(curr.subscription as real * 100.0)
              && d.usersPercentage == (if prev.users == 0 then Finite(curr.users as real * 100.0) else Finite(0.0))
              && d.viewsPercentage == (if prev.views == 0 then Finite(curr.views as real * 100.0) else Finite(0.0))
              && d.usersProfit && d.viewsProfit && d.subscriptionProfit
    ensures var prev, curr := d.stats[10], d.stats[11];
            prev.subscription != 0 ==>
              && d.usersPercentage == Hundredfold(Quotient(curr.users - prev.users, prev.users))
              && d.viewsPercentage == Hundredfold(Quotient(curr.views - prev.views, prev.views))
              && d.subscriptionPercentage == Hundredfold(Quotient(curr.subscription - prev.subscription, prev.subscription))
              && (d.usersProfit <==> !Negative(d.usersPercentage))
              && (d.viewsProfit <==> !Negative(d.viewsPercentage))
              && (d.subscriptionProfit <==> !Negative(d.subscriptionPercentage))
    ensures fetched == [] ==>
              && d.usersCount == 0 && d.viewsCount == 0 && d.subscriptionCount == 0
              && d.usersPercentage == Finite(0.0) && d.viewsPercentage == Finite(0.0)
              && d.subscriptionPercentage == Finite(0.0)
              && d.usersProfit && d.viewsProfit && d.subscriptionProfit
  {
    var statsData := PadSeries(fetched);

    var usersCount := statsData[11].users;
    var viewsCount := statsData[11].views;
    var subscriptionCount := statsData[11].subscription;

    var usersProfit, viewsProfit, subscriptionProfit := true, true, true;
    var usersPercentage, viewsPercentage, subscriptionPercentage := Finite(0.0), Finite(0.0), Finite(0.0);

    if statsData[10].users == 0 { usersPercentage := Finite(usersCount as real * 100.0); }
    if statsData[10].views == 0 { viewsPercentage := Finite(viewsCount as real * 100.0); }
    if statsData[10].subscription == 0 {
      subscriptionPercentage := Finite(subscriptionCount as real * 100.0);
    } else {
      var differenceUsers := statsData[11].users - statsData[10].users;
      var differenceViews := statsData[11].views - statsData[10].views;
      var differenceSubscription := statsData[11].subscription - statsData[10].subscription;

      usersPercentage := Hundredfold(Quotient(differenceUsers, statsData[10].users));
      viewsPercentage := Hundredfold(Quotient(differenceViews, statsData[10].views));
      subscriptionPercentage := Hundredfold(Quotient(differenceSubscription, statsData[10].subscription));

      if Negative(usersPercentage) { usersProfit := false; }
      if Negative(viewsPercentage) { viewsProfit := false; }
      if Negative(subscriptionPercentage) { subscriptionProfit := false; }
    }

    d := DashboardStats(statsData, usersCount, viewsCount, subscriptionCount,
                        subscriptionPercentage, viewsPercentage, usersPercentage,
                        usersProfit, viewsProfit, subscriptionProfit);
  }

  /** Fed from the Stats collection, the point the dashboard reports as
      current is the oldest of the (up to) twelve newest rows, and the
      point it compares it with is the row after it, or a zero record. */
  lemma {:induction false} ReportedRowIsOldestFetched(rows: seq<Snapshot>)
    requires |rows| > 0
    ensures var n := if |rows| < SeriesLength then |rows| else SeriesLength;
            Padded(NewestFirst(rows, SeriesLength))[11] == rows[|rows| - n]
    ensures var n := if |rows| < SeriesLength then |rows| else SeriesLength;
            Padded(NewestFirst(rows, SeriesLength))[10] == if n == 1 then Zero else rows[|rows| - n + 1]
  {
    var fetched := NewestFirst(rows, SeriesLength);
    PaddedShape(fetched);
  }

  /** Rows on which the dangling `else` shows, newest first as the query
      returns them: users fell from 100 a month ago to 80 now, and there
      were no subscriptions. */
  const FallingUsers := [Snapshot(80, 0, 0, Some(2)), Snapshot(100, 0, 0, Some(1))]

  /** On those rows the handler reports a 0% change and a profit. */
  method DanglingElseExample() returns (d: DashboardStats)
    ensures |d.stats| == SeriesLength
    ensures d.stats[10].users == 80 && d.stats[11].users == 100
    ensures d.usersPercentage == Finite(0.0) && d.usersProfit
  {
    d := GetDashboardStats(FallingUsers);
    PaddedShape(FallingUsers);
  }

  /** The month-over-month change the dashboard is meant to report for one
      metric: the current value times 100 over a zero baseline, the relative
      change in percent otherwise. */
  function Growth(prev: int, curr: int): (p: real)
    requires prev >= 0
    ensures prev == 0 ==> p == curr as real * 100.0
    ensures prev > 0 ==> (p < 0.0 <==> curr < prev)
    ensures prev > 0 ==> (p == 0.0 <==> curr == prev)
  {
    if prev == 0 then curr as real * 100.0
    else
      var q := (curr - prev) as real / prev as real;
      assert q < 0.0 <==> curr < prev;
      assert q == 0.0 <==> curr == prev;
      q * 100.0
  }

  /** Worked figures: a rise from nothing, a fall by a fifth, no change
      from nothing. */
  lemma GrowthExamples()
    ensures Growth(0, 50) == 5000.0
    ensures Growth(100, 80) == -20.0
    ensures Growth(0, 0) == 0.0
  {
  }

  /** Over a non-zero baseline the handler's `(curr - prev) / prev * 100`
      is the intended growth. */
  lemma QuotientIsGrowth(prev: int, curr: int)
    requires prev > 0
    ensures Hundredfold(Quotient(curr - prev, prev)) == Finite(Growth(prev, curr))
  {
  }

  /** The series in time order: the zero records, then the fetched rows
      oldest first, so that the last point is the newest row. */
  function IntendedSeries(fetched: seq<Snapshot>): (s: seq<Snapshot>)
    ensures |s| >= SeriesLength
    ensures |fetched| > 0 ==> s[|s| - 1] == fetched[0]
    ensures |fetched| > 1 ==> s[|s| - 2] == fetched[1]
    ensures |fetched| <= 1 ==> s[|s| - 2] == Zero
  {
    ZeroPads(SeriesLength - |fetched|) + Reverse(fetched)
  }

  function Metric(prev: int, curr: int): (Num, bool)
    requires prev >= 0
  {
    (Finite(Growth(prev, curr)), Growth(prev, curr) >= 0.0)
  }

  /** The dashboard the handler's names describe (`usersCount` as the
      current count, one `...Percentage` and `...Profit` per metric): the
      newest row is current, the row before it the baseline, and each
      metric's percentage and flag come from its own baseline. */
  function IntendedDashboard(fetched: seq<Snapshot>): (d: DashboardStats)
    requires forall k :: 0 <= k < |fetched| ==> fetched[k].users >= 0 && fetched[k].views >= 0 && fetched[k].subscription >= 0
    ensures |fetched| > 0 ==> d.usersCount == fetched[0].users && d.viewsCount == fetched[0].views
                              && d.subscriptionCount == fetched[0].subscription
    ensures |fetched| > 1 && fetched[1].users > 0 ==> (d.usersProfit <==> fetched[0].users >= fetched[1].users)
    ensures |fetched| > 1 && fetched[1].views > 0 ==> (d.viewsProfit <==> fetched[0].views >= fetched[1].views)
    ensures |fetched| > 1 && fetched[1].subscription > 0 ==>
              (d.subscriptionProfit <==> fetched[0].subscription >= fetched[1].subscription)
  {
    var s := IntendedSeries(fetched);
    var prev, curr := s[|s| - 2], s[|s| - 1];
    var (up, uf) := Metric(prev.users, curr.users);
    var (vp, vf) := Metric(prev.views, curr.views);
    var (sp, sf) := Metric(prev.subscription, curr.subscription);
    DashboardStats(s, curr.users, curr.views, curr.subscription, sp, vp, up, uf, vf, sf)
  }

  /** On the rows of `DanglingElseExample` the intended dashboard reports
      the fall: 80 users, -20% and no profit. */
  lemma IntendedOnFallingUsers()
    ensures IntendedDashboard(FallingUsers).usersCount == 80
    ensures IntendedDashboard(FallingUsers).usersPercentage == Finite(-20.0)
    ensures !IntendedDashboard(FallingUsers).usersProfit
  {
  }

  /** Fed from the Stats collection, the intended dashboard reports the
      latest row as current, where the handler reports the oldest of the
      twelve newest. */
  lemma IntendedReportsLatestRow(rows: seq<Snapshot>)
    requires |rows| > 0
    requires forall k :: 0 <= k < |rows| ==> rows[k].users >= 0 && rows[k].views >= 0 && rows[k].subscription >= 0
    ensures var d := IntendedDashboard(NewestFirst(rows, SeriesLength));
            && d.usersCount == rows[|rows| - 1].users
            && d.viewsCount == rows[|rows| - 1].views
            && d.subscriptionCount == rows[|rows| - 1].subscription
  {
    var fetched := NewestFirst(rows, SeriesLength);
    forall k | 0 <= k < |fetched|
      ensures fetched[k].users >= 0 && fetched[k].views >= 0 && fetched[k].subscription >= 0
    {
      assert fetched[k] == rows[|rows| - 1 - k];
    }
  }
}

/** The two forms of controllers/otherController.js that send an email. */
module ContactForms {
  import opened Common

  const FillAllFields := "Please Fill All Fields"
  const ContactSubject := "Contact From Learnify"
  const RequestSubject := "Requesting For a Course on Learnify"

  /** `contact`: every field is required; otherwise one email to the site's
      address carrying the sender's name, address and message. `mailSent`
      says whether the mail sender accepted it; a failure ends the request
      with an error. */
  function Contact(name: string, email: string, message: string, myMail: string, mailSent: bool)
    : (r: Result<Email>)
    ensures name == "" || email == "" || message == "" ==> r == Err(HttpError(400, FillAllFields))
    ensures name != "" && email != "" && message != "" && !mailSent ==> r == Err(ServiceFailed)
    ensures r.Ok? <==> name != "" && email != "" && message != "" && mailSent
    ensures r.Ok? ==> r.value.to == myMail && r.value.subject == ContactSubject
  {
    if name == "" || email == "" || message == "" then Err(HttpError(400, FillAllFields))
    else if !mailSent then Err(ServiceFailed)
    else Ok(Email(myMail, ContactSubject, "I am " + name + " and  My Email is " + email + ". \n " + message))
  }

  /** `courseRequest`: every field is required; otherwise one email to the
      site's address naming the requested course. `mailSent` says whether
      the mail sender accepted it; a failure ends the request with an
      error. */
  function CourseRequest(name: string, email: string, course: string, myMail: string, mailSent: bool)
    : (r: Result<Email>)
    ensures name == "" || email == "" || course == "" ==> r == Err(HttpError(400, FillAllFields))
    ensures name != "" && email != "" && course != "" && !mailSent ==> r == Err(ServiceFailed)
    ensures r.Ok? <==> name != "" && email != "" && course != "" && mailSent
    ensures r.Ok? ==> r.value.to == myMail && r.value.subject == RequestSubject
  {
    if name == "" || email == "" || course == "" then Err(HttpError(400, FillAllFields))
    else if !mailSent then Err(ServiceFailed)
    else Ok(Email(myMail, RequestSubject,
                  "\n I am " + name + " and \n My Email is " + email + ". \n Requested Course : \n " + course))
  }
}
