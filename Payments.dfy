/** The subscription side of payments.py: the end of the three-day trial
    (a downgrade, or an automatic charge of the saved payment method), the
    daily sweep over every trial account, and the direct plan assignment.

    The payment gateway is the function `gateway`: it is given the charge
    request and answers with the payment it created, or raises. */
module Payments {
  import opened Common
  import opened Database

  const TrialDays: int := 3
  const SubscriptionDays: int := 30
  const MonthPrice: string := "399.00"
  const Currency: string := "RUB"
  const SucceededStatus: string := "succeeded"

  const TrialPlan: string := "plus_trial"
  const MonthPlan: string := "plus_month"
  const FreePlan: string := "free"

  /** The parts of a Payment.create request that depend on the account. */
  datatype ChargeRequest = ChargeRequest(amount: string, currency: string, paymentMethodId: string, userId: int)

  /** What Payment.create produced: an exception, or a payment with its id and status. */
  datatype Charge = ChargeRaised | Charged(paymentId: string, status: string)

  /** The event dictionaries handed back to main.py. */
  datatype TrialEvent =
    | TrialNoAutopay(userId: int, paymentMethodId: Option<string>, autoRenewal: Option<bool>)
    | AutopayFailed(userId: int, paymentId: string, status: string)
    | SubscriptionExtended(userId: int, paymentId: string, startDate: Instant, endDate: Instant)
    | CriticalError(userId: int)

  /** process_trial_expiration: None, an event, or an exception. */
  datatype TrialOutcome = NoEvent | Event(event: TrialEvent) | TrialRaised

  /** The trial has run its three days. */
  predicate Expired(start: Instant, now: Instant) {
    now >= start + TrialDays * SecondsPerDay
  }

  /** A saved payment method and auto-renewal both truthy: a non-empty
      method id and auto_renewal set to TRUE. */
  predicate HasAutopay(row: UserRow) {
    row.paymentMethodId.Some? && row.paymentMethodId.value != [] && row.autoRenewal == Some(true)
  }

  /** A trial whose three days are over, as the row stores it. */
  predicate ExpiredTrial(row: UserRow, now: Instant) {
    row.subscriptionPlan == TrialPlan && row.subscriptionStartDate.Some?
    && Expired(row.subscriptionStartDate.value, now)
  }

  /** The two rows agree on every column except the plan, the subscription
      dates and trial_used. */
  predicate SameExceptSubscription(a: UserRow, b: UserRow) {
    a.dailyTokens == b.dailyTokens && a.lastReset == b.lastReset && a.totalSpent == b.totalSpent
    && a.referralCount == b.referralCount && a.inputTokens == b.inputTokens
    && a.outputTokens == b.outputTokens && a.invitedUsers == b.invitedUsers
    && a.referrerId == b.referrerId && a.lastTokenUpdate == b.lastTokenUpdate
    && a.lastWarningTime == b.lastWarningTime && a.paymentMethodId == b.paymentMethodId
    && a.autoRenewal == b.autoRenewal
  }

  /** The charge of the month price on an account's saved method. */
  function ChargeFor(row: UserRow, userId: int): ChargeRequest
    requires row.paymentMethodId.Some?
  {
    ChargeRequest(MonthPrice, Currency, row.paymentMethodId.value, userId)
  }

  /** The expired trial of an account whose charge cannot be attempted:
      the free plan, with the trial marked used. */
  function Downgraded(row: UserRow): (r: UserRow)
    ensures SameExceptSubscription(row, r)
    ensures r.subscriptionPlan == FreePlan && r.trialUsed == Some(true)
    ensures r.subscriptionStartDate == row.subscriptionStartDate
    ensures r.subscriptionEndDate == row.subscriptionEndDate
  {
    row.(subscriptionPlan := FreePlan, trialUsed := Some(true))
  }

  /** The expired trial of an account whose charge succeeded: a month from
      today's midnight, with the trial marked used. */
  function Extended(row: UserRow, now: Instant): (r: UserRow)
    ensures SameExceptSubscription(row, r)
    ensures r.subscriptionPlan == MonthPlan && r.trialUsed == Some(true)
    ensures r.subscriptionStartDate == Some(StartOfDay(DayOf(now)))
    ensures r.subscriptionEndDate.Some?
      && r.subscriptionEndDate.value - r.subscriptionStartDate.value == SubscriptionDays * SecondsPerDay
  {
    var start := StartOfDay(DayOf(now));
    row.(subscriptionPlan := MonthPlan, subscriptionStartDate := Some(start),
         subscriptionEndDate := Some(start + SubscriptionDays * SecondsPerDay), trialUsed := Some(true))
  }

  /** process_trial_expiration on the users table: the outcome and the new
      table. No connection raises; a missing user is created by
      load_user_data and yields None. */
  function TrialExpiration(reachable: bool, users: map<int, UserRow>, userId: int, now: Instant,
                           gateway: ChargeRequest -> Charge): (r: (TrialOutcome, map<int, UserRow>))
    ensures !reachable ==> r == (TrialRaised, users)
    ensures reachable && userId !in users ==> r == (NoEvent, users[userId := DefaultRow(DayOf(now))])
    ensures forall id :: id != userId ==> (id in r.1 <==> id in users)
    ensures forall id :: id != userId && id in users ==> r.1[id] == users[id]
    ensures userId in users ==> userId in r.1 && SameExceptSubscription(users[userId], r.1[userId])
    ensures r.0.Event? ==> reachable && userId in users && ExpiredTrial(users[userId], now) && r.0.event.userId == userId
    ensures reachable && userId in users && !ExpiredTrial(users[userId], now) ==> r == (NoEvent, users)
    ensures r.0.TrialRaised? || (r.0.Event? && r.0.event.AutopayFailed?) ==> r.1 == users
    ensures r.0.Event? && (r.0.event.TrialNoAutopay? || r.0.event.SubscriptionExtended?) ==>
      r.1[userId].trialUsed == Some(true) && r.1[userId].subscriptionPlan != TrialPlan
    ensures reachable && userId in users && ExpiredTrial(users[userId], now) && !HasAutopay(users[userId]) ==>
      r == (Event(TrialNoAutopay(userId, users[userId].paymentMethodId, users[userId].autoRenewal)),
            users[userId := Downgraded(users[userId])])
    ensures reachable && userId in users && ExpiredTrial(users[userId], now) && HasAutopay(users[userId])
            && gateway(ChargeFor(users[userId], userId)).ChargeRaised? ==>
      r == (TrialRaised, users)
    ensures reachable && userId in users && ExpiredTrial(users[userId], now) && HasAutopay(users[userId])
            && gateway(ChargeFor(users[userId], userId)).Charged?
            && gateway(ChargeFor(users[userId], userId)).status != SucceededStatus ==>
      r == (Event(AutopayFailed(userId, gateway(ChargeFor(users[userId], userId)).paymentId,
                                gateway(ChargeFor(users[userId], userId)).status)), users)
    ensures reachable && userId in users && ExpiredTrial(users[userId], now) && HasAutopay(users[userId])
            && gateway(ChargeFor(users[userId], userId)).Charged?
            && gateway(ChargeFor(users[userId], userId)).status == SucceededStatus ==>
      r == (Event(SubscriptionExtended(userId, gateway(ChargeFor(users[userId], userId)).paymentId,
                                       StartOfDay(DayOf(now)), StartOfDay(DayOf(now)) + SubscriptionDays * SecondsPerDay)),
            users[userId := Extended(users[userId], now)])
  {
    if !reachable then (TrialRaised, users)
    else if userId !in users then (NoEvent, users[userId := DefaultRow(DayOf(now))])
    else
      var row := users[userId];
      if !ExpiredTrial(row, now) then (NoEvent, users)
      else if !HasAutopay(row) then
        (Event(TrialNoAutopay(userId, row.paymentMethodId, row.autoRenewal)), users[userId := Downgraded(row)])
      else
        match gateway(ChargeFor(row, userId))
        case ChargeRaised => (TrialRaised, users)
        case Charged(paymentId, status) =>
          if status != SucceededStatus then (Event(AutopayFailed(userId, paymentId, status)), users)
          else
            var ext := Extended(row, now);
            (Event(SubscriptionExtended(userId, paymentId, ext.subscriptionStartDate.value, ext.subscriptionEndDate.value)),
             users[userId := ext])
  }

  /** process_trial_expiration: connect, load the user, and settle an
      expired trial by a downgrade or a charge. */
  method ProcessTrialExpiration(db: Db, userId: int, now: Instant, gateway: ChargeRequest -> Charge)
    returns (r: TrialOutcome)
    modifies db
    ensures db.reachable == old(db.reachable) && db.chatHistory == old(db.chatHistory)
    ensures db.assistantRows == old(db.assistantRows)
    ensures (r, db.users) == TrialExpiration(old(db.reachable), old(db.users), userId, now, gateway)
  {
    if !db.reachable {
      return TrialRaised;
    }
    var user := db.LoadUserData(userId, now);
    if user.None? {
      return NoEvent;
    }
    if user.value.subscriptionPlan != TrialPlan {
      return NoEvent;
    }
    var row := db.users[userId];
    var startDate := row.subscriptionStartDate;
    if startDate.None? {
      return NoEvent;
    }
    var expired := now >= startDate.value + TrialDays * SecondsPerDay;
    if !expired {
      return NoEvent;
    }
    var paymentMethodId := row.paymentMethodId;
    var autoRenewal := row.autoRenewal;
    if paymentMethodId.None? || paymentMethodId.value == [] || autoRenewal != Some(true) {
      db.users := db.users[userId := row.(subscriptionPlan := FreePlan, trialUsed := Some(true))];
      return Event(TrialNoAutopay(userId, paymentMethodId, autoRenewal));
    }
    var payment := gateway(ChargeRequest(MonthPrice, Currency, paymentMethodId.value, userId));
    if payment.ChargeRaised? {
      return TrialRaised;
    }
    if payment.status != SucceededStatus {
      return Event(AutopayFailed(userId, payment.paymentId, payment.status));
    }
    var newStart := StartOfDay(DayOf(now));
    var newEnd := newStart + SubscriptionDays * SecondsPerDay;
    db.users := db.users[userId := row.(subscriptionPlan := MonthPlan, subscriptionStartDate := Some(newStart),
                                        subscriptionEndDate := Some(newEnd), trialUsed := Some(true))];
    r := Event(SubscriptionExtended(userId, payment.paymentId, newStart, newEnd));
  }

  /** The record of load_user_data: it carries none of the trial columns, so
      `user.get("subscription_start_date")` finds no such key. */
  function RecordStartDate(rec: UserRecord): Option<Instant> {
    None
  }

  /** process_trial_expiration as written: it asks the record of
      load_user_data for the trial columns; the start date is always missing,
      so every present account ends at that check with None. The steps after
      it are those of TrialExpiration. */
  function TrialExpirationAsWritten(reachable: bool, users: map<int, UserRow>, userId: int, now: Instant,
                                    gateway: ChargeRequest -> Charge): (r: (TrialOutcome, map<int, UserRow>))
    ensures !r.0.Event?
    ensures reachable ==> forall id :: id in users ==> id in r.1 && r.1[id] == users[id]
  {
    if !reachable then (TrialRaised, users)
    else if userId !in users then (NoEvent, users[userId := DefaultRow(DayOf(now))])
    else
      var user := RecordOf(userId, users[userId]);
      if user.subscriptionPlan != TrialPlan then (NoEvent, users)
      else if RecordStartDate(user).None? then (NoEvent, users)
      else TrialExpiration(reachable, users, userId, now, gateway)
  }

  /** An expired trial with autopay whose charge succeeds: the corrected
      reading extends it, the code as written leaves it on the trial. */
  lemma AsWrittenTrialNeverSettles(users: map<int, UserRow>, userId: int, now: Instant,
                                   gateway: ChargeRequest -> Charge)
    requires userId in users && ExpiredTrial(users[userId], now) && HasAutopay(users[userId])
    requires gateway(ChargeFor(users[userId], userId)) == Charged("p", SucceededStatus)
    ensures TrialExpirationAsWritten(true, users, userId, now, gateway) == (NoEvent, users)
    ensures TrialExpiration(true, users, userId, now, gateway).0.Event?
    ensures TrialExpiration(true, users, userId, now, gateway).1[userId].subscriptionPlan == MonthPlan
  {
  }

  /** trial_used is only ever set: an account whose trial is used keeps it used. */
  lemma TrialUsedNeverReset(reachable: bool, users: map<int, UserRow>, userId: int, now: Instant,
                            gateway: ChargeRequest -> Charge, id: int)
    requires id in users && users[id].trialUsed == Some(true)
    ensures var r := TrialExpiration(reachable, users, userId, now, gateway);
      id in r.1 && r.1[id].trialUsed == Some(true)
  {
  }

  /** A trial settled by a downgrade or an extension is settled for good: the
      next run finds no trial and changes nothing. */
  lemma SettledTrialIsQuiet(users: map<int, UserRow>, userId: int, now: Instant, later: Instant,
                            gateway: ChargeRequest -> Charge)
    requires var r := TrialExpiration(true, users, userId, now, gateway);
      r.0.Event? && (r.0.event.TrialNoAutopay? || r.0.event.SubscriptionExtended?)
    ensures var r := TrialExpiration(true, users, userId, now, gateway);
      TrialExpiration(true, r.1, userId, later, gateway) == (NoEvent, r.1)
  {
  }

  /** A refused charge leaves the trial in place: the table is unchanged and
      the account is still an expired trial with autopay, so a later run
      sends the same charge request again, with a fresh Payment.create whose
      answer (`retry`) decides that run. */
  lemma FailedChargeIsRetried(users: map<int, UserRow>, userId: int, now: Instant, later: Instant,
                              gateway: ChargeRequest -> Charge, retry: ChargeRequest -> Charge)
    requires later >= now
    requires var r := TrialExpiration(true, users, userId, now, gateway);
      r.0.Event? && r.0.event.AutopayFailed?
    ensures var r := TrialExpiration(true, users, userId, now, gateway);
      r.1 == users && userId in users
      && ExpiredTrial(users[userId], later) && HasAutopay(users[userId])
    ensures retry(ChargeFor(users[userId], userId)).Charged? ==>
      var next := TrialExpiration(true, users, userId, later, retry);
      var answer := retry(ChargeFor(users[userId], userId));
      next.0.Event?
      && (answer.status != SucceededStatus ==> next.0 == Event(AutopayFailed(userId, answer.paymentId, answer.status)))
      && (answer.status == SucceededStatus ==> next.0.event.SubscriptionExtended? && next.0.event.paymentId == answer.paymentId)
  {
  }

  /** The charge is attempted exactly for an expired trial with a saved
      method and auto-renewal on, and the extension it buys starts today and
      lasts thirty days. */
  lemma ExtensionOnlyAfterCharge(users: map<int, UserRow>, userId: int, now: Instant, gateway: ChargeRequest -> Charge)
    requires userId in users
    ensures var r := TrialExpiration(true, users, userId, now, gateway);
      (r.0.Event? && r.0.event.SubscriptionExtended?) <==>
        ExpiredTrial(users[userId], now) && HasAutopay(users[userId])
        && gateway(ChargeFor(users[userId], userId)).Charged?
        && gateway(ChargeFor(users[userId], userId)).status == SucceededStatus
    ensures var r := TrialExpiration(true, users, userId, now, gateway);
      r.0.Event? && r.0.event.SubscriptionExtended? ==>
        r.0.event.startDate == StartOfDay(DayOf(now))
        && r.0.event.endDate == r.0.event.startDate + SubscriptionDays * SecondsPerDay
        && r.1[userId].subscriptionPlan == MonthPlan
        && r.1[userId].subscriptionStartDate == Some(r.0.event.startDate)
        && r.1[userId].subscriptionEndDate == Some(r.0.event.endDate)
        && r.1[userId] == Extended(users[userId], now)
  {
  }

  // ---------------------------------------------------------------------------
  // daily_trial_check

  /** The ids of the SELECT over plus_trial accounts, in the order the rows
      come back (`rowOrder`; SQL fixes no order). */
  function TrialIds(rowOrder: seq<int>, users: map<int, UserRow>): (r: seq<int>)
    ensures |r| <= |rowOrder|
    ensures forall k :: 0 <= k < |r| ==> r[k] in users && users[r[k]].subscriptionPlan == TrialPlan
    ensures forall k :: 0 <= k < |rowOrder| && rowOrder[k] in users && users[rowOrder[k]].subscriptionPlan == TrialPlan ==>
      rowOrder[k] in r
    ensures forall k :: 0 <= k < |r| ==> r[k] in rowOrder
  {
    if rowOrder == [] then []
    else
      var id := rowOrder[|rowOrder| - 1];
      var init := rowOrder[..|rowOrder| - 1];
      assert forall k :: 0 <= k < |init| ==> init[k] == rowOrder[k];
      TrialIds(init, users) + (if id in users && users[id].subscriptionPlan == TrialPlan then [id] else [])
  }

  /** The ids of one stretch of rows followed by another are the ids of the
      first stretch followed by those of the second: the SELECT keeps the row
      order. */
  lemma {:induction false} TrialIdsConcat(a: seq<int>, b: seq<int>, users: map<int, UserRow>)
    ensures TrialIds(a + b, users) == TrialIds(a, users) + TrialIds(b, users)
    decreases |b|
  {
    if b == [] {
      assert a + b == a;
    } else {
      var init := b[..|b| - 1];
      var id := b[|b| - 1];
      var last := if id in users && users[id].subscriptionPlan == TrialPlan then [id] else [];
      assert a + b == (a + init) + [id] && b == init + [id];
      calc {
        TrialIds(a + b, users);
        { TrialIdsSnoc(a + init, id, users); }
        TrialIds(a + init, users) + last;
        { TrialIdsConcat(a, init, users); }
        TrialIds(a, users) + TrialIds(init, users) + last;
        TrialIds(a, users) + (TrialIds(init, users) + last);
        { TrialIdsSnoc(init, id, users); }
        TrialIds(a, users) + TrialIds(b, users);
      }
    }
  }

  /** One more row adds its id exactly when the account is on the trial. */
  lemma TrialIdsSnoc(rowOrder: seq<int>, id: int, users: map<int, UserRow>)
    ensures TrialIds(rowOrder + [id], users)
      == TrialIds(rowOrder, users) + if id in users && users[id].subscriptionPlan == TrialPlan then [id] else []
  {
    assert (rowOrder + [id])[..|rowOrder|] == rowOrder;
  }

  /** One row is selected exactly when its account is on the trial. */
  lemma TrialIdsSingle(id: int, users: map<int, UserRow>)
    ensures TrialIds([id], users) == if id in users && users[id].subscriptionPlan == TrialPlan then [id] else []
  {
    assert [id][..0] == [];
  }

  /** The table as a SELECT returns it: every account exactly once. */
  predicate ListsEachOnce(rowOrder: seq<int>, users: map<int, UserRow>) {
    (forall u :: u in users ==> u in rowOrder)
    && (forall k :: 0 <= k < |rowOrder| ==> rowOrder[k] in users)
    && forall i, j :: 0 <= i < j < |rowOrder| ==> rowOrder[i] != rowOrder[j]
  }

  /** Over a row order without repeats, the SELECT names each trial account
      once, and names every one of them when the order lists the whole table. */
  lemma {:induction false} TrialIdsOnce(rowOrder: seq<int>, users: map<int, UserRow>)
    requires forall i, j :: 0 <= i < j < |rowOrder| ==> rowOrder[i] != rowOrder[j]
    ensures forall i, j :: 0 <= i < j < |TrialIds(rowOrder, users)| ==>
      TrialIds(rowOrder, users)[i] != TrialIds(rowOrder, users)[j]
    ensures ListsEachOnce(rowOrder, users) ==>
      forall u :: u in users && users[u].subscriptionPlan == TrialPlan ==> u in TrialIds(rowOrder, users)
  {
    if rowOrder != [] {
      var init := rowOrder[..|rowOrder| - 1];
      var id := rowOrder[|rowOrder| - 1];
      TrialIdsOnce(init, users);
      var r := TrialIds(rowOrder, users);
      var head := TrialIds(init, users);
      assert r == head + (if id in users && users[id].subscriptionPlan == TrialPlan then [id] else []);
      forall i, j | 0 <= i < j < |r|
        ensures r[i] != r[j]
      {
        assert r[i] == head[i];
        if j >= |head| {
          assert r[j] == id;
          var k :| 0 <= k < |init| && init[k] == head[i];
          assert rowOrder[k] == head[i];
          assert k < |rowOrder| - 1;
          assert rowOrder[k] != rowOrder[|rowOrder| - 1];
          assert r[i] != r[j];
        } else {
          assert r[j] == head[j];
          assert head[i] != head[j];
        }
      }
    }
  }

  /** The events one account contributes: none, its event, or a critical error. */
  function EventsOf(o: TrialOutcome, userId: int): (r: seq<TrialEvent>)
    ensures |r| <= 1 && forall k :: 0 <= k < |r| ==> r[k].userId == userId || (o.Event? && r[k] == o.event)
    ensures o.NoEvent? ==> r == []
    ensures o.Event? ==> r == [o.event]
    ensures o.TrialRaised? ==> r == [CriticalError(userId)]
  {
    match o
    case NoEvent => []
    case Event(e) => [e]
    case TrialRaised => [CriticalError(userId)]
  }

  /** One account of the sweep: the events it adds and the table after it. */
  function Settle(users: map<int, UserRow>, id: int, now: Instant, gateway: ChargeRequest -> Charge)
    : (r: (seq<TrialEvent>, map<int, UserRow>))
    ensures |r.0| <= 1 && forall k :: 0 <= k < |r.0| ==> r.0[k].userId == id
  {
    var step := TrialExpiration(true, users, id, now, gateway);
    (EventsOf(step.0, id), step.1)
  }

  /** The sweep over the selected ids: the events in order and the final table. */
  function DailyRun(users: map<int, UserRow>, ids: seq<int>, now: Instant, gateway: ChargeRequest -> Charge)
    : (r: (seq<TrialEvent>, map<int, UserRow>))
    ensures |r.0| <= |ids|
  {
    if ids == [] then ([], users)
    else
      var before := DailyRun(users, ids[..|ids| - 1], now, gateway);
      var step := Settle(before.1, ids[|ids| - 1], now, gateway);
      (before.0 + step.0, step.1)
  }

  /** daily_trial_check: select the trial accounts, then settle each one,
      turning an exception into a critical_error event and going on. `raised`
      when the connection or the SELECT fails. */
  method DailyTrialCheck(db: Db, rowOrder: seq<int>, now: Instant, gateway: ChargeRequest -> Charge)
    returns (raised: bool, events: seq<TrialEvent>)
    requires ListsEachOnce(rowOrder, db.users)
    modifies db
    ensures db.reachable == old(db.reachable) && db.chatHistory == old(db.chatHistory)
    ensures db.assistantRows == old(db.assistantRows)
    ensures raised <==> !old(db.reachable)
    ensures raised ==> events == [] && db.users == old(db.users)
    ensures !raised ==> (events, db.users) == DailyRun(old(db.users), TrialIds(rowOrder, old(db.users)), now, gateway)
    ensures !raised ==> forall k :: 0 <= k < |events| ==>
      events[k].userId in old(db.users) && old(db.users)[events[k].userId].subscriptionPlan == TrialPlan
    ensures forall k, k' :: 0 <= k < k' < |events| ==> events[k].userId != events[k'].userId
  {
    if !db.reachable {
      return true, [];
    }
    raised := false;
    var users := TrialIds(rowOrder, db.users);
    ghost var start := db.users;
    events := [];
    var i := 0;
    while i < |users|
      invariant 0 <= i <= |users|
      invariant db.reachable && db.chatHistory == old(db.chatHistory) && db.assistantRows == old(db.assistantRows)
      invariant (events, db.users) == DailyRun(start, users[..i], now, gateway)
    {
      var userId := users[i];
      assert users[..i + 1][..i] == users[..i];
      ghost var before := (events, db.users);
      var result := ProcessTrialExpiration(db, userId, now, gateway);
      assert (result, db.users) == TrialExpiration(true, before.1, userId, now, gateway);
      match result {
        case NoEvent =>
        case Event(e) =>
          events := events + [e];
        case TrialRaised =>
          events := events + [CriticalError(userId)];
      }
      assert events == before.0 + EventsOf(result, userId);
      i := i + 1;
    }
    assert users[..i] == users;
    DailySweepEvents(start, rowOrder, now, gateway);
  }

  /** Over a row order without repeats, the sweep's events name trial
      accounts only, each at most once. */
  lemma DailySweepEvents(users: map<int, UserRow>, rowOrder: seq<int>, now: Instant, gateway: ChargeRequest -> Charge)
    requires forall i, j :: 0 <= i < j < |rowOrder| ==> rowOrder[i] != rowOrder[j]
    ensures var events := DailyRun(users, TrialIds(rowOrder, users), now, gateway).0;
      (forall k :: 0 <= k < |events| ==>
         events[k].userId in users && users[events[k].userId].subscriptionPlan == TrialPlan)
      && forall k, k' :: 0 <= k < k' < |events| ==> events[k].userId != events[k'].userId
  {
    var ids := TrialIds(rowOrder, users);
    TrialIdsOnce(rowOrder, users);
    DailyRunOnePerAccount(users, ids, now, gateway);
    DailyEventsAreAboutSelected(users, ids, now, gateway);
  }

  /** Every event of a sweep is about one of the selected accounts. */
  lemma {:induction false} DailyEventsAreAboutSelected(users: map<int, UserRow>, ids: seq<int>, now: Instant,
                                                       gateway: ChargeRequest -> Charge)
    ensures forall k :: 0 <= k < |DailyRun(users, ids, now, gateway).0| ==> DailyRun(users, ids, now, gateway).0[k].userId in ids
  {
    if ids != [] {
      var init := ids[..|ids| - 1];
      DailyEventsAreAboutSelected(users, init, now, gateway);
      var before := DailyRun(users, init, now, gateway);
      var id := ids[|ids| - 1];
      var step := Settle(before.1, id, now, gateway);
      var events := DailyRun(users, ids, now, gateway).0;
      forall k | 0 <= k < |events|
        ensures events[k].userId in ids
      {
        if k < |before.0| {
          assert events[k] == before.0[k];
          assert before.0[k].userId in init;
          assert init[..] == ids[..|ids| - 1];
        } else {
          assert events[k] == step.0[k - |before.0|];
        }
      }
    }
  }

  lemma ConcatAssociative<T>(x: seq<T>, y: seq<T>, z: seq<T>)
    ensures x + y + z == x + (y + z)
  {
  }

  /** One more id settles that account on the table the sweep so far left. */
  lemma DailyRunSnoc(users: map<int, UserRow>, ids: seq<int>, id: int, now: Instant,
                     gateway: ChargeRequest -> Charge)
    ensures var before := DailyRun(users, ids, now, gateway);
      var step := Settle(before.1, id, now, gateway);
      DailyRun(users, ids + [id], now, gateway) == (before.0 + step.0, step.1)
  {
    assert (ids + [id])[..|ids|] == ids;
  }

  /** A sweep over one stretch of ids and then another is the sweep of the
      first followed by the sweep of the second on the table it left. */
  lemma {:induction false} DailyRunConcat(users: map<int, UserRow>, a: seq<int>, b: seq<int>, now: Instant,
                                          gateway: ChargeRequest -> Charge)
    ensures var first := DailyRun(users, a, now, gateway);
      var second := DailyRun(first.1, b, now, gateway);
      DailyRun(users, a + b, now, gateway) == (first.0 + second.0, second.1)
    decreases |b|
  {
    var first := DailyRun(users, a, now, gateway);
    if b == [] {
      assert a + b == a && first.0 + [] == first.0;
      assert DailyRun(first.1, b, now, gateway) == ([], first.1);
    } else {
      var init := b[..|b| - 1];
      var id := b[|b| - 1];
      assert a + b == (a + init) + [id] && b == init + [id];
      var mid := DailyRun(first.1, init, now, gateway);
      var step := Settle(mid.1, id, now, gateway);
      calc {
        DailyRun(users, a + b, now, gateway);
        { DailyRunSnoc(users, a + init, id, now, gateway);
          DailyRunConcat(users, a, init, now, gateway); }
        (first.0 + mid.0 + step.0, step.1);
        { ConcatAssociative(first.0, mid.0, step.0); }
        (first.0 + (mid.0 + step.0), step.1);
        { DailyRunSnoc(first.1, init, id, now, gateway); }
        (first.0 + DailyRun(first.1, b, now, gateway).0, DailyRun(first.1, b, now, gateway).1);
      }
    }
  }

  /** An account whose settlement raises adds a critical_error for its id, and
      the sweep goes on with the rest of the ids from the same table. */
  lemma DailyRunRaisedIsCritical(users: map<int, UserRow>, a: seq<int>, id: int, b: seq<int>, now: Instant,
                                 gateway: ChargeRequest -> Charge)
    requires TrialExpiration(true, DailyRun(users, a, now, gateway).1, id, now, gateway).0 == TrialRaised
    ensures var mid := DailyRun(users, a, now, gateway);
      var rest := DailyRun(mid.1, b, now, gateway);
      DailyRun(users, a + [id] + b, now, gateway) == (mid.0 + [CriticalError(id)] + rest.0, rest.1)
  {
    var mid := DailyRun(users, a, now, gateway);
    DailyRunConcat(users, a + [id], b, now, gateway);
    assert (a + [id])[..|a + [id]| - 1] == a;
  }

  /** Over distinct ids, no account has two events in a sweep. */
  lemma {:induction false} DailyRunOnePerAccount(users: map<int, UserRow>, ids: seq<int>, now: Instant,
                                                 gateway: ChargeRequest -> Charge)
    requires forall i, j :: 0 <= i < j < |ids| ==> ids[i] != ids[j]
    ensures forall k, k' :: 0 <= k < k' < |DailyRun(users, ids, now, gateway).0| ==>
      DailyRun(users, ids, now, gateway).0[k].userId != DailyRun(users, ids, now, gateway).0[k'].userId
  {
    if ids != [] {
      var init := ids[..|ids| - 1];
      var id := ids[|ids| - 1];
      DailyRunOnePerAccount(users, init, now, gateway);
      DailyEventsAreAboutSelected(users, init, now, gateway);
      var before := DailyRun(users, init, now, gateway);
      var step := Settle(before.1, id, now, gateway);
      var events := DailyRun(users, ids, now, gateway).0;
      assert events == before.0 + step.0;
      forall k, k' | 0 <= k < k' < |events|
        ensures events[k].userId != events[k'].userId
      {
        assert events[k] == before.0[k];
        if k' >= |before.0| {
          assert events[k'].userId == id;
          var m :| 0 <= m < |init| && init[m] == before.0[k].userId;
          assert ids[m] == init[m];
        } else {
          assert events[k'] == before.0[k'];
        }
      }
    }
  }

  /** A sweep never resets trial_used and never removes an account. */
  lemma {:induction false} DailyKeepsTrialUsed(users: map<int, UserRow>, ids: seq<int>, now: Instant,
                                               gateway: ChargeRequest -> Charge, id: int)
    requires id in users && users[id].trialUsed == Some(true)
    ensures var after := DailyRun(users, ids, now, gateway).1;
      id in after && after[id].trialUsed == Some(true)
  {
    if ids != [] {
      var init := ids[..|ids| - 1];
      DailyKeepsTrialUsed(users, init, now, gateway, id);
      var before := DailyRun(users, init, now, gateway);
      TrialUsedNeverReset(true, before.1, ids[|ids| - 1], now, gateway, id);
    }
  }

  // ---------------------------------------------------------------------------
  // set_user_subscription

  /** The row with `plan` for `days` days from today's midnight. */
  function Subscribed(row: UserRow, plan: string, days: int, now: Instant): (r: UserRow)
    ensures r.subscriptionPlan == plan && r.trialUsed == row.trialUsed && SameExceptSubscription(row, r)
    ensures r.subscriptionStartDate == Some(StartOfDay(DayOf(now)))
    ensures r.subscriptionEndDate.Some? && r.subscriptionEndDate.value - r.subscriptionStartDate.value == days * SecondsPerDay
  {
    var start := StartOfDay(DayOf(now));
    row.(subscriptionPlan := plan, subscriptionStartDate := Some(start),
         subscriptionEndDate := Some(start + days * SecondsPerDay))
  }

  /** set_user_subscription: stores the plan and its dates for an existing
      account (an UPDATE matches no row otherwise); `raised` without a
      connection. */
  method SetUserSubscription(db: Db, userId: int, plan: string, days: int, now: Instant) returns (raised: bool)
    modifies db
    ensures db.reachable == old(db.reachable) && db.chatHistory == old(db.chatHistory)
    ensures db.assistantRows == old(db.assistantRows)
    ensures raised <==> !old(db.reachable)
    ensures db.users == if !raised && userId in old(db.users)
                        then old(db.users)[userId := Subscribed(old(db.users)[userId], plan, days, now)]
                        else old(db.users)
  {
    if !db.reachable {
      return true;
    }
    var start := StartOfDay(DayOf(now));
    var end := start + days * SecondsPerDay;
    if userId in db.users {
      db.users := db.users[userId := db.users[userId].(subscriptionPlan := plan, subscriptionStartDate := Some(start),
                                                      subscriptionEndDate := Some(end))];
    }
    raised := false;
  }
}
