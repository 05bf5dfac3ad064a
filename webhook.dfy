/**
 * The `midtrans-webhook` edge function: it receives a payment notification,
 * overwrites the matching `transactions` row with the status the notification
 * implies and, on a successful payment, makes the owner premium until one month
 * or one year after the moment of processing and asks for a welcome e-mail.
 *
 * The handler reads no stored status before writing, so it is not idempotent: a
 * stale or replayed notification rewrites the row, and every successful one
 * upgrades again from its own `now`. The lemmas at the end state these
 * consequences for single deliveries and for sequences of deliveries.
 */
module MidtransWebhook {
  import opened Wrappers
  import opened CivilDate
  import opened Database
  import Seqs

  /** The fields read from the notification body; `None` is a field the body lacks. */
  datatype Payload = Payload(
    orderId: Option<string>,
    transactionStatus: Option<string>,
    transactionId: Option<string>,
    paymentType: Option<string>,
    fraudStatus: Option<string>)

  /** Which of the handler's calls fail: the row lookup, the row update, the profile update, the e-mail. */
  datatype Io = Io(fetchFails: bool, updateFails: bool, profileUpdateFails: bool, emailFails: bool)

  /** All four calls succeed. */
  const AllOk := Io(false, false, false, false)

  /** A JavaScript truthy string: present and not empty. */
  predicate Truthy(v: Option<string>) {
    v.Some? && v.value != ""
  }

  /** The ledger status the notification implies, and whether the owner is upgraded. */
  datatype Decision = Decision(status: TxStatus, upgrade: bool)

  /**
   * The status mapping: a settlement, or a capture the fraud check accepted, is a
   * payment (and the only case that upgrades); deny, expire and cancel fail; a
   * capture under any other fraud status, 'pending', and every other status value
   * leave the transaction pending.
   */
  function Decide(transactionStatus: string, fraudStatus: Option<string>): (d: Decision)
    ensures d.upgrade <==> d.status == Paid
    ensures d.status == Paid <==>
              transactionStatus == "settlement" || (transactionStatus == "capture" && fraudStatus == Some("accept"))
    ensures d.status == Failed <==> transactionStatus in {"deny", "expire", "cancel"}
  {
    if transactionStatus == "capture" then
      if fraudStatus == Some("accept") then Decision(Paid, true) else Decision(Pending, false)
    else if transactionStatus == "settlement" then Decision(Paid, true)
    else if transactionStatus == "pending" then Decision(Pending, false)
    else if transactionStatus in ["deny", "expire", "cancel"] then Decision(Failed, false)
    else Decision(Pending, false)
  }

  /**
   * `premium_until` for a payment processed at `now`: one calendar month later for
   * 'monthly', one year later for 'yearly', and `now` itself for any other package.
   */
  function Expiry(now: Date, paket: string): (r: Date)
    requires Valid(now)
    ensures Valid(r)
    ensures paket == "monthly" || paket == "yearly" ==> Before(now, r)
    ensures paket != "monthly" && paket != "yearly" ==> r == now
  {
    SetMonthNext(now);
    SetFullYearNext(now);
    if paket == "monthly" then SetMonth(now, GetMonth(now) + 1)
    else if paket == "yearly" then SetFullYear(now, now.year + 1)
    else now
  }

  /** A column set from a body field: an absent field is dropped from the update and the column keeps its value. */
  function Assign(column: Option<string>, field: Option<string>): Option<string> {
    if field.Some? then field else column
  }

  /** The new state of the tables and the HTTP status code. */
  datatype Reply = Reply(state: State, code: int)

  /** One delivery of a notification, processed at `now` with the call outcomes `io`. */
  function Handle(st: State, p: Payload, now: Date, io: Io): (r: Reply)
    requires Valid(now)
    ensures r.code == 200 || r.code == 500
    ensures r.state.transactions.Keys == st.transactions.Keys
    ensures r.state.profiles.Keys == st.profiles.Keys
    ensures WellKeyed(st) ==> WellKeyed(r.state)
    ensures forall k :: k in st.transactions && Some(k) != p.orderId ==>
              r.state.transactions[k] == st.transactions[k]
    ensures |st.emailsSent| <= |r.state.emailsSent| <= |st.emailsSent| + 1
    ensures r.state.emailsSent[..|st.emailsSent|] == st.emailsSent
  {
    if !Truthy(p.orderId) || !Truthy(p.transactionStatus) then Reply(st, 500)
    else
      var orderId := p.orderId.value;
      if io.fetchFails || orderId !in st.transactions then Reply(st, 500)
      else
        var tx := st.transactions[orderId];
        var d := Decide(p.transactionStatus.value, p.fraudStatus);
        if io.updateFails then Reply(st, 500)
        else
          var written := tx.(status := d.status,
                             gatewayTransactionId := Assign(tx.gatewayTransactionId, p.transactionId),
                             paymentType := Assign(tx.paymentType, p.paymentType));
          var transactions := st.transactions[orderId := written];
          if !d.upgrade then Reply(st.(transactions := transactions), 200)
          else UpgradeOwner(st.(transactions := transactions), tx, now, io)
  }

  /**
   * The upgrade after a successful payment of `tx`: the owner's profile becomes
   * premium until `Expiry(now, paket)` (no row changes when the owner has none), and
   * the welcome e-mail is requested; a failing profile update answers 500.
   */
  function UpgradeOwner(st: State, tx: Transaction, now: Date, io: Io): (r: Reply)
    requires Valid(now)
    ensures r.code == 200 || r.code == 500
    ensures r.state.transactions == st.transactions
    ensures r.state.profiles.Keys == st.profiles.Keys
    ensures WellKeyed(st) ==> WellKeyed(r.state)
    ensures forall u :: u in st.profiles && u != tx.userId ==> r.state.profiles[u] == st.profiles[u]
    ensures |st.emailsSent| <= |r.state.emailsSent| <= |st.emailsSent| + 1
    ensures r.state.emailsSent[..|st.emailsSent|] == st.emailsSent
  {
    if io.profileUpdateFails then Reply(st, 500)
    else
      var until := Expiry(now, tx.paket);
      var profiles :=
        if tx.userId in st.profiles
        then st.profiles[tx.userId := st.profiles[tx.userId].(role := Premium, premiumUntil := Some(until))]
        else st.profiles;
      var emails :=
        if io.emailFails then st.emailsSent
        else st.emailsSent + [EmailRequest(tx.userId, tx.paket, tx.amount)];
      Reply(State(st.transactions, profiles, emails), 200)
  }

  /** The request handler, step by step as the edge function runs it. */
  method ProcessWebhook(db: Store, p: Payload, now: Date, io: Io) returns (code: int)
    requires db.Valid() && Valid(now)
    modifies db
    ensures db.Valid()
    ensures Reply(db.Snapshot(), code) == Handle(old(db.Snapshot()), p, now, io)
  {
    if !Truthy(p.orderId) || !Truthy(p.transactionStatus) {
      return 500;
    }
    var orderId := p.orderId.value;
    if io.fetchFails || orderId !in db.transactions {
      return 500;
    }
    var transaction := db.transactions[orderId];
    var transactionStatus := p.transactionStatus.value;

    var status := Pending;
    var shouldUpgradeUser := false;
    if transactionStatus == "capture" {
      if p.fraudStatus == Some("accept") {
        status := Paid;
        shouldUpgradeUser := true;
      }
    } else if transactionStatus == "settlement" {
      status := Paid;
      shouldUpgradeUser := true;
    } else if transactionStatus == "pending" {
      status := Pending;
    } else if transactionStatus in ["deny", "expire", "cancel"] {
      status := Failed;
    }

    assert Decision(status, shouldUpgradeUser) == Decide(transactionStatus, p.fraudStatus);
    if io.updateFails {
      return 500;
    }
    db.transactions := db.transactions[orderId := transaction.(
      status := status,
      gatewayTransactionId := Assign(transaction.gatewayTransactionId, p.transactionId),
      paymentType := Assign(transaction.paymentType, p.paymentType))];

    if shouldUpgradeUser {
      code := UpgradeUser(db, transaction, now, io);
      return;
    }
    return 200;
  }

  /** The upgrade branch of the handler: compute the expiry, update the profile, request the e-mail. */
  method UpgradeUser(db: Store, transaction: Transaction, now: Date, io: Io) returns (code: int)
    requires db.Valid() && Valid(now)
    modifies db
    ensures db.Valid()
    ensures Reply(db.Snapshot(), code) == UpgradeOwner(old(db.Snapshot()), transaction, now, io)
  {
    var premiumUntil := now;
    if transaction.paket == "monthly" {
      premiumUntil := SetMonth(premiumUntil, GetMonth(premiumUntil) + 1);
    } else if transaction.paket == "yearly" {
      premiumUntil := SetFullYear(premiumUntil, premiumUntil.year + 1);
    }
    assert premiumUntil == Expiry(now, transaction.paket);
    if io.profileUpdateFails {
      return 500;
    }
    if transaction.userId in db.profiles {
      var owner := db.profiles[transaction.userId];
      db.profiles := db.profiles[transaction.userId := owner.(role := Premium, premiumUntil := Some(premiumUntil))];
    }
    if !io.emailFails {
      db.emailsSent := db.emailsSent + [EmailRequest(transaction.userId, transaction.paket, transaction.amount)];
    }
    return 200;
  }

  // ---------------------------------------------------------------- single deliveries

  /** A notification without `order_id` or `transaction_status` is answered 500 and changes nothing. */
  lemma IncompletePayloadRejected(st: State, p: Payload, now: Date, io: Io)
    requires Valid(now)
    requires !Truthy(p.orderId) || !Truthy(p.transactionStatus)
    ensures Handle(st, p, now, io) == Reply(st, 500)
  {
  }

  /** A notification for an order id with no transaction row is answered 500 and changes nothing. */
  lemma UnknownOrderRejected(st: State, p: Payload, now: Date, io: Io)
    requires Valid(now) && Truthy(p.transactionStatus)
    requires p.orderId.Some? && p.orderId.value !in st.transactions
    ensures Handle(st, p, now, io) == Reply(st, 500)
  {
  }

  /**
   * With the lookup and the update succeeding, the addressed row takes the status the
   * notification implies and the incoming transaction id and payment type, whatever
   * status it had before: a paid or failed row is rewritten like a pending one.
   */
  lemma RowOverwritten(st: State, p: Payload, now: Date, io: Io)
    requires Valid(now) && Truthy(p.orderId) && Truthy(p.transactionStatus)
    requires p.orderId.value in st.transactions && !io.fetchFails && !io.updateFails
    ensures var tx := st.transactions[p.orderId.value];
            var r := Handle(st, p, now, io).state.transactions[p.orderId.value];
            && r.status == Decide(p.transactionStatus.value, p.fraudStatus).status
            && r.gatewayTransactionId == (if p.transactionId.Some? then p.transactionId else tx.gatewayTransactionId)
            && r.paymentType == (if p.paymentType.Some? then p.paymentType else tx.paymentType)
            && r.userId == tx.userId && r.paket == tx.paket && r.amount == tx.amount
  {
  }

  /**
   * An upgrade changes only the owner's profile: role premium and an expiry computed
   * from `now` alone, so an earlier `premium_until` (even a later one) is discarded.
   */
  lemma UpgradeSetsOwnerOnly(st: State, p: Payload, now: Date, io: Io)
    requires Valid(now) && Truthy(p.orderId) && Truthy(p.transactionStatus)
    requires p.orderId.value in st.transactions && io == AllOk
    requires Decide(p.transactionStatus.value, p.fraudStatus).upgrade
    ensures var tx := st.transactions[p.orderId.value];
            var r := Handle(st, p, now, io);
            && r.code == 200
            && (forall u :: u in st.profiles && u != tx.userId ==> r.state.profiles[u] == st.profiles[u])
            && (tx.userId in st.profiles ==>
                  r.state.profiles[tx.userId] == st.profiles[tx.userId].(role := Premium, premiumUntil := Some(Expiry(now, tx.paket))))
            && r.state.emailsSent == st.emailsSent + [EmailRequest(tx.userId, tx.paket, tx.amount)]
  {
  }

  /** A notification that does not upgrade leaves profiles and e-mails alone and is answered 200. */
  lemma NoUpgradeKeepsProfiles(st: State, p: Payload, now: Date, io: Io)
    requires Valid(now) && Truthy(p.orderId) && Truthy(p.transactionStatus)
    requires p.orderId.value in st.transactions && !io.fetchFails && !io.updateFails
    requires !Decide(p.transactionStatus.value, p.fraudStatus).upgrade
    ensures var r := Handle(st, p, now, io);
            r.code == 200 && r.state.profiles == st.profiles && r.state.emailsSent == st.emailsSent
  {
  }

  /** A failing e-mail call changes neither the answer nor the tables, only the e-mail log. */
  lemma EmailFailureHarmless(st: State, p: Payload, now: Date, io: Io)
    requires Valid(now)
    ensures var sent := Handle(st, p, now, io.(emailFails := false));
            var lost := Handle(st, p, now, io.(emailFails := true));
            && sent.code == lost.code
            && sent.state.transactions == lost.state.transactions
            && sent.state.profiles == lost.state.profiles
  {
  }

  /**
   * A failing profile update is answered 500 although the transaction row has
   * already been rewritten as paid; profiles and e-mails are unchanged.
   */
  lemma ProfileFailureAfterRowWritten(st: State, p: Payload, now: Date)
    requires Valid(now) && Truthy(p.orderId) && Truthy(p.transactionStatus)
    requires p.orderId.value in st.transactions
    requires Decide(p.transactionStatus.value, p.fraudStatus).upgrade
    ensures var r := Handle(st, p, now, Io(false, false, true, false));
            && r.code == 500
            && r.state.transactions[p.orderId.value].status == Paid
            && r.state.profiles == st.profiles && r.state.emailsSent == st.emailsSent
  {
  }

  // ---------------------------------------------------------------- sequences of deliveries

  /** A notification as the gateway delivers it, with its processing time and call outcomes. */
  datatype Delivery = Delivery(payload: Payload, now: Date, io: Io)

  /** Deliveries processed one after another (the handler takes no lock, so this is one interleaving). */
  function Replay(st: State, ds: seq<Delivery>): State
    requires forall i :: 0 <= i < |ds| ==> Valid(ds[i].now)
    decreases |ds|
  {
    if ds == [] then st else Replay(Handle(st, ds[0].payload, ds[0].now, ds[0].io).state, ds[1..])
  }

  /** The delivery is for order `orderId` and every call it makes succeeds. */
  predicate CleanDeliveryFor(d: Delivery, orderId: string) {
    && d.payload.orderId == Some(orderId) && orderId != ""
    && Truthy(d.payload.transactionStatus)
    && d.io == AllOk
  }

  /** The decision a delivery's notification implies (a missing status reads as the empty string). */
  function Implied(d: Delivery): Decision {
    Decide(d.payload.transactionStatus.GetOr(""), d.payload.fraudStatus)
  }

  /** The delivery upgrades the owner. */
  predicate Upgrades(d: Delivery) {
    Implied(d).upgrade
  }

  /**
   * Last delivery wins: after clean deliveries for an existing order, the row's status
   * is the one the LAST notification implies, whatever came before it.
   */
  lemma {:induction false} ReplayLastWins(st: State, orderId: string, ds: seq<Delivery>)
    requires |ds| > 0 && orderId in st.transactions
    requires forall i :: 0 <= i < |ds| ==> Valid(ds[i].now) && CleanDeliveryFor(ds[i], orderId)
    ensures orderId in Replay(st, ds).transactions
    ensures Replay(st, ds).transactions[orderId].status
            == Implied(ds[|ds| - 1]).status
    decreases |ds|
  {
    var next := Handle(st, ds[0].payload, ds[0].now, ds[0].io).state;
    if |ds| > 1 {
      ReplayLastWins(next, orderId, ds[1..]);
    }
  }

  /**
   * Exactly one welcome e-mail per successful notification: clean deliveries for an
   * existing order send as many e-mails as there are settlements and accepted
   * captures among them, not at most one.
   */
  lemma {:induction false} ReplayEmailsPerUpgrade(st: State, orderId: string, ds: seq<Delivery>)
    requires orderId in st.transactions
    requires forall i :: 0 <= i < |ds| ==> Valid(ds[i].now) && CleanDeliveryFor(ds[i], orderId)
    ensures |Replay(st, ds).emailsSent| == |st.emailsSent| + |Seqs.Filter(ds, Upgrades)|
    decreases |ds|
  {
    if ds != [] {
      var next := Handle(st, ds[0].payload, ds[0].now, ds[0].io).state;
      ReplayEmailsPerUpgrade(next, orderId, ds[1..]);
    }
  }

  /** Clean deliveries never add or remove rows. */
  lemma {:induction false} ReplayKeepsKeys(st: State, ds: seq<Delivery>)
    requires forall i :: 0 <= i < |ds| ==> Valid(ds[i].now)
    ensures Replay(st, ds).transactions.Keys == st.transactions.Keys
    ensures Replay(st, ds).profiles.Keys == st.profiles.Keys
    ensures WellKeyed(st) ==> WellKeyed(Replay(st, ds))
    decreases |ds|
  {
    if ds != [] {
      ReplayKeepsKeys(Handle(st, ds[0].payload, ds[0].now, ds[0].io).state, ds[1..]);
    }
  }

  /**
   * A 'pending' notification delivered after the settlement resets the paid row to
   * pending, while the owner stays premium and the e-mail has gone out.
   */
  lemma StalePendingResetsPaidRow(st: State, orderId: string, now1: Date, now2: Date)
    requires Valid(now1) && Valid(now2) && orderId != "" && orderId in st.transactions
    ensures var tx := st.transactions[orderId];
            var settled := Handle(st, Payload(Some(orderId), Some("settlement"), None, None, None), now1, AllOk);
            var stale := Handle(settled.state, Payload(Some(orderId), Some("pending"), None, None, None), now2, AllOk);
            && settled.state.transactions[orderId].status == Paid
            && stale.code == 200
            && stale.state.transactions[orderId].status == Pending
            && (tx.userId in st.profiles ==>
                  stale.state.profiles[tx.userId].role == Premium
                  && stale.state.profiles[tx.userId].premiumUntil == Some(Expiry(now1, tx.paket)))
            && stale.state.emailsSent == st.emailsSent + [EmailRequest(tx.userId, tx.paket, tx.amount)]
  {
  }

  /**
   * A settlement delivered twice upgrades twice: the expiry is recomputed from the
   * second delivery's time and a second e-mail goes out.
   */
  lemma DuplicateSettlementReextends(st: State, orderId: string, now1: Date, now2: Date)
    requires Valid(now1) && Valid(now2) && orderId != "" && orderId in st.transactions
    ensures var tx := st.transactions[orderId];
            var p := Payload(Some(orderId), Some("settlement"), None, None, None);
            var once := Handle(st, p, now1, AllOk).state;
            var twice := Handle(once, p, now2, AllOk).state;
            && twice.transactions[orderId].status == Paid
            && (tx.userId in st.profiles ==> twice.profiles[tx.userId].premiumUntil == Some(Expiry(now2, tx.paket)))
            && twice.emailsSent == st.emailsSent + [EmailRequest(tx.userId, tx.paket, tx.amount)]
                                                 + [EmailRequest(tx.userId, tx.paket, tx.amount)]
  {
  }

  /**
   * Renewing early discards the remaining time: a monthly settlement processed on
   * 1 March 2024 for a user premium until 10 March 2024 sets the expiry to 1 April
   * 2024, not 10 April.
   */
  lemma EarlyRenewalRestartsFromNow(st: State, orderId: string)
    requires orderId != "" && orderId in st.transactions
    requires st.transactions[orderId].paket == "monthly"
    requires st.transactions[orderId].userId in st.profiles
    requires st.profiles[st.transactions[orderId].userId].premiumUntil == Some(Date(2024, 3, 10))
    ensures var owner := st.transactions[orderId].userId;
            var r := Handle(st, Payload(Some(orderId), Some("settlement"), None, None, None), Date(2024, 3, 1), AllOk);
            r.state.profiles[owner].premiumUntil == Some(Date(2024, 4, 1))
  {
  }

  /** A monthly settlement processed on 31 January 2024 runs until 2 March 2024, past the end of February. */
  lemma MonthEndSettlementSpills(st: State, orderId: string)
    requires orderId != "" && orderId in st.transactions
    requires st.transactions[orderId].paket == "monthly"
    requires st.transactions[orderId].userId in st.profiles
    ensures var owner := st.transactions[orderId].userId;
            var r := Handle(st, Payload(Some(orderId), Some("settlement"), None, None, None), Date(2024, 1, 31), AllOk);
            r.state.profiles[owner].premiumUntil == Some(Date(2024, 3, 2))
  {
    JanuaryEndPlusMonthLeap();
  }
}
