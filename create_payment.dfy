/**
 * The `create-payment` edge function: it authenticates the caller from the bearer
 * token, checks the package, records a pending transaction under a fresh order id,
 * builds the Snap request for the payment gateway and returns the session the
 * gateway opened. The clock (`Date.now()`), the session store behind
 * `auth.getUser`, the outcome of the insert and the gateway's answer are inputs.
 */
module CreatePayment {
  import opened Wrappers
  import opened Text
  import opened Database

  /** What the handler reads from the request; `None` is an absent header or body field. */
  datatype Request = Request(authorization: Option<string>, paket: Option<string>, origin: Option<string>)

  /** The user `auth.getUser(token)` returns. */
  datatype AuthUser = AuthUser(id: string, email: string)

  /** The session the gateway opened. */
  datatype SnapSession = SnapSession(token: string, redirectUrl: string)

  /**
   * The world outside the handler: the users each access token belongs to, the
   * clock in milliseconds, whether the insert fails, and the gateway's answer
   * (`None` for a response that is not ok).
   */
  datatype Env = Env(sessions: map<string, AuthUser>, nowMillis: nat, insertFails: bool, gateway: Option<SnapSession>)

  /** The error messages the handler throws, each answered with status 500. */
  datatype Failure = MissingAuthorization | NotAuthenticated | InvalidPaket | TransactionInsertFailed | GatewayFailed

  datatype Outcome = Created(token: string, redirectUrl: string, orderId: string) | Error(reason: Failure)

  /** The HTTP status code of an outcome. */
  function Code(o: Outcome): int {
    if o.Created? then 200 else 500
  }

  // ---------------------------------------------------------------- request parts

  /** `authHeader.replace("Bearer ", "")`: the first occurrence of "Bearer " is removed. */
  function BearerToken(header: string): string {
    ReplaceFirst(header, "Bearer ", "")
  }

  /** A header of the form "Bearer <t>" yields `t`. */
  lemma BearerTokenOfBearer(t: string)
    ensures BearerToken("Bearer " + t) == t
  {
    ReplaceFirstAtFront("Bearer ", t);
  }

  /** A header without "Bearer " in it is taken as the token itself. */
  lemma BearerTokenWithoutScheme(header: string)
    requires !Contains(header, "Bearer ")
    ensures BearerToken(header) == header
  {
    ContainsIff(header, "Bearer ");
    ReplaceFirstAbsent(header, "Bearer ", "");
  }

  /** The packages the handler accepts. */
  predicate IsPaket(paket: string) {
    paket == "monthly" || paket == "yearly"
  }

  /** The price in rupiah: 40 000 for a month, 400 000 for a year. */
  function AmountFor(paket: string): (amount: int)
    requires IsPaket(paket)
    ensures amount > 0
  {
    if paket == "monthly" then 40000 else 400000
  }

  /** A year costs as much as ten months. */
  lemma YearlyCostsTenMonths()
    ensures AmountFor("yearly") == 10 * AmountFor("monthly")
  {
  }

  /** `premium-${user.id}-${Date.now()}`. */
  function OrderId(userId: string, nowMillis: nat): (r: string)
    ensures |r| > |userId| + 9
    ensures r[..|userId| + 9] == "premium-" + userId + "-"
    ensures AllDigits(r[|userId| + 9..])
  {
    var prefix := "premium-" + userId + "-";
    assert (prefix + NatToString(nowMillis))[|userId| + 9..] == NatToString(nowMillis);
    prefix + NatToString(nowMillis)
  }

  /**
   * Order ids are unique per user and millisecond: two order ids built from user ids
   * of the same length (user ids are fixed-length UUIDs) are equal only when both the
   * user and the millisecond are.
   */
  lemma OrderIdInjective(u1: string, m1: nat, u2: string, m2: nat)
    requires |u1| == |u2| && OrderId(u1, m1) == OrderId(u2, m2)
    ensures u1 == u2 && m1 == m2
  {
    var s := OrderId(u1, m1);
    assert s[..|u1| + 9] == "premium-" + u1 + "-" == "premium-" + u2 + "-";
    assert u1 == ("premium-" + u1 + "-")[8..8 + |u1|];
    assert u2 == ("premium-" + u2 + "-")[8..8 + |u2|];
    assert ("premium-" + u1 + "-" + NatToString(m1))[|u1| + 9..] == NatToString(m1);
    assert ("premium-" + u2 + "-" + NatToString(m2))[|u2| + 9..] == NatToString(m2);
    NatToStringInjective(m1, m2);
  }

  // ---------------------------------------------------------------- the Snap request

  datatype ItemDetail = ItemDetail(id: string, price: int, quantity: int, name: string)

  datatype Callbacks = Callbacks(finish: string, error: string, pending: string)

  /** The body posted to the Snap API. */
  datatype SnapRequest = SnapRequest(
    orderId: string,
    grossAmount: int,
    secureCard: bool,
    firstName: string,
    email: string,
    items: seq<ItemDetail>,
    callbacks: Callbacks)

  /** The sum of price times quantity over the items. */
  function ItemsTotal(items: seq<ItemDetail>): int {
    if items == [] then 0 else items[0].price * items[0].quantity + ItemsTotal(items[1..])
  }

  /** `${req.headers.get("origin")}`: an absent header is interpolated as "null". */
  function OriginText(origin: Option<string>): string {
    origin.GetOr("null")
  }

  /** `${origin}/<page>?order_id=${orderId}`. */
  function CallbackUrl(origin: Option<string>, page: string, orderId: string): (url: string)
    ensures |url| >= |"?order_id=" + orderId|
    ensures url[|url| - |"?order_id=" + orderId|..] == "?order_id=" + orderId
  {
    var url := OriginText(origin) + "/" + page + "?order_id=" + orderId;
    assert url == (OriginText(origin) + "/" + page) + ("?order_id=" + orderId);
    url
  }

  /** `profile?.nama || 'User'`. */
  function FirstName(profile: Option<Profile>): (name: string)
    ensures name != ""
    ensures profile.Some? && profile.value.nama != "" ==> name == profile.value.nama
  {
    if profile.Some? && profile.value.nama != "" then profile.value.nama else "User"
  }

  /** The display name of the single item. */
  function ItemName(paket: string): string {
    "Premium Membership " + (if paket == "monthly" then "1 Bulan" else "1 Tahun")
  }

  /** The Snap request for order `orderId` of `paket` at price `amount`. */
  function SnapPayload(orderId: string, paket: string, amount: int, profile: Option<Profile>,
                       email: string, origin: Option<string>): (r: SnapRequest)
    ensures r.orderId == orderId
    ensures r.grossAmount == ItemsTotal(r.items) == amount
    ensures r.firstName != ""
  {
    SnapRequest(
      orderId, amount, true, FirstName(profile), email,
      [ItemDetail("premium-" + paket, amount, 1, ItemName(paket))],
      Callbacks(CallbackUrl(origin, "payment-success", orderId),
                CallbackUrl(origin, "payment-failed", orderId),
                CallbackUrl(origin, "payment-pending", orderId)))
  }

  /** Every callback URL carries the order id as its `order_id` query parameter, at the end. */
  lemma CallbacksCarryOrderId(orderId: string, paket: string, amount: int, profile: Option<Profile>,
                              email: string, origin: Option<string>)
    ensures var c := SnapPayload(orderId, paket, amount, profile, email, origin).callbacks;
            var q := "?order_id=" + orderId;
            forall url :: url in [c.finish, c.error, c.pending] ==> |url| >= |q| && url[|url| - |q|..] == q
  {
  }

  // ---------------------------------------------------------------- the handler

  /** The new tables, the outcome, and the Snap request posted to the gateway (when it was reached). */
  datatype Response = Response(state: State, outcome: Outcome, posted: Option<SnapRequest>)

  /** The pending row the handler inserts. */
  function PendingRow(userId: string, paket: string, orderId: string): (t: Transaction)
    requires IsPaket(paket)
    ensures t.status == Pending && t.orderId == orderId && t.amount == AmountFor(paket)
  {
    Transaction(userId, paket, AmountFor(paket), orderId, Pending, None, None)
  }

  function Create(st: State, req: Request, env: Env): (r: Response)
    ensures r.state.profiles == st.profiles && r.state.emailsSent == st.emailsSent
    ensures forall k :: k in st.transactions ==> k in r.state.transactions && r.state.transactions[k] == st.transactions[k]
    ensures forall k :: k in r.state.transactions && k !in st.transactions ==>
              r.outcome.Created? || r.outcome == Error(GatewayFailed)
    ensures WellKeyed(st) ==> WellKeyed(r.state)
    ensures r.outcome.Created? ==>
              && r.posted.Some?
              && r.outcome.orderId in r.state.transactions
              && r.outcome.orderId !in st.transactions
              && r.posted.value.orderId == r.outcome.orderId
              && r.posted.value.grossAmount == r.state.transactions[r.outcome.orderId].amount
  {
    if req.authorization.None? || req.authorization.value == "" then Response(st, Error(MissingAuthorization), None)
    else
      var token := BearerToken(req.authorization.value);
      if token !in env.sessions then Response(st, Error(NotAuthenticated), None)
      else
        var user := env.sessions[token];
        if req.paket.None? || !IsPaket(req.paket.value) then Response(st, Error(InvalidPaket), None)
        else
          var paket := req.paket.value;
          var orderId := OrderId(user.id, env.nowMillis);
          var profile := if user.id in st.profiles then Some(st.profiles[user.id]) else None;
          if env.insertFails || orderId in st.transactions then Response(st, Error(TransactionInsertFailed), None)
          else
            var inserted := st.(transactions := st.transactions[orderId := PendingRow(user.id, paket, orderId)]);
            var snap := SnapPayload(orderId, paket, AmountFor(paket), profile, user.email, req.origin);
            if env.gateway.None? then Response(inserted, Error(GatewayFailed), Some(snap))
            else Response(inserted, Created(env.gateway.value.token, env.gateway.value.redirectUrl, orderId), Some(snap))
  }

  /** The request handler, step by step as the edge function runs it. */
  method CreatePaymentHandler(db: Store, req: Request, env: Env) returns (outcome: Outcome, posted: Option<SnapRequest>)
    requires db.Valid()
    modifies db
    ensures db.Valid()
    ensures Response(db.Snapshot(), outcome, posted) == Create(old(db.Snapshot()), req, env)
  {
    posted := None;
    if req.authorization.None? || req.authorization.value == "" {
      return Error(MissingAuthorization), posted;
    }
    var token := BearerToken(req.authorization.value);
    if token !in env.sessions {
      return Error(NotAuthenticated), posted;
    }
    var user := env.sessions[token];
    if req.paket.None? || !(req.paket.value in ["monthly", "yearly"]) {
      return Error(InvalidPaket), posted;
    }
    var paket := req.paket.value;
    var amount := if paket == "monthly" then 40000 else 400000;
    var orderId := OrderId(user.id, env.nowMillis);
    var profile := None;
    if user.id in db.profiles {
      profile := Some(db.profiles[user.id]);
    }
    if env.insertFails || orderId in db.transactions {
      return Error(TransactionInsertFailed), posted;
    }
    db.transactions := db.transactions[orderId := Transaction(user.id, paket, amount, orderId, Pending, None, None)];
    var snapTransaction := SnapPayload(orderId, paket, amount, profile, user.email, req.origin);
    posted := Some(snapTransaction);
    if env.gateway.None? {
      return Error(GatewayFailed), posted;
    }
    return Created(env.gateway.value.token, env.gateway.value.redirectUrl, orderId), posted;
  }

  // ---------------------------------------------------------------- properties

  /** Every refusal before the insert leaves the tables as they were. */
  lemma EarlyFailuresChangeNothing(st: State, req: Request, env: Env)
    ensures var r := Create(st, req, env);
            r.outcome.Error? && r.outcome.reason != GatewayFailed ==> r.state == st && r.posted.None?
  {
  }

  /** A request without a usable bearer token, or with a token of no session, is refused. */
  lemma UnauthenticatedRefused(st: State, req: Request, env: Env)
    requires req.authorization.None? || req.authorization.value == ""
             || BearerToken(req.authorization.value) !in env.sessions
    ensures Create(st, req, env).outcome.Error?
    ensures Create(st, req, env).outcome.reason in {MissingAuthorization, NotAuthenticated}
  {
  }

  /** An authenticated request for a package other than 'monthly' or 'yearly' is refused as InvalidPaket. */
  lemma InvalidPaketRefused(st: State, req: Request, env: Env)
    requires req.authorization.Some? && req.authorization.value != ""
    requires BearerToken(req.authorization.value) in env.sessions
    requires req.paket.None? || !IsPaket(req.paket.value)
    ensures Create(st, req, env) == Response(st, Error(InvalidPaket), None)
  {
  }

  /**
   * A successful request records exactly one new pending row for the caller, priced
   * for the package, under the order id it returns; nothing else changes.
   */
  lemma CreatedRecordsPendingRow(st: State, req: Request, env: Env)
    requires Create(st, req, env).outcome.Created?
    ensures var r := Create(st, req, env);
            var user := env.sessions[BearerToken(req.authorization.value)];
            && req.paket.Some? && IsPaket(req.paket.value)
            && r.outcome.orderId == OrderId(user.id, env.nowMillis)
            && r.state.transactions == st.transactions[r.outcome.orderId := PendingRow(user.id, req.paket.value, r.outcome.orderId)]
  {
  }

  /**
   * When the gateway refuses, the pending row stays behind although the caller gets
   * an error: the ledger keeps a pending transaction no notification will ever settle.
   */
  lemma GatewayFailureLeavesPendingRow(st: State, req: Request, env: Env)
    requires Create(st, req, env).outcome == Error(GatewayFailed)
    ensures var r := Create(st, req, env);
            var orderId := r.posted.value.orderId;
            && orderId !in st.transactions
            && orderId in r.state.transactions
            && r.state.transactions[orderId].status == Pending
  {
  }

  /** A second request in the same millisecond by the same user cannot insert: the order id is taken. */
  lemma SameMillisecondCollides(st: State, req: Request, env: Env)
    requires Create(st, req, env).outcome.Created?
    ensures Create(Create(st, req, env).state, req, env.(gateway := Some(SnapSession("", "")))).outcome
            == Error(TransactionInsertFailed)
  {
  }
}
