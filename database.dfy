/**
 * The rows of the `transactions` and `profiles` tables that the payment pipeline
 * reads and writes, the log of premium e-mails requested from the
 * `send-premium-email` function, and the entitlement predicate over a profile.
 */
module Database {
  import opened Wrappers
  import opened CivilDate

  /** `profiles.role`: 'biasa' (ordinary), 'premium' or 'admin'. */
  datatype Role = Biasa | Premium | Admin

  /** A `profiles` row; `premiumUntil` is `premium_until` (NULL when absent). */
  datatype Profile = Profile(id: string, nama: string, role: Role, premiumUntil: Option<Date>)

  /** `transactions.status`: 'pending', 'paid' or 'failed'. */
  datatype TxStatus = Pending | Paid | Failed

  /** A `transactions` row, keyed by `midtrans_order_id`. */
  datatype Transaction = Transaction(
    userId: string,
    paket: string,
    amount: int,
    orderId: string,
    status: TxStatus,
    gatewayTransactionId: Option<string>,
    paymentType: Option<string>)

  /** The body passed to `send-premium-email`. */
  datatype EmailRequest = EmailRequest(userId: string, paket: string, amount: int)

  /** The tables as one value: transactions by order id, profiles by user id, e-mails sent. */
  datatype State = State(
    transactions: map<string, Transaction>,
    profiles: map<string, Profile>,
    emailsSent: seq<EmailRequest>)

  /** Every row is stored under its own key. */
  predicate WellKeyed(st: State) {
    && (forall k :: k in st.transactions ==> st.transactions[k].orderId == k)
    && (forall k :: k in st.profiles ==> st.profiles[k].id == k)
  }

  /** `!premium_until || new Date(premium_until) > now`. */
  predicate Unexpired(p: Profile, now: Date) {
    p.premiumUntil.None? || Before(now, p.premiumUntil.value)
  }

  /** The entitlement: role premium and not expired at `now`. */
  predicate HasActivePremium(p: Profile, now: Date) {
    p.role == Premium && Unexpired(p, now)
  }

  /** An active entitlement stays active at every earlier moment. */
  lemma ActivePremiumEarlier(p: Profile, earlier: Date, now: Date)
    requires HasActivePremium(p, now)
    requires Before(earlier, now)
    ensures HasActivePremium(p, earlier)
  {
    if p.premiumUntil.Some? {
      BeforeTransitive(earlier, now, p.premiumUntil.value);
    }
  }

  /** The database the edge functions and the admin screen write to. */
  class Store {
    var transactions: map<string, Transaction>
    var profiles: map<string, Profile>
    var emailsSent: seq<EmailRequest>

    function Snapshot(): State
      reads this
    {
      State(transactions, profiles, emailsSent)
    }

    ghost predicate Valid()
      reads this
    {
      WellKeyed(Snapshot())
    }

    constructor (st: State)
      requires WellKeyed(st)
      ensures Valid() && Snapshot() == st
    {
      transactions := st.transactions;
      profiles := st.profiles;
      emailsSent := st.emailsSent;
    }
  }
}
