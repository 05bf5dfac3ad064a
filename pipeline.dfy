/**
 * The payment pipeline end to end: a payment created by `create-payment`, then the
 * gateway's notification for that order processed by `midtrans-webhook`, then the
 * education pages reading the profile.
 */
module Pipeline {
  import opened Wrappers
  import opened CivilDate
  import opened Database
  import opened MidtransWebhook
  import opened CreatePayment
  import opened Edukasi

  /** The settlement notification for an order. */
  function Settlement(orderId: string): Payload {
    Payload(Some(orderId), Some("settlement"), None, None, None)
  }

  /**
   * A created payment whose settlement is then processed: the row is paid, the payer
   * (when they have a profile) is premium until one month or one year after the
   * notification, may open every premium item at that moment, and one welcome
   * e-mail for the package's price is requested.
   */
  lemma SettledPaymentUnlocksPremium(st: State, req: Request, env: Env, now: Date, e: Education)
    requires Create(st, req, env).outcome.Created?
    requires Valid(now)
    requires env.sessions[BearerToken(req.authorization.value)].id in st.profiles
    ensures var user := env.sessions[BearerToken(req.authorization.value)];
            var paket := req.paket.value;
            var created := Create(st, req, env);
            var orderId := created.outcome.orderId;
            var r := Handle(created.state, Settlement(orderId), now, AllOk);
            && IsPaket(paket)
            && r.code == 200
            && r.state.transactions[orderId].status == Paid
            && r.state.profiles[user.id].premiumUntil == Some(Expiry(now, paket))
            && HasActivePremium(r.state.profiles[user.id], now)
            && CanView(e, Some(r.state.profiles[user.id]), now)
            && r.state.emailsSent == st.emailsSent + [EmailRequest(user.id, paket, AmountFor(paket))]
  {
    CreatedRecordsPendingRow(st, req, env);
  }

  /**
   * A created payment that the gateway then cancels is marked failed and leaves every
   * profile and the e-mail log as they were.
   */
  lemma CancelledPaymentChangesNoProfile(st: State, req: Request, env: Env, now: Date)
    requires Create(st, req, env).outcome.Created?
    requires Valid(now)
    ensures var created := Create(st, req, env);
            var orderId := created.outcome.orderId;
            var r := Handle(created.state, Payload(Some(orderId), Some("cancel"), None, None, None), now, AllOk);
            && r.code == 200
            && r.state.transactions[orderId].status == Failed
            && r.state.profiles == st.profiles
            && r.state.emailsSent == st.emailsSent
  {
    CreatedRecordsPendingRow(st, req, env);
  }
}
