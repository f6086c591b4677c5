/** How the billing webhook's writes bear on the change alerts: the alert
    gate reads the same `users` documents the webhook merges into. */
module BillingAlerts {
  import opened Values
  import ChangeDetection
  import StripeWebhook

  /** A canceled subscription leaves the user's alerts as they were: the
      cancellation writes only the status, and the alert gate reads the
      email and the plan. */
  lemma CancelKeepsAlerts(users: map<string, Doc>, e: StripeWebhook.Event, sendGridKey: Option<string>,
                          src: ChangeDetection.Source)
    requires e.eventType == StripeWebhook.SubscriptionDeleted
    requires StripeWebhook.Uid(e.data) != "" && StripeWebhook.Uid(e.data) in users
    ensures ChangeDetection.AlertFor(sendGridKey, StripeWebhook.Webhook(users, true, e, false).1, src)
         == ChangeDetection.AlertFor(sendGridKey, users, src)
  {
    var uid := StripeWebhook.Uid(e.data);
    var users' := StripeWebhook.Webhook(users, true, e, false).1;
    StripeWebhook.CancelKeepsPlan(users, e);
    if src.userId == uid {
      assert ChangeDetection.IsStarter(users'[uid]) == ChangeDetection.IsStarter(users[uid]);
      assert TruthyField(users'[uid], "email") == TruthyField(users[uid], "email");
    }
  }

  /** After a subscription is created or updated, the user is on the plan
      without alerts exactly when the subscription's metadata names it. */
  lemma SubscriptionDecidesAlertPlan(users: map<string, Doc>, e: StripeWebhook.Event)
    requires e.eventType == StripeWebhook.SubscriptionCreated || e.eventType == StripeWebhook.SubscriptionUpdated
    requires StripeWebhook.Uid(e.data) != ""
    ensures var users' := StripeWebhook.Webhook(users, true, e, false).1;
      && StripeWebhook.Uid(e.data) in users'
      && (ChangeDetection.IsStarter(users'[StripeWebhook.Uid(e.data)]) <==> StripeWebhook.Plan(e.data) == "Starter")
  {
    var w := StripeWebhook.WriteFor(e).value;
    assert StripeWebhook.Webhook(users, true, e, false).1 == StripeWebhook.SetMerged(users, w.uid, w.patch);
    assert w.patch["plan"] == Str(StripeWebhook.Plan(e.data));
  }
}
