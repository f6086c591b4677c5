/** The billing webhook: a Stripe event whose signature checks out is turned
    into at most one merge-write of the `users` document named by the
    event's `metadata.uid`, and the request is answered 400, 500 or
    `{received: true}`. */
module StripeWebhook {
  import opened Values

  const CheckoutCompleted := "checkout.session.completed"
  const SubscriptionCreated := "customer.subscription.created"
  const SubscriptionUpdated := "customer.subscription.updated"
  const SubscriptionDeleted := "customer.subscription.deleted"

  const StatusActive := "active"
  const StatusTrialing := "trialing"
  const StatusPastDue := "past_due"
  const StatusCanceled := "canceled"

  /** The `event.data.object` fields the handler reads: a checkout session
      (`customer`, `metadata`) or a subscription (`id`, `status`, `metadata`).
      A missing (or null) `metadata` is `None`. */
  datatype EventObject = EventObject(id: string, customer: Value, status: string,
                                     metadata: Option<map<string, string>>)

  datatype Event = Event(eventType: string, data: EventObject)

  /** 400 with the verification error, 500 with the write error, or
      `res.json({received: true})`. */
  datatype Response = BadRequest | ServerError | Received

  /** One `setUser(uid, patch)` call. */
  datatype Write = Write(uid: string, patch: Doc)

  /** `object.metadata?.[key] ?? fallback`: the fallback only replaces a
      missing metadata object or a missing key, never an empty string. */
  function MetadataOr(obj: EventObject, key: string, fallback: string): (v: string)
    ensures obj.metadata.Some? && key in obj.metadata.value ==> v == obj.metadata.value[key]
    ensures obj.metadata.None? || key !in obj.metadata.value ==> v == fallback
  {
    match obj.metadata
    case None => fallback
    case Some(m) => if key in m then m[key] else fallback
  }

  /** The user the event is about; "" stands for none. */
  function Uid(obj: EventObject): (uid: string)
    ensures uid != "" <==> obj.metadata.Some? && "uid" in obj.metadata.value && obj.metadata.value["uid"] != ""
  {
    MetadataOr(obj, "uid", "")
  }

  /** The plan written by a subscription event. */
  function Plan(obj: EventObject): (plan: string)
    ensures obj.metadata.Some? && "plan" in obj.metadata.value ==> plan == obj.metadata.value["plan"]
    ensures obj.metadata.None? || "plan" !in obj.metadata.value ==> plan == "none"
  {
    MetadataOr(obj, "plan", "none")
  }

  /** Stripe's subscription status folded onto the three the app stores for
      a live subscription: "active" and "trialing" are kept, everything
      else (incomplete, unpaid, paused, canceled, ...) reads as "past_due". */
  function SubscriptionStatus(status: string): (r: string)
    ensures r == StatusActive || r == StatusTrialing || r == StatusPastDue
    ensures r == status <==> status == StatusActive || status == StatusTrialing || status == StatusPastDue
    ensures r == StatusPastDue <==> status != StatusActive && status != StatusTrialing
  {
    if status == StatusActive then StatusActive
    else if status == StatusTrialing then StatusTrialing
    else StatusPastDue
  }

  /** A status the webhook may store. */
  predicate KnownStatus(v: Value)
  {
    v == Str(StatusTrialing) || v == Str(StatusActive) || v == Str(StatusPastDue) || v == Str(StatusCanceled)
  }

  /** The write an event asks for: none for an event type the handler does
      not know and none when the event names no user. */
  function WriteFor(e: Event): (w: Option<Write>)
    ensures w.Some? <==>
      && Uid(e.data) != ""
      && e.eventType in {CheckoutCompleted, SubscriptionCreated, SubscriptionUpdated, SubscriptionDeleted}
    ensures w.Some? ==> w.value.uid == Uid(e.data)
    ensures w.Some? ==> "status" in w.value.patch && KnownStatus(w.value.patch["status"])
    ensures w.Some? ==> w.value.patch.Keys <= {"stripeCustomerId", "stripeSubscriptionId", "plan", "status"}
    ensures w.Some? ==> ("plan" in w.value.patch <==> e.eventType in {SubscriptionCreated, SubscriptionUpdated})
    ensures w.Some? && e.eventType == CheckoutCompleted ==>
      w.value.patch == map["stripeCustomerId" := e.data.customer, "status" := Str(StatusTrialing)]
    ensures w.Some? && e.eventType in {SubscriptionCreated, SubscriptionUpdated} ==>
      w.value.patch == map["stripeSubscriptionId" := Str(e.data.id), "plan" := Str(Plan(e.data)),
                           "status" := Str(SubscriptionStatus(e.data.status))]
    ensures w.Some? && e.eventType == SubscriptionDeleted ==> w.value.patch == map["status" := Str(StatusCanceled)]
  {
    var obj := e.data;
    var uid := Uid(obj);
    if uid == "" then None
    else if e.eventType == CheckoutCompleted then
      Some(Write(uid, map["stripeCustomerId" := obj.customer, "status" := Str(StatusTrialing)]))
    else if e.eventType == SubscriptionUpdated || e.eventType == SubscriptionCreated then
      Some(Write(uid, map["stripeSubscriptionId" := Str(obj.id), "plan" := Str(Plan(obj)),
                          "status" := Str(SubscriptionStatus(obj.status))]))
    else if e.eventType == SubscriptionDeleted then
      Some(Write(uid, map["status" := Str(StatusCanceled)]))
    else None
  }

  /** `set(patch, {merge: true})` on one document: the patch's fields win,
      every other field is kept. */
  function Merge(doc: Doc, patch: Doc): (r: Doc)
    ensures r.Keys == doc.Keys + patch.Keys
    ensures forall k :: k in patch ==> r[k] == patch[k]
    ensures forall k :: k in doc && k !in patch ==> r[k] == doc[k]
  {
    doc + patch
  }

  /** The `users` collection after a merge-write of `patch` into document
      `uid`, which is created when missing. */
  function SetMerged(users: map<string, Doc>, uid: string, patch: Doc): (r: map<string, Doc>)
    ensures r.Keys == users.Keys + {uid}
    ensures forall u :: u in users && u != uid ==> r[u] == users[u]
    ensures uid in users ==> r[uid] == Merge(users[uid], patch)
    ensures uid !in users ==> r[uid] == patch
  {
    users[uid := Merge(if uid in users then users[uid] else map[], patch)]
  }

  /** What one delivery of `e` does: the response, and the `users`
      collection afterwards. `signatureValid` is the outcome of Stripe's
      signature verification; `writeFails` says whether the store rejects
      the write, should there be one. */
  function Webhook(users: map<string, Doc>, signatureValid: bool, e: Event, writeFails: bool)
    : (out: (Response, map<string, Doc>))
    ensures out.0 == BadRequest <==> !signatureValid
    ensures out.0 == ServerError <==> signatureValid && writeFails && WriteFor(e).Some?
    ensures out.0 != Received ==> out.1 == users
    ensures WriteFor(e).None? ==> out.1 == users
    ensures out.0 == Received && WriteFor(e).Some? ==>
      out.1 == SetMerged(users, WriteFor(e).value.uid, WriteFor(e).value.patch)
    ensures out.1.Keys <= users.Keys + {Uid(e.data)}
    ensures forall u :: u in users && u != Uid(e.data) ==> u in out.1 && out.1[u] == users[u]
  {
    if !signatureValid then (BadRequest, users)
    else match WriteFor(e)
      case None => (Received, users)
      case Some(w) => if writeFails then (ServerError, users) else (Received, SetMerged(users, w.uid, w.patch))
  }

  /** The `users` collection, as the webhook reads and writes it. */
  class UserStore {
    var users: map<string, Doc>

    constructor (users: map<string, Doc>)
      ensures this.users == users
    {
      this.users := users;
    }

    /** `setUser`: one merge-write, which either lands whole or throws. */
    method SetUser(uid: string, patch: Doc, writeFails: bool) returns (ok: bool)
      modifies this
      ensures ok == !writeFails
      ensures users == if ok then SetMerged(old(users), uid, patch) else old(users)
    {
      if writeFails {
        return false;
      }
      var doc := if uid in users then users[uid] else map[];
      users := users[uid := doc + patch];
      return true;
    }

    /** `stripeWebhookHandler`: the three event branches in order; a write
        that throws skips the rest and answers 500. */
    method Handle(signatureValid: bool, e: Event, writeFails: bool) returns (response: Response)
      modifies this
      ensures (response, users) == Webhook(old(users), signatureValid, e, writeFails)
    {
      if !signatureValid {
        return BadRequest;
      }
      var ok := true;
      if e.eventType == CheckoutCompleted {
        var uid := MetadataOr(e.data, "uid", "");
        if uid != "" {
          ok := SetUser(uid, map["stripeCustomerId" := e.data.customer, "status" := Str(StatusTrialing)], writeFails);
        }
      }
      if ok && (e.eventType == SubscriptionUpdated || e.eventType == SubscriptionCreated) {
        var uid := MetadataOr(e.data, "uid", "");
        var plan := MetadataOr(e.data, "plan", "none");
        if uid != "" {
          var status := if e.data.status == StatusActive then StatusActive
                        else if e.data.status == StatusTrialing then StatusTrialing
                        else StatusPastDue;
          ok := SetUser(uid, map["stripeSubscriptionId" := Str(e.data.id), "plan" := Str(plan),
                                 "status" := Str(status)], writeFails);
        }
      }
      if ok && e.eventType == SubscriptionDeleted {
        var uid := MetadataOr(e.data, "uid", "");
        if uid != "" {
          ok := SetUser(uid, map["status" := Str(StatusCanceled)], writeFails);
        }
      }
      response := if ok then Received else ServerError;
    }
  }

  // -----------------------------------------------------------------------
  // Properties of deliveries

  /** After a delivery that wrote, the user's status is one the app knows. */
  lemma WrittenStatusIsKnown(users: map<string, Doc>, e: Event)
    requires WriteFor(e).Some?
    ensures var users' := Webhook(users, true, e, false).1;
      && Uid(e.data) in users'
      && "status" in users'[Uid(e.data)]
      && KnownStatus(users'[Uid(e.data)]["status"])
  {
    var w := WriteFor(e).value;
    assert Webhook(users, true, e, false).1 == SetMerged(users, w.uid, w.patch);
  }

  /** Stripe may deliver an event more than once; a second successful
      delivery changes nothing. */
  lemma RedeliveryIsHarmless(users: map<string, Doc>, e: Event)
    ensures var once := Webhook(users, true, e, false).1;
      Webhook(once, true, e, false) == (Received, once)
  {
    match WriteFor(e)
    case None =>
    case Some(w) =>
      var once := SetMerged(users, w.uid, w.patch);
      assert Webhook(users, true, e, false).1 == once;
      var doc := if w.uid in users then users[w.uid] else map[];
      assert once[w.uid] == doc + w.patch;
      assert (doc + w.patch) + w.patch == doc + w.patch;
      assert Webhook(once, true, e, false) == (Received, SetMerged(once, w.uid, w.patch));
      assert SetMerged(once, w.uid, w.patch) == once[w.uid := once[w.uid] + w.patch];
      assert once[w.uid := once[w.uid]] == once;
  }

  /** A cancellation only sets the status: the plan and the Stripe ids the
      document held stay as they were. */
  lemma CancelKeepsPlan(users: map<string, Doc>, e: Event)
    requires e.eventType == SubscriptionDeleted && Uid(e.data) != "" && Uid(e.data) in users
    ensures var doc := users[Uid(e.data)];
      var doc' := Webhook(users, true, e, false).1[Uid(e.data)];
      && doc'.Keys == doc.Keys + {"status"}
      && doc'["status"] == Str(StatusCanceled)
      && forall k :: k in doc && k != "status" ==> doc'[k] == doc[k]
  {
    var uid := Uid(e.data);
    var w := WriteFor(e).value;
    assert w.patch == map["status" := Str(StatusCanceled)];
    assert Webhook(users, true, e, false).1 == SetMerged(users, uid, w.patch);
  }

  /** A checkout followed by the subscription it started leaves the user
      with the customer id from the checkout and the subscription's id,
      plan and status. */
  lemma CheckoutThenSubscription(users: map<string, Doc>, checkout: Event, sub: Event)
    requires checkout.eventType == CheckoutCompleted
    requires sub.eventType == SubscriptionCreated
    requires Uid(checkout.data) != "" && Uid(sub.data) == Uid(checkout.data)
    ensures var uid := Uid(sub.data);
      var doc := Webhook(Webhook(users, true, checkout, false).1, true, sub, false).1[uid];
      && doc["stripeCustomerId"] == checkout.data.customer
      && doc["stripeSubscriptionId"] == Str(sub.data.id)
      && doc["plan"] == Str(Plan(sub.data))
      && doc["status"] == Str(SubscriptionStatus(sub.data.status))
  {
    var uid := Uid(sub.data);
    var w1 := WriteFor(checkout).value;
    var w2 := WriteFor(sub).value;
    var mid := SetMerged(users, uid, w1.patch);
    assert Webhook(users, true, checkout, false).1 == mid;
    assert Webhook(mid, true, sub, false).1 == SetMerged(mid, uid, w2.patch);
    assert "stripeCustomerId" in mid[uid];
  }
}
