# Deadline Shield: change detection and billing webhook

This project models the two backend pieces of Deadline Shield that hold real
logic. It also proves properties of that model.

- **The daily change-detection scan** (`checkDeadlineUpdates` in
  `functions/src/index.ts`).
  - Each source document is visited once.
  - For each source, the scan fetches the page and extracts its text.
  - It collapses the text's whitespace (`normalizeContent`) and hashes the result.
  - It compares the new hash with the stored `lastHash`, then writes three things:
    - the source's new `lastChecked`, `lastStatus` and `lastHash`;
    - a `changes` record when the hash changed;
    - an email alert, once `sendAlert`'s guard chain lets it through.
- **The Stripe webhook** (`stripeWebhookHandler` in
  `functions/src/stripeWebhook.ts`).
  - A verified event becomes at most one merge-write (`set(patch, {merge: true})`)
    into the `users` document that `metadata.uid` names.
  - The reply is 400 (bad signature), 500 (the write threw) or `{received: true}`.

Modules:

- `Values` (`values.dfy`):
  - Firestore field values and documents;
  - an `Option` type;
  - JavaScript truthiness.
- `Normalize` (`normalize.dfy`): `text.replace(/\s+/g, ' ').trim()` as the function
  `Collapse`.
  - Whitespace is the ECMAScript `\s` set.
  - `Collapse` is proved equal to an independent reference, the words of the text
    joined by single spaces.
  - It is also proved canonical and idempotent, and to keep every
    non-whitespace character in order.
- `ChangeDetection` (`change_detection.dfy`):
  - the per-source transition `CheckSource`, a total function of the old
    document and the fetch outcome;
  - the alert gate `AlertFor`;
  - the class `SourceStore`, whose fields are the `sources` map and the
    `changes` list. Its method `CheckOne` is the per-source step. Its method
    `Scan` is the loop over the snapshot, proved against the specification
    functions `ScanSources`, `ChangesOf` and `AlertsOf`.
- `StripeWebhook` (`stripe_webhook.dfy`):
  - the status table and the choice of patch;
  - the merge semantics;
  - the specification function `Webhook`;
  - the class `UserStore`, whose method `Handle` runs the handler's three
    branches imperatively and is proved equal to `Webhook`.
- `BillingAlerts` (`billing_alerts.dfy`): how the webhook's writes bear on the
  alert gate, which reads the same `users` documents.

Inputs that the code takes from outside are parameters of the model:

- the fetch outcome of each source: the response body, or a failure;
- the text extraction and the SHA-256 digest, as uninterpreted functions;
- the server timestamp, as one `now` for the whole scan;
- the SendGrid key;
- the outcome of Stripe's signature check;
- whether the store rejects the webhook's write.

What the code does, and so what the model does:

- The scan checks every source on every run; it has no due or paused selection.
- `fetch` does not reject on a non-2xx status, so the body of any response is
  normalized and hashed; only an exception gives the "Error" status.
- The normalized text is hashed whole; it is not truncated.
- Statuses are the strings "Changed", "No Change" and "Error".
- The scan keeps no lock, backoff level, failure counter or severity score.

## Model

| member | source | states |
|---|---|---|
| Normalize.Collapse | functions/src/index.ts:29 | the result is the input's words joined by single spaces; it has no leading or trailing whitespace, no two adjacent whitespace characters, and only U+0020 as whitespace; its non-whitespace characters are the input's, in order |
| Normalize.CollapseIdempotent | functions/src/index.ts:29 | collapsing an already collapsed text changes nothing |
| ChangeDetection.NormalizeContent | functions/src/index.ts:17-31 | the normalized text of a page is the extracted text's words joined by single spaces; it is canonical and keeps the extracted text's non-whitespace characters in order |
| ChangeDetection.NoChangeStatus | functions/src/index.ts:94 | the no-change branch turns "Error" into "No Change", turns an absent or empty status into "No Change", keeps every other status (including "Changed") and never yields "Error" |
| ChangeDetection.CheckSource | functions/src/index.ts:59-106 | name, url and owner are kept and lastChecked is set; a failure writes "Error" and keeps the hash; a successful fetch stores the new hash and never writes "Error"; a change record is written exactly when a truthy stored hash differs from the new one, holding the source's id, owner, url and the fixed summary, with status "Changed"; a first check never writes one |
| ChangeDetection.AlertFor | functions/src/index.ts:114-130 | an email is handed over exactly when the key is set, the owner id is non-empty, the owner document exists with a truthy email and its plan is not "Starter"; it goes to that email |
| ChangeDetection.ScanSources | functions/src/index.ts:51-59 | a scan keeps the set of source ids |
| ChangeDetection.SourceStore.CheckOne | functions/src/index.ts:59-106 | one source's step replaces only that source's document, by CheckSource's result; it appends that source's change record, if any; it returns AlertFor's email only when a change was recorded |
| ChangeDetection.SourceStore.Scan | functions/src/index.ts:47-109 | after the loop, every source's document is CheckSource's result on its own outcome; the change records and emails are those of each source in snapshot order; the sources written do not depend on the key or on the users |
| ChangeDetection.ScanIsolatesSources | functions/src/index.ts:99-105 | changing one source's fetch outcome (a failure, say) leaves every other source's new document as it was |
| ChangeDetection.OneChangePerMismatch | functions/src/index.ts:66-87 | over distinct ids, a source has exactly one change record when its fetch succeeded and its stored hash differs from the new one, and none otherwise |
| ChangeDetection.AlertsFollowChanges | functions/src/index.ts:86-87 | a scan sends at most as many emails as it writes change records, and none without a key |
| ChangeDetection.FirstScanIsQuiet | functions/src/index.ts:89-96 | when no source had a stored hash, a scan writes no change record and sends no email |
| StripeWebhook.MetadataOr | functions/src/stripeWebhook.ts:42-43 | `metadata?.[key] ?? fallback` falls back only on a missing metadata object or key |
| StripeWebhook.Uid | functions/src/stripeWebhook.ts:31 | the uid is non-empty exactly when the metadata holds a non-empty uid |
| StripeWebhook.Plan | functions/src/stripeWebhook.ts:43 | the plan is the metadata's plan, or "none" when the metadata or its plan is missing |
| StripeWebhook.SubscriptionStatus | functions/src/stripeWebhook.ts:46-47 | the result is active, trialing or past_due; it equals the input exactly when the input is one of those three; it is past_due exactly when the input is neither active nor trialing |
| StripeWebhook.WriteFor | functions/src/stripeWebhook.ts:28-63 | a write happens exactly when the uid is non-empty and the event type is one of the four handled ones; it targets that uid; it always sets a known status; it touches only the customer id, subscription id, plan and status; a checkout writes exactly the session's customer and status "trialing"; a subscription created/updated writes exactly the subscription's id, the plan and the mapped status; a deletion writes only status "canceled" |
| StripeWebhook.Merge | functions/src/stripeWebhook.ts:24-26 | a merge-write keeps every field outside the patch, and the patch's fields win |
| StripeWebhook.SetMerged | functions/src/stripeWebhook.ts:24-26 | a merge-write turns an existing document into its merge with the patch, creates a missing document as the patch, and leaves every other user's document as it was |
| StripeWebhook.Webhook | functions/src/stripeWebhook.ts:11-69 | 400 exactly on a bad signature; 500 exactly when a write is due and fails; no write on 400 or 500, on an unknown event type or on an empty uid; a successful delivery with a due write merges that write's patch into the event's user; only that user's document can change |
| StripeWebhook.UserStore.SetUser | functions/src/stripeWebhook.ts:24-26 | the write either lands whole as a merge or leaves the store as it was |
| StripeWebhook.UserStore.Handle | functions/src/stripeWebhook.ts:11-69 | the response and the new users map are those of Webhook |
| StripeWebhook.WrittenStatusIsKnown | functions/src/stripeWebhook.ts:28-63 | after a delivery that wrote, the user's status is trialing, active, past_due or canceled |
| StripeWebhook.RedeliveryIsHarmless | functions/src/stripeWebhook.ts:24-63 | delivering the same event a second time replies `{received: true}` and changes nothing |
| StripeWebhook.CancelKeepsPlan | functions/src/stripeWebhook.ts:57-62 | a cancellation adds or sets only the status, to "canceled"; every other field of the user stays |
| StripeWebhook.CheckoutThenSubscription | functions/src/stripeWebhook.ts:29-54 | a checkout followed by its subscription leaves the user with the checkout's customer id and the subscription's id, plan and status |
| BillingAlerts.CancelKeepsAlerts | functions/src/stripeWebhook.ts:57-62 | after a cancellation, every source's alert is what it was before |
| BillingAlerts.SubscriptionDecidesAlertPlan | functions/src/stripeWebhook.ts:40-54 | after a subscription event, the user is excluded from alerts exactly when the subscription's metadata plan is "Starter" |

`CancelKeepsAlerts` and `SubscriptionDecidesAlertPlan` relate the two files.
The webhook stores the metadata plan (or "none"), and the alert gate excludes
only the plan "Starter". So a user whose subscription was canceled or lapsed
keeps receiving alerts.

## Left out

- HTML text extraction (cheerio's removal of script, style, noscript, iframe,
  header and footer elements): an uninterpreted `extractText` function.
- SHA-256: an uninterpreted `digest` function, compared only for equality.
- Network, store and mail I/O:
  - `fetch` is a per-source outcome, either the body or a failure;
  - Firestore reads and writes are map and sequence updates;
  - SendGrid's `send` is the returned email value. Its failures are swallowed
    in the code, so they are not modelled.
  - The subject and body text of the email and its `new Date()` are not
    modelled.
- `serverTimestamp()`: one `now` for every write of a scan.
- `Promise.all` fan-out: the scan is a sequential loop in snapshot order.
  - The sources' new documents do not depend on the order.
  - The order of change records and emails is the snapshot's in the model; in
    the code it depends on timing.
- Store write failures during the scan are not modelled. In the code, a
  failure of the change or source write after a successful fetch falls into
  the catch and writes "Error".
- Stripe signature verification: a boolean input. The text of the 400 and 500
  replies is not modelled.
- Firestore's rejection of a document id that contains "/" is not modelled.
  Only the empty id is modelled: the webhook skips it, and `sendAlert`'s
  guarded lookup fails on it.
- The checkout-session route (`apps/web/src/app/api/stripe/create-checkout/route.ts`),
  the compiled `functions/lib/*.js`, the reminders heartbeat, the React pages
  and the auth and Firebase wrappers are not part of this model.
- The severity, deadline-extraction, backoff, locking and confidence fields
  declared in `apps/web/src/lib/types.ts` have no implementing code, and are
  not modelled.
- JavaScript strings are UTF-16; the model works on Unicode scalar values.
  Every `\s` character is in the Basic Multilingual Plane, so the collapse is
  the same.
