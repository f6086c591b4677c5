/** The daily change-detection scan (`checkDeadlineUpdates`) and the alert
    it sends (`sendAlert`). Every document of the `sources` collection is
    checked once: its page is fetched, its text extracted and normalized,
    and the SHA-256 digest of that text compared with the stored one. */
module ChangeDetection {
  import opened Values
  import Normalize

  type SourceId = string

  /** The server timestamp a write stores. */
  type Time = nat

  /** A `sources` document, as far as the scan reads or writes it. */
  datatype Source = Source(
    name: string,
    url: string,
    userId: string,
    lastHash: Option<string>,
    lastStatus: Option<string>,
    lastChecked: Option<Time>)

  /** A `changes` document. */
  datatype Change = Change(
    sourceId: SourceId,
    userId: string,
    detectedAt: Time,
    diffSummary: string,
    sourceUrl: string)

  /** What fetching a source's page gave: the body of the response (of any
      HTTP status), or an exception thrown before the source was written. */
  datatype FetchOutcome = Ok(html: string) | Failed

  /** The two library calls the check relies on: the HTML-to-text
      extraction that drops script, style, noscript, iframe, header and
      footer elements, and the hex SHA-256 digest. */
  datatype Pipeline = Pipeline(extractText: string -> string, digest: string -> string)

  /** The email handed to the mail service for one detected change. */
  datatype Email = Email(to: Value, sourceName: string, sourceUrl: string)

  const StatusChanged := "Changed"
  const StatusNoChange := "No Change"
  const StatusError := "Error"
  const HashMismatchSummary := "Content changed. Hash mismatch."

  /** `normalizeContent`: the extracted text with whitespace collapsed. */
  function NormalizeContent(p: Pipeline, html: string): (text: string)
    ensures text == Normalize.JoinWords(Normalize.Words(p.extractText(html)))
    ensures Normalize.Canonical(text)
    ensures Normalize.NonWhitespace(text) == Normalize.NonWhitespace(p.extractText(html))
  {
    Normalize.Collapse(p.extractText(html))
  }

  /** `computeHash(normalizeContent(html))`. */
  function ContentHash(p: Pipeline, html: string): string
  {
    p.digest(NormalizeContent(p, html))
  }

  /** The source had a (truthy) stored hash and the new one differs. */
  predicate HashChanged(src: Source, newHash: string)
  {
    TruthyStr(src.lastHash) && src.lastHash.value != newHash
  }

  /** The status written when the hash did not change or was not there
      yet: an error is cleared, a missing status becomes "No Change", and
      any other status is kept. */
  function NoChangeStatus(prior: Option<string>): (status: string)
    ensures status != StatusError
    ensures prior == Some(StatusError) ==> status == StatusNoChange
    ensures !TruthyStr(prior) ==> status == StatusNoChange
    ensures TruthyStr(prior) && prior.value != StatusError ==> status == prior.value
  {
    if prior == Some(StatusError) then StatusNoChange
    else if TruthyStr(prior) then prior.value
    else StatusNoChange
  }

  /** What checking one source writes: its new document, and the change
      record added for it, if any. */
  datatype CheckResult = CheckResult(source: Source, change: Option<Change>)

  /** The effect of the per-source step of the scan on the store. */
  function CheckSource(id: SourceId, src: Source, outcome: FetchOutcome, p: Pipeline, now: Time): (r: CheckResult)
    // name, url and owner are never written; the check time always is
    ensures r.source.name == src.name && r.source.url == src.url && r.source.userId == src.userId
    ensures r.source.lastChecked == Some(now)
    // a failure records the error and keeps the stored hash
    ensures outcome.Failed? ==>
      r.source.lastStatus == Some(StatusError) && r.source.lastHash == src.lastHash && r.change.None?
    // a successful fetch stores the new hash and never records an error
    ensures outcome.Ok? ==>
      r.source.lastHash == Some(ContentHash(p, outcome.html)) && r.source.lastStatus != Some(StatusError)
    // a change record is written exactly when a stored hash is replaced by a different one
    ensures r.change.Some? <==> outcome.Ok? && HashChanged(src, ContentHash(p, outcome.html))
    ensures !TruthyStr(src.lastHash) ==> r.change.None?
    ensures r.change.Some? ==>
      && r.change.value == Change(id, src.userId, now, HashMismatchSummary, src.url)
      && r.source.lastStatus == Some(StatusChanged)
    ensures outcome.Ok? && r.change.None? ==> r.source.lastStatus == Some(NoChangeStatus(src.lastStatus))
  {
    match outcome
    case Failed =>
      CheckResult(src.(lastChecked := Some(now), lastStatus := Some(StatusError)), None)
    case Ok(html) =>
      var newHash := ContentHash(p, html);
      if HashChanged(src, newHash) then
        CheckResult(
          src.(lastChecked := Some(now), lastStatus := Some(StatusChanged), lastHash := Some(newHash)),
          Some(Change(id, src.userId, now, HashMismatchSummary, src.url)))
      else
        CheckResult(
          src.(lastChecked := Some(now), lastStatus := Some(NoChangeStatus(src.lastStatus)), lastHash := Some(newHash)),
          None)
  }

  /** The owner's plan is the one without email alerts. */
  predicate IsStarter(user: Doc)
  {
    "plan" in user && user["plan"] == Str("Starter")
  }

  /** `sendAlert`'s guard chain: the email it hands to the mail service, if
      any. The mail service's own failures are swallowed and so are not
      part of the result. */
  function AlertFor(sendGridKey: Option<string>, users: map<string, Doc>, src: Source): (e: Option<Email>)
    ensures e.Some? <==>
      && TruthyStr(sendGridKey)
      && src.userId != ""
      && src.userId in users
      && TruthyField(users[src.userId], "email")
      && !IsStarter(users[src.userId])
    ensures e.Some? ==> e.value == Email(users[src.userId]["email"], src.name, src.url)
  {
    if !TruthyStr(sendGridKey) then None
    // an empty document id makes the user lookup throw, which the guard catches
    else if src.userId == "" then None
    else if src.userId !in users then None
    else
      var user := users[src.userId];
      if !TruthyField(user, "email") then None
      else if IsStarter(user) then None
      else Some(Email(user["email"], src.name, src.url))
  }

  /** No id occurs twice. */
  predicate Distinct(ids: seq<SourceId>)
  {
    forall i, j :: 0 <= i < j < |ids| ==> ids[i] != ids[j]
  }

  /** The change records a scan over `ids` adds, in the order of `ids`. */
  function ChangesOf(ids: seq<SourceId>, olds: map<SourceId, Source>, outcomes: SourceId -> FetchOutcome,
                     p: Pipeline, now: Time): seq<Change>
    requires forall id :: id in ids ==> id in olds
  {
    if ids == [] then []
    else
      var id := ids[|ids| - 1];
      var r := CheckSource(id, olds[id], outcomes(id), p, now);
      ChangesOf(ids[..|ids| - 1], olds, outcomes, p, now) + (if r.change.Some? then [r.change.value] else [])
  }

  /** The emails a scan over `ids` sends, in the order of `ids`. */
  function AlertsOf(ids: seq<SourceId>, olds: map<SourceId, Source>, outcomes: SourceId -> FetchOutcome,
                    p: Pipeline, now: Time, sendGridKey: Option<string>, users: map<string, Doc>): seq<Email>
    requires forall id :: id in ids ==> id in olds
  {
    if ids == [] then []
    else
      var id := ids[|ids| - 1];
      var r := CheckSource(id, olds[id], outcomes(id), p, now);
      var e := if r.change.Some? then AlertFor(sendGridKey, users, olds[id]) else None;
      AlertsOf(ids[..|ids| - 1], olds, outcomes, p, now, sendGridKey, users) + (if e.Some? then [e.value] else [])
  }

  /** The sources collection after a scan: every source checked once,
      against its document as the scan read it. */
  function ScanSources(olds: map<SourceId, Source>, outcomes: SourceId -> FetchOutcome, p: Pipeline, now: Time)
    : (news: map<SourceId, Source>)
    ensures news.Keys == olds.Keys
  {
    map id | id in olds :: CheckSource(id, olds[id], outcomes(id), p, now).source
  }

  /** The sources collection part-way through a scan: the sources of
      `done` are checked, the others are as the scan read them. */
  ghost function PartialScan(olds: map<SourceId, Source>, done: seq<SourceId>, outcomes: SourceId -> FetchOutcome,
                             p: Pipeline, now: Time): map<SourceId, Source>
  {
    map id | id in olds :: if id in done then CheckSource(id, olds[id], outcomes(id), p, now).source else olds[id]
  }

  lemma PartialScanStep(olds: map<SourceId, Source>, done: seq<SourceId>, x: SourceId,
                        outcomes: SourceId -> FetchOutcome, p: Pipeline, now: Time)
    requires x in olds && x !in done
    ensures PartialScan(olds, done, outcomes, p, now)[x] == olds[x]
    ensures PartialScan(olds, done + [x], outcomes, p, now)
      == PartialScan(olds, done, outcomes, p, now)[x := CheckSource(x, olds[x], outcomes(x), p, now).source]
  {
  }

  /** Checking one more source keeps the scan's loop invariant: the
      state after the step is the partial scan extended by that source. */
  lemma ScanStep(olds: map<SourceId, Source>, done: seq<SourceId>, x: SourceId, next: seq<SourceId>,
                 outcomes: SourceId -> FetchOutcome, p: Pipeline, now: Time,
                 sendGridKey: Option<string>, users: map<string, Doc>, initialChanges: seq<Change>,
                 sources0: map<SourceId, Source>, changes0: seq<Change>, emails0: seq<Email>,
                 sources1: map<SourceId, Source>, changes1: seq<Change>, emails1: seq<Email>, email: Option<Email>)
    requires next == done + [x]
    requires x in olds && x !in done && forall id :: id in done ==> id in olds
    requires sources0 == PartialScan(olds, done, outcomes, p, now)
    requires changes0 == initialChanges + ChangesOf(done, olds, outcomes, p, now)
    requires emails0 == AlertsOf(done, olds, outcomes, p, now, sendGridKey, users)
    requires var r := CheckSource(x, sources0[x], outcomes(x), p, now);
      && sources1 == sources0[x := r.source]
      && changes1 == changes0 + (if r.change.Some? then [r.change.value] else [])
      && email == (if r.change.Some? then AlertFor(sendGridKey, users, sources0[x]) else None)
    requires emails1 == emails0 + (if email.Some? then [email.value] else [])
    ensures forall id :: id in next ==> id in olds
    ensures sources1 == PartialScan(olds, next, outcomes, p, now)
    ensures changes1 == initialChanges + ChangesOf(next, olds, outcomes, p, now)
    ensures emails1 == AlertsOf(next, olds, outcomes, p, now, sendGridKey, users)
  {
    PartialScanStep(olds, done, x, outcomes, p, now);
    assert (done + [x])[..|done|] == done;
    var r := CheckSource(x, olds[x], outcomes(x), p, now);
    AppendAssoc(initialChanges, ChangesOf(done, olds, outcomes, p, now),
                if r.change.Some? then [r.change.value] else []);
  }

  /** One more element of a list of distinct ids extends its prefix by an id
      the prefix does not hold. */
  lemma PrefixStep(ids: seq<SourceId>, i: nat)
    requires Distinct(ids) && i < |ids|
    ensures ids[..i + 1] == ids[..i] + [ids[i]]
    ensures ids[i] !in ids[..i]
  {
  }

  lemma PartialScanDone(olds: map<SourceId, Source>, done: seq<SourceId>,
                        outcomes: SourceId -> FetchOutcome, p: Pipeline, now: Time)
    requires forall id :: id in olds ==> id in done
    ensures PartialScan(olds, done, outcomes, p, now) == ScanSources(olds, outcomes, p, now)
  {
  }

  /** The number of change records for source `id`. */
  function CountFor(cs: seq<Change>, id: SourceId): nat
  {
    if cs == [] then 0
    else CountFor(cs[..|cs| - 1], id) + (if cs[|cs| - 1].sourceId == id then 1 else 0)
  }

  /** The `sources` and `changes` collections the scan works on. */
  class SourceStore {
    var sources: map<SourceId, Source>
    var changes: seq<Change>

    constructor (sources: map<SourceId, Source>, changes: seq<Change>)
      ensures this.sources == sources && this.changes == changes
    {
      this.sources := sources;
      this.changes := changes;
    }

    /** The per-source step: fetch, normalize, hash, then write the change
        record and the source, and send the alert. */
    method CheckOne(id: SourceId, outcome: FetchOutcome, p: Pipeline, now: Time,
                    sendGridKey: Option<string>, users: map<string, Doc>) returns (email: Option<Email>)
      requires id in sources
      modifies this
      ensures var r := CheckSource(id, old(sources)[id], outcome, p, now);
        && sources == old(sources)[id := r.source]
        && changes == old(changes) + (if r.change.Some? then [r.change.value] else [])
        && email == (if r.change.Some? then AlertFor(sendGridKey, users, old(sources)[id]) else None)
    {
      var src := sources[id];
      email := None;
      match outcome {
        case Failed =>
          sources := sources[id := src.(lastChecked := Some(now), lastStatus := Some(StatusError))];
        case Ok(html) =>
          var normalized := NormalizeContent(p, html);
          var newHash := p.digest(normalized);
          if src.lastHash.Some? && src.lastHash.value != "" && src.lastHash.value != newHash {
            changes := changes + [Change(id, src.userId, now, HashMismatchSummary, src.url)];
            sources := sources[id := src.(lastChecked := Some(now), lastStatus := Some(StatusChanged), lastHash := Some(newHash))];
            email := AlertFor(sendGridKey, users, src);
          } else {
            var status := if src.lastStatus == Some(StatusError) then StatusNoChange
                          else if src.lastStatus.Some? && src.lastStatus.value != "" then src.lastStatus.value
                          else StatusNoChange;
            sources := sources[id := src.(lastChecked := Some(now), lastStatus := Some(status), lastHash := Some(newHash))];
          }
      }
    }

    /** `checkDeadlineUpdates`: checks every document of the snapshot once,
        whatever its frequency. A source's new document depends only on its
        own fetch outcome, and never on the alert. */
    method Scan(snapshot: seq<SourceId>, outcomes: SourceId -> FetchOutcome, p: Pipeline, now: Time,
                sendGridKey: Option<string>, users: map<string, Doc>) returns (emails: seq<Email>)
      requires Distinct(snapshot)
      requires forall id :: id in snapshot <==> id in sources
      modifies this
      ensures sources == ScanSources(old(sources), outcomes, p, now)
      ensures changes == old(changes) + ChangesOf(snapshot, old(sources), outcomes, p, now)
      ensures emails == AlertsOf(snapshot, old(sources), outcomes, p, now, sendGridKey, users)
    {
      emails := [];
      var i := 0;
      ghost var done: seq<SourceId> := [];
      while i < |snapshot|
        invariant 0 <= i <= |snapshot| && done == snapshot[..i]
        invariant forall id :: id in done ==> id in old(sources)
        invariant sources == PartialScan(old(sources), done, outcomes, p, now)
        invariant changes == old(changes) + ChangesOf(done, old(sources), outcomes, p, now)
        invariant emails == AlertsOf(done, old(sources), outcomes, p, now, sendGridKey, users)
      {
        var id := snapshot[i];
        PrefixStep(snapshot, i);
        ghost var next := snapshot[..i + 1];
        ghost var sources0, changes0, emails0 := sources, changes, emails;
        var email := CheckOne(id, outcomes(id), p, now, sendGridKey, users);
        if email.Some? {
          emails := emails + [email.value];
        }
        ScanStep(old(sources), done, id, next, outcomes, p, now, sendGridKey, users,
                 old(changes), sources0, changes0, emails0, sources, changes, emails, email);
        i := i + 1;
        done := next;
      }
      assert snapshot[..i] == snapshot;
      PartialScanDone(old(sources), snapshot[..i], outcomes, p, now);
    }
  }

  // -----------------------------------------------------------------------
  // Properties of a whole scan

  /** A failure (or any other outcome) while checking one source leaves
      every other source's document as if that source had not changed. */
  lemma ScanIsolatesSources(olds: map<SourceId, Source>, o1: SourceId -> FetchOutcome, o2: SourceId -> FetchOutcome,
                            p: Pipeline, now: Time, x: SourceId)
    requires forall id :: id != x ==> o1(id) == o2(id)
    ensures forall id :: id in olds && id != x ==>
      ScanSources(olds, o1, p, now)[id] == ScanSources(olds, o2, p, now)[id]
  {
  }

  /** Over distinct ids, a source has exactly one change record when its
      stored hash was replaced by a different one, and none otherwise. */
  lemma {:induction false} OneChangePerMismatch(ids: seq<SourceId>, olds: map<SourceId, Source>,
                                                outcomes: SourceId -> FetchOutcome, p: Pipeline, now: Time, id: SourceId)
    requires Distinct(ids)
    requires forall i :: i in ids ==> i in olds
    ensures CountFor(ChangesOf(ids, olds, outcomes, p, now), id) ==
      if id in ids && outcomes(id).Ok? && HashChanged(olds[id], ContentHash(p, outcomes(id).html)) then 1 else 0
  {
    if ids != [] {
      var init := ids[..|ids| - 1];
      var last := ids[|ids| - 1];
      assert Distinct(init);
      OneChangePerMismatch(init, olds, outcomes, p, now, id);
      var cs := ChangesOf(ids, olds, outcomes, p, now);
      var r := CheckSource(last, olds[last], outcomes(last), p, now);
      if r.change.Some? {
        assert cs[..|cs| - 1] == ChangesOf(init, olds, outcomes, p, now);
      } else {
        assert cs == ChangesOf(init, olds, outcomes, p, now);
      }
      assert id in ids <==> id in init || id == last;
      assert id == last ==> id !in init;
    }
  }

  /** Every email of a scan goes with a change record: at most as many
      emails as change records. */
  lemma {:induction false} AlertsFollowChanges(ids: seq<SourceId>, olds: map<SourceId, Source>,
                                               outcomes: SourceId -> FetchOutcome, p: Pipeline, now: Time,
                                               sendGridKey: Option<string>, users: map<string, Doc>)
    requires forall i :: i in ids ==> i in olds
    ensures |AlertsOf(ids, olds, outcomes, p, now, sendGridKey, users)| <= |ChangesOf(ids, olds, outcomes, p, now)|
    ensures !TruthyStr(sendGridKey) ==> AlertsOf(ids, olds, outcomes, p, now, sendGridKey, users) == []
  {
    if ids != [] {
      AlertsFollowChanges(ids[..|ids| - 1], olds, outcomes, p, now, sendGridKey, users);
    }
  }

  /** A scan in which no source had a stored hash (every source is checked
      for the first time) adds no change record and sends no email. */
  lemma {:induction false} FirstScanIsQuiet(ids: seq<SourceId>, olds: map<SourceId, Source>,
                                            outcomes: SourceId -> FetchOutcome, p: Pipeline, now: Time,
                                            sendGridKey: Option<string>, users: map<string, Doc>)
    requires forall i :: i in ids ==> i in olds && !TruthyStr(olds[i].lastHash)
    ensures ChangesOf(ids, olds, outcomes, p, now) == []
    ensures AlertsOf(ids, olds, outcomes, p, now, sendGridKey, users) == []
  {
    if ids != [] {
      FirstScanIsQuiet(ids[..|ids| - 1], olds, outcomes, p, now, sendGridKey, users);
    }
  }
}
