/**
 * The Raisely donation route: a `donation.succeeded` event records a
 * donation for the payer. After the guard chain the route repairs the
 * email, collects the person's fields, finds or creates the person, updates
 * a matched one and creates the donation for the person the CRM returned.
 */
module DonationPayment {
  import opened Wrappers
  import opened EcmaDate
  import opened Crm
  import EmailNormalizer
  import opened FieldMapping
  import opened IdentityResolver
  import opened Webhook

  /**
   * The route's settings: its activation token, the optional shared secret,
   * how the tracking slug is made ("profile_name_as_slug" or anything else
   * for the profile name as it is) and the optional recurrence field.
   */
  datatype Config = Config(token: string, secret: string, trackingMode: string, recurrenceField: string)

  /** The fields of the payment the route reads, once the schema has accepted it. */
  datatype Payment = Payment(
    status: string,
    email: string,
    amount: int,
    message: Option<string>,
    date: ValidDate,
    userFirstName: Option<string>,
    userLastName: Option<string>,
    metadataFirstName: Option<string>,
    metadataLastName: Option<string>,
    priv: Option<Private>,
    profileName: Option<string>,
    description: Option<string>)

  /**
   * The webhook body: whether it carries `data`, the secret it sent, whether
   * it passes the schema, the event type and the payment, which the schema
   * does not require.
   */
  datatype Request = Request(hasData: bool, secret: Option<string>, valid: bool, eventType: string, payment: Option<Payment>)

  const CreatedTag := "created_via_donation_payment"

  /** The guard chain in its order; unlike the membership routes there is no membership name to require. */
  function Guard(cfg: Config, req: Request): Option<int> {
    if !req.hasData then Some(200)
    else if cfg.token == "" then Some(403)
    else if SecretMismatch(cfg.secret, req.secret) then Some(403)
    else if !req.valid then Some(400)
    else if req.eventType != "donation.succeeded" then Some(400)
    else if req.payment.None? then Some(503)
    else if req.payment.value.status != "OK" then Some(400)
    else None
  }

  /** The email, names and tag the loop writes into the person fields before each create. */
  function Creator(p: Payment): CreateRecord {
    Amend(EmailNormalizer.Normalize(p.email), NameOr(p.userFirstName, p.metadataFirstName), NameOr(p.userLastName, p.metadataLastName),
          CreatedTag)
  }

  /** The person fields collected before the loop: a donation never carries the recurring tag. */
  function Collected(p: Payment, parse: string -> Option<ValidDate>): PersonData {
    RaiselyPersonData(false, p.priv, parse)
  }

  /** The donation the route records for a donor id. */
  function Recorder(cfg: Config, p: Payment): int -> Donation {
    id => DonationRecord(id, p.amount, p.description, p.message, p.date, cfg.trackingMode, p.profileName, cfg.recurrenceField)
  }

  /** The whole route, from the request, the CRM's replies and the log so far to the status and the log afterwards. */
  function Handle(cfg: Config, req: Request, parse: string -> Option<ValidDate>, s: Script, at: Cursor, log: seq<Call>): Response {
    match Guard(cfg, req)
    case Some(status) => Response(status, at, log)
    case None =>
      var p := req.payment.value;
      Donated(s, at, log, EmailNormalizer.Normalize(p.email), Creator(p), Collected(p, parse), Recorder(cfg, p))
  }

  /** The route once the guards pass: the match-or-create loop, then the donation. */
  function Donated(s: Script, at: Cursor, log: seq<Call>, email: string, how: CreateRecord, data: PersonData,
                   record: int -> Donation): Response {
    var l := ResolveSpec(s, at, email, how, data);
    Give(s, l.at, log + l.calls, l.outcome, record)
  }

  /** After the loop: no person is 404, a matched person is updated first (a failure is 404), then the donation is created. */
  function Give(s: Script, at: Cursor, log: seq<Call>, outcome: Resolution, record: int -> Donation): Response {
    var r := Refresh(s, at, log, outcome);
    match r.value
    case None => Response(404, r.at, r.calls)
    case Some(person) => Written(s, r.at, r.calls, CreateDonationCall(record(person.id)), 201)
  }

  /** The route against the CRM stub: it answers and calls exactly as `Handle` says. */
  method HandleDonation(dir: Directory, cfg: Config, req: Request, parse: string -> Option<ValidDate>) returns (status: int)
    modifies dir
    ensures var r := Handle(cfg, req, parse, dir.script, old(dir.at), old(dir.calls));
      status == r.status && dir.at == r.at && dir.calls == r.calls
  {
    var guard := Guard(cfg, req);
    if guard.Some? {
      return guard.value;
    }
    var p := req.payment.value;
    var outcome := Resolve(dir, EmailNormalizer.Normalize(p.email), Creator(p), Collected(p, parse));
    status := GiveWith(dir, outcome, Recorder(cfg, p));
  }

  /** The steps after the loop against the CRM stub. */
  method GiveWith(dir: Directory, outcome: Resolution, record: int -> Donation) returns (status: int)
    modifies dir
    ensures var r := Give(dir.script, old(dir.at), old(dir.calls), outcome, record);
      status == r.status && dir.at == r.at && dir.calls == r.calls
  {
    var person := RefreshPerson(dir, outcome);
    if person.None? {
      return 404;
    }
    status := WriteRecord(dir, CreateDonationCall(record(person.value.id)), 201);
  }

  // ---------------------------------------------------------------------------
  // What the route promises

  /**
   * The guards in their order: an empty body is answered 200 before any
   * check, a missing token 403, a wrong secret 403 only when one is
   * configured, and a schema error, another event type or a status other
   * than "OK" 400. A payment event without its inner `data` object (the
   * schema leaves it optional) throws on reading the status: 503. A request
   * stopped by a guard makes no CRM call; one that passes them all goes on
   * to the loop.
   */
  lemma GuardOrder(cfg: Config, req: Request, parse: string -> Option<ValidDate>, s: Script, at: Cursor, log: seq<Call>)
    ensures var g := Guard(cfg, req);
      var p := req.payment;
      (!req.hasData ==> g == Some(200)) &&
      (req.hasData && cfg.token == "" ==> g == Some(403)) &&
      (req.hasData && cfg.token != "" && cfg.secret == "" ==> g != Some(403)) &&
      (req.hasData && cfg.token != "" ==> (g == Some(403) <==> SecretMismatch(cfg.secret, req.secret))) &&
      (req.hasData && cfg.token != "" && !SecretMismatch(cfg.secret, req.secret) ==>
         (g == Some(400) <==> !req.valid || req.eventType != "donation.succeeded" || (p.Some? && p.value.status != "OK")) &&
         (g == Some(503) <==> req.valid && req.eventType == "donation.succeeded" && p.None?)) &&
      (g.Some? ==> Handle(cfg, req, parse, s, at, log) == Response(g.value, at, log)) &&
      (g.None? ==>
         p.Some? &&
         var email, how, data := EmailNormalizer.Normalize(p.value.email), Creator(p.value), Collected(p.value, parse);
         Handle(cfg, req, parse, s, at, log) == Donated(s, at, log, email, how, data, Recorder(cfg, p.value)))
  {
    SecretRule(cfg.secret, req.secret);
  }

  /**
   * After the loop: the donor is the person the CRM returned, the created
   * one or the matched one as its update returned it. Without a donor the
   * route answers 404 and calls nothing more; with one it makes exactly one
   * call more, the donation for the donor's id, answered 201 when the CRM
   * returns the donation and 403 otherwise.
   */
  lemma GiveStep(s: Script, at: Cursor, log: seq<Call>, outcome: Resolution, record: int -> Donation)
    ensures var r := Give(s, at, log, outcome, record);
      var matched := outcome.Resolved? && !outcome.created;
      var updated := if matched then log + [UpdatePersonCall(outcome.person.id, outcome.data)] else log;
      var reply := Reply(s.updates, at.updates, PersonFailed);
      var donor := if matched then (if reply.PersonOk? then Some(reply.person) else None)
                   else if outcome.Resolved? then Some(outcome.person) else None;
      (donor.None? ==> r.status == 404 && r.calls == updated) &&
      (donor.Some? ==>
         r.calls == updated + [CreateDonationCall(record(donor.value.id))] &&
         r.status == (if Reply(s.writes, at.writes, false) then 201 else 403))
  {
    RefreshCases(s, at, log, outcome, Write);
  }

  /** The calls after the loop: the person update when matched, then the donation when there is a donor. */
  lemma GiveCalls(s: Script, at: Cursor, log: seq<Call>, outcome: Resolution, record: int -> Donation, k: Kind)
    ensures var r := Give(s, at, log, outcome, record);
      var matched := outcome.Resolved? && !outcome.created;
      r.status in {201, 403, 404} &&
      Count(r.calls, k) == Count(log, k) + (if matched && k == PersonUpdate then 1 else 0)
                                         + (if r.status != 404 && k == Write then 1 else 0)
  {
    var g := Give(s, at, log, outcome, record);
    GiveStep(s, at, log, outcome, record);
    var matched := outcome.Resolved? && !outcome.created;
    var update := if matched then [UpdatePersonCall(outcome.person.id, outcome.data)] else [];
    var updated := log + [] + update;
    assert log + [] == log;
    UpdatedCounts(log, [], update, k);
    if g.status != 404 {
      var w := g.calls[|updated|];
      assert g.calls == updated + [w] && w.CreateDonationCall?;
      CountAppend(updated, [w], k);
      CountOne(w, k);
    }
  }

  /**
   * The calls of a donation that passed the guards: at most three lookups
   * and three creates, `updatePerson` exactly once when the loop matched the
   * person, no membership call, and one donation create exactly when the
   * answer is 201 or 403; the answer is always one of 201, 403 and 404.
   */
  lemma DonatedCalls(s: Script, at: Cursor, log: seq<Call>, email: string, how: CreateRecord, data: PersonData,
                     record: int -> Donation, k: Kind)
    ensures var r := Donated(s, at, log, email, how, data, record);
      var l := ResolveSpec(s, at, email, how, data);
      var matched := l.outcome.Resolved? && !l.outcome.created;
      r.status in {201, 403, 404} &&
      (k == Lookup || k == Creation ==> Count(r.calls, k) <= Count(log, k) + MaxAttempts) &&
      (k == PersonUpdate ==> Count(r.calls, k) == Count(log, k) + (if matched then 1 else 0)) &&
      (k == Listing ==> Count(r.calls, k) == Count(log, k)) &&
      (k == Write ==> Count(r.calls, k) == Count(log, k) + (if r.status == 404 then 0 else 1))
  {
    var l := ResolveSpec(s, at, email, how, data);
    GiveCalls(s, l.at, log + l.calls, l.outcome, record, k);
    CountAppend(log, l.calls, k);
    AttemptsBounded(s, at, MaxAttempts, email, how, data, k);
  }

  /**
   * The person fields the route sends, to a create or to the update of a
   * matched person: with no create attempt they are the fields collected
   * from the payment, with no tags; every create attempt writes the repaired
   * email and the payer's names into them and appends one more
   * "created_via_donation_payment" tag.
   */
  lemma DonationFields(p: Payment, parse: string -> Option<ValidDate>, s: Script, at: Cursor)
    ensures var collected := Collected(p, parse);
      var l := ResolveSpec(s, at, EmailNormalizer.Normalize(p.email), Creator(p), collected);
      var n := Count(l.calls, Creation);
      var d := l.outcome.data;
      collected.tags.None? &&
      (n == 0 ==> d == collected) &&
      (n > 0 ==>
         d.tags == Some(Copies(CreatedTag, n)) &&
         d.email == Some(EmailNormalizer.Normalize(p.email)) &&
         d.firstName == Some(NameOr(p.userFirstName, p.metadataFirstName)) &&
         d.lastName == Some(NameOr(p.userLastName, p.metadataLastName))) &&
      d.phone == collected.phone && d.birthdate == collected.birthdate && d.billingAddress == collected.billingAddress
  {
    var collected := Collected(p, parse);
    var email := EmailNormalizer.Normalize(p.email);
    var l := ResolveSpec(s, at, email, Creator(p), collected);
    var n := Count(l.calls, Creation);
    RaiselyPersonDataFields(false, p.priv, parse);
    FieldsAmendedPerCreate(s, at, MaxAttempts, email, Creator(p), collected);
    if n > 0 {
      AmendedTags(Creator(p), collected, n);
      assert collected.tags.GetOr([]) + Copies(CreatedTag, n) == Copies(CreatedTag, n);
    }
  }

  /**
   * A 201 answer means the route's last call created the donation: for the
   * person the loop created, or for the matched person as the update
   * returned them; the payment's amount in cents, by credit card, on the
   * payment date, with the note and tracking slug made from the payment, and
   * the recurrence field, when one is configured, set to false.
   */
  lemma RecordedDonation(cfg: Config, req: Request, parse: string -> Option<ValidDate>, s: Script, at: Cursor, log: seq<Call>)
    ensures var r := Handle(cfg, req, parse, s, at, log);
      r.status == 201 ==>
        req.payment.Some? &&
        var p := req.payment.value;
        r.calls != [] && LastCall(r.calls).CreateDonationCall? &&
        var d := LastCall(r.calls).donation;
        var l := ResolveSpec(s, at, EmailNormalizer.Normalize(p.email), Creator(p), Collected(p, parse));
        l.outcome.Resolved? &&
        d.donorId == (if l.outcome.created then l.outcome.person.id
                      else Reply(s.updates, l.at.updates, PersonFailed).person.id) &&
        d.amountInCents == p.amount && d.paymentTypeName == "Credit Card" && d.succeededAt == p.date &&
        d.note == DonationNote(p.description, p.message) &&
        d.trackingCodeSlug == TrackingSlug(cfg.trackingMode, p.profileName) &&
        (d.recurrence.Some? <==> cfg.recurrenceField != "") &&
        (d.recurrence.Some? ==> d.recurrence.value == (cfg.recurrenceField, false))
  {
    GuardOrder(cfg, req, parse, s, at, log);
    if Guard(cfg, req).None? {
      var p := req.payment.value;
      var l := ResolveSpec(s, at, EmailNormalizer.Normalize(p.email), Creator(p), Collected(p, parse));
      GiveStep(s, l.at, log + l.calls, l.outcome, Recorder(cfg, p));
    }
  }
}
