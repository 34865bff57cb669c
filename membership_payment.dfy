/**
 * The Raisely membership payment route: a `donation.succeeded` event
 * creates the payer's membership or extends it. After the guard chain the
 * route repairs the email, works out the membership name, length and
 * message from the campaign, collects the person's fields, finds or creates
 * the person, updates a matched one, lists their memberships and creates,
 * extends or leaves alone the one with the membership's name.
 */
module MembershipPayment {
  import opened Wrappers
  import opened EcmaDate
  import opened Crm
  import EmailNormalizer
  import opened FieldMapping
  import opened IdentityResolver
  import opened MembershipPeriod
  import opened Webhook

  /** The route's settings: its activation token, the membership name and the optional shared secret. */
  datatype Config = Config(token: string, membershipName: string, secret: string)

  /** The fields of the payment the route reads, once the schema has accepted it. */
  datatype Payment = Payment(
    status: string,
    email: string,
    date: ValidDate,
    processing: string,
    userFirstName: Option<string>,
    userLastName: Option<string>,
    metadataFirstName: Option<string>,
    metadataLastName: Option<string>,
    priv: Option<Private>,
    profileName: Option<string>,
    description: Option<string>)

  /**
   * The webhook body: whether it carries `data` at all, the secret it sent,
   * whether it passes the schema, the event type and the payment, which the
   * schema does not require.
   */
  datatype Request = Request(hasData: bool, secret: Option<string>, valid: bool, eventType: string, payment: Option<Payment>)

  const CreatedTag := "created_via_membership_payment"

  /** The guard chain in its order: the first check that fails decides the status, before any CRM call. */
  function Guard(cfg: Config, req: Request): Option<int> {
    if !req.hasData then Some(200)
    else if cfg.token == "" then Some(403)
    else if cfg.membershipName == "" then Some(403)
    else if SecretMismatch(cfg.secret, req.secret) then Some(403)
    else if !req.valid then Some(400)
    else if req.eventType != "donation.succeeded" then Some(400)
    else if req.payment.None? then Some(503)
    else if req.payment.value.status != "OK" then Some(400)
    else None
  }

  /** What a payment buys: the membership's name, its length in months, the reason written with it and the payment date. */
  datatype Terms = Terms(name: string, months: nat, message: string, date: ValidDate)

  function TermsOf(cfg: Config, p: Payment): Terms {
    var (name, months) := CampaignMembership(p.profileName, cfg.membershipName);
    Terms(name, months, PaymentMessage(months, p.description), p.date)
  }

  /** The transition the route applies to the person's memberships once they are listed. */
  function Planner(t: Terms, parse: string -> Option<ValidDate>): seq<Membership> -> PaymentPlan {
    ms => PlanPayment(ms, t.name, t.months, t.message, t.date, parse)
  }

  /** The email, names and tag the loop writes into the person fields before each create. */
  function Creator(p: Payment): CreateRecord {
    Amend(EmailNormalizer.Normalize(p.email), NameOr(p.userFirstName, p.metadataFirstName), NameOr(p.userLastName, p.metadataLastName),
          CreatedTag)
  }

  /** The person fields collected from the payment before the loop. */
  function Collected(p: Payment, parse: string -> Option<ValidDate>): PersonData {
    RaiselyPersonData(p.processing == "RECURRING", p.priv, parse)
  }

  /** The whole route, from the request, the CRM's replies and the log so far to the status and the log afterwards. */
  function Handle(cfg: Config, req: Request, parse: string -> Option<ValidDate>, s: Script, at: Cursor, log: seq<Call>): Response {
    match Guard(cfg, req)
    case Some(status) => Response(status, at, log)
    case None =>
      var p := req.payment.value;
      Paid(s, at, log, EmailNormalizer.Normalize(p.email), Creator(p), Collected(p, parse), Planner(TermsOf(cfg, p), parse))
  }

  /** The route once the guards pass: the match-or-create loop, then the rest. */
  function Paid(s: Script, at: Cursor, log: seq<Call>, email: string, how: CreateRecord, data: PersonData,
                plan: seq<Membership> -> PaymentPlan): Response {
    var l := ResolveSpec(s, at, email, how, data);
    Settle(s, l.at, log + l.calls, l.outcome, plan)
  }

  /** After the loop: no person is 404, a matched person is updated first (a failure is 404), then the membership step. */
  function Settle(s: Script, at: Cursor, log: seq<Call>, outcome: Resolution, plan: seq<Membership> -> PaymentPlan): Response {
    var r := Refresh(s, at, log, outcome);
    match r.value
    case None => Response(404, r.at, r.calls)
    case Some(person) => Memberships(s, r.at, r.calls, person.id, plan)
  }

  /**
   * The membership step: list the person's memberships (a failure is 500, a
   * reply without results makes the filter throw: 503), then act on the plan.
   */
  function Memberships(s: Script, at: Cursor, log: seq<Call>, personId: int, plan: seq<Membership> -> PaymentPlan): Response {
    var l := List(s, at, personId);
    var listed := log + l.calls;
    match l.value
    case ListFailed => Response(500, l.at, listed)
    case NoResults => Response(503, l.at, listed)
    case Listed(ms) =>
      match plan(ms)
      case Ambiguous => Response(500, l.at, listed)
      case NoEndDate => Response(200, l.at, listed)
      case DateOutOfRange => Response(503, l.at, listed)
      case CreateNew(m) => Written(s, l.at, listed, CreateMembershipCall(personId, m), 201)
      case Extend(m) => Written(s, l.at, listed, UpdateMembershipCall(personId, m), 200)
  }

  /** The route against the CRM stub: it answers and calls exactly as `Handle` says. */
  method HandlePayment(dir: Directory, cfg: Config, req: Request, parse: string -> Option<ValidDate>) returns (status: int)
    modifies dir
    ensures var r := Handle(cfg, req, parse, dir.script, old(dir.at), old(dir.calls));
      status == r.status && dir.at == r.at && dir.calls == r.calls
  {
    var guard := Guard(cfg, req);
    if guard.Some? {
      return guard.value;
    }
    var p := req.payment.value;
    var outcome := Resolve(dir, EmailNormalizer.Normalize(p.email), Creator(p), Collected(p, parse));
    status := SettleWith(dir, outcome, Planner(TermsOf(cfg, p), parse));
  }

  /** The steps after the loop against the CRM stub. */
  method SettleWith(dir: Directory, outcome: Resolution, plan: seq<Membership> -> PaymentPlan) returns (status: int)
    modifies dir
    ensures var r := Settle(dir.script, old(dir.at), old(dir.calls), outcome, plan);
      status == r.status && dir.at == r.at && dir.calls == r.calls
  {
    var person := RefreshPerson(dir, outcome);
    if person.None? {
      return 404;
    }
    status := RecordMembership(dir, person.value.id, plan);
  }

  /** The membership step against the CRM stub. */
  method RecordMembership(dir: Directory, personId: int, plan: seq<Membership> -> PaymentPlan) returns (status: int)
    modifies dir
    ensures var r := Memberships(dir.script, old(dir.at), old(dir.calls), personId, plan);
      status == r.status && dir.at == r.at && dir.calls == r.calls
  {
    var listed := dir.GetMemberships(personId);
    match listed {
      case ListFailed =>
        return 500;
      case NoResults =>
        return 503;
      case Listed(ms) =>
        match plan(ms) {
          case Ambiguous =>
            return 500;
          case NoEndDate =>
            return 200;
          case DateOutOfRange =>
            return 503;
          case CreateNew(m) =>
            status := WriteRecord(dir, CreateMembershipCall(personId, m), 201);
          case Extend(m) =>
            status := WriteRecord(dir, UpdateMembershipCall(personId, m), 200);
        }
    }
  }

  // ---------------------------------------------------------------------------
  // What the route promises

  /**
   * The guards in their order: an empty body is answered 200 before any
   * check, a missing token or membership name 403, a wrong secret 403 only
   * when one is configured, and a schema error, another event type or a
   * status other than "OK" 400. A payment event without its inner `data`
   * object (the schema leaves it optional) throws on reading the status:
   * 503. A request stopped by a guard makes no CRM call; one that passes
   * them all goes on to the loop.
   */
  lemma GuardOrder(cfg: Config, req: Request, parse: string -> Option<ValidDate>, s: Script, at: Cursor, log: seq<Call>)
    ensures var g := Guard(cfg, req);
      var p := req.payment;
      var gated := req.hasData && cfg.token != "" && cfg.membershipName != "";
      (!req.hasData ==> g == Some(200)) &&
      (req.hasData && (cfg.token == "" || cfg.membershipName == "") ==> g == Some(403)) &&
      (gated && cfg.secret == "" ==> g != Some(403)) &&
      (gated ==> (g == Some(403) <==> SecretMismatch(cfg.secret, req.secret))) &&
      (gated && !SecretMismatch(cfg.secret, req.secret) ==>
         (g == Some(400) <==> !req.valid || req.eventType != "donation.succeeded" || (p.Some? && p.value.status != "OK")) &&
         (g == Some(503) <==> req.valid && req.eventType == "donation.succeeded" && p.None?)) &&
      (g.Some? ==> Handle(cfg, req, parse, s, at, log) == Response(g.value, at, log)) &&
      (g.None? ==>
         p.Some? &&
         var email, how, data := EmailNormalizer.Normalize(p.value.email), Creator(p.value), Collected(p.value, parse);
         Handle(cfg, req, parse, s, at, log) == Paid(s, at, log, email, how, data, Planner(TermsOf(cfg, p.value), parse)))
  {
    SecretRule(cfg.secret, req.secret);
  }

  /**
   * Whatever the transition, the membership step lists the memberships once
   * and then writes at most one, a create or an update of one of the
   * person's memberships, and never answers 404.
   */
  lemma MembershipShape(s: Script, at: Cursor, log: seq<Call>, personId: int, plan: seq<Membership> -> PaymentPlan)
    ensures var r := Memberships(s, at, log, personId, plan);
      var listed := log + [GetMembershipsCall(personId)];
      listed <= r.calls && |r.calls| <= |listed| + 1 && r.status != 404 &&
      (|r.calls| > |listed| ==> KindOf(r.calls[|listed|]) == Write && r.status in {200, 201, 403})
  {
  }

  /**
   * The membership step with the payment's transition: 500 exactly when the
   * listing failed or the name is ambiguous; one membership with the name
   * and no expiry is left alone with 200; a create happens exactly when no
   * membership has the name (and the new expiry is a valid date), and the
   * created membership is active, starts on the payment date and expires
   * months and a day later; an update extends the one membership with the
   * name and keeps its other fields. A write is answered 201 or 200 when the
   * CRM accepts it and 403 otherwise.
   */
  lemma MembershipStep(s: Script, at: Cursor, log: seq<Call>, personId: int, t: Terms, parse: string -> Option<ValidDate>)
    ensures var r := Memberships(s, at, log, personId, Planner(t, parse));
      var reply := Reply(s.lists, at.lists, ListFailed);
      var listed := log + [GetMembershipsCall(personId)];
      var current := if reply.Listed? then WithName(reply.results, t.name) else [];
      var wrote := |r.calls| > |listed|;
      listed <= r.calls && |r.calls| <= |listed| + 1 &&
      (r.status == 500 <==> reply.ListFailed? || |current| > 1) &&
      (reply.Listed? && |current| == 1 && !Truthy(current[0].expiresOn) ==> r.status == 200 && !wrote) &&
      (!wrote ==> r.status in {200, 500, 503}) &&
      (wrote ==> var w := r.calls[|listed|];
         (w.CreateMembershipCall? || w.UpdateMembershipCall?) && w.personId == personId &&
         r.status == (if Reply(s.writes, at.writes, false) then (if w.CreateMembershipCall? then 201 else 200) else 403) &&
         w.membership.status == "active" && w.membership.statusReason == t.message) &&
      (wrote && r.calls[|listed|].CreateMembershipCall? <==>
         reply.Listed? && |current| == 0 && ExtendBy(t.date, t.months).Some?) &&
      (wrote && r.calls[|listed|].CreateMembershipCall? ==>
         var m := r.calls[|listed|].membership;
         var end := ExtendBy(t.date, t.months);
         (forall other :: other in reply.results ==> other.name != t.name) &&
         end.Some? && Later(end.value, t.date) &&
         m.name == t.name && m.extra == map[] && m.startedAt == Some(IsoSeconds(t.date)) &&
         m.expiresOn == Some(IsoSeconds(end.value))) &&
      (wrote && r.calls[|listed|].UpdateMembershipCall? ==>
         var m := r.calls[|listed|].membership;
         |current| == 1 && current[0] in reply.results && Truthy(current[0].expiresOn) &&
         var expiry := parse(current[0].expiresOn.value);
         var end := ExtendBy(ExtensionBase(expiry, t.date), t.months);
         m.name == current[0].name && m.startedAt == current[0].startedAt && m.extra == current[0].extra &&
         end.Some? && m.expiresOn == Some(IsoSeconds(end.value)) && Later(end.value, t.date) &&
         (expiry.Some? ==> Later(end.value, expiry.value)))
  {
    var reply := Reply(s.lists, at.lists, ListFailed);
    if reply.Listed? {
      var ms := reply.results;
      PlanPaymentCases(ms, t.name, t.months, t.message, t.date, parse);
      var plan := PlanPayment(ms, t.name, t.months, t.message, t.date, parse);
      if plan.CreateNew? {
        NewMembership(ms, t.name, t.months, t.message, t.date, parse);
      } else if plan.Extend? {
        ExtendedMembership(ms, t.name, t.months, t.message, t.date, parse);
      }
    }
  }

  /**
   * After the loop: without a person the route answers 404 and calls nothing
   * more. A matched person is updated first (a created one is not); an
   * update the CRM does not answer with the person is 404 and stops the
   * route. Only a person the CRM returned, the created one or the updated
   * one, reaches the membership step: one listing of that person's
   * memberships and at most one membership write. A 404 after the loop means
   * neither happened.
   */
  lemma SettleStep(s: Script, at: Cursor, log: seq<Call>, outcome: Resolution, plan: seq<Membership> -> PaymentPlan)
    ensures var r := Settle(s, at, log, outcome, plan);
      var matched := outcome.Resolved? && !outcome.created;
      var updated := if matched then log + [UpdatePersonCall(outcome.person.id, outcome.data)] else log;
      (!outcome.Resolved? ==> r == Response(404, at, log)) &&
      updated <= r.calls && |r.calls| <= |updated| + 2 &&
      (|r.calls| > |updated| ==> r.calls[|updated|].GetMembershipsCall? && r.status != 404) &&
      (|r.calls| == |updated| + 2 ==> KindOf(r.calls[|updated| + 1]) == Write && r.status in {200, 201, 403}) &&
      (r.status == 404 ==> r.calls == updated) &&
      var reply := Reply(s.updates, at.updates, PersonFailed);
      var member := if matched then (if reply.PersonOk? then Some(reply.person) else None)
                    else if outcome.Resolved? then Some(outcome.person) else None;
      (member.None? ==> r.status == 404 && r.calls == updated) &&
      (member.Some? ==> r.status != 404 && |r.calls| > |updated| && r.calls[|updated|] == GetMembershipsCall(member.value.id))
  {
    var rr := Refresh(s, at, log, outcome);
    RefreshCases(s, at, log, outcome, Lookup);
    if rr.value.Some? {
      var pid := rr.value.value.id;
      var m := Memberships(s, rr.at, rr.calls, pid, plan);
      MembershipShape(s, rr.at, rr.calls, pid, plan);
      var listed := rr.calls + [GetMembershipsCall(pid)];
      assert m.calls[..|listed|] == listed;
      assert m.calls[|rr.calls|] == listed[|rr.calls|];
    }
  }

  /** The calls after the person update: a listing, then at most one write. */
  lemma TailCounts(updated: seq<Call>, calls: seq<Call>, k: Kind)
    requires updated <= calls && |calls| <= |updated| + 2
    requires |calls| > |updated| ==> calls[|updated|].GetMembershipsCall?
    requires |calls| == |updated| + 2 ==> KindOf(calls[|updated| + 1]) == Write
    ensures Count(calls, k) == Count(updated, k) +
      (if k == Listing && |calls| > |updated| then 1 else if k == Write && |calls| == |updated| + 2 then 1 else 0)
  {
    var rest := calls[|updated|..];
    assert calls == updated + rest;
    CountAppend(updated, rest, k);
    if rest != [] {
      CountOne(rest[0], k);
      if |rest| == 2 {
        CountAppend([rest[0]], [rest[1]], k);
        CountOne(rest[1], k);
        assert rest == [rest[0]] + [rest[1]];
      } else {
        assert rest == [rest[0]];
      }
    }
  }

  /** A payment that passed the guards starts its calls with the lookup for the repaired email. */
  lemma PaidStartsWithLookup(s: Script, at: Cursor, log: seq<Call>, email: string, how: CreateRecord, data: PersonData,
                             plan: seq<Membership> -> PaymentPlan)
    ensures var r := Paid(s, at, log, email, how, data, plan);
      log < r.calls && r.calls[|log|] == MatchCall(email)
  {
    var l := ResolveSpec(s, at, email, how, data);
    var looped := log + l.calls;
    FirstCallIsLookup(s, at, email, how, data);
    assert looped[|log|] == l.calls[0];
    SettleStep(s, l.at, looped, l.outcome, plan);
  }

  /** The calls after the loop: the person update when matched, one listing and one write at most. */
  lemma SettleCalls(s: Script, at: Cursor, log: seq<Call>, outcome: Resolution, plan: seq<Membership> -> PaymentPlan, k: Kind)
    ensures var r := Settle(s, at, log, outcome, plan);
      var matched := outcome.Resolved? && !outcome.created;
      (k == Lookup || k == Creation ==> Count(r.calls, k) == Count(log, k)) &&
      (k == PersonUpdate ==> Count(r.calls, k) == Count(log, k) + (if matched then 1 else 0)) &&
      (k == Listing || k == Write ==> Count(r.calls, k) <= Count(log, k) + 1) &&
      (r.status !in {200, 201, 403} ==> Count(r.calls, Write) == Count(log, Write))
  {
    var r := Settle(s, at, log, outcome, plan);
    SettleStep(s, at, log, outcome, plan);
    var matched := outcome.Resolved? && !outcome.created;
    var update := if matched then [UpdatePersonCall(outcome.person.id, outcome.data)] else [];
    UpdatedCounts(log, [], update, k);
    UpdatedCounts(log, [], update, Write);
    assert log + [] == log;
    TailCounts(log + [] + update, r.calls, k);
    TailCounts(log + [] + update, r.calls, Write);
  }

  /**
   * The calls of a payment that passed the guards, whatever the transition:
   * at most three lookups and three creates; `updatePerson` exactly once
   * when the loop matched the person and never otherwise; at most one
   * listing and at most one membership write, so an event never both
   * creates and updates a membership; and an answer other than 200, 201 or
   * 403 comes with no write at all.
   */
  lemma PaidCalls(s: Script, at: Cursor, log: seq<Call>, email: string, how: CreateRecord, data: PersonData,
                  plan: seq<Membership> -> PaymentPlan, k: Kind)
    ensures var r := Paid(s, at, log, email, how, data, plan);
      var l := ResolveSpec(s, at, email, how, data);
      var matched := l.outcome.Resolved? && !l.outcome.created;
      Count(r.calls, k) <= Count(log, k) + (if k == Lookup || k == Creation then MaxAttempts else 1) &&
      (k == PersonUpdate ==> Count(r.calls, k) == Count(log, k) + (if matched then 1 else 0)) &&
      (r.status !in {200, 201, 403} ==> Count(r.calls, Write) == Count(log, Write))
  {
    var l := ResolveSpec(s, at, email, how, data);
    SettleCalls(s, l.at, log + l.calls, l.outcome, plan, k);
    SettleCalls(s, l.at, log + l.calls, l.outcome, plan, Write);
    CountAppend(log, l.calls, k);
    CountAppend(log, l.calls, Write);
    AttemptsBounded(s, at, MaxAttempts, email, how, data, k);
    AttemptsBounded(s, at, MaxAttempts, email, how, data, Write);
  }

  /**
   * A loop that ends without a person is answered 404 and nothing is called
   * after it: a lookup that threw is the last call, and three failed creates
   * mean exactly three lookups and three creates. A 404, for this reason or
   * a failed person update, never comes with a listing or a membership write.
   */
  lemma PaidWithoutPerson(s: Script, at: Cursor, log: seq<Call>, email: string, how: CreateRecord, data: PersonData,
                          plan: seq<Membership> -> PaymentPlan)
    ensures var r := Paid(s, at, log, email, how, data, plan);
      var l := ResolveSpec(s, at, email, how, data);
      (!l.outcome.Resolved? ==> r == Response(404, l.at, log + l.calls)) &&
      (l.outcome.LookupFailed? ==> r.calls != [] && LastCall(r.calls) == MatchCall(email)) &&
      (l.outcome.Unresolved? ==>
         Count(r.calls, Lookup) == Count(log, Lookup) + MaxAttempts &&
         Count(r.calls, Creation) == Count(log, Creation) + MaxAttempts) &&
      (r.status == 404 ==> Count(r.calls, Listing) == Count(log, Listing) && Count(r.calls, Write) == Count(log, Write))
  {
    var l := ResolveSpec(s, at, email, how, data);
    var r := Paid(s, at, log, email, how, data, plan);
    SettleStep(s, l.at, log + l.calls, l.outcome, plan);
    LookupFailureIsLast(s, at, MaxAttempts, email, how, data);
    if l.outcome.LookupFailed? {
      assert LastCall(log + l.calls) == LastCall(l.calls);
    }
    forall k: Kind
      ensures Count(log + l.calls, k) == Count(log, k) + Count(l.calls, k)
      ensures l.outcome.Unresolved? && (k == Lookup || k == Creation) ==> Count(l.calls, k) == MaxAttempts
      ensures k == Listing || k == Write ==> Count(l.calls, k) == 0
    {
      CountAppend(log, l.calls, k);
      AttemptsBounded(s, at, MaxAttempts, email, how, data, k);
    }
    if r.status == 404 {
      var matched := l.outcome.Resolved? && !l.outcome.created;
      var update := if matched then [UpdatePersonCall(l.outcome.person.id, l.outcome.data)] else [];
      UpdatedCounts(log, l.calls, update, Listing);
      UpdatedCounts(log, l.calls, update, Write);
    }
  }

  /**
   * The person fields the route sends, to a create or to the update of a
   * matched person: with no create attempt they are the fields collected
   * from the payment, whose tags are "recurring_membership" exactly for a
   * recurring payment; every create attempt writes the repaired email and
   * the payer's names into them and appends one more
   * "created_via_membership_payment" tag, so failed attempts leave
   * duplicates behind. The phone, birthdate and billing address stay as
   * collected.
   */
  lemma PaymentFields(p: Payment, parse: string -> Option<ValidDate>, s: Script, at: Cursor)
    ensures var collected := Collected(p, parse);
      var l := ResolveSpec(s, at, EmailNormalizer.Normalize(p.email), Creator(p), collected);
      var n := Count(l.calls, Creation);
      var d := l.outcome.data;
      (collected.tags.Some? <==> p.processing == "RECURRING") &&
      (p.processing == "RECURRING" ==> collected.tags == Some(["recurring_membership"])) &&
      (n == 0 ==> d == collected) &&
      (n > 0 ==>
         d.tags == Some(collected.tags.GetOr([]) + Copies(CreatedTag, n)) &&
         d.email == Some(EmailNormalizer.Normalize(p.email)) &&
         d.firstName == Some(NameOr(p.userFirstName, p.metadataFirstName)) &&
         d.lastName == Some(NameOr(p.userLastName, p.metadataLastName))) &&
      d.phone == collected.phone && d.birthdate == collected.birthdate && d.billingAddress == collected.billingAddress
  {
    var collected := Collected(p, parse);
    var email := EmailNormalizer.Normalize(p.email);
    var l := ResolveSpec(s, at, email, Creator(p), collected);
    var n := Count(l.calls, Creation);
    RaiselyPersonDataFields(p.processing == "RECURRING", p.priv, parse);
    FieldsAmendedPerCreate(s, at, MaxAttempts, email, Creator(p), collected);
    if n > 0 {
      AmendedTags(Creator(p), collected, n);
    }
  }

  /**
   * A 201 answer means the route's last call created the payer's
   * membership: named after the campaign, active, started on the payment
   * date and expiring the campaign's number of months and a day later.
   */
  lemma CreatedMembership(cfg: Config, req: Request, parse: string -> Option<ValidDate>, s: Script, at: Cursor, log: seq<Call>)
    ensures var r := Handle(cfg, req, parse, s, at, log);
      r.status == 201 ==>
        req.payment.Some? &&
        var p := req.payment.value;
        var t := TermsOf(cfg, p);
        var end := ExtendBy(p.date, t.months);
        r.calls != [] && LastCall(r.calls).CreateMembershipCall? &&
        var m := LastCall(r.calls).membership;
        m.name == t.name && m.status == "active" && m.statusReason == t.message &&
        m.startedAt == Some(IsoSeconds(p.date)) &&
        end.Some? && m.expiresOn == Some(IsoSeconds(end.value)) && Later(end.value, p.date)
  {
    GuardOrder(cfg, req, parse, s, at, log);
    if Guard(cfg, req).None? {
      var p := req.payment.value;
      var t := TermsOf(cfg, p);
      var l := ResolveSpec(s, at, EmailNormalizer.Normalize(p.email), Creator(p), Collected(p, parse));
      var rr := Refresh(s, l.at, log + l.calls, l.outcome);
      if rr.value.Some? {
        MembershipStep(s, rr.at, rr.calls, rr.value.value.id, t, parse);
      }
    }
  }
}
