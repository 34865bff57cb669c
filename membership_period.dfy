/**
 * The membership transitions of the two Raisely membership routes, once the
 * person's memberships are known: keep those with the target name, then
 * create, extend, cancel, leave alone, or refuse when the name is ambiguous.
 * Dates follow the `Date` arithmetic of EcmaDate; an expiry that leaves the
 * range of time values makes `toISOString` throw, which the route answers
 * with its catch-all 503.
 */
module MembershipPeriod {
  import opened Wrappers
  import opened EcmaDate
  import opened Crm
  import opened FieldMapping

  /** `memberships.filter(m => m.name === name)`, in order. */
  function WithName(ms: seq<Membership>, name: string): (r: seq<Membership>)
    ensures |r| <= |ms|
    ensures forall m :: m in r <==> m in ms && m.name == name
    ensures forall m {:trigger multiset(r)[m]} :: multiset(r)[m] == if m.name == name then multiset(ms)[m] else 0
  {
    if ms == [] then []
    else
      var head := if ms[0].name == name then [ms[0]] else [];
      assert ms == [ms[0]] + ms[1..];
      head + WithName(ms[1..], name)
  }

  /** What a membership payment does with the person's memberships. */
  datatype PaymentPlan =
      /** More than one membership with the name: nothing is written. */
    | Ambiguous
      /** None: create this one. */
    | CreateNew(membership: Membership)
      /** One, with no expiry: nothing to extend. */
    | NoEndDate
      /** One, with an expiry: write it back extended. */
    | Extend(membership: Membership)
      /** The new expiry is not a valid date, so formatting it throws before any write. */
    | DateOutOfRange

  /**
   * The date an existing membership is extended from: its expiry when that
   * parses and is strictly later than the payment, otherwise the payment
   * date (an expiry that does not parse is an Invalid Date, and `>` on it is
   * false).
   */
  function ExtensionBase(expiry: Option<ValidDate>, payment: ValidDate): ValidDate {
    if expiry.Some? && Later(expiry.value, payment) then expiry.value else payment
  }

  /** The new membership or the extended one for a payment of `months` months on `payment`. */
  function PlanPayment(ms: seq<Membership>, name: string, months: nat, message: string, payment: ValidDate,
                       parse: string -> Option<ValidDate>): PaymentPlan {
    var current := WithName(ms, name);
    if |current| > 1 then Ambiguous
    else if |current| == 0 then
      match ExtendBy(payment, months)
      case None => DateOutOfRange
      case Some(end) =>
        CreateNew(Membership(name, "active", message, Some(IsoSeconds(payment)), Some(IsoSeconds(end)), map[]))
    else
      var m := current[0];
      if !Truthy(m.expiresOn) then NoEndDate
      else
        match ExtendBy(ExtensionBase(parse(m.expiresOn.value), payment), months)
        case None => DateOutOfRange
        case Some(end) => Extend(m.(status := "active", statusReason := message, expiresOn := Some(IsoSeconds(end))))
  }

  /** Which plan applies depends only on how many memberships carry the name and whether the one has an expiry. */
  lemma PlanPaymentCases(ms: seq<Membership>, name: string, months: nat, message: string, payment: ValidDate,
                         parse: string -> Option<ValidDate>)
    ensures var current := WithName(ms, name);
      var plan := PlanPayment(ms, name, months, message, payment, parse);
      (plan.Ambiguous? <==> |current| > 1) &&
      (plan.CreateNew? ==> |current| == 0 && forall m :: m in ms ==> m.name != name) &&
      (plan.NoEndDate? <==> |current| == 1 && !Truthy(current[0].expiresOn)) &&
      (plan.Extend? ==> |current| == 1 && Truthy(current[0].expiresOn)) &&
      (|current| == 0 ==> plan.CreateNew? || plan.DateOutOfRange?)
  {
  }

  /**
   * A new membership is active, named, started on the payment date and
   * expiring `months` months and a day later, strictly after the payment.
   */
  lemma NewMembership(ms: seq<Membership>, name: string, months: nat, message: string, payment: ValidDate,
                      parse: string -> Option<ValidDate>)
    requires PlanPayment(ms, name, months, message, payment, parse).CreateNew?
    ensures var m := PlanPayment(ms, name, months, message, payment, parse).membership;
      var end := ExtendBy(payment, months);
      end.Some? && Later(end.value, payment) &&
      m.name == name && m.status == "active" && m.statusReason == message && m.extra == map[] &&
      m.startedAt == Some(IsoSeconds(payment)) && m.expiresOn == Some(IsoSeconds(end.value))
  {
    ExtendByLater(payment, months);
  }

  /** `>` on time values is transitive, also through an equal or later middle date. */
  lemma LaterThrough(a: ValidDate, b: ValidDate, c: ValidDate)
    ensures Later(a, b) && (Later(b, c) || b == c || !Later(c, b)) ==> Later(a, c)
  {
  }

  /**
   * An extended membership keeps every field but three: it is active, its
   * reason is the payment message, and its expiry is `months` months and a
   * day after the later of its prior expiry and the payment date, so strictly
   * after both.
   */
  lemma ExtendedMembership(ms: seq<Membership>, name: string, months: nat, message: string, payment: ValidDate,
                           parse: string -> Option<ValidDate>)
    requires PlanPayment(ms, name, months, message, payment, parse).Extend?
    ensures var prior := WithName(ms, name)[0];
      var m := PlanPayment(ms, name, months, message, payment, parse).membership;
      var expiry := parse(prior.expiresOn.value);
      var end := ExtendBy(ExtensionBase(expiry, payment), months);
      prior in ms && prior.name == name && Truthy(prior.expiresOn) && end.Some? &&
      m.name == prior.name && m.startedAt == prior.startedAt && m.extra == prior.extra &&
      m.status == "active" && m.statusReason == message && m.expiresOn == Some(IsoSeconds(end.value)) &&
      Later(end.value, payment) && (expiry.Some? ==> Later(end.value, expiry.value))
  {
    var prior := WithName(ms, name)[0];
    assert prior in WithName(ms, name);
    var expiry := parse(prior.expiresOn.value);
    var base := ExtensionBase(expiry, payment);
    ExtendByLater(base, months);
    var end := ExtendBy(base, months).value;
    LaterThrough(end, base, payment);
    if expiry.Some? {
      LaterThrough(end, base, expiry.value);
    }
  }

  /** A payment on 15 January 2024 for a first twelve-month membership runs to 16 January 2025. */
  lemma FirstMembershipExample(name: string, message: string, parse: string -> Option<ValidDate>)
    ensures var payment: ValidDate := DateTime(CivilDate(2024, 0, 15), 0);
      var plan := PlanPayment([], name, 12, message, payment, parse);
      plan.CreateNew? && plan.membership.expiresOn == Some("2025-01-16T00:00:00")
  {
    var payment: ValidDate := DateTime(CivilDate(2024, 0, 15), 0);
    TwelveMonthsAndADay(payment);
    IsoSecondsExample();
    var end := ExtendBy(payment, 12).value;
    assert end == DateTime(CivilDate(2025, 0, 16), 0);
  }

  /** What a cancellation does with the person's memberships. */
  datatype CancelPlan =
      /** More than one membership with the name: nothing is written. */
    | CancelAmbiguous
      /** None: nothing to cancel. */
    | NothingToCancel
      /** One: write it back cancelled. */
    | Cancel(membership: Membership)

  function PlanCancel(ms: seq<Membership>, name: string, message: string, updated: ValidDate): CancelPlan {
    var current := WithName(ms, name);
    if |current| > 1 then CancelAmbiguous
    else if |current| == 0 then NothingToCancel
    else Cancel(current[0].(status := "canceled", statusReason := message, expiresOn := Some(IsoSeconds(updated))))
  }

  /**
   * Ambiguous iff more than one membership has the name, nothing to do iff
   * none does; otherwise that membership is cancelled as of the event's
   * `updatedAt`, with no extra day, and keeps every other field.
   */
  lemma PlanCancelCases(ms: seq<Membership>, name: string, message: string, updated: ValidDate)
    ensures var current := WithName(ms, name);
      var plan := PlanCancel(ms, name, message, updated);
      (plan.CancelAmbiguous? <==> |current| > 1) &&
      (plan.NothingToCancel? <==> forall m :: m in ms ==> m.name != name) &&
      (plan.Cancel? ==>
        var prior := current[0];
        prior in ms && plan.membership.name == name &&
        plan.membership.startedAt == prior.startedAt && plan.membership.extra == prior.extra &&
        plan.membership.status == "canceled" && plan.membership.statusReason == message &&
        plan.membership.expiresOn == Some(IsoSeconds(updated)))
  {
    var current := WithName(ms, name);
    if |current| > 0 {
      assert current[0] in current;
    }
  }
}
