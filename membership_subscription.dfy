/**
 * The Raisely subscription route: a `subscription.cancelled` event cancels
 * the subscriber's membership. After the guard chain (where an event of
 * another type or status is acknowledged with 200 and ignored) the route
 * repairs the email, works out the membership name and the cancellation
 * message, looks the person up once (it never creates one), lists their
 * memberships, writes back the one with the name cancelled and finally tags
 * the person.
 */
module MembershipSubscription {
  import opened Wrappers
  import opened EcmaDate
  import opened Crm
  import EmailNormalizer
  import opened FieldMapping
  import opened MembershipPeriod
  import opened Webhook

  /** The route's settings: its activation token, the membership name and the optional shared secret. */
  datatype Config = Config(token: string, membershipName: string, secret: string)

  /**
   * The fields of the subscription the route reads, once the schema has
   * accepted it: `user.email` is `None` when the optional `user` object is
   * missing.
   */
  datatype Subscription = Subscription(
    status: string,
    email: Option<string>,
    updatedAt: ValidDate,
    profileName: Option<string>,
    description: Option<string>)

  /**
   * The webhook body: whether it carries `data`, the secret it sent, whether
   * it passes the schema, the event type and the subscription, which the
   * schema does not require.
   */
  datatype Request = Request(hasData: bool, secret: Option<string>, valid: bool, eventType: string, subscription: Option<Subscription>)

  const CancelledTag := "membership_cancelled_via_api"

  /** The person fields of the final update: the cancellation tag and nothing else. */
  const Tagged := NoFields.(tags := Some([CancelledTag]))

  /**
   * The guard chain in its order. Unlike the payment route, an event of
   * another type or a status other than "CANCELLED" is acknowledged with
   * 200 and ignored.
   */
  function Guard(cfg: Config, req: Request): Option<int> {
    if !req.hasData then Some(200)
    else if cfg.token == "" then Some(403)
    else if cfg.membershipName == "" then Some(403)
    else if SecretMismatch(cfg.secret, req.secret) then Some(403)
    else if !req.valid then Some(400)
    else if req.eventType != "subscription.cancelled" then Some(200)
    else if req.subscription.None? then Some(503)
    else if req.subscription.value.status != "CANCELLED" then Some(200)
    else None
  }

  /** The transition the route applies to the person's memberships once they are listed. */
  function Canceller(cfg: Config, sub: Subscription): seq<Membership> -> CancelPlan {
    var name := CampaignMembership(sub.profileName, cfg.membershipName).0;
    ms => PlanCancel(ms, name, CancelMessage(sub.description), sub.updatedAt)
  }

  /**
   * The whole route. A subscription without a `user` object makes reading
   * its email throw, which the catch-all answers with 503 before any call.
   */
  function Handle(cfg: Config, req: Request, s: Script, at: Cursor, log: seq<Call>): Response {
    match Guard(cfg, req)
    case Some(status) => Response(status, at, log)
    case None =>
      var sub := req.subscription.value;
      if sub.email.None? then Response(503, at, log)
      else Cancelled(s, at, log, EmailNormalizer.Normalize(sub.email.value), Canceller(cfg, sub))
  }

  /**
   * One lookup, no create: a lookup that throws is 404, nobody found is 200
   * (there is nothing to cancel), a person found goes on to the membership
   * step.
   */
  function Cancelled(s: Script, at: Cursor, log: seq<Call>, email: string, plan: seq<Membership> -> CancelPlan): Response {
    var m := Match(s, at, email);
    match m.value
    case MatchFailed => Response(404, m.at, log + m.calls)
    case NoMatch => Response(200, m.at, log + m.calls)
    case Found(person) => Cancellation(s, m.at, log + m.calls, person.id, plan)
  }

  /**
   * List the memberships (a failure is 500, a reply without results 503),
   * then act on the plan: write the cancelled membership back (a refusal is
   * 403) and only then tag the person (a failure is 404).
   */
  function Cancellation(s: Script, at: Cursor, log: seq<Call>, personId: int, plan: seq<Membership> -> CancelPlan): Response {
    var l := List(s, at, personId);
    var listed := log + l.calls;
    match l.value
    case ListFailed => Response(500, l.at, listed)
    case NoResults => Response(503, l.at, listed)
    case Listed(ms) =>
      match plan(ms)
      case CancelAmbiguous => Response(500, l.at, listed)
      case NothingToCancel => Response(200, l.at, listed)
      case Cancel(membership) =>
        var w := Store(s, l.at, UpdateMembershipCall(personId, membership));
        if !w.value then Response(403, w.at, listed + w.calls)
        else
          var u := Update(s, w.at, UpdatePersonCall(personId, Tagged));
          Response(if u.value.PersonOk? then 200 else 404, u.at, listed + w.calls + u.calls)
  }

  /** The route against the CRM stub: it answers and calls exactly as `Handle` says. */
  method HandleCancellation(dir: Directory, cfg: Config, req: Request) returns (status: int)
    modifies dir
    ensures var r := Handle(cfg, req, dir.script, old(dir.at), old(dir.calls));
      status == r.status && dir.at == r.at && dir.calls == r.calls
  {
    var guard := Guard(cfg, req);
    if guard.Some? {
      return guard.value;
    }
    var sub := req.subscription.value;
    if sub.email.None? {
      return 503;
    }
    var email := EmailNormalizer.Normalize(sub.email.value);
    var reply := dir.MatchByEmail(email);
    match reply {
      case MatchFailed =>
        return 404;
      case NoMatch =>
        return 200;
      case Found(person) =>
        status := CancelWith(dir, person.id, Canceller(cfg, sub));
    }
  }

  /** The membership step against the CRM stub. */
  method CancelWith(dir: Directory, personId: int, plan: seq<Membership> -> CancelPlan) returns (status: int)
    modifies dir
    ensures var r := Cancellation(dir.script, old(dir.at), old(dir.calls), personId, plan);
      status == r.status && dir.at == r.at && dir.calls == r.calls
  {
    var listed := dir.GetMemberships(personId);
    match listed {
      case ListFailed =>
        return 500;
      case NoResults =>
        return 503;
      case Listed(ms) =>
        match plan(ms) {
          case CancelAmbiguous =>
            return 500;
          case NothingToCancel =>
            return 200;
          case Cancel(membership) =>
            var accepted := dir.Write(UpdateMembershipCall(personId, membership));
            if !accepted {
              return 403;
            }
            var tagged := dir.UpdatePerson(UpdatePersonCall(personId, Tagged));
            status := if tagged.PersonOk? then 200 else 404;
        }
    }
  }

  // ---------------------------------------------------------------------------
  // What the route promises

  /**
   * The guards in their order: an empty body is answered 200, a missing
   * token or membership name 403, a wrong secret 403 only when one is
   * configured, a schema error 400, and another event type or status 200.
   * An event of the right type without its inner `data` object (the schema
   * leaves it optional) throws on reading the status: 503. A request
   * stopped by a guard, or one without a user, makes no CRM call.
   */
  lemma GuardOrder(cfg: Config, req: Request, s: Script, at: Cursor, log: seq<Call>)
    ensures var g := Guard(cfg, req);
      var sub := req.subscription;
      var gated := req.hasData && cfg.token != "" && cfg.membershipName != "";
      (!req.hasData ==> g == Some(200)) &&
      (req.hasData && (cfg.token == "" || cfg.membershipName == "") ==> g == Some(403)) &&
      (gated && cfg.secret == "" ==> g != Some(403)) &&
      (gated ==> (g == Some(403) <==> SecretMismatch(cfg.secret, req.secret))) &&
      (gated && !SecretMismatch(cfg.secret, req.secret) ==>
         (g == Some(400) <==> !req.valid) &&
         (req.valid ==>
            (g == Some(200) <==> req.eventType != "subscription.cancelled" || (sub.Some? && sub.value.status != "CANCELLED")) &&
            (g == Some(503) <==> req.eventType == "subscription.cancelled" && sub.None?))) &&
      (g.Some? ==> Handle(cfg, req, s, at, log) == Response(g.value, at, log)) &&
      (g.None? ==> sub.Some?) &&
      (g.None? && sub.Some? && sub.value.email.None? ==> Handle(cfg, req, s, at, log) == Response(503, at, log)) &&
      (g.None? && sub.Some? && sub.value.email.Some? ==>
         var email := EmailNormalizer.Normalize(sub.value.email.value);
         Handle(cfg, req, s, at, log) == Cancelled(s, at, log, email, Canceller(cfg, sub.value)))
  {
    SecretRule(cfg.secret, req.secret);
  }

  /**
   * The membership step with the subscription's transition: 500 exactly
   * when the listing failed or the name is ambiguous; no membership with
   * the name is 200 with nothing written; otherwise that one membership is
   * written back cancelled as of `updatedAt`, with no extra day, keeping its
   * other fields. The person is tagged only after that write was accepted;
   * a refused write is 403 with no person update.
   */
  lemma CancellationStep(s: Script, at: Cursor, log: seq<Call>, personId: int, cfg: Config, sub: Subscription)
    ensures var r := Cancellation(s, at, log, personId, Canceller(cfg, sub));
      var name := CampaignMembership(sub.profileName, cfg.membershipName).0;
      var reply := Reply(s.lists, at.lists, ListFailed);
      var listed := log + [GetMembershipsCall(personId)];
      var current := if reply.Listed? then WithName(reply.results, name) else [];
      listed <= r.calls && |r.calls| <= |listed| + 2 &&
      (r.status == 500 <==> reply.ListFailed? || |current| > 1) &&
      (reply.Listed? && |current| == 0 ==> r.status == 200 && r.calls == listed) &&
      (|r.calls| > |listed| <==> reply.Listed? && |current| == 1) &&
      (|r.calls| > |listed| ==>
         r.calls[|listed|].UpdateMembershipCall? && r.calls[|listed|].personId == personId &&
         var m := r.calls[|listed|].membership;
         current[0] in reply.results && m.name == name &&
         m.startedAt == current[0].startedAt && m.extra == current[0].extra &&
         m.status == "canceled" && m.statusReason == CancelMessage(sub.description) &&
         m.expiresOn == Some(IsoSeconds(sub.updatedAt))) &&
      (|r.calls| == |listed| + 1 ==> r.status == 403) &&
      (|r.calls| > |listed| ==> (|r.calls| == |listed| + 2 <==> Reply(s.writes, at.writes, false))) &&
      (|r.calls| == |listed| + 2 ==>
         r.calls[|listed| + 1] == UpdatePersonCall(personId, Tagged) &&
         r.status == (if Reply(s.updates, at.updates, PersonFailed).PersonOk? then 200 else 404))
  {
    var name := CampaignMembership(sub.profileName, cfg.membershipName).0;
    var reply := Reply(s.lists, at.lists, ListFailed);
    if reply.Listed? {
      var ms := reply.results;
      var plan := PlanCancel(ms, name, CancelMessage(sub.description), sub.updatedAt);
      assert Canceller(cfg, sub)(ms) == plan;
      PlanCancelCases(ms, name, CancelMessage(sub.description), sub.updatedAt);
      var current := WithName(ms, name);
      if |current| == 0 {
        assert plan.NothingToCancel?;
      } else if |current| == 1 {
        assert current[0] in current;
        assert plan.Cancel?;
        var r := Cancellation(s, at, log, personId, Canceller(cfg, sub));
        var listed := log + [GetMembershipsCall(personId)];
        if |r.calls| == |listed| + 2 {
          assert r.calls[|listed| + 1] == UpdatePersonCall(personId, Tagged);
        }
      }
    }
  }

  /** Whatever the transition, the membership step lists, then writes at most one membership, then updates the person at most once. */
  lemma CancellationShape(s: Script, at: Cursor, log: seq<Call>, personId: int, plan: seq<Membership> -> CancelPlan)
    ensures var r := Cancellation(s, at, log, personId, plan);
      var listed := log + [GetMembershipsCall(personId)];
      listed <= r.calls && |r.calls| <= |listed| + 2 &&
      (|r.calls| > |listed| ==> KindOf(r.calls[|listed|]) == Write) &&
      (|r.calls| == |listed| + 2 ==> KindOf(r.calls[|listed| + 1]) == PersonUpdate)
  {
  }

  /**
   * The route looks the person up exactly once and never creates one: a
   * lookup that throws is 404, nobody found is 200, and in both cases
   * nothing follows the lookup; a person found has their memberships listed
   * next.
   */
  lemma SingleLookup(s: Script, at: Cursor, log: seq<Call>, email: string, plan: seq<Membership> -> CancelPlan)
    ensures var r := Cancelled(s, at, log, email, plan);
      var reply := Reply(s.matches, at.matches, MatchFailed);
      var looked := log + [MatchCall(email)];
      looked <= r.calls &&
      Count(r.calls, Lookup) == Count(log, Lookup) + 1 && Count(r.calls, Creation) == Count(log, Creation) &&
      (reply.MatchFailed? ==> r.status == 404 && r.calls == looked) &&
      (reply.NoMatch? ==> r.status == 200 && r.calls == looked) &&
      (reply.Found? ==> |r.calls| > |looked| && r.calls[|looked|] == GetMembershipsCall(reply.person.id))
  {
    var r := Cancelled(s, at, log, email, plan);
    var reply := Reply(s.matches, at.matches, MatchFailed);
    var looked := log + [MatchCall(email)];
    if reply.Found? {
      CancellationShape(s, at.(matches := at.matches + 1), looked, reply.person.id, plan);
    }
    var rest := r.calls[|looked|..];
    assert r.calls == looked + rest;
    forall k | k == Lookup || k == Creation
      ensures Count(r.calls, k) == Count(log, k) + (if k == Lookup then 1 else 0)
    {
      CountAbsent(rest, k);
      CountOne(MatchCall(email), k);
      CountAppend(log, [MatchCall(email)], k);
      CountAppend(looked, rest, k);
    }
  }
}
