/**
 * The Action Network route: a petition signature or form submission makes
 * sure the signer is a person in the CRM. The route takes the signature (or
 * else the submission) of the first item, picks its email and postal
 * address, finds or creates the person with a freshly built record that
 * carries the item's tags, and adds those tags to a person it found.
 */
module ActionNetwork {
  import opened Wrappers
  import opened Crm
  import EmailNormalizer
  import opened FieldMapping
  import opened IdentityResolver
  import opened Webhook

  /** The person of a signature or submission; a missing address list is empty. */
  datatype Signer = Signer(
    givenName: Option<string>,
    familyName: Option<string>,
    emails: seq<EmailAddress>,
    postal: seq<PostalAddress>)

  /** A signature or a submission: the signer and the `add_tags` list, when there is one. */
  datatype Action = Action(person: Signer, addTags: Option<seq<string>>)

  /**
   * The first item of the body: whether the body passes the schema, and its
   * `osdi:signature` and `osdi:submission` objects when present.
   */
  datatype Request = Request(valid: bool, signature: Option<Action>, submission: Option<Action>)

  /**
   * The token check comes first (the route has no empty-body check), then
   * the schema.
   */
  function Guard(token: string, req: Request): Option<int> {
    if token == "" then Some(403)
    else if !req.valid then Some(400)
    else None
  }

  /** The signature when there is one, else the submission. */
  function Selected(req: Request): Option<Action> {
    if req.signature.Some? then req.signature else req.submission
  }

  /** The address of the email the route uses: the first one's, whenever any is marked primary. */
  function EmailOf(p: Signer): Option<string> {
    var e := FirstIfAnyPrimary(p.emails, (e: EmailAddress) => e.primary);
    if e.Some? then e.value.address else None
  }

  /** The record every create attempt sends: repaired email, names or "Unknown", the tags and the home address. */
  function Record(email: string, a: Action): PersonData {
    var addr := FirstIfAnyPrimary(a.person.postal, (p: PostalAddress) => p.primary);
    var country := if addr.Some? then addr.value.country else None;
    var code := if addr.Some? then addr.value.postalCode else None;
    NewPerson(email, a.person.givenName, a.person.familyName, a.addTags.GetOr([]), PostCode(code, country), country)
  }

  /**
   * The whole route. Without a signature or submission, reading its person
   * throws: 503. Without an email the route answers 400 but does not return,
   * and repairing the missing email then throws, so no CRM call follows.
   */
  function Handle(token: string, req: Request, s: Script, at: Cursor, log: seq<Call>): Response {
    match Guard(token, req)
    case Some(status) => Response(status, at, log)
    case None =>
      match Selected(req)
      case None => Response(503, at, log)
      case Some(a) =>
        var address := EmailOf(a.person);
        if !Truthy(address) then Response(400, at, log)
        else
          var email := EmailNormalizer.Normalize(address.value);
          Joined(s, at, log, email, Record(email, a), a.addTags.GetOr([]))
  }

  /** The route once it has an email: the match-or-create loop, then the tags. */
  function Joined(s: Script, at: Cursor, log: seq<Call>, email: string, record: PersonData, tags: seq<string>): Response {
    var l := ResolveSpec(s, at, email, Fresh(record), NoFields);
    TagFound(s, l.at, log + l.calls, l.outcome, tags)
  }

  /**
   * After the loop: no person is 404. A person found (not created) is sent
   * back whole with the tags appended to their own, when there are tags; a
   * failed update is 404. Otherwise 200.
   */
  function TagFound(s: Script, at: Cursor, log: seq<Call>, outcome: Resolution, tags: seq<string>): Response {
    match outcome
    case Resolved(person, created, _) =>
      if !created && |tags| > 0 then
        var u := Update(s, at, UpdateRecordCall(person.id, person.(tags := person.tags + tags)));
        Response(if u.value.PersonOk? then 200 else 404, u.at, log + u.calls)
      else Response(200, at, log)
    case _ => Response(404, at, log)
  }

  /** The route against the CRM stub: it answers and calls exactly as `Handle` says. */
  method HandleAction(dir: Directory, token: string, req: Request) returns (status: int)
    modifies dir
    ensures var r := Handle(token, req, dir.script, old(dir.at), old(dir.calls));
      status == r.status && dir.at == r.at && dir.calls == r.calls
  {
    var guard := Guard(token, req);
    if guard.Some? {
      return guard.value;
    }
    var selected := Selected(req);
    if selected.None? {
      return 503;
    }
    var a := selected.value;
    var address := EmailOf(a.person);
    if !Truthy(address) {
      return 400;
    }
    var email := EmailNormalizer.Normalize(address.value);
    var outcome := Resolve(dir, email, Fresh(Record(email, a)), NoFields);
    status := TagWith(dir, outcome, a.addTags.GetOr([]));
  }

  /** The tag step against the CRM stub. */
  method TagWith(dir: Directory, outcome: Resolution, tags: seq<string>) returns (status: int)
    modifies dir
    ensures var r := TagFound(dir.script, old(dir.at), old(dir.calls), outcome, tags);
      status == r.status && dir.at == r.at && dir.calls == r.calls
  {
    if !outcome.Resolved? {
      return 404;
    }
    var person := outcome.person;
    if outcome.created || |tags| == 0 {
      return 200;
    }
    var reply := dir.UpdatePerson(UpdateRecordCall(person.id, person.(tags := person.tags + tags)));
    status := if reply.PersonOk? then 200 else 404;
  }

  // ---------------------------------------------------------------------------
  // What the route promises

  /**
   * The guards in their order: a missing token is 403 whatever the body, a
   * schema error 400; a body with neither a signature nor a submission is
   * 503 and one without a usable email 400, all before any CRM call. A
   * signature wins over a submission in the same item.
   */
  lemma GuardOrder(token: string, req: Request, s: Script, at: Cursor, log: seq<Call>)
    ensures var r := Handle(token, req, s, at, log);
      (token == "" ==> r == Response(403, at, log)) &&
      (token != "" && !req.valid ==> r == Response(400, at, log)) &&
      (token != "" && req.valid && req.signature.None? && req.submission.None? ==> r == Response(503, at, log)) &&
      (req.signature.Some? ==> Selected(req) == req.signature) &&
      (req.signature.None? ==> Selected(req) == req.submission) &&
      (token != "" && req.valid && Selected(req).Some? && !Truthy(EmailOf(Selected(req).value.person)) ==>
         r == Response(400, at, log)) &&
      (r.status == 400 || r.status == 403 || r.status == 503 <==> r.calls == log)
  {
    var r := Handle(token, req, s, at, log);
    if Guard(token, req).None? && Selected(req).Some? {
      var a := Selected(req).value;
      var address := EmailOf(a.person);
      if Truthy(address) {
        var email := EmailNormalizer.Normalize(address.value);
        JoinedCalls(s, at, log, email, Record(email, a), a.addTags.GetOr([]), Lookup);
      }
    }
  }

  /**
   * The email is taken from the first entry exactly when some entry is
   * marked primary, whichever entry that is; otherwise there is none.
   */
  lemma EmailChoice(p: Signer)
    ensures var e := EmailOf(p);
      (e.Some? ==> |p.emails| > 0 && e == p.emails[0].address &&
                   exists i :: 0 <= i < |p.emails| && p.emails[i].primary) &&
      ((exists i :: 0 <= i < |p.emails| && p.emails[i].primary) ==> e == p.emails[0].address) &&
      ((forall i :: 0 <= i < |p.emails| ==> !p.emails[i].primary) ==> e.None?)
  {
    FirstIfAnyPrimaryCases(p.emails, (e: EmailAddress) => e.primary);
  }

  /**
   * The tag step: no person is 404; a created person, or a found one with no
   * tags to add, is 200 with no call; a found person with tags is sent back
   * once, with the same id and fields and their own tags followed by the new
   * ones, and the answer is 200 exactly when the CRM returns the person.
   */
  lemma TagStep(s: Script, at: Cursor, log: seq<Call>, outcome: Resolution, tags: seq<string>)
    ensures var r := TagFound(s, at, log, outcome, tags);
      var tagging := outcome.Resolved? && !outcome.created && |tags| > 0;
      (!outcome.Resolved? ==> r.status == 404 && r.calls == log) &&
      (outcome.Resolved? && !tagging ==> r.status == 200 && r.calls == log) &&
      (tagging ==>
         |r.calls| == |log| + 1 && log < r.calls && r.calls[|log|].UpdateRecordCall? &&
         var sent := r.calls[|log|].record;
         r.calls[|log|].id == outcome.person.id &&
         sent.id == outcome.person.id && sent.rest == outcome.person.rest &&
         |sent.tags| == |outcome.person.tags| + |tags| &&
         sent.tags[..|outcome.person.tags|] == outcome.person.tags && sent.tags[|outcome.person.tags|..] == tags &&
         (r.status == 200 <==> Reply(s.updates, at.updates, PersonFailed).PersonOk?) &&
         (r.status != 200 ==> r.status == 404))
  {
    if outcome.Resolved? && !outcome.created && |tags| > 0 {
      var sent := outcome.person.tags + tags;
      assert sent[..|outcome.person.tags|] == outcome.person.tags;
      assert sent[|outcome.person.tags|..] == tags;
    }
  }

  /**
   * The calls once the route has an email: at most three lookups and three
   * creates, at most one person update (exactly when a found person has tags
   * to add), never a membership or donation call, and the answer is 200 or
   * 404.
   */
  lemma JoinedCalls(s: Script, at: Cursor, log: seq<Call>, email: string, record: PersonData, tags: seq<string>, k: Kind)
    ensures var r := Joined(s, at, log, email, record, tags);
      var l := ResolveSpec(s, at, email, Fresh(record), NoFields);
      var tagging := l.outcome.Resolved? && !l.outcome.created && |tags| > 0;
      (r.status == 200 || r.status == 404) && log < r.calls &&
      (k == Lookup || k == Creation ==> Count(r.calls, k) <= Count(log, k) + MaxAttempts) &&
      (k == PersonUpdate ==> Count(r.calls, k) == Count(log, k) + (if tagging then 1 else 0)) &&
      (k == Listing || k == Write ==> Count(r.calls, k) == Count(log, k))
  {
    var l := ResolveSpec(s, at, email, Fresh(record), NoFields);
    var looped := log + l.calls;
    var r := TagFound(s, l.at, looped, l.outcome, tags);
    FirstCallIsLookup(s, at, email, Fresh(record), NoFields);
    TagStep(s, l.at, looped, l.outcome, tags);
    CountAppend(log, l.calls, k);
    AttemptsBounded(s, at, MaxAttempts, email, Fresh(record), NoFields, k);
    if |r.calls| > |looped| {
      var u := r.calls[|looped|];
      assert r.calls == looped + [u];
      CountAppend(looped, [u], k);
      CountOne(u, k);
    }
  }

  /**
   * Every create the route makes sends the same record: the repaired email,
   * the given and family names or "Unknown", the item's tags (or none) and
   * a home address with the post code cut to ten characters (dropped for a
   * US code shorter than five) and the country code, each only when set.
   */
  lemma CreatesSendRecord(s: Script, at: Cursor, log: seq<Call>, email: string, a: Action)
    ensures var record := Record(email, a);
      var l := ResolveSpec(s, at, email, Fresh(record), NoFields);
      CreatesSend(l.calls, record) &&
      record.email == Some(email) && record.tags == Some(a.addTags.GetOr([])) &&
      record.firstName == Some(a.person.givenName.GetOr("Unknown")) &&
      record.lastName == Some(a.person.familyName.GetOr("Unknown")) &&
      record.phone.None? && record.birthdate.None? && record.billingAddress.None? &&
      var addr := FirstIfAnyPrimary(a.person.postal, (p: PostalAddress) => p.primary);
      var country := if addr.Some? then addr.value.country else None;
      var code := if addr.Some? then addr.value.postalCode else None;
      (record.homeAddress.Some? ==> "zip" in record.homeAddress.value ==>
         |record.homeAddress.value["zip"]| <= 10 && (country == Some("US") ==> |record.homeAddress.value["zip"]| >= 5)) &&
      (record.homeAddress.Some? <==> Truthy(PostCode(code, country)) || Truthy(country))
  {
    var record := Record(email, a);
    FreshCreates(s, at, MaxAttempts, email, Fresh(record), NoFields);
    var addr := FirstIfAnyPrimary(a.person.postal, (p: PostalAddress) => p.primary);
    var country := if addr.Some? then addr.value.country else None;
    var code := if addr.Some? then addr.value.postalCode else None;
    PostCodeRule(code, country);
    HomeAddressFields(PostCode(code, country), country);
  }
}
