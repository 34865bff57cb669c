/**
 * What the four routes share: the response a route sends together with the
 * CRM calls it made, the optional shared-secret check, the step between the
 * match-or-create loop and a Raisely route's own work (a matched person is
 * first updated with the fields the route collected), and a record write
 * whose refusal is answered with 403.
 */
module Webhook {
  import opened Wrappers
  import opened Crm
  import opened IdentityResolver

  /**
   * The status a route answers with, how far it read the CRM's replies, and
   * the call log as it stands afterwards. Every stretch of a route takes the
   * log as it found it and extends it, so the stretches compose by passing
   * the log on.
   */
  datatype Response = Response(status: int, at: Cursor, calls: seq<Call>)

  /**
   * `SECRET && body.secret !== SECRET`: with a secret configured, the body
   * must carry exactly that secret; without one, nothing is checked.
   */
  predicate SecretMismatch(configured: string, sent: Option<string>) {
    configured != "" && sent != Some(configured)
  }

  /** A secret that is not configured never rejects; a configured one rejects every other value and a missing one. */
  lemma SecretRule(configured: string, sent: Option<string>)
    ensures configured == "" ==> !SecretMismatch(configured, sent)
    ensures configured != "" ==> (SecretMismatch(configured, sent) <==> sent.None? || sent.value != configured)
  {
  }

  /**
   * After the loop of a Raisely route: a matched person is updated with the
   * collected fields and replaced by the person in the CRM's reply, a
   * created one is used as it is, and no person or a failed update leaves
   * `None`.
   */
  function Refresh(s: Script, at: Cursor, log: seq<Call>, outcome: Resolution): Run<Option<Person>> {
    match outcome
    case Resolved(person, created, data) =>
      if created then Run(Some(person), at, log)
      else
        var u := Update(s, at, UpdatePersonCall(person.id, data));
        Run(if u.value.PersonOk? then Some(u.value.person) else None, u.at, log + u.calls)
    case _ => Run(None, at, log)
  }

  /**
   * `updatePerson` is called once when the person was matched and never
   * otherwise, with the person's id and the fields as the loop left them; a
   * created person goes on unchanged, and the route goes on only with a
   * person the CRM returned.
   */
  lemma RefreshCases(s: Script, at: Cursor, log: seq<Call>, outcome: Resolution, k: Kind)
    ensures var r := Refresh(s, at, log, outcome);
      var matched := outcome.Resolved? && !outcome.created;
      Count(r.calls, k) == Count(log, k) + (if matched && k == PersonUpdate then 1 else 0) &&
      (matched ==> r.calls == log + [UpdatePersonCall(outcome.person.id, outcome.data)] &&
                   (r.value.Some? <==> Reply(s.updates, at.updates, PersonFailed).PersonOk?) &&
                   (r.value.Some? ==> PersonOk(r.value.value) == Reply(s.updates, at.updates, PersonFailed))) &&
      (outcome.Resolved? && outcome.created ==> r.value == Some(outcome.person) && r.calls == log) &&
      (!outcome.Resolved? ==> r.value.None? && r.calls == log)
  {
    if outcome.Resolved? && !outcome.created {
      var call := UpdatePersonCall(outcome.person.id, outcome.data);
      CountOne(call, k);
      CountAppend(log, [call], k);
    }
  }

  /** Calls of the loop and an optional person update, put after a log. */
  lemma UpdatedCounts(log: seq<Call>, looped: seq<Call>, update: seq<Call>, k: Kind)
    requires |update| <= 1 && (update != [] ==> KindOf(update[0]) == PersonUpdate)
    ensures Count(log + looped + update, k) == Count(log, k) + Count(looped, k) + (if update != [] && k == PersonUpdate then 1 else 0)
  {
    CountAppend(log, looped, k);
    CountAppend(log + looped, update, k);
    if update != [] {
      CountOne(update[0], k);
      assert update == [update[0]];
    }
  }

  /** The update step against the CRM stub. */
  method RefreshPerson(dir: Directory, outcome: Resolution) returns (person: Option<Person>)
    modifies dir
    ensures var r := Refresh(dir.script, old(dir.at), old(dir.calls), outcome);
      person == r.value && dir.at == r.at && dir.calls == r.calls
  {
    if !outcome.Resolved? {
      return None;
    }
    if outcome.created {
      return Some(outcome.person);
    }
    var reply := dir.UpdatePerson(UpdatePersonCall(outcome.person.id, outcome.data));
    if reply.PersonFailed? {
      return None;
    }
    return Some(reply.person);
  }

  /** A membership or donation write: `ok` when the CRM returns the record, 403 when it does not. */
  function Written(s: Script, at: Cursor, log: seq<Call>, call: Call, ok: int): (r: Response)
    requires call.CreateMembershipCall? || call.UpdateMembershipCall? || call.CreateDonationCall?
    ensures r.calls == log + [call]
    ensures r.status == (if Reply(s.writes, at.writes, false) then ok else 403)
  {
    var w := Store(s, at, call);
    Response(if w.value then ok else 403, w.at, log + w.calls)
  }

  method WriteRecord(dir: Directory, call: Call, ok: int) returns (status: int)
    requires call.CreateMembershipCall? || call.UpdateMembershipCall? || call.CreateDonationCall?
    modifies dir
    ensures var r := Written(dir.script, old(dir.at), old(dir.calls), call, ok);
      status == r.status && dir.at == r.at && dir.calls == r.calls
  {
    var accepted := dir.Write(call);
    status := if accepted then ok else 403;
  }
}
