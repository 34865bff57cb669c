/**
 * The CRM the routes talk to, seen only through the replies it gives: a
 * scripted stand-in for the people, memberships and donations APIs. Each
 * kind of call takes the next reply from its own queue in the script (an
 * exhausted queue answers with a failure, as a dead service would) and every
 * call is appended to a log, so that what a route asked of the CRM, and in
 * which order, is a statement about that log.
 */
module Crm {
  import opened Wrappers
  import opened EcmaDate

  /** A postal address as the CRM receives it: only the keys that were set. */
  type Address = map<string, string>

  /** A person record as the CRM returns it: its id, its tags, and the rest of its fields. */
  datatype Person = Person(id: int, tags: seq<string>, rest: map<string, string>)

  /** The `person` object a route sends to create or update a person; `None` is a key that was never set. */
  datatype PersonData = PersonData(
    email: Option<string>,
    firstName: Option<string>,
    lastName: Option<string>,
    tags: Option<seq<string>>,
    phone: Option<string>,
    birthdate: Option<string>,
    billingAddress: Option<Address>,
    homeAddress: Option<Address>)

  const NoFields := PersonData(None, None, None, None, None, None, None, None)

  /** A membership record: `expires_on` may be missing, `null` or empty; `extra` holds every other field the CRM sent. */
  datatype Membership = Membership(
    name: string,
    status: string,
    statusReason: string,
    startedAt: Option<string>,
    expiresOn: Option<string>,
    extra: map<string, string>)

  /**
   * A donation record; `succeededAt` is the payment date, to the second, and
   * `recurrence` the optional custom field with the value written to it.
   */
  datatype Donation = Donation(
    donorId: int,
    amountInCents: int,
    paymentTypeName: string,
    note: string,
    succeededAt: ValidDate,
    trackingCodeSlug: string,
    recurrence: Option<(string, bool)>)

  datatype Call =
    | MatchCall(email: string)
    | CreatePersonCall(fields: PersonData)
    | UpdatePersonCall(id: int, fields: PersonData)
    | UpdateRecordCall(id: int, record: Person)
    | GetMembershipsCall(personId: int)
    | CreateMembershipCall(personId: int, membership: Membership)
    | UpdateMembershipCall(personId: int, membership: Membership)
    | CreateDonationCall(donation: Donation)

  /** `matchByEmail`: a person, no person (the `no_matches` code), or an exception. */
  datatype MatchReply = Found(person: Person) | NoMatch | MatchFailed

  /** `createPerson` and `updatePerson`: the person the CRM returned, or an exception. */
  datatype PersonReply = PersonOk(person: Person) | PersonFailed

  /** `getMemberships`: the results, a response without results (returned as `null`), or an exception. */
  datatype ListReply = Listed(results: seq<Membership>) | NoResults | ListFailed

  /** The replies the CRM will give, one queue per kind of call; `writes` answers membership and donation writes. */
  datatype Script = Script(
    matches: seq<MatchReply>,
    creates: seq<PersonReply>,
    updates: seq<PersonReply>,
    lists: seq<ListReply>,
    writes: seq<bool>)

  /** How many calls of each kind have been answered so far: the next reply of a kind is the one at its count. */
  datatype Cursor = Cursor(matches: nat, creates: nat, updates: nat, lists: nat, writes: nat)

  const Start := Cursor(0, 0, 0, 0, 0)

  /** What a stretch of route code returns, with how far it read the script and the calls it made. */
  datatype Run<T> = Run(value: T, at: Cursor, calls: seq<Call>)

  /** Calls made before a run, put in front of its own. */
  function After<T>(before: seq<Call>, r: Run<T>): (q: Run<T>)
    ensures q.value == r.value && q.at == r.at && q.calls == before + r.calls
  {
    Run(r.value, r.at, before + r.calls)
  }

  /** Putting calls in front twice is putting them in front once, in order. */
  lemma AfterAfter<T>(a: seq<Call>, b: seq<Call>, r: Run<T>)
    ensures After(a, After(b, r)) == After(a + b, r)
  {
    assert a + (b + r.calls) == (a + b) + r.calls;
  }

  /** The `i`-th reply of a queue, or `missing` once the queue is exhausted. */
  function Reply<T>(q: seq<T>, i: nat, missing: T): (r: T)
    ensures i < |q| ==> r == q[i]
    ensures i >= |q| ==> r == missing
  {
    if i < |q| then q[i] else missing
  }

  function Match(s: Script, at: Cursor, email: string): (r: Run<MatchReply>)
    ensures r.calls == [MatchCall(email)] && r.at == at.(matches := at.matches + 1)
  {
    Run(Reply(s.matches, at.matches, MatchFailed), at.(matches := at.matches + 1), [MatchCall(email)])
  }

  function Create(s: Script, at: Cursor, fields: PersonData): (r: Run<PersonReply>)
    ensures r.calls == [CreatePersonCall(fields)] && r.at == at.(creates := at.creates + 1)
  {
    Run(Reply(s.creates, at.creates, PersonFailed), at.(creates := at.creates + 1), [CreatePersonCall(fields)])
  }

  /** The person update of the Raisely routes (new fields) and of the Action Network route (the whole record). */
  function Update(s: Script, at: Cursor, call: Call): (r: Run<PersonReply>)
    requires call.UpdatePersonCall? || call.UpdateRecordCall?
    ensures r.calls == [call] && r.at == at.(updates := at.updates + 1)
  {
    Run(Reply(s.updates, at.updates, PersonFailed), at.(updates := at.updates + 1), [call])
  }

  function List(s: Script, at: Cursor, personId: int): (r: Run<ListReply>)
    ensures r.calls == [GetMembershipsCall(personId)] && r.at == at.(lists := at.lists + 1)
  {
    Run(Reply(s.lists, at.lists, ListFailed), at.(lists := at.lists + 1), [GetMembershipsCall(personId)])
  }

  /** A membership or donation write: whether the CRM accepted it. */
  function Store(s: Script, at: Cursor, call: Call): (r: Run<bool>)
    requires call.CreateMembershipCall? || call.UpdateMembershipCall? || call.CreateDonationCall?
    ensures r.calls == [call] && r.at == at.(writes := at.writes + 1)
  {
    Run(Reply(s.writes, at.writes, false), at.(writes := at.writes + 1), [call])
  }

  /** The reply queue a call reads from. */
  datatype Kind = Lookup | Creation | PersonUpdate | Listing | Write

  function KindOf(c: Call): Kind {
    match c
    case MatchCall(_) => Lookup
    case CreatePersonCall(_) => Creation
    case UpdatePersonCall(_, _) => PersonUpdate
    case UpdateRecordCall(_, _) => PersonUpdate
    case GetMembershipsCall(_) => Listing
    case _ => Write
  }

  /** How many calls of a kind a log holds. */
  function Count(calls: seq<Call>, k: Kind): nat {
    if calls == [] then 0 else (if KindOf(calls[0]) == k then 1 else 0) + Count(calls[1..], k)
  }

  /** A log of one call holds one call of its kind. */
  lemma CountOne(c: Call, k: Kind)
    ensures Count([c], k) == if KindOf(c) == k then 1 else 0
  {
    assert [c][1..] == [];
  }

  lemma {:induction false} CountAppend(a: seq<Call>, b: seq<Call>, k: Kind)
    ensures Count(a + b, k) == Count(a, k) + Count(b, k)
  {
    if a != [] {
      assert (a + b)[1..] == a[1..] + b;
      CountAppend(a[1..], b, k);
    } else {
      assert a + b == b;
    }
  }

  /** A log without a call of some kind counts none of it. */
  lemma {:induction false} CountAbsent(calls: seq<Call>, k: Kind)
    requires forall i :: 0 <= i < |calls| ==> KindOf(calls[i]) != k
    ensures Count(calls, k) == 0
  {
    if calls != [] {
      CountAbsent(calls[1..], k);
    }
  }

  /**
   * The CRM as the routes see it: each method answers from the script and
   * logs the call, exactly as the corresponding step function says.
   */
  class Directory {
    const script: Script
    var at: Cursor
    var calls: seq<Call>

    constructor (s: Script)
      ensures script == s && at == Start && calls == []
    {
      script := s;
      at := Start;
      calls := [];
    }

    method MatchByEmail(email: string) returns (reply: MatchReply)
      modifies this
      ensures var r := Match(script, old(at), email);
        reply == r.value && at == r.at && calls == old(calls) + r.calls
    {
      var r := Match(script, at, email);
      reply := r.value;
      at := r.at;
      calls := calls + r.calls;
    }

    method CreatePerson(fields: PersonData) returns (reply: PersonReply)
      modifies this
      ensures var r := Create(script, old(at), fields);
        reply == r.value && at == r.at && calls == old(calls) + r.calls
    {
      var r := Create(script, at, fields);
      reply := r.value;
      at := r.at;
      calls := calls + r.calls;
    }

    method UpdatePerson(call: Call) returns (reply: PersonReply)
      requires call.UpdatePersonCall? || call.UpdateRecordCall?
      modifies this
      ensures var r := Update(script, old(at), call);
        reply == r.value && at == r.at && calls == old(calls) + r.calls
    {
      var r := Update(script, at, call);
      reply := r.value;
      at := r.at;
      calls := calls + r.calls;
    }

    method GetMemberships(personId: int) returns (reply: ListReply)
      modifies this
      ensures var r := List(script, old(at), personId);
        reply == r.value && at == r.at && calls == old(calls) + r.calls
    {
      var r := List(script, at, personId);
      reply := r.value;
      at := r.at;
      calls := calls + r.calls;
    }

    method Write(call: Call) returns (accepted: bool)
      requires call.CreateMembershipCall? || call.UpdateMembershipCall? || call.CreateDonationCall?
      modifies this
      ensures var r := Store(script, old(at), call);
        accepted == r.value && at == r.at && calls == old(calls) + r.calls
    {
      var r := Store(script, at, call);
      accepted := r.value;
      at := r.at;
      calls := calls + r.calls;
    }
  }
}
