/**
 * The match-or-create loop every route runs before it touches memberships or
 * donations: look the person up by email, create them when there is no
 * match, and try again (at most three attempts in all) when the create
 * fails, because a concurrent delivery of the same webhook may have created
 * the person in the meantime. A lookup that fails outright ends the loop.
 */
module IdentityResolver {
  import opened Wrappers
  import opened Crm

  const MaxAttempts: nat := 3

  /** How a route builds the record it asks the CRM to create. */
  datatype CreateRecord =
      /** The Raisely routes: one `person_data` object, amended in place before every create. */
    | Amend(email: string, firstName: string, lastName: string, tag: string)
      /** The Action Network route: the same freshly built record on every attempt. */
    | Fresh(record: PersonData)

  /** The record sent by a create attempt, given the fields as they stood before it. */
  function Prepared(how: CreateRecord, data: PersonData): (d: PersonData)
    ensures how.Fresh? ==> d == how.record
    ensures how.Amend? ==> d == data.(email := Some(how.email), firstName := Some(how.firstName),
                                      lastName := Some(how.lastName), tags := d.tags)
    ensures how.Amend? ==> d.tags == Some(data.tags.GetOr([]) + [how.tag])
  {
    match how
    case Amend(email, first, last, tag) =>
      data.(email := Some(email), firstName := Some(first), lastName := Some(last),
            tags := Some(data.tags.GetOr([]) + [tag]))
    case Fresh(record) => record
  }

  /** How the loop ended, with the person fields as they stand afterwards. */
  datatype Resolution =
    | LookupFailed(data: PersonData)
    | Unresolved(data: PersonData)
    | Resolved(person: Person, created: bool, data: PersonData)

  /** What one pass of the loop body leaves: the loop is settled, or it goes round again with these fields. */
  datatype Step = Settled(outcome: Resolution) | Retry(data: PersonData)

  /** One pass of the loop body with how far it read the script and the calls it made. */
  datatype Pass = Pass(step: Step, at: Cursor, calls: seq<Call>)

  /** The loop (or its remaining attempts) with how far it read the script and the calls it made. */
  datatype Loop = Loop(outcome: Resolution, at: Cursor, calls: seq<Call>)

  /** Calls made before the remaining attempts, put in front of theirs. */
  function Behind(before: seq<Call>, l: Loop): (r: Loop)
    ensures r.outcome == l.outcome && r.at == l.at && r.calls == before + l.calls
  {
    Loop(l.outcome, l.at, before + l.calls)
  }

  lemma BehindBehind(a: seq<Call>, b: seq<Call>, l: Loop)
    ensures Behind(a, Behind(b, l)) == Behind(a + b, l)
  {
    assert a + (b + l.calls) == (a + b) + l.calls;
  }

  /**
   * One pass of the loop body: a lookup and, when it finds nobody, a create.
   * A pass makes one or two calls, settles on a person only when the CRM
   * replied with one, and never ends the loop unresolved.
   */
  function Attempt(s: Script, at: Cursor, email: string, how: CreateRecord, data: PersonData): (p: Pass)
    ensures p.step.Retry? ==>
      p.step.data == Prepared(how, data) && p.calls == [MatchCall(email), CreatePersonCall(p.step.data)]
    ensures p.step.Settled? ==> !p.step.outcome.Unresolved?
    ensures p.step.Settled? && p.step.outcome.LookupFailed? ==>
      p.calls == [MatchCall(email)] && p.step.outcome.data == data
    ensures p.step.Settled? && p.step.outcome.Resolved? && !p.step.outcome.created ==>
      p.calls == [MatchCall(email)] && p.step.outcome.data == data && Found(p.step.outcome.person) in s.matches
    ensures p.step.Settled? && p.step.outcome.Resolved? && p.step.outcome.created ==>
      p.step.outcome.data == Prepared(how, data) && p.calls == [MatchCall(email), CreatePersonCall(p.step.outcome.data)]
      && PersonOk(p.step.outcome.person) in s.creates
  {
    var m := Match(s, at, email);
    match m.value
    case MatchFailed => Pass(Settled(LookupFailed(data)), m.at, m.calls)
    case Found(person) => Pass(Settled(Resolved(person, false, data)), m.at, m.calls)
    case NoMatch =>
      var d := Prepared(how, data);
      var c := Create(s, m.at, d);
      match c.value
      case PersonOk(person) => Pass(Settled(Resolved(person, true, d)), c.at, m.calls + c.calls)
      case PersonFailed => Pass(Retry(d), c.at, m.calls + c.calls)
  }

  /** The loop with `left` attempts still to make. */
  function ResolveFrom(s: Script, at: Cursor, left: nat, email: string, how: CreateRecord, data: PersonData): Loop
    decreases left
  {
    if left == 0 then Loop(Unresolved(data), at, [])
    else
      var p := Attempt(s, at, email, how, data);
      match p.step
      case Settled(outcome) => Loop(outcome, p.at, p.calls)
      case Retry(d) => Behind(p.calls, ResolveFrom(s, p.at, left - 1, email, how, d))
  }

  /** The whole loop: three attempts, with the script read up to `at`. */
  function ResolveSpec(s: Script, at: Cursor, email: string, how: CreateRecord, data: PersonData): Loop {
    ResolveFrom(s, at, MaxAttempts, email, how, data)
  }

  /** One pass of the loop body against the CRM stub. */
  method TryOnce(dir: Directory, email: string, how: CreateRecord, data: PersonData) returns (step: Step)
    modifies dir
    ensures var p := Attempt(dir.script, old(dir.at), email, how, data);
      step == p.step && dir.at == p.at && dir.calls == old(dir.calls) + p.calls
  {
    var reply := dir.MatchByEmail(email);
    match reply {
      case MatchFailed =>
        return Settled(LookupFailed(data));
      case Found(person) =>
        return Settled(Resolved(person, false, data));
      case NoMatch =>
        var fields := Prepared(how, data);
        var made := dir.CreatePerson(fields);
        if made.PersonOk? {
          return Settled(Resolved(made.person, true, fields));
        }
        // A failed create is only remembered for the final log line; the loop tries again.
        return Retry(fields);
    }
  }

  /**
   * One turn of the loop, seen from the whole loop: after the calls `done` of
   * the earlier attempts, a settled pass ends the loop and a retry puts its
   * calls in front of the next attempt's.
   */
  lemma Advance(spec: Loop, done: seq<Call>, s: Script, at: Cursor, left: nat, email: string, how: CreateRecord, data: PersonData)
    requires left > 0
    requires spec == Behind(done, ResolveFrom(s, at, left, email, how, data))
    ensures var p := Attempt(s, at, email, how, data);
      if p.step.Settled? then spec == Loop(p.step.outcome, p.at, done + p.calls)
      else spec == Behind(done + p.calls, ResolveFrom(s, p.at, left - 1, email, how, p.step.data))
  {
    var p := Attempt(s, at, email, how, data);
    if p.step.Retry? {
      BehindBehind(done, p.calls, ResolveFrom(s, p.at, left - 1, email, how, p.step.data));
    }
  }

  /** The loop itself, against the CRM stub: it does exactly what `ResolveSpec` says. */
  method Resolve(dir: Directory, email: string, how: CreateRecord, data0: PersonData) returns (res: Resolution)
    modifies dir
    ensures var l := ResolveSpec(dir.script, old(dir.at), email, how, data0);
      res == l.outcome && dir.at == l.at && dir.calls == old(dir.calls) + l.calls
  {
    ghost var spec := Behind(dir.calls, ResolveFrom(dir.script, dir.at, MaxAttempts, email, how, data0));
    var data := data0;
    var attempt := 1;
    while attempt <= MaxAttempts
      invariant 1 <= attempt <= MaxAttempts + 1
      invariant spec == Behind(dir.calls, ResolveFrom(dir.script, dir.at, MaxAttempts + 1 - attempt, email, how, data))
      decreases MaxAttempts + 1 - attempt
    {
      var step := Turn(dir, spec, MaxAttempts + 1 - attempt, email, how, data);
      if step.Settled? {
        return step.outcome;
      }
      data := step.data;
      attempt := attempt + 1;
    }
    return Unresolved(data);
  }

  /** One turn of `Resolve`: the pass it makes leaves the loop settled or one attempt shorter. */
  method Turn(dir: Directory, ghost spec: Loop, left: nat, email: string, how: CreateRecord, data: PersonData) returns (step: Step)
    requires left > 0
    requires spec == Behind(dir.calls, ResolveFrom(dir.script, dir.at, left, email, how, data))
    modifies dir
    ensures step.Settled? ==> spec == Loop(step.outcome, dir.at, dir.calls)
    ensures step.Retry? ==> spec == Behind(dir.calls, ResolveFrom(dir.script, dir.at, left - 1, email, how, step.data))
  {
    Advance(spec, dir.calls, dir.script, dir.at, left, email, how, data);
    step := TryOnce(dir, email, how, data);
  }

  /** The loop always starts with a lookup for the email. */
  lemma FirstCallIsLookup(s: Script, at: Cursor, email: string, how: CreateRecord, data: PersonData)
    ensures var calls := ResolveSpec(s, at, email, how, data).calls;
      calls != [] && calls[0] == MatchCall(email)
  {
    var p := Attempt(s, at, email, how, data);
    if p.step.Retry? {
      var rest := ResolveFrom(s, p.at, MaxAttempts - 1, email, how, p.step.data);
      assert ResolveSpec(s, at, email, how, data).calls == p.calls + rest.calls;
    }
  }

  /** A lookup alone, and a lookup followed by a create. */
  lemma AttemptCounts(email: string, d: PersonData)
    ensures forall k :: Count([MatchCall(email)], k) == if k == Lookup then 1 else 0
    ensures forall k :: Count([MatchCall(email), CreatePersonCall(d)], k) == if k == Lookup || k == Creation then 1 else 0
  {
    var pair := [MatchCall(email), CreatePersonCall(d)];
    var last := [CreatePersonCall(d)];
    assert pair[1..] == last && last[1..] == [];
    assert [MatchCall(email)][1..] == [];
    forall k: Kind
      ensures Count(pair, k) == if k == Lookup || k == Creation then 1 else 0
    {
      assert Count(last, k) == if k == Creation then 1 else 0;
    }
  }

  /** One pass makes at most one lookup and one create, exactly one of each when it goes round again, and nothing else. */
  lemma PassCounts(s: Script, at: Cursor, email: string, how: CreateRecord, data: PersonData, k: Kind)
    ensures var p := Attempt(s, at, email, how, data);
      var one := if k == Lookup || k == Creation then 1 else 0;
      Count(p.calls, k) <= one && (p.step.Retry? ==> Count(p.calls, k) == one)
  {
    var p := Attempt(s, at, email, how, data);
    AttemptCounts(email, Prepared(how, data));
    if p.step.Settled? && p.step.outcome.Resolved? && p.step.outcome.created {
      assert p.calls == [MatchCall(email), CreatePersonCall(Prepared(how, data))];
    }
  }

  /**
   * At most three lookups and three creates, whatever the CRM answers, three
   * of each when no person was found, and no call of any other kind.
   */
  lemma {:induction false} AttemptsBounded(s: Script, at: Cursor, left: nat, email: string, how: CreateRecord, data: PersonData, k: Kind)
    ensures var l := ResolveFrom(s, at, left, email, how, data);
      var bound := if k == Lookup || k == Creation then left else 0;
      Count(l.calls, k) <= bound && (l.outcome.Unresolved? ==> Count(l.calls, k) == bound)
    decreases left
  {
    if left > 0 {
      var p := Attempt(s, at, email, how, data);
      var l := ResolveFrom(s, at, left, email, how, data);
      PassCounts(s, at, email, how, data, k);
      if p.step.Retry? {
        var rest := ResolveFrom(s, p.at, left - 1, email, how, p.step.data);
        assert l.calls == p.calls + rest.calls && l.outcome == rest.outcome;
        AttemptsBounded(s, p.at, left - 1, email, how, p.step.data, k);
        CountAppend(p.calls, rest.calls, k);
      } else {
        assert l.calls == p.calls && !l.outcome.Unresolved?;
      }
    }
  }

  /** A log of whole attempts: a lookup for `email`, then a create, then again, possibly ending after a lookup. */
  predicate Alternating(calls: seq<Call>, email: string) {
    calls == [] ||
    (calls[0] == MatchCall(email) &&
     (|calls| == 1 || (calls[1].CreatePersonCall? && Alternating(calls[2..], email))))
  }

  /**
   * The calls alternate, so a create only ever follows a lookup that found
   * nobody, and every lookup is for the same email.
   */
  lemma {:induction false} CallsAlternate(s: Script, at: Cursor, left: nat, email: string, how: CreateRecord, data: PersonData)
    ensures Alternating(ResolveFrom(s, at, left, email, how, data).calls, email)
    decreases left
  {
    if left > 0 {
      var p := Attempt(s, at, email, how, data);
      var all := ResolveFrom(s, at, left, email, how, data).calls;
      if p.step.Retry? {
        var rest := ResolveFrom(s, p.at, left - 1, email, how, p.step.data);
        CallsAlternate(s, p.at, left - 1, email, how, p.step.data);
        assert all[2..] == rest.calls;
      } else if |p.calls| == 2 {
        assert all[2..] == [];
      }
    }
  }

  /** The last call of a non-empty log. */
  function LastCall(calls: seq<Call>): Call
    requires calls != []
  {
    calls[|calls| - 1]
  }

  /** A lookup that fails is the last call: nothing is created after it. */
  lemma {:induction false} LookupFailureIsLast(s: Script, at: Cursor, left: nat, email: string, how: CreateRecord, data: PersonData)
    ensures var l := ResolveFrom(s, at, left, email, how, data);
      l.outcome.LookupFailed? ==> l.calls != [] && LastCall(l.calls) == MatchCall(email)
    decreases left
  {
    if left > 0 {
      var p := Attempt(s, at, email, how, data);
      if p.step.Retry? {
        LookupFailureIsLast(s, p.at, left - 1, email, how, p.step.data);
      }
    }
  }

  /**
   * The loop stops as soon as it has a person: a matched person was the
   * answer to the last call, a lookup, and a created one the answer to the
   * last call, a create.
   */
  lemma {:induction false} StopsWhenSettled(s: Script, at: Cursor, left: nat, email: string, how: CreateRecord, data: PersonData)
    ensures var l := ResolveFrom(s, at, left, email, how, data);
      l.outcome.Resolved? ==>
        l.calls != [] &&
        (if l.outcome.created then LastCall(l.calls).CreatePersonCall? else LastCall(l.calls) == MatchCall(email))
    decreases left
  {
    if left > 0 {
      var p := Attempt(s, at, email, how, data);
      if p.step.Retry? {
        StopsWhenSettled(s, p.at, left - 1, email, how, p.step.data);
      }
    }
  }

  /** The person the loop settles on is one the CRM replied with: a lookup's match or a create's result. */
  lemma {:induction false} PersonFromReplies(s: Script, at: Cursor, left: nat, email: string, how: CreateRecord, data: PersonData)
    ensures var l := ResolveFrom(s, at, left, email, how, data);
      l.outcome.Resolved? ==>
        if l.outcome.created then PersonOk(l.outcome.person) in s.creates else Found(l.outcome.person) in s.matches
    decreases left
  {
    if left > 0 {
      var p := Attempt(s, at, email, how, data);
      if p.step.Retry? {
        PersonFromReplies(s, p.at, left - 1, email, how, p.step.data);
      }
    }
  }

  /** The fields after `k` create attempts: each attempt prepares the record from the previous one. */
  function Amended(how: CreateRecord, data: PersonData, k: nat): PersonData
    decreases k
  {
    if k == 0 then data else Amended(how, Prepared(how, data), k - 1)
  }

  /** The fields the loop leaves are the initial ones amended once per create attempt. */
  lemma {:induction false} FieldsAmendedPerCreate(s: Script, at: Cursor, left: nat, email: string, how: CreateRecord, data: PersonData)
    ensures var l := ResolveFrom(s, at, left, email, how, data);
      l.outcome.data == Amended(how, data, Count(l.calls, Creation))
    decreases left
  {
    if left > 0 {
      var p := Attempt(s, at, email, how, data);
      if p.step.Retry? {
        var l := ResolveFrom(s, at, left, email, how, data);
        var rest := ResolveFrom(s, p.at, left - 1, email, how, p.step.data);
        assert l == Behind(p.calls, rest);
        FieldsAmendedPerCreate(s, p.at, left - 1, email, how, p.step.data);
        PassCounts(s, at, email, how, data, Creation);
        CountAppend(p.calls, rest.calls, Creation);
        var n := Count(rest.calls, Creation);
        assert Amended(how, data, 1 + n) == Amended(how, p.step.data, n);
      } else {
        SettledAmended(s, at, left, email, how, data);
      }
    }
  }

  /** A first pass that settles leaves the fields amended once when it created the person, and untouched otherwise. */
  lemma SettledAmended(s: Script, at: Cursor, left: nat, email: string, how: CreateRecord, data: PersonData)
    requires left > 0 && Attempt(s, at, email, how, data).step.Settled?
    ensures var l := ResolveFrom(s, at, left, email, how, data);
      l.outcome.data == Amended(how, data, Count(l.calls, Creation))
  {
    var p := Attempt(s, at, email, how, data);
    var l := ResolveFrom(s, at, left, email, how, data);
    assert l.calls == p.calls && l.outcome == p.step.outcome;
    AttemptCounts(email, Prepared(how, data));
    if p.step.outcome.Resolved? && p.step.outcome.created {
      assert Amended(how, data, 1) == Prepared(how, data);
    }
  }

  /** `n` copies of one tag. */
  function Copies(tag: string, n: nat): (r: seq<string>)
    ensures |r| == n && forall i :: 0 <= i < n ==> r[i] == tag
  {
    if n == 0 then [] else [tag] + Copies(tag, n - 1)
  }

  /**
   * The in-place quirk of the Raisely routes: every create attempt appends
   * one more copy of the route's tag to `person_data.tags`, so after `k > 0`
   * creates the tags are the initial ones followed by `k` copies, and the
   * email and names are the route's.
   */
  lemma {:induction false} AmendedTags(how: CreateRecord, data: PersonData, k: nat)
    requires how.Amend? && k > 0
    ensures Amended(how, data, k) == data.(email := Some(how.email), firstName := Some(how.firstName),
                                           lastName := Some(how.lastName),
                                           tags := Some(data.tags.GetOr([]) + Copies(how.tag, k)))
    decreases k
  {
    var d := Prepared(how, data);
    if k > 1 {
      AmendedTags(how, d, k - 1);
      assert (data.tags.GetOr([]) + [how.tag]) + Copies(how.tag, k - 1)
          == data.tags.GetOr([]) + Copies(how.tag, k);
    } else {
      assert Copies(how.tag, 1) == [how.tag];
    }
  }

  /** The Action Network route sends the same record on every create attempt, and only that record. */
  lemma {:induction false} AmendedFresh(how: CreateRecord, data: PersonData, k: nat)
    requires how.Fresh? && k > 0
    ensures Amended(how, data, k) == how.record
    decreases k
  {
    if k > 1 {
      AmendedFresh(how, Prepared(how, data), k - 1);
    }
  }

  /** Every create call in `calls` sends `record`. */
  predicate CreatesSend(calls: seq<Call>, record: PersonData) {
    forall i :: 0 <= i < |calls| && calls[i].CreatePersonCall? ==> calls[i].fields == record
  }

  /** With a freshly built record, every create the loop makes sends exactly that record. */
  lemma {:induction false} FreshCreates(s: Script, at: Cursor, left: nat, email: string, how: CreateRecord, data: PersonData)
    requires how.Fresh?
    ensures CreatesSend(ResolveFrom(s, at, left, email, how, data).calls, how.record)
    decreases left
  {
    if left > 0 {
      var p := Attempt(s, at, email, how, data);
      var l := ResolveFrom(s, at, left, email, how, data);
      if p.step.Retry? {
        var rest := ResolveFrom(s, p.at, left - 1, email, how, p.step.data);
        FreshCreates(s, p.at, left - 1, email, how, p.step.data);
        assert l.calls == p.calls + rest.calls;
        assert p.calls == [MatchCall(email), CreatePersonCall(how.record)];
        forall i | 0 <= i < |l.calls| && l.calls[i].CreatePersonCall?
          ensures l.calls[i].fields == how.record
        {
          if i >= 2 {
            assert l.calls[i] == rest.calls[i - 2];
          } else {
            assert l.calls[i] == p.calls[i];
          }
        }
      }
    }
  }
}
