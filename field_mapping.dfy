/**
 * The pure part of the routes: how webhook payload fields become the person,
 * membership and donation records sent to the CRM. A JavaScript `if (x)` on
 * an optional string is `Truthy`; `a ?? b` is `a.GetOr(b)`, which keeps an
 * empty string and only falls back on a missing or null value.
 */
module FieldMapping {
  import opened Wrappers
  import opened Text
  import opened EcmaDate
  import opened Crm

  /** `if (v)` on an optional string: set and not empty. */
  predicate Truthy(v: Option<string>) {
    v.Some? && v.value != ""
  }

  // Raisely payments: contact details

  /** `payment.private`: the contact fields under their standard and their alternate (PayPal) keys. */
  datatype Private = Private(
    streetAddress: Option<string>,
    suburb: Option<string>,
    postcode: Option<string>,
    state: Option<string>,
    phoneNumber: Option<string>,
    dateOfBirth: Option<string>,
    textAddress1: Option<string>,
    textSuburb: Option<string>,
    textState: Option<string>,
    textPostcode: Option<string>)

  /** A missing or null `private` object: `payment.private?.x` reads every field as missing. */
  const NoPrivate := Private(None, None, None, None, None, None, None, None, None, None)

  /** `standard ?? alternate ?? ""`. */
  function Pick(standard: Option<string>, alternate: Option<string>): string {
    standard.GetOr(alternate.GetOr(""))
  }

  /** The nullish fallback: the standard key whenever it is set (even to ""), else the alternate key, else "". */
  lemma PickPrefersStandard(standard: Option<string>, alternate: Option<string>)
    ensures standard.Some? ==> Pick(standard, alternate) == standard.value
    ensures standard.None? && alternate.Some? ==> Pick(standard, alternate) == alternate.value
    ensures standard.None? && alternate.None? ==> Pick(standard, alternate) == ""
  {
  }

  /** One key of an address object, set only when its value is not empty. */
  function Entry(key: string, value: string): Address {
    if value == "" then map[] else map[key := value]
  }

  /** The four billing fields, each from its standard key or else its alternate key. */
  datatype Billing = Billing(address1: string, suburb: string, state: string, postcode: string)

  function BillingFields(priv: Option<Private>): Billing {
    var p := priv.GetOr(NoPrivate);
    Billing(Pick(p.streetAddress, p.textAddress1), Pick(p.suburb, p.textSuburb),
            Pick(p.state, p.textState), Pick(p.postcode, p.textPostcode))
  }

  /** `person_data.billing_address`: the suburb goes to `address2` and the postcode, cut to ten characters, to `zip`. */
  function BillingAddress(priv: Option<Private>): Option<Address> {
    var b := BillingFields(priv);
    if b.address1 != "" || b.state != "" || b.suburb != "" || b.postcode != "" then
      Some(Entry("address1", b.address1) + Entry("address2", b.suburb) + Entry("state", b.state)
           + Entry("zip", Prefix(b.postcode, 10)))
    else None
  }

  /**
   * The billing address exists iff some field is not empty; it has exactly
   * the keys whose field is not empty, each holding its field, and `zip`
   * holds the first min(length, 10) characters of the postcode.
   */
  lemma BillingAddressFields(priv: Option<Private>)
    ensures var b := BillingFields(priv);
      var r := BillingAddress(priv);
      (r.Some? <==> b.address1 != "" || b.suburb != "" || b.state != "" || b.postcode != "") &&
      (r.Some? ==>
        r.value.Keys <= {"address1", "address2", "state", "zip"} &&
        ("address1" in r.value <==> b.address1 != "") &&
        ("address2" in r.value <==> b.suburb != "") &&
        ("state" in r.value <==> b.state != "") &&
        ("zip" in r.value <==> b.postcode != "") &&
        ("address1" in r.value ==> r.value["address1"] == b.address1) &&
        ("address2" in r.value ==> r.value["address2"] == b.suburb) &&
        ("state" in r.value ==> r.value["state"] == b.state) &&
        ("zip" in r.value ==> r.value["zip"] == Prefix(b.postcode, 10) && |r.value["zip"]| <= 10))
  {
  }

  // Raisely payments: date of birth

  /** `date_of_birth` with its "/"-separated parts reversed and joined with "-" when it contains a "/". */
  function DobText(dob: string): string {
    if '/' in dob then Join(Reverse(Split(dob, '/')), "-") else dob
  }

  /** Three separator-free fields joined by "/" split back into those fields. */
  lemma SplitThree(d: string, m: string, y: string)
    requires '/' !in d && '/' !in m && '/' !in y
    ensures Split(d + "/" + m + "/" + y, '/') == [d, m, y]
  {
    assert d + "/" + m + "/" + y == d + ['/'] + (m + ['/'] + y);
    SplitHead(d, '/', m + ['/'] + y);
    SplitHead(m, '/', y);
    SplitWithout(y, '/');
  }

  lemma JoinThree(a: string, b: string, c: string, sep: string)
    ensures Join([a, b, c], sep) == a + sep + b + sep + c
  {
    assert [a, b, c][1..] == [b, c] && [b, c][1..] == [c];
    assert Join([b, c], sep) == b + sep + c;
    assert a + sep + (b + sep + c) == a + sep + b + sep + c;
  }

  /** D/M/Y becomes Y-M-D. */
  lemma DobReversed(d: string, m: string, y: string)
    requires '/' !in d && '/' !in m && '/' !in y
    ensures DobText(d + "/" + m + "/" + y) == y + "-" + m + "-" + d
  {
    var s := d + "/" + m + "/" + y;
    assert s[|d|] == '/';
    SplitThree(d, m, y);
    assert Reverse([d, m, y]) == [y, m, d];
    JoinThree(y, m, d, "-");
  }

  lemma DobExample()
    ensures DobText("15/01/1990") == "1990-01-15"
  {
    var d, m, y := "15", "01", "1990";
    assert '/' !in d && '/' !in m && '/' !in y;
    DobReversed(d, m, y);
    assert d + "/" + m + "/" + y == "15/01/1990";
    assert y + "-" + m + "-" + d == "1990-01-15";
  }

  /** `person_data.birthdate`: set when a date of birth is given and parses; a value that does not parse is dropped. */
  function Birthdate(dob: Option<string>, parse: string -> Option<ValidDate>): Option<string> {
    if Truthy(dob) then
      match parse(DobText(dob.value))
      case Some(d) => Some(IsoDate(d))
      case None => None
    else None
  }

  /** A birthdate is sent iff one was given and its rewritten text parses, and it is that date as "YYYY-MM-DD". */
  lemma BirthdateCases(dob: Option<string>, parse: string -> Option<ValidDate>)
    ensures Birthdate(dob, parse).Some? <==> Truthy(dob) && parse(DobText(dob.value)).Some?
    ensures Birthdate(dob, parse).Some? ==>
      var d := parse(DobText(dob.value)).value;
      Birthdate(dob, parse).value == IsoDate(d) && IsoDate(d)[|YearField(d.civil.year)|] == '-'
  {
    if Truthy(dob) {
      match parse(DobText(dob.value))
      case Some(d) => YearThenDash(d);
      case None =>
    }
  }

  // Raisely payments: the person and the names

  /**
   * The `person_data` a Raisely route builds before the lookup: the
   * "recurring_membership" tag when `recurring`, the phone number when set,
   * the birthdate and the billing address.
   */
  function RaiselyPersonData(recurring: bool, priv: Option<Private>, parse: string -> Option<ValidDate>): PersonData {
    var p := priv.GetOr(NoPrivate);
    PersonData(
      email := None,
      firstName := None,
      lastName := None,
      tags := if recurring then Some(["recurring_membership"]) else None,
      phone := if Truthy(p.phoneNumber) then p.phoneNumber else None,
      birthdate := Birthdate(p.dateOfBirth, parse),
      billingAddress := BillingAddress(priv),
      homeAddress := None)
  }

  /** The person data starts with the recurring tag iff the payment is recurring, and carries no identity fields yet. */
  lemma RaiselyPersonDataFields(recurring: bool, priv: Option<Private>, parse: string -> Option<ValidDate>)
    ensures var d := RaiselyPersonData(recurring, priv, parse);
      d.email.None? && d.firstName.None? && d.lastName.None? && d.homeAddress.None? &&
      (d.tags.Some? <==> recurring) &&
      (recurring ==> d.tags.value == ["recurring_membership"]) &&
      (d.phone.Some? <==> Truthy(priv.GetOr(NoPrivate).phoneNumber))
  {
  }

  /** `user ?? metadata ?? "Unknown"`: a null first or last name falls back to the payment metadata. */
  function NameOr(user: Option<string>, metadata: Option<string>): string {
    user.GetOr(metadata.GetOr("Unknown"))
  }

  // Raisely payments: the campaign, the messages and the donation

  const YoungMember := "Young AJP Member"
  const JoinYoung := "Join Young AJP"
  const YoungMonthly := "young ajp monthly membership"

  /** The membership a payment is for and the months it buys, from the campaign profile name. */
  function CampaignMembership(profileName: Option<string>, configured: string): (string, nat) {
    var name := if profileName == Some(JoinYoung) || profileName == Some(YoungMonthly) then YoungMember else configured;
    var months := if profileName == Some(YoungMonthly) then 1 else 12;
    (name, months)
  }

  /** Both Young AJP campaigns select the Young AJP membership; only the monthly one buys a single month. */
  lemma CampaignLookup(profileName: Option<string>, configured: string)
    ensures var (name, months) := CampaignMembership(profileName, configured);
      (name == YoungMember <==> profileName in {Some(JoinYoung), Some(YoungMonthly)} || configured == YoungMember) &&
      (profileName !in {Some(JoinYoung), Some(YoungMonthly)} ==> name == configured) &&
      (months == 1 <==> profileName == Some(YoungMonthly)) &&
      (months != 1 ==> months == 12)
  {
  }

  /** The `status_reason` of a payment: the months in decimal, then the description when there is one. */
  function PaymentMessage(months: nat, description: Option<string>): string {
    "Membership extended " + Decimal(months) + " month(s) via Payment API. "
    + (if Truthy(description) then description.value else "")
  }

  /** The `status_reason` of a cancellation. */
  function CancelMessage(description: Option<string>): string {
    "Membership cancelled via Payment API. " + (if Truthy(description) then description.value else "")
  }

  /** Twelve months are written "12", and a cancellation reason follows the fixed text. */
  lemma MessageExamples()
    ensures PaymentMessage(12, None) == "Membership extended " + "12" + " month(s) via Payment API. "
    ensures CancelMessage(Some("card expired")) == "Membership cancelled via Payment API. " + "card expired"
  {
    assert Decimal(12) == Decimal(1) + [DigitChar(2)];
  }

  /** The donation note: the description (or ""), then " - " and the message when the message is not empty. */
  function DonationNote(description: Option<string>, message: Option<string>): string {
    description.GetOr("") + (if Truthy(message) then " - " + message.value else "")
  }

  lemma DonationNoteShape(description: Option<string>, message: Option<string>)
    ensures var n := DonationNote(description, message);
      n[..|description.GetOr("")|] == description.GetOr("") &&
      (Truthy(message) ==> n == description.GetOr("") + " - " + message.value) &&
      (!Truthy(message) ==> n == description.GetOr(""))
  {
  }

  /** `tracking_code_slug`: in slug mode the profile name lower-cased with `'` removed and spaces made `_`. */
  function TrackingSlug(mode: string, profileName: Option<string>): string {
    if mode == "profile_name_as_slug" then
      if Truthy(profileName) then ReplaceAll(RemoveAll(Lower(profileName.value), '\''), ' ', '_') else ""
    else profileName.GetOr("")
  }

  /** Removing a character keeps only characters of the original. */
  lemma {:induction false} RemoveAllFrom(s: string, c: char)
    ensures forall x :: x in RemoveAll(s, c) ==> x in s
  {
    if s != [] {
      RemoveAllFrom(s[1..], c);
    }
  }

  /** A slug has no apostrophe, no space and no upper-case letter; outside slug mode it is the profile name or "". */
  lemma SlugShape(mode: string, profileName: Option<string>)
    ensures var r := TrackingSlug(mode, profileName);
      (mode == "profile_name_as_slug" ==> '\'' !in r && ' ' !in r && IsLower(r)) &&
      (mode == "profile_name_as_slug" && !Truthy(profileName) ==> r == "") &&
      (mode != "profile_name_as_slug" ==> r == profileName.GetOr(""))
  {
    if mode == "profile_name_as_slug" && Truthy(profileName) {
      var low := Lower(profileName.value);
      LowerIsLower(profileName.value);
      var cut := RemoveAll(low, '\'');
      RemoveAllFrom(low, '\'');
      var r := ReplaceAll(cut, ' ', '_');
      forall i | 0 <= i < |r|
        ensures r[i] != '\'' && r[i] != ' ' && !IsUpper(r[i])
      {
        assert cut[i] in cut;
      }
    }
  }

  lemma SlugExample()
    ensures TrackingSlug("profile_name_as_slug", Some("Jo's Run")) == "jos_run"
  {
    assert Lower("Jo's Run") == "jo" + ['\''] + "s run";
    RemoveOnly("jo", "s run", '\'');
    assert ReplaceAll("jo" + "s run", ' ', '_') == "jos_run";
  }

  /**
   * The donation a Raisely payment records: the resolved person, the amount,
   * the note, the payment date and the slug; when a recurrence field is
   * configured it is set from `donation.processing`, a key the record never
   * has, so it is always false.
   */
  function DonationRecord(donorId: int, amount: int, description: Option<string>, message: Option<string>,
                          date: ValidDate, mode: string, profileName: Option<string>, recurrenceField: string): Donation {
    Donation(donorId, amount, "Credit Card", DonationNote(description, message), date,
             TrackingSlug(mode, profileName),
             if recurrenceField != "" then Some((recurrenceField, false)) else None)
  }

  lemma DonationRecordFields(donorId: int, amount: int, description: Option<string>, message: Option<string>,
                             date: ValidDate, mode: string, profileName: Option<string>, recurrenceField: string)
    ensures var d := DonationRecord(donorId, amount, description, message, date, mode, profileName, recurrenceField);
      d.donorId == donorId && d.amountInCents == amount && d.succeededAt == date &&
      d.paymentTypeName == "Credit Card" && d.note == DonationNote(description, message) &&
      d.trackingCodeSlug == TrackingSlug(mode, profileName) &&
      (d.recurrence.Some? <==> recurrenceField != "") &&
      (d.recurrence.Some? ==> d.recurrence.value == (recurrenceField, false))
  {
  }

  // Action Network

  datatype EmailAddress = EmailAddress(address: Option<string>, primary: bool)

  datatype PostalAddress = PostalAddress(postalCode: Option<string>, country: Option<string>, primary: bool)

  /**
   * `xs.length > 0 ? (xs.find(x => x.primary === true) ? xs[0] : null) : null`:
   * the FIRST entry whenever ANY entry is marked primary.
   */
  function FirstIfAnyPrimary<T>(xs: seq<T>, primary: T -> bool): Option<T> {
    if |xs| > 0 && exists i :: 0 <= i < |xs| && primary(xs[i]) then Some(xs[0]) else None
  }

  lemma FirstIfAnyPrimaryCases<T>(xs: seq<T>, primary: T -> bool)
    ensures FirstIfAnyPrimary(xs, primary).Some? <==> exists i :: 0 <= i < |xs| && primary(xs[i])
    ensures FirstIfAnyPrimary(xs, primary).Some? ==> FirstIfAnyPrimary(xs, primary).value == xs[0]
  {
  }

  /** The entry chosen need not be the primary one: the primary flag on a later entry selects the first. */
  lemma SecondPrimaryPicksFirst(a: string, b: string)
    ensures FirstIfAnyPrimary([EmailAddress(Some(a), false), EmailAddress(Some(b), true)], (e: EmailAddress) => e.primary)
         == Some(EmailAddress(Some(a), false))
  {
    var xs := [EmailAddress(Some(a), false), EmailAddress(Some(b), true)];
    assert ((e: EmailAddress) => e.primary)(xs[1]);
  }

  /** The post code: cut to ten characters, and dropped for a US address when shorter than five. */
  function PostCode(code: Option<string>, country: Option<string>): Option<string> {
    if Truthy(code) then
      var p := Prefix(code.value, 10);
      if country == Some("US") && |p| < 5 then None else Some(p)
    else code
  }

  lemma PostCodeRule(code: Option<string>, country: Option<string>)
    ensures var r := PostCode(code, country);
      (Truthy(r) <==> Truthy(code) && (country == Some("US") ==> |code.value| >= 5)) &&
      (Truthy(r) ==> r.value == Prefix(code.value, 10) && |r.value| <= 10) &&
      (Truthy(r) && country == Some("US") ==> |r.value| >= 5)
  {
  }

  /** `home_address`: present iff a zip or a country code remains, each key present iff its value is set. */
  function HomeAddress(zip: Option<string>, country: Option<string>): Option<Address> {
    if Truthy(zip) || Truthy(country) then
      Some((if Truthy(zip) then map["zip" := zip.value] else map[])
           + (if Truthy(country) then map["country_code" := country.value] else map[]))
    else None
  }

  lemma HomeAddressFields(zip: Option<string>, country: Option<string>)
    ensures var r := HomeAddress(zip, country);
      (r.Some? <==> Truthy(zip) || Truthy(country)) &&
      (r.Some? ==>
        r.value.Keys <= {"zip", "country_code"} &&
        ("zip" in r.value <==> Truthy(zip)) && ("country_code" in r.value <==> Truthy(country)) &&
        ("zip" in r.value ==> r.value["zip"] == zip.value) &&
        ("country_code" in r.value ==> r.value["country_code"] == country.value))
  {
  }

  /** The person the Action Network route creates: a missing name is "Unknown", an empty one is kept. */
  function NewPerson(email: string, givenName: Option<string>, familyName: Option<string>, tags: seq<string>,
                     zip: Option<string>, country: Option<string>): PersonData {
    PersonData(
      email := Some(email),
      firstName := Some(givenName.GetOr("Unknown")),
      lastName := Some(familyName.GetOr("Unknown")),
      tags := Some(tags),
      phone := None,
      birthdate := None,
      billingAddress := None,
      homeAddress := HomeAddress(zip, country))
  }

  lemma NewPersonNames(email: string, givenName: Option<string>, familyName: Option<string>, tags: seq<string>,
                       zip: Option<string>, country: Option<string>)
    ensures var d := NewPerson(email, givenName, familyName, tags, zip, country);
      d.email == Some(email) && d.tags == Some(tags) &&
      (givenName.None? ==> d.firstName == Some("Unknown")) && (givenName.Some? ==> d.firstName == givenName) &&
      (familyName.None? ==> d.lastName == Some("Unknown")) && (familyName.Some? ==> d.lastName == familyName)
  {
  }
}
