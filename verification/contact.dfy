/**
 * The request body of `POST /api/contact` (`ContactIn`): which payloads are
 * accepted, the record an accepted payload becomes, and the problems
 * reported for a rejected one. Lengths count characters, as Python's `len`
 * on `str` does. The e-mail field is checked and normalised by a validator
 * this model does not describe; it is the parameter `parseEmail`, which
 * gives `None` for a rejected text and `Some(address)` for the address
 * stored in its place.
 */
module ContactForm {
  import opened Wrappers

  /** One field of the submitted JSON object. */
  datatype Field = Omitted | Null | Given(text: string)

  datatype Payload = Payload(name: Field, email: Field, subject: Field, phone: Field, message: Field, source: Field)

  /** An accepted contact message. */
  datatype Contact = Contact(
    name: string,
    email: string,
    subject: Option<string>,
    phone: Option<string>,
    message: string,
    source: string)

  datatype FieldName = Name | Email | Subject | Phone | Message | Source

  datatype Problem =
    | Missing(field: FieldName)
    | NotAString(field: FieldName)
    | TooShort(field: FieldName, min: nat)
    | TooLong(field: FieldName, max: nat)
    | NotAnEmail(field: FieldName)

  const NameMin: nat := 2
  const NameMax: nat := 120
  const SubjectMax: nat := 200
  const PhoneMax: nat := 30
  const MessageMin: nat := 5
  const MessageMax: nat := 5000
  const DefaultSource := "portfolio"

  /** The length bounds an accepted contact message satisfies. */
  predicate Valid(c: Contact) {
    && NameMin <= |c.name| <= NameMax
    && (c.subject.Some? ==> |c.subject.value| <= SubjectMax)
    && (c.phone.Some? ==> |c.phone.value| <= PhoneMax)
    && MessageMin <= |c.message| <= MessageMax
  }

  /** The problem, if any, with a required text field bounded by `min` and `max`. */
  function CheckRequired(f: FieldName, v: Field, min: nat, max: nat): seq<Problem> {
    match v
    case Omitted => [Missing(f)]
    case Null => [NotAString(f)]
    case Given(s) =>
      if |s| < min then [TooShort(f, min)]
      else if |s| > max then [TooLong(f, max)]
      else []
  }

  /** The problem, if any, with an optional text field bounded by `max`. */
  function CheckOptional(f: FieldName, v: Field, max: nat): seq<Problem> {
    match v
    case Given(s) => if |s| > max then [TooLong(f, max)] else []
    case _ => []
  }

  function CheckEmail(v: Field, parseEmail: string -> Option<string>): seq<Problem> {
    match v
    case Omitted => [Missing(Email)]
    case Null => [NotAString(Email)]
    case Given(s) => if parseEmail(s).Some? then [] else [NotAnEmail(Email)]
  }

  function CheckSource(v: Field): seq<Problem> {
    if v.Null? then [NotAString(Source)] else []
  }

  /** The problems one field contributes. */
  function FieldProblems(f: FieldName, p: Payload, parseEmail: string -> Option<string>): seq<Problem> {
    match f
    case Name => CheckRequired(Name, p.name, NameMin, NameMax)
    case Email => CheckEmail(p.email, parseEmail)
    case Subject => CheckOptional(Subject, p.subject, SubjectMax)
    case Phone => CheckOptional(Phone, p.phone, PhoneMax)
    case Message => CheckRequired(Message, p.message, MessageMin, MessageMax)
    case Source => CheckSource(p.source)
  }

  /** Every problem with the payload, field by field in declaration order. */
  function Problems(p: Payload, parseEmail: string -> Option<string>): seq<Problem> {
    FieldProblems(Name, p, parseEmail)
      + FieldProblems(Email, p, parseEmail)
      + FieldProblems(Subject, p, parseEmail)
      + FieldProblems(Phone, p, parseEmail)
      + FieldProblems(Message, p, parseEmail)
      + FieldProblems(Source, p, parseEmail)
  }

  function OptionalText(v: Field): Option<string> {
    if v.Given? then Some(v.text) else None
  }

  /** Parses a payload into a `ContactIn`, or reports every problem found. */
  function Validate(p: Payload, parseEmail: string -> Option<string>): (r: Result<Contact, seq<Problem>>)
    ensures r.Success? ==> Valid(r.value)
    ensures r.Failure? ==> |r.error| > 0
    // the accepted record carries the submitted texts, with absent optionals as None
    // and the e-mail address as the validator normalised it
    ensures r.Success? ==>
      && p.name == Given(r.value.name)
      && p.email.Given? && parseEmail(p.email.text) == Some(r.value.email)
      && p.message == Given(r.value.message)
      && r.value.subject == (if p.subject.Given? then Some(p.subject.text) else None)
      && r.value.phone == (if p.phone.Given? then Some(p.phone.text) else None)
      && (p.source.Given? ==> r.value.source == p.source.text)
      && (p.source.Omitted? ==> r.value.source == DefaultSource)
  {
    var problems := Problems(p, parseEmail);
    if |problems| > 0 then Failure(problems)
    else
      Success(Contact(
        p.name.text,
        parseEmail(p.email.text).value,
        OptionalText(p.subject),
        OptionalText(p.phone),
        p.message.text,
        if p.source.Given? then p.source.text else DefaultSource))
  }

  /** Whether one field, on its own, passes its constraint. */
  predicate FieldOk(f: FieldName, p: Payload, parseEmail: string -> Option<string>) {
    match f
    case Name => p.name.Given? && NameMin <= |p.name.text| <= NameMax
    case Email => p.email.Given? && parseEmail(p.email.text).Some?
    case Subject => p.subject.Given? ==> |p.subject.text| <= SubjectMax
    case Phone => p.phone.Given? ==> |p.phone.text| <= PhoneMax
    case Message => p.message.Given? && MessageMin <= |p.message.text| <= MessageMax
    case Source => !p.source.Null?
  }

  /** The fields the problems are about, in order. */
  function Fields(ps: seq<Problem>): seq<FieldName> {
    seq(|ps|, i requires 0 <= i < |ps| => ps[i].field)
  }

  lemma FieldsAppend(a: seq<Problem>, b: seq<Problem>)
    ensures Fields(a + b) == Fields(a) + Fields(b)
  {
  }

  /** `[f]` when field `f` fails its constraint, `[]` when it passes. */
  function IfFails(f: FieldName, p: Payload, parseEmail: string -> Option<string>): seq<FieldName> {
    if FieldOk(f, p, parseEmail) then [] else [f]
  }

  /** The failing fields, in declaration order: an independent statement of what `Problems` reports. */
  function FailingFields(p: Payload, parseEmail: string -> Option<string>): seq<FieldName> {
    IfFails(Name, p, parseEmail) + IfFails(Email, p, parseEmail) + IfFails(Subject, p, parseEmail)
      + IfFails(Phone, p, parseEmail) + IfFails(Message, p, parseEmail) + IfFails(Source, p, parseEmail)
  }

  /** A field contributes one problem, about itself, exactly when it fails. */
  lemma FieldProblemsShape(f: FieldName, p: Payload, parseEmail: string -> Option<string>)
    ensures Fields(FieldProblems(f, p, parseEmail)) == IfFails(f, p, parseEmail)
  {
  }

  /** How often `f` occurs among the fields `g` contributes when failing. */
  lemma IfFailsCount(g: FieldName, f: FieldName, p: Payload, parseEmail: string -> Option<string>)
    ensures multiset(IfFails(g, p, parseEmail))[f] == if g == f && !FieldOk(f, p, parseEmail) then 1 else 0
  {
  }

  /** Each field occurs among the failing fields once if it fails and not at all if it passes. */
  lemma FailingFieldsCount(f: FieldName, p: Payload, parseEmail: string -> Option<string>)
    ensures multiset(FailingFields(p, parseEmail))[f] == if FieldOk(f, p, parseEmail) then 0 else 1
  {
    IfFailsCount(Name, f, p, parseEmail);
    IfFailsCount(Email, f, p, parseEmail);
    IfFailsCount(Subject, f, p, parseEmail);
    IfFailsCount(Phone, f, p, parseEmail);
    IfFailsCount(Message, f, p, parseEmail);
    IfFailsCount(Source, f, p, parseEmail);
  }

  /** The problems collected are about exactly the failing fields, in declaration order. */
  lemma ProblemsInFieldOrder(p: Payload, parseEmail: string -> Option<string>)
    ensures Fields(Problems(p, parseEmail)) == FailingFields(p, parseEmail)
  {
    var n := FieldProblems(Name, p, parseEmail);
    var e := FieldProblems(Email, p, parseEmail);
    var s := FieldProblems(Subject, p, parseEmail);
    var ph := FieldProblems(Phone, p, parseEmail);
    var m := FieldProblems(Message, p, parseEmail);
    var so := FieldProblems(Source, p, parseEmail);
    FieldProblemsShape(Name, p, parseEmail);
    FieldProblemsShape(Email, p, parseEmail);
    FieldProblemsShape(Subject, p, parseEmail);
    FieldProblemsShape(Phone, p, parseEmail);
    FieldProblemsShape(Message, p, parseEmail);
    FieldProblemsShape(Source, p, parseEmail);
    FieldsAppend(n, e);
    FieldsAppend(n + e, s);
    FieldsAppend(n + e + s, ph);
    FieldsAppend(n + e + s + ph, m);
    FieldsAppend(n + e + s + ph + m, so);
  }

  /** Each failing field is collected exactly once and no passing field is collected. */
  lemma ProblemsCount(p: Payload, parseEmail: string -> Option<string>, f: FieldName)
    ensures multiset(Fields(Problems(p, parseEmail)))[f] == if FieldOk(f, p, parseEmail) then 0 else 1
  {
    ProblemsInFieldOrder(p, parseEmail);
    FailingFieldsCount(f, p, parseEmail);
  }

  /** A payload is accepted exactly when every field passes its own constraint. */
  lemma AcceptedIffAllFieldsOk(p: Payload, parseEmail: string -> Option<string>)
    ensures Validate(p, parseEmail).Success? <==> forall f: FieldName :: FieldOk(f, p, parseEmail)
  {
    var fs := Fields(Problems(p, parseEmail));
    if forall f: FieldName :: FieldOk(f, p, parseEmail) {
      if |fs| > 0 {
        ProblemsCount(p, parseEmail, fs[0]);
        assert false;
      }
    } else {
      var f: FieldName :| !FieldOk(f, p, parseEmail);
      ProblemsCount(p, parseEmail, f);
    }
  }

  /** A rejection reports exactly the failing fields, in declaration order. */
  lemma ProblemsAreFailingFields(p: Payload, parseEmail: string -> Option<string>)
    ensures Validate(p, parseEmail).Failure? ==>
      Fields(Validate(p, parseEmail).error) == FailingFields(p, parseEmail)
  {
    ProblemsInFieldOrder(p, parseEmail);
  }

  /** A rejection reports each failing field exactly once and no passing field. */
  lemma ProblemsNameFailingFields(p: Payload, parseEmail: string -> Option<string>, f: FieldName)
    ensures Validate(p, parseEmail).Failure? ==>
      multiset(Fields(Validate(p, parseEmail).error))[f] == if FieldOk(f, p, parseEmail) then 0 else 1
  {
    ProblemsCount(p, parseEmail, f);
  }

  /** The payload a client sends for a contact message, leaving out absent optionals. */
  function Submission(c: Contact): Payload {
    Payload(
      Given(c.name),
      Given(c.email),
      if c.subject.Some? then Given(c.subject.value) else Omitted,
      if c.phone.Some? then Given(c.phone.value) else Omitted,
      Given(c.message),
      Given(c.source))
  }

  /**
   * Every valid contact message whose address is already in the validator's
   * normal form survives a submission unchanged.
   */
  lemma SubmissionRoundTrip(c: Contact, parseEmail: string -> Option<string>)
    requires Valid(c)
    requires parseEmail(c.email) == Some(c.email)
    ensures Validate(Submission(c), parseEmail) == Success(c)
  {
  }

  /** A payload that leaves out `source` is recorded with the default one. */
  lemma SourceDefaults(p: Payload, parseEmail: string -> Option<string>)
    requires p.source.Omitted?
    requires Validate(p, parseEmail).Success?
    ensures Validate(p, parseEmail).value.source == "portfolio"
  {
  }
}
