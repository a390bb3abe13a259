/**
 * The contact form of src/components/Contact.jsx: three text fields, the
 * parameters handed to the email service, and the submit state machine.
 * The send itself is outside the model; its outcome is the argument of
 * `FinishSubmit`.
 */
module Contact {

  /** The `formData` state. */
  datatype FormData = FormData(name: string, email: string, message: string)

  /** The `name` attribute of the input that changed. */
  datatype Field = Name | Email | Message

  /** The `submitStatus` state: `''`, `'success'` or `'error'`. */
  datatype Status = NoStatus | Success | Error

  /** The recipient written into every message. */
  const Recipient: string := "Alejandro Seclen"

  const EmptyForm: FormData := FormData("", "", "")

  /** The parameters passed to the email service. */
  datatype TemplateParams = TemplateParams(fromName: string, fromEmail: string, message: string,
                                           toName: string, replyTo: string)

  function Get(d: FormData, f: Field): string
  {
    match f
    case Name => d.name
    case Email => d.email
    case Message => d.message
  }

  /** `handleInputChange`: the changed field takes the new value and the other
      fields keep theirs. */
  function WithField(d: FormData, f: Field, value: string): (r: FormData)
    ensures Get(r, f) == value
    ensures forall g :: g != f ==> Get(r, g) == Get(d, g)
  {
    match f
    case Name => d.(name := value)
    case Email => d.(email := value)
    case Message => d.(message := value)
  }

  /** The `templateParams` object built from the form. */
  function Params(d: FormData): (p: TemplateParams)
    ensures p.toName == Recipient
    ensures p.replyTo == p.fromEmail
  {
    TemplateParams(d.name, d.email, d.message, Recipient, d.email)
  }

  /** The form a set of parameters was built from. */
  function FormOf(p: TemplateParams): FormData
  {
    FormData(p.fromName, p.fromEmail, p.message)
  }

  /** The parameters carry every field of the form: the form is recovered
      from them, and two different forms never send the same parameters. */
  lemma ParamsRoundTrip(d: FormData, e: FormData)
    ensures FormOf(Params(d)) == d
    ensures Params(d) == Params(e) ==> d == e
  {
  }

  /** Filling in all three fields in any order yields exactly the values typed. */
  lemma FillingAllFields(d: FormData, n: string, m: string, msg: string)
    ensures WithField(WithField(WithField(d, Message, msg), Email, m), Name, n) == FormData(n, m, msg)
    ensures WithField(WithField(WithField(d, Name, n), Email, m), Message, msg) == FormData(n, m, msg)
  {
  }

  predicate IsAlphanumeric(ch: char)
  {
    ('a' <= ch <= 'z') || ('A' <= ch <= 'Z') || ('0' <= ch <= '9')
  }

  /** A character allowed before the `@` of a valid e-mail address in HTML. */
  predicate IsLocalChar(ch: char)
  {
    IsAlphanumeric(ch) || ch in ".!#$%&'*+/=?^_`{|}~-"
  }

  /** One domain label: 1 to 63 letters, digits or hyphens, beginning and
      ending with a letter or digit. */
  predicate IsDomainLabel(s: string)
  {
    && 1 <= |s| <= 63
    && IsAlphanumeric(s[0]) && IsAlphanumeric(s[|s| - 1])
    && forall k :: 0 <= k < |s| ==> IsAlphanumeric(s[k]) || s[k] == '-'
  }

  /** The pieces of `s` between its dots. */
  function SplitAtDots(s: string): (parts: seq<string>)
    ensures |parts| >= 1 && (s == [] ==> parts == [""])
    ensures forall k :: 0 <= k < |parts| ==> '.' !in parts[k]
  {
    if s == [] then [""]
    else
      var rest := SplitAtDots(s[1..]);
      if s[0] == '.' then [""] + rest
      else [[s[0]] + rest[0]] + rest[1..]
  }

  /** A valid e-mail address in the sense of the HTML standard's
      `type="email"` input: a non-empty local part, one `@`, then dot-separated
      domain labels. */
  predicate IsValidEmail(e: string)
  {
    exists k :: 0 < k < |e| && e[k] == '@'
      && (forall i :: 0 <= i < k ==> IsLocalChar(e[i]))
      && (forall part :: part in SplitAtDots(e[k + 1..]) ==> IsDomainLabel(part))
  }

  /** The form's constraint validation: the browser submits the form only
      when every `required` field is filled in and the e-mail field holds a
      valid address. */
  predicate PassesValidation(d: FormData)
  {
    d.name != "" && d.email != "" && d.message != "" && IsValidEmail(d.email)
  }

  /** A valid address has exactly one `@`, with something on both sides. */
  lemma {:induction false} ValidEmailHasOneAt(e: string)
    requires IsValidEmail(e)
    ensures exists k :: 0 < k < |e| - 1 && e[k] == '@' && '@' !in e[..k] && '@' !in e[k + 1..]
  {
    var k :| 0 < k < |e| && e[k] == '@'
      && (forall i :: 0 <= i < k ==> IsLocalChar(e[i]))
      && (forall part :: part in SplitAtDots(e[k + 1..]) ==> IsDomainLabel(part));
    var parts := SplitAtDots(e[k + 1..]);
    assert parts[0] in parts;
    assert IsDomainLabel(parts[0]);
    NoAtInLabels(e[k + 1..]);
    assert '@' !in e[..k] by {
      forall i | 0 <= i < k ensures e[..k][i] != '@' {
        assert IsLocalChar(e[i]);
      }
    }
  }

  /** Every character of `s` but the dots lies in one of its pieces. */
  lemma {:induction false} CharsInPieces(s: string)
    ensures forall i :: 0 <= i < |s| && s[i] != '.' ==>
      exists part :: part in SplitAtDots(s) && s[i] in part
  {
    if s != [] {
      CharsInPieces(s[1..]);
      var rest := SplitAtDots(s[1..]);
      forall i | 0 <= i < |s| && s[i] != '.'
        ensures exists part :: part in SplitAtDots(s) && s[i] in part
      {
        if s[0] == '.' {
          assert s[i] == s[1..][i - 1];
          var part :| part in rest && s[i] in part;
          assert part in SplitAtDots(s);
        } else if i == 0 {
          assert ([s[0]] + rest[0])[0] == s[i];
          assert ([s[0]] + rest[0]) in SplitAtDots(s);
        } else {
          assert s[i] == s[1..][i - 1];
          var part :| part in rest && s[i] in part;
          if part == rest[0] {
            assert s[i] in [s[0]] + rest[0];
            assert ([s[0]] + rest[0]) in SplitAtDots(s);
          } else {
            var k :| 0 <= k < |rest| && rest[k] == part;
            assert SplitAtDots(s)[k] == part;
          }
        }
      }
    }
  }

  /** When every piece between the dots is a domain label, there is no `@`. */
  lemma NoAtInLabels(s: string)
    requires forall part :: part in SplitAtDots(s) ==> IsDomainLabel(part)
    ensures '@' !in s
  {
    CharsInPieces(s);
    forall i | 0 <= i < |s| && s[i] != '.' ensures s[i] != '@' {
      var part :| part in SplitAtDots(s) && s[i] in part;
      var k :| 0 <= k < |part| && part[k] == s[i];
      assert IsAlphanumeric(part[k]) || part[k] == '-';
    }
  }

  /** The empty form and an address with nothing after the `@` are refused. */
  lemma RefusedForms()
    ensures !PassesValidation(EmptyForm)
    ensures !IsValidEmail("ana@")
  {
    if IsValidEmail("ana@") {
      ValidEmailHasOneAt("ana@");
    }
  }

  /** The domain `x.io` splits into its two labels. */
  lemma SplitSample()
    ensures SplitAtDots("x.io") == ["x", "io"]
  {
    assert "o"[1..] == "" && "io"[1..] == "o" && ".io"[1..] == "io" && "x.io"[1..] == ".io";
    assert ['o'] + "" == "o" && ['i'] + "o" == "io" && ['x'] + "" == "x";
    assert SplitAtDots("io") == ["io"];
    assert SplitAtDots(".io") == ["", "io"];
  }

  /** A filled form with a dotted domain passes. */
  lemma AcceptedForm()
    ensures PassesValidation(FormData("Ana", "ana@x.io", "Hola"))
  {
    var e := "ana@x.io";
    assert e[..3] == "ana" && e[3] == '@' && e[4..] == "x.io";
    assert forall i :: 0 <= i < 3 ==> IsAlphanumeric(e[i]);
    SplitSample();
    assert IsDomainLabel("x") && IsDomainLabel("io");
    assert forall part :: part in SplitAtDots(e[4..]) ==> IsDomainLabel(part);
  }

  class ContactForm {
    var formData: FormData
    var isSubmitting: bool
    var submitStatus: Status
    /** Five-second status resets scheduled and not yet fired. */
    var pendingResets: nat

    constructor ()
      ensures formData == EmptyForm && !isSubmitting && submitStatus == NoStatus && pendingResets == 0
    {
      formData := EmptyForm;
      isSubmitting := false;
      submitStatus := NoStatus;
      pendingResets := 0;
    }

    /** The submit button is disabled exactly while a send is in progress. */
    function SubmitDisabled(): (disabled: bool)
      reads this
      ensures disabled <==> isSubmitting
    {
      isSubmitting
    }

    method InputChange(f: Field, value: string)
      modifies this`formData
      ensures formData == WithField(old(formData), f, value)
    {
      formData := WithField(formData, f, value);
    }

    /** `handleSubmit` up to the send: the button is disabled, the status is
        cleared, and the parameters are built from the current form. The form
        is submitted through its button, so not while it is disabled, and the
        browser submits it only when its constraint validation passes. */
    method BeginSubmit() returns (params: TemplateParams)
      requires !SubmitDisabled()
      requires PassesValidation(formData)
      modifies this`isSubmitting, this`submitStatus
      ensures isSubmitting && submitStatus == NoStatus && SubmitDisabled()
      ensures params == Params(formData) && FormOf(params) == formData
      ensures params.toName == Recipient && params.replyTo == formData.email
    {
      isSubmitting := true;
      submitStatus := NoStatus;
      params := Params(formData);
      ParamsRoundTrip(formData, formData);
    }

    /** `handleSubmit` after the send settles: success clears the form, failure
        keeps it; either way a status reset is scheduled and the button is
        enabled again. */
    method FinishSubmit(sent: bool)
      requires isSubmitting
      modifies this`formData, this`isSubmitting, this`submitStatus, this`pendingResets
      ensures !isSubmitting && !SubmitDisabled() && pendingResets == old(pendingResets) + 1
      ensures sent ==> submitStatus == Success && formData == EmptyForm
      ensures !sent ==> submitStatus == Error && formData == old(formData)
    {
      if sent {
        submitStatus := Success;
        formData := EmptyForm;
      } else {
        submitStatus := Error;
      }
      pendingResets := pendingResets + 1;
      isSubmitting := false;
    }

    /** A scheduled reset fires and clears whatever status is current. */
    method ResetTimerFires()
      requires pendingResets > 0
      modifies this`submitStatus, this`pendingResets
      ensures submitStatus == NoStatus && pendingResets == old(pendingResets) - 1
    {
      submitStatus := NoStatus;
      pendingResets := pendingResets - 1;
    }
  }

  /** One submission from a fresh form: the button is disabled during the send,
      and after it the form is empty on success and intact on failure, until
      the reset clears the status. */
  method SubmitOnce(d: FormData, sent: bool) returns (params: TemplateParams, status: Status, after: FormData)
    requires PassesValidation(d)
    ensures params == Params(d)
    ensures status == (if sent then Success else Error)
    ensures after == (if sent then EmptyForm else d)
  {
    var form := new ContactForm();
    form.InputChange(Name, d.name);
    form.InputChange(Email, d.email);
    form.InputChange(Message, d.message);
    FillingAllFields(EmptyForm, d.name, d.email, d.message);
    params := form.BeginSubmit();
    assert form.SubmitDisabled();
    form.FinishSubmit(sent);
    status := form.submitStatus;
    after := form.formData;
    form.ResetTimerFires();
    assert form.submitStatus == NoStatus && !form.SubmitDisabled();
  }
}
