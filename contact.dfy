/** The contact section of src/sections/Contact.tsx: the controlled form, the
    submission with its in-flight flag and status banner, the timer that
    clears the banner, and the `tel:` and `mailto:` links. The mail service
    is not modelled: its answer arrives as a `Delivered` or `Failed` event. */
module Contact {
  import opened Common
  import opened Site
  import Text

  /** The four controlled inputs. */
  datatype FormData = FormData(name: string, email: string, subject: string, message: string)

  /** The `name` attribute of an input. */
  datatype Field = Name | Email | Subject | Message

  const EmptyForm: FormData := FormData("", "", "", "")

  function Get(data: FormData, field: Field): string {
    match field
    case Name => data.name
    case Email => data.email
    case Subject => data.subject
    case Message => data.message
  }

  /** `{ ...prev, [name]: value }`: the named input takes the new value, the
      others keep theirs. */
  function Set(data: FormData, field: Field, value: string): (r: FormData)
    ensures Get(r, field) == value
    ensures forall other :: other != field ==> Get(r, other) == Get(data, other)
  {
    match field
    case Name => data.(name := value)
    case Email => data.(email := value)
    case Subject => data.(subject := value)
    case Message => data.(message := value)
  }

  /** The banner above the form. */
  datatype Status = Status(success: bool, message: string)

  const SuccessMessage: string := "Votre message a été envoyé avec succès ! Je vous répondrai dès que possible."
  const FailureMessage: string := "Une erreur est survenue lors de l'envoi du message. Veuillez réessayer plus tard."

  /** Everything the form's handlers change; `timers` counts the five-second
      timers started and not yet fired. */
  datatype FormState = FormState(data: FormData, submitting: bool, status: Option<Status>, timers: nat)

  const InitialState: FormState := FormState(EmptyForm, false, None, 0)

  /** What happens to the form: typing, pressing the submit button, the mail
      service answering, a clearing timer firing. */
  datatype FormEvent =
    | Change(field: Field, value: string)
    | Submit
    | Delivered
    | Failed
    | TimerFired

  /** Every input carries `required`: the browser submits the form only when
      none of the four is empty. */
  predicate Filled(data: FormData) {
    data.name != "" && data.email != "" && data.subject != "" && data.message != ""
  }

  /** The submit button is disabled while a send is in flight, and the
      browser holds back a form with an empty input; an answer comes only for
      a send in flight; a timer fires only once started. */
  predicate Enabled(s: FormState, e: FormEvent) {
    match e
    case Change(_, _) => true
    case Submit => !s.submitting && Filled(s.data)
    case Delivered => s.submitting
    case Failed => s.submitting
    case TimerFired => s.timers > 0
  }

  /** The handlers on state values. A send's outcome runs the `finally`
      block too: the in-flight flag drops and a clearing timer starts. */
  function Step(s: FormState, e: FormEvent): FormState {
    match e
    case Change(field, value) => s.(data := Set(s.data, field, value))
    case Submit => s.(submitting := true)
    case Delivered => FormState(EmptyForm, false, Some(Status(true, SuccessMessage)), s.timers + 1)
    case Failed => s.(submitting := false, status := Some(Status(false, FailureMessage)), timers := s.timers + 1)
    case TimerFired => s.(status := None, timers := if s.timers > 0 then s.timers - 1 else 0)
  }

  /** Every event of `events` is enabled when it happens. */
  predicate Feasible(s: FormState, events: seq<FormEvent>)
    decreases events
  {
    events == [] || (Enabled(s, events[0]) && Feasible(Step(s, events[0]), events[1..]))
  }

  function Run(s: FormState, events: seq<FormEvent>): FormState
    decreases events
  {
    if events == [] then s else Run(Step(s, events[0]), events[1..])
  }

  /** A banner on screen always has a timer pending that will clear it. */
  predicate BannerWillClear(s: FormState) {
    s.status.Some? ==> s.timers > 0
  }

  lemma StepKeepsBanner(s: FormState, e: FormEvent)
    requires BannerWillClear(s) && Enabled(s, e)
    ensures BannerWillClear(Step(s, e))
  {
  }

  /** From the initial form, every feasible history leaves any banner with a
      pending timer. */
  lemma {:induction false} RunKeepsBanner(s: FormState, events: seq<FormEvent>)
    requires BannerWillClear(s) && Feasible(s, events)
    ensures BannerWillClear(Run(s, events))
    decreases events
  {
    if events != [] {
      StepKeepsBanner(s, events[0]);
      RunKeepsBanner(Step(s, events[0]), events[1..]);
    }
  }

  /** A successful send empties every input and shows the success banner,
      whatever was typed while it was in flight. */
  lemma SubmitDelivered(s: FormState, typed: seq<FormEvent>)
    requires !s.submitting && Filled(s.data)
    requires forall i :: 0 <= i < |typed| ==> typed[i].Change?
    ensures Feasible(s, [Submit] + typed + [Delivered])
    ensures Run(s, [Submit] + typed + [Delivered])
      == FormState(EmptyForm, false, Some(Status(true, SuccessMessage)), s.timers + 1)
  {
    var events, sending := [Submit] + typed + [Delivered], s.(submitting := true);
    assert events[0] == Submit && events[1..] == typed + [Delivered];
    assert Step(s, Submit) == sending;
    TypingOnly(sending, typed, Delivered);
    assert Run(s, events) == Run(sending, typed + [Delivered]);
  }

  /** A failed send keeps what was typed and shows the failure banner. */
  lemma SubmitFailed(s: FormState, typed: seq<FormEvent>)
    requires !s.submitting && Filled(s.data)
    requires forall i :: 0 <= i < |typed| ==> typed[i].Change?
    ensures Feasible(s, [Submit] + typed + [Failed])
    ensures Run(s, [Submit] + typed + [Failed])
      == FormState(Run(s, typed).data, false, Some(Status(false, FailureMessage)), s.timers + 1)
  {
    var events, sending := [Submit] + typed + [Failed], s.(submitting := true);
    assert events[0] == Submit && events[1..] == typed + [Failed];
    assert Step(s, Submit) == sending;
    TypingOnly(sending, typed, Failed);
    TypingOnlyData(s, typed);
    var typedIn := Run(sending, typed);
    assert typedIn == sending.(data := typedIn.data);
    assert Run(s, events) == Step(typedIn, Failed);
  }

  /** A successful send empties every input and shows the success banner; a
      failed send keeps what was typed and shows the failure banner; either
      way the button is enabled again and one more timer is pending. Typing
      while the send is in flight is lost on success. */
  lemma SubmitOutcomes(s: FormState, typed: seq<FormEvent>)
    requires !s.submitting && Filled(s.data)
    requires forall i :: 0 <= i < |typed| ==> typed[i].Change?
    ensures Feasible(s, [Submit] + typed + [Delivered]) && Feasible(s, [Submit] + typed + [Failed])
    ensures Run(s, [Submit] + typed + [Delivered])
      == FormState(EmptyForm, false, Some(Status(true, SuccessMessage)), s.timers + 1)
    ensures Run(s, [Submit] + typed + [Failed])
      == FormState(Run(s, typed).data, false, Some(Status(false, FailureMessage)), s.timers + 1)
  {
    SubmitDelivered(s, typed);
    SubmitFailed(s, typed);
  }

  /** Typing changes only the inputs. */
  lemma {:induction false} TypingOnly(s: FormState, typed: seq<FormEvent>, last: FormEvent)
    requires forall i :: 0 <= i < |typed| ==> typed[i].Change?
    requires !last.Submit? && Enabled(s, last)
    ensures Feasible(s, typed + [last])
    ensures Run(s, typed + [last]) == Step(Run(s, typed), last)
    ensures Run(s, typed) == s.(data := Run(s, typed).data)
    decreases typed
  {
    if typed == [] {
      assert typed + [last] == [last];
    } else {
      assert (typed + [last])[1..] == typed[1..] + [last];
      TypingOnly(Step(s, typed[0]), typed[1..], last);
    }
  }

  /** The inputs typed during a send are the inputs typed before it. */
  lemma {:induction false} TypingOnlyData(s: FormState, typed: seq<FormEvent>)
    requires forall i :: 0 <= i < |typed| ==> typed[i].Change?
    ensures Run(s.(submitting := true), typed).data == Run(s, typed).data
    decreases typed
  {
    if typed != [] {
      TypingOnlyData(Step(s, typed[0]), typed[1..]);
      assert Step(s.(submitting := true), typed[0]) == Step(s, typed[0]).(submitting := true);
    }
  }

  /** Once every pending timer has fired, no banner is shown. */
  lemma TimersClearBanner(s: FormState, n: nat)
    requires n == s.timers && BannerWillClear(s)
    ensures Feasible(s, seq(n, _ => TimerFired))
    ensures Run(s, seq(n, _ => TimerFired)).status == None
    ensures Run(s, seq(n, _ => TimerFired)).timers == 0
    decreases n
  {
    var fire := seq(n, _ => TimerFired);
    if n > 0 {
      assert fire[1..] == seq(n - 1, _ => TimerFired);
      TimersClearBanner(Step(s, TimerFired), n - 1);
    }
  }

  /** The characters the pattern `\s` matches in JavaScript. */
  predicate IsJsSpace(c: char) {
    c == '\t' || c == '\n' || c == '\U{B}' || c == '\U{C}' || c == '\r' || c == ' '
    || c == '\U{A0}' || c == '\U{1680}' || ('\U{2000}' <= c <= '\U{200A}')
    || c == '\U{2028}' || c == '\U{2029}' || c == '\U{202F}' || c == '\U{205F}'
    || c == '\U{3000}' || c == '\U{FEFF}'
  }

  predicate NotSpace(c: char) {
    !IsJsSpace(c)
  }

  /** The phone card's link: the number with every run of white space removed. */
  function TelLink(phone: string): string {
    "tel:" + Text.Keep(phone, NotSpace)
  }

  /** The dialled number keeps every non-space character of the phone number,
      in order (the link of a concatenation is the concatenation of the
      links) and as often as it occurs, and holds no white space; linking a
      number that is already compact changes nothing further. */
  lemma TelLinkSpec(phone: string, c: char, a: string, b: string)
    ensures TelLink(phone)[..4] == "tel:"
    ensures phone == a + b ==> TelLink(phone)[4..] == Text.Keep(a, NotSpace) + Text.Keep(b, NotSpace)
    ensures forall d :: d in TelLink(phone)[4..] ==> !IsJsSpace(d)
    ensures multiset(TelLink(phone)[4..])[c] == if IsJsSpace(c) then 0 else multiset(phone)[c]
    ensures TelLink(TelLink(phone)[4..]) == TelLink(phone)
    ensures (forall d :: d in phone ==> !IsJsSpace(d)) ==> TelLink(phone) == "tel:" + phone
  {
    assert TelLink(phone)[4..] == Text.Keep(phone, NotSpace);
    Text.KeepCount(phone, NotSpace, c);
    Text.KeepIdempotent(phone, NotSpace);
    Text.KeepAppend(a, b, NotSpace);
    if forall d :: d in phone ==> !IsJsSpace(d) {
      Text.KeepFixed(phone, NotSpace);
    }
  }

  /** A number written in visible ASCII characters only is dialled as written. */
  lemma PrintableTelLink(phone: string)
    requires forall i :: 0 <= i < |phone| ==> '!' <= phone[i] <= '~'
    ensures TelLink(phone) == "tel:" + phone
  {
    assert forall d :: d in phone ==> !IsJsSpace(d);
    Text.KeepFixed(phone, NotSpace);
  }

  /** A number written with a space between the country code and the rest is
      dialled without it. */
  lemma SpacedTelLink(code: string, rest: string)
    requires forall d :: d in code ==> !IsJsSpace(d)
    requires forall d :: d in rest ==> !IsJsSpace(d)
    ensures TelLink(code + " " + rest) == "tel:" + code + rest
  {
    Text.KeepAppend(code + " ", rest, NotSpace);
    Text.KeepAppend(code, " ", NotSpace);
    Text.KeepFixed(code, NotSpace);
    Text.KeepFixed(rest, NotSpace);
    assert Text.Keep(" ", NotSpace) == [];
  }

  /** The e-mail card's link. */
  function MailLink(email: string): string {
    "mailto:" + email
  }

  /** The e-mail address is recovered from its link. */
  lemma MailLinkSpec(email: string)
    ensures |MailLink(email)| == |email| + 7
    ensures MailLink(email)[..7] == "mailto:" && MailLink(email)[7..] == email
  {
  }

  /** The form component's state. */
  class ContactForm {
    var formData: FormData
    var isSubmitting: bool
    var submitStatus: Option<Status>
    var timersPending: nat

    function State(): FormState
      reads this
    {
      FormState(formData, isSubmitting, submitStatus, timersPending)
    }

    constructor ()
      ensures State() == InitialState
    {
      formData := EmptyForm;
      isSubmitting := false;
      submitStatus := None;
      timersPending := 0;
    }

    /** The `disabled` attribute of the submit button. */
    function SubmitDisabled(): bool
      reads this
    {
      isSubmitting
    }

    method HandleChange(field: Field, value: string)
      modifies this`formData
      ensures State() == Step(old(State()), Change(field, value))
      ensures Get(formData, field) == value
      ensures forall other :: other != field ==> Get(formData, other) == Get(old(formData), other)
    {
      formData := Set(formData, field, value);
    }

    /** The first half of `handleSubmit`, reached only through an enabled
        button and a form whose required inputs are all filled: the flag goes
        up and the current inputs are what the mail service receives. */
    method StartSubmit() returns (payload: FormData)
      requires !SubmitDisabled() && Filled(formData)
      modifies this`isSubmitting
      ensures State() == Step(old(State()), Submit)
      ensures payload == formData && SubmitDisabled()
    {
      isSubmitting := true;
      payload := formData;
    }

    /** The second half of `handleSubmit`, once the mail service has answered. */
    method Settle(delivered: bool)
      requires SubmitDisabled()
      modifies this
      ensures State() == Step(old(State()), if delivered then Delivered else Failed)
      ensures !SubmitDisabled() && submitStatus.Some? && submitStatus.value.success == delivered
      ensures delivered ==> formData == EmptyForm
      ensures !delivered ==> formData == old(formData)
    {
      if delivered {
        submitStatus := Some(Status(true, SuccessMessage));
        formData := EmptyForm;
      } else {
        submitStatus := Some(Status(false, FailureMessage));
      }
      isSubmitting := false;
      timersPending := timersPending + 1;
    }

    /** A five-second timer fires and clears whatever banner is shown. */
    method FireTimer()
      requires timersPending > 0
      modifies this`submitStatus, this`timersPending
      ensures State() == Step(old(State()), TimerFired)
      ensures submitStatus == None
    {
      submitStatus := None;
      timersPending := timersPending - 1;
    }
  }
}
