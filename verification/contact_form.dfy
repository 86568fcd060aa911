/**
 The contact section's message form: four text fields, a submitting flag
 that drives the submit button, and the submit lifecycle around one send of
 the message through the email service. The send itself is not modelled;
 its outcome is an input. Also the colour-class lookup of the social links.
 */
module ContactForm {

  /** The four inputs of the form, by their name attribute. */
  datatype Field = Name | Email | Subject | Message

  datatype FormData = FormData(name: string, email: string, subject: string, message: string)

  const EmptyForm := FormData("", "", "", "")

  /** The value of one field. */
  function Get(f: FormData, field: Field): string {
    match field
    case Name => f.name
    case Email => f.email
    case Subject => f.subject
    case Message => f.message
  }

  /** A form is determined by its four field values. */
  lemma FormValuesDetermine(f: FormData, g: FormData)
    requires forall field :: Get(f, field) == Get(g, field)
    ensures f == g
  {
    assert Get(f, Name) == Get(g, Name);
    assert Get(f, Email) == Get(g, Email);
    assert Get(f, Subject) == Get(g, Subject);
    assert Get(f, Message) == Get(g, Message);
  }

  /** A change event on one input: that field takes the new value and the
      other three keep theirs. */
  function UpdateField(f: FormData, field: Field, value: string): (r: FormData)
    ensures Get(r, field) == value
    ensures forall other :: other != field ==> Get(r, other) == Get(f, other)
  {
    match field
    case Name => f.(name := value)
    case Email => f.(email := value)
    case Subject => f.(subject := value)
    case Message => f.(message := value)
  }

  /** Writing back a field's own value changes nothing, and a second write to
      the same field overrides the first. */
  lemma UpdateFieldLaws(f: FormData, field: Field, v: string, w: string)
    ensures UpdateField(f, field, Get(f, field)) == f
    ensures UpdateField(UpdateField(f, field, v), field, w) == UpdateField(f, field, w)
  {
    FormValuesDetermine(UpdateField(f, field, Get(f, field)), f);
    FormValuesDetermine(UpdateField(UpdateField(f, field, v), field, w), UpdateField(f, field, w));
  }

  /** The template parameters sent to the email service. */
  datatype TemplateParams = TemplateParams(fromName: string, fromEmail: string, subject: string, message: string)

  /** The parameters built from the form. */
  function Payload(f: FormData): (p: TemplateParams)
    ensures p.fromName == Get(f, Name) && p.fromEmail == Get(f, Email)
    ensures p.subject == Get(f, Subject) && p.message == Get(f, Message)
  {
    TemplateParams(f.name, f.email, f.subject, f.message)
  }

  /** The form a payload was built from, recovered field by field. */
  function FormOf(p: TemplateParams): (f: FormData)
    ensures Payload(f) == p
  {
    FormData(p.fromName, p.fromEmail, p.subject, p.message)
  }

  /** The payload carries the whole form and nothing else: building it loses
      no field. */
  lemma PayloadRoundTrip(f: FormData)
    ensures FormOf(Payload(f)) == f
  {
  }

  /** The section's state: the form and whether a send is in flight. */
  datatype ContactState = ContactState(form: FormData, submitting: bool)

  /** The section as mounted: every field empty and no send in flight, so the
      button is enabled and reads "Send Message". */
  function InitialContact(): (s: ContactState)
    ensures forall field :: Get(s.form, field) == ""
    ensures !s.submitting
    ensures SubmitButton(s) == Button(false, "Send Message")
  {
    ContactState(EmptyForm, false)
  }

  /** Every field holds some text, as the required attribute on each of the
      four inputs demands before the browser lets the form submit. */
  predicate Filled(f: FormData) {
    forall field :: Get(f, field) != ""
  }

  /** The form as mounted cannot be submitted: its required fields are empty. */
  lemma InitialFormNotSubmittable()
    ensures !Filled(InitialContact().form)
  {
    assert Get(InitialContact().form, Name) == "";
  }

  /** Field edits go through whether or not a send is in flight: the inputs
      are never disabled. */
  function Edit(s: ContactState, field: Field, value: string): (r: ContactState)
    ensures r.submitting == s.submitting
    ensures r.form == UpdateField(s.form, field, value)
  {
    s.(form := UpdateField(s.form, field, value))
  }

  /** What the submit button shows. */
  datatype Button = Button(disabled: bool, text: string)

  /** The submit button is disabled and reads "Sending..." exactly while a
      send is in flight, and reads "Send Message" otherwise. */
  function SubmitButton(s: ContactState): (b: Button)
    ensures b.disabled <==> s.submitting
    ensures b.text == "Sending..." <==> s.submitting
    ensures !s.submitting ==> b.text == "Send Message"
  {
    Button(s.submitting, if s.submitting then "Sending..." else "Send Message")
  }

  /** A send that has started: the state it left behind and what it sends. */
  datatype Pending = Pending(state: ContactState, sent: TemplateParams)

  /** The first half of a submit: mark the send in flight and build the
      payload from the form as it is now. */
  function BeginSubmit(s: ContactState): (p: Pending)
    requires Filled(s.form)
    ensures p.state.submitting
    ensures p.state.form == s.form
    ensures FormOf(p.sent) == s.form
  {
    Pending(s.(submitting := true), Payload(s.form))
  }

  /** How the send ended. */
  datatype SendOutcome = Sent | SendFailed

  /** The second half of a submit, once the send has settled: the flag
      clears on both paths; a successful send also clears all four fields,
      and a failed one leaves them as they are. */
  function FinishSubmit(s: ContactState, outcome: SendOutcome): (r: ContactState)
    ensures !r.submitting
    ensures outcome == Sent ==> forall field :: Get(r.form, field) == ""
    ensures outcome == SendFailed ==> r.form == s.form
  {
    match outcome
    case Sent => ContactState(EmptyForm, false)
    case SendFailed => s.(submitting := false)
  }

  /** A whole submit with no edit while the send is in flight: the button is
      locked during the send and free afterwards, the form is cleared on
      success and kept on failure, and the payload is the form submitted. */
  lemma SubmitLifecycle(s: ContactState, outcome: SendOutcome)
    requires Filled(s.form)
    ensures var p := BeginSubmit(s);
            && SubmitButton(p.state) == Button(true, "Sending...")
            && SubmitButton(FinishSubmit(p.state, outcome)) == Button(false, "Send Message")
            && FormOf(p.sent) == s.form
            && FinishSubmit(p.state, outcome).form == (if outcome == Sent then EmptyForm else s.form)
  {
  }

  /** Edits made while the send is in flight are not in the payload; they are
      discarded by a successful send and kept after a failed one. */
  lemma EditDuringSend(s: ContactState, field: Field, value: string, outcome: SendOutcome)
    requires Filled(s.form)
    ensures var p := BeginSubmit(s);
            var during := Edit(p.state, field, value);
            && during.submitting
            && FormOf(p.sent) == s.form
            && FinishSubmit(during, outcome).form
               == (if outcome == Sent then EmptyForm else UpdateField(s.form, field, value))
  {
  }

  // ---------------------------------------------------------------------------
  // Colour classes of the social links
  // ---------------------------------------------------------------------------

  datatype ColorClasses = ColorClasses(border: string, bg: string, icon: string, shadow: string)

  const KnownColors: seq<string> := ["cyber-primary", "cyber-secondary", "cyber-accent", "cyber-pink"]

  /** The colour a name resolves to: itself when known, cyber-primary otherwise. */
  function EffectiveColor(colorName: string): (c: string)
    ensures c in KnownColors
    ensures colorName in KnownColors ==> c == colorName
    ensures colorName !in KnownColors ==> c == "cyber-primary"
  {
    if colorName in KnownColors then colorName else "cyber-primary"
  }

  /** The entry of the cyber-primary colour, which is also the fallback. */
  const PrimaryClasses := ColorClasses(
    "border-cyber-primary/30 hover:border-cyber-primary/50",
    "bg-cyber-primary/10 hover:bg-cyber-primary/20",
    "text-cyber-primary",
    "hover:shadow-cyber")

  /** The classes of a social link drawn in the given colour. */
  function GetColorClasses(colorName: string): (r: ColorClasses)
    ensures colorName == "cyber-primary" || colorName !in KnownColors <==> r == PrimaryClasses
  {
    match colorName
    case "cyber-primary" => ColorClasses(
      "border-cyber-primary/30 hover:border-cyber-primary/50",
      "bg-cyber-primary/10 hover:bg-cyber-primary/20",
      "text-cyber-primary",
      "hover:shadow-cyber")
    case "cyber-secondary" => ColorClasses(
      "border-cyber-secondary/30 hover:border-cyber-secondary/50",
      "bg-cyber-secondary/10 hover:bg-cyber-secondary/20",
      "text-cyber-secondary",
      "hover:shadow-purple")
    case "cyber-accent" => ColorClasses(
      "border-cyber-accent/30 hover:border-cyber-accent/50",
      "bg-cyber-accent/10 hover:bg-cyber-accent/20",
      "text-cyber-accent",
      "hover:shadow-green")
    case "cyber-pink" => ColorClasses(
      "border-cyber-pink/30 hover:border-cyber-pink/50",
      "bg-cyber-pink/10 hover:bg-cyber-pink/20",
      "text-cyber-pink",
      "hover:shadow-[0_0_20px_hsl(var(--cyber-pink)/0.3)]")
    case _ => ColorClasses(
      "border-cyber-primary/30 hover:border-cyber-primary/50",
      "bg-cyber-primary/10 hover:bg-cyber-primary/20",
      "text-cyber-primary",
      "hover:shadow-cyber")
  }

  /** Looking up a name is the same as looking up the colour it resolves to:
      an unknown name gets exactly the cyber-primary entry. */
  lemma FallbackIsPrimary(colorName: string)
    ensures GetColorClasses(colorName) == GetColorClasses(EffectiveColor(colorName))
    ensures colorName !in KnownColors ==> GetColorClasses(colorName) == GetColorClasses("cyber-primary")
  {
  }

  /** The icon of a link in a known colour is tinted with that colour. */
  lemma IconClassNamesColor(c: string)
    requires c in KnownColors
    ensures GetColorClasses(c).icon == "text-" + c
  {
    if c == "cyber-primary" {
      assert "text-" + "cyber-primary" == "text-cyber-primary";
    } else if c == "cyber-secondary" {
      assert "text-" + "cyber-secondary" == "text-cyber-secondary";
    } else if c == "cyber-accent" {
      assert "text-" + "cyber-accent" == "text-cyber-accent";
    } else {
      assert "text-" + "cyber-pink" == "text-cyber-pink";
    }
  }

  /** The social links, by label and colour. */
  const SocialLinks: seq<(string, string)> := [
    ("GitHub", "cyber-primary"),
    ("LinkedIn", "cyber-secondary"),
    ("Twitter", "cyber-accent"),
    ("Email", "cyber-pink")
  ]

  /** Every social link names a known colour, so its icon is tinted with its
      own colour rather than the fallback's, and no two links share a colour. */
  lemma SocialLinksUseOwnColors()
    ensures forall i :: 0 <= i < |SocialLinks| ==> SocialLinks[i].1 in KnownColors
    ensures forall i :: 0 <= i < |SocialLinks| ==>
              GetColorClasses(SocialLinks[i].1).icon == "text-" + SocialLinks[i].1
    ensures forall i, j :: 0 <= i < j < |SocialLinks| ==> SocialLinks[i].1 != SocialLinks[j].1
  {
    forall i | 0 <= i < |SocialLinks|
      ensures GetColorClasses(SocialLinks[i].1).icon == "text-" + SocialLinks[i].1
    {
      IconClassNamesColor(SocialLinks[i].1);
    }
  }
}
