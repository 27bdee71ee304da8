/** Trigger sets and what firing them records: one alert per fired set, one
    status per subscription, and one e-mail request per fired set that has at
    least one e-mail subscriber. Storage is the `AlertLog` class, whose
    sequences stand for the alert and status tables and the outgoing mail. */
module Alerts {
  import opened Results
  import Text
  import opened Triggers

  datatype Severity = Low | Medium | High {

    function Code(): char {
      match this
      case Low => 'L'
      case Medium => 'M'
      case High => 'H'
    }

    function Label(): string {
      match this
      case Low => "low"
      case Medium => "medium"
      case High => "high"
    }
  }

  function ParseSeverity(code: char): (s: Option<Severity>)
    ensures s.Some? ==> s.value.Code() == code
    ensures s.None? <==> code !in {'L', 'M', 'H'}
  {
    if code == 'L' then Some(Low)
    else if code == 'M' then Some(Medium)
    else if code == 'H' then Some(High)
    else None
  }

  lemma SeverityCodeRoundTrip(s: Severity)
    ensures ParseSeverity(s.Code()) == Some(s)
  {
  }

  datatype AlertStatus = Active | Silenced | Dismissed {

    function Code(): char {
      match this
      case Active => 'A'
      case Silenced => 'S'
      case Dismissed => 'D'
    }

    function Label(): string {
      match this
      case Active => "Active"
      case Silenced => "Silenced"
      case Dismissed => "Dismissed"
    }
  }

  function ParseAlertStatus(code: char): (s: Option<AlertStatus>)
    ensures s.Some? ==> s.value.Code() == code
    ensures s.None? <==> code !in {'A', 'S', 'D'}
  {
    if code == 'A' then Some(Active)
    else if code == 'S' then Some(Silenced)
    else if code == 'D' then Some(Dismissed)
    else None
  }

  lemma AlertStatusCodeRoundTrip(s: AlertStatus)
    ensures ParseAlertStatus(s.Code()) == Some(s)
  {
  }

  datatype User = User(id: int, email: string)

  /** A user's subscription to a trigger set; `email` asks for mail as well. */
  datatype Subscription = Subscription(user: User, email: bool)

  /** A rule: the model it watches (by class name), its conditions, its
      subscribers and the mail it sends. */
  datatype TriggerSet = TriggerSet(
    id: int,
    model: string,
    severity: Severity,
    name: string,
    emailTitle: string,
    emailTemplate: string,
    triggers: seq<Trigger>,
    subscriptions: seq<Subscription>)

  const DefaultModel := "Item"
  const DefaultName := "My Trigger"
  const DefaultEmailTitle := "Alert from GET LIMS"
  /** "{name}: {model} instance {instance} triggered on {date}." */
  const DefaultEmailTemplate :=
    NameField.Placeholder() + (": " + (ModelField.Placeholder() + (" instance " +
    (InstanceField.Placeholder() + (" triggered on " + (DateField.Placeholder() + "."))))))

  // ---------------------------------------------------------------------------
  // The e-mail template

  /** The four placeholders a template may use. */
  datatype Field = ModelField | InstanceField | NameField | DateField {

    function Key(): (k: string)
      ensures |k| > 0
    {
      match this
      case ModelField => "model"
      case InstanceField => "instance"
      case NameField => "name"
      case DateField => "date"
    }

    /** `'{{{}}}'.format(key)`. */
    function Placeholder(): (p: string)
      ensures |p| > 1 && p[0] == '{' && '{' !in p[1..]
      ensures p[1] == Key()[0]
    {
      "{" + Key() + "}"
    }
  }

  /** Replace `field`'s placeholder by `value`. */
  datatype Substitution = Substitution(field: Field, value: string)

  /** The substitutions of `complete_email_template`, in the order its dict
      lists them; the fire time is already formatted, the id written in decimal. */
  function Substitutions(ts: TriggerSet, inst: Instance, fired: string): seq<Substitution> {
    [ Substitution(ModelField, ts.model),
      Substitution(InstanceField, Text.FormatInt(inst.id)),
      Substitution(NameField, ts.name),
      Substitution(DateField, fired) ]
  }

  /** The value a placeholder stands for. */
  function Binding(f: Field, ts: TriggerSet, inst: Instance, fired: string): string {
    match f
    case ModelField => ts.model
    case InstanceField => Text.FormatInt(inst.id)
    case NameField => ts.name
    case DateField => fired
  }

  /** `content.replace(placeholder, value)` for each substitution in turn. */
  function Fill(content: string, subs: seq<Substitution>): string
    decreases subs
  {
    if subs == [] then content
    else Fill(Text.ReplaceAll(content, subs[0].field.Placeholder(), subs[0].value), subs[1..])
  }

  /** `TriggerSet.complete_email_template`, as the loop over its substitution
      fields is evidently meant to work. */
  method CompleteEmailTemplate(ts: TriggerSet, inst: Instance, fired: string) returns (content: string)
    ensures content == Fill(ts.emailTemplate, Substitutions(ts, inst, fired))
    ensures (forall f: Field :: !Text.Occurs(f.Placeholder(), ts.emailTemplate)) ==> content == ts.emailTemplate
  {
    var subs := Substitutions(ts, inst, fired);
    content := ts.emailTemplate;
    for k := 0 to |subs|
      invariant Fill(content, subs[k..]) == Fill(ts.emailTemplate, subs)
    {
      assert subs[k..][0] == subs[k] && subs[k..][1..] == subs[k + 1..];
      content := Text.ReplaceAll(content, subs[k].field.Placeholder(), subs[k].value);
    }
    if forall f: Field :: !Text.Occurs(f.Placeholder(), ts.emailTemplate) {
      FillWithoutPlaceholders(ts.emailTemplate, subs);
    }
  }

  /** Template text with no placeholder in it comes back unchanged. */
  lemma {:induction false} FillWithoutPlaceholders(content: string, subs: seq<Substitution>)
    requires forall f: Field :: !Text.Occurs(f.Placeholder(), content)
    ensures Fill(content, subs) == content
  {
    if subs != [] {
      Text.ReplaceAbsent(content, subs[0].field.Placeholder(), subs[0].value);
      FillWithoutPlaceholders(content, subs[1..]);
    }
  }

  /** A template seen as literal text and placeholders. */
  datatype Segment = Lit(text: string) | Hole(field: Field)

  /** The template text of a list of segments. */
  function Flatten(segs: seq<Segment>): string {
    if segs == [] then ""
    else Piece(segs[0]) + Flatten(segs[1..])
  }

  function RenderedPiece(seg: Segment, ts: TriggerSet, inst: Instance, fired: string): string {
    match seg
    case Lit(t) => t
    case Hole(f) => Binding(f, ts, inst, fired)
  }

  /** The intended message: each placeholder replaced by the value it names. */
  function Render(segs: seq<Segment>, ts: TriggerSet, inst: Instance, fired: string): string {
    if segs == [] then ""
    else RenderedPiece(segs[0], ts, inst, fired) + Render(segs[1..], ts, inst, fired)
  }

  /** Text in which no placeholder can start. */
  predicate Plain(s: string) {
    '{' !in s
  }

  predicate PlainLiterals(segs: seq<Segment>) {
    forall i :: 0 <= i < |segs| && segs[i].Lit? ==> Plain(segs[i].text)
  }

  function SubstituteOne(seg: Segment, s: Substitution): Segment {
    if seg == Hole(s.field) then Lit(s.value) else seg
  }

  /** One substitution applied to every segment. */
  function Substitute(segs: seq<Segment>, s: Substitution): seq<Segment> {
    if segs == [] then [] else [SubstituteOne(segs[0], s)] + Substitute(segs[1..], s)
  }

  /** All substitutions, in turn, applied to one segment. */
  function ResolveSegment(seg: Segment, subs: seq<Substitution>): Segment
    decreases subs
  {
    if subs == [] then seg else ResolveSegment(SubstituteOne(seg, subs[0]), subs[1..])
  }

  /** All substitutions applied to every segment. */
  function ResolveAll(segs: seq<Segment>, subs: seq<Substitution>): seq<Segment> {
    if segs == [] then [] else [ResolveSegment(segs[0], subs)] + ResolveAll(segs[1..], subs)
  }

  /** The four keys start with four different letters. */
  lemma KeyInitials(g: Field, f: Field)
    requires g != f
    ensures g.Key()[0] != f.Key()[0]
  {
  }

  /** Another field's placeholder is copied through a replacement pass. */
  lemma OtherPlaceholderKept(g: Field, f: Field, rest: string, value: string)
    requires g != f
    ensures Text.ReplaceAll(g.Placeholder() + rest, f.Placeholder(), value) ==
            g.Placeholder() + Text.ReplaceAll(rest, f.Placeholder(), value)
  {
    KeyInitials(g, f);
    Text.ReplaceSkipsNearMiss(g.Placeholder(), rest, f.Placeholder(), value);
  }

  /** One replacement pass, with a value that has no `{`, over a template whose
      literal text has no `{`, replaces exactly the holes of that field. */
  lemma {:induction false} OnePass(segs: seq<Segment>, s: Substitution)
    requires PlainLiterals(segs) && Plain(s.value)
    ensures Text.ReplaceAll(Flatten(segs), s.field.Placeholder(), s.value) == Flatten(Substitute(segs, s))
    ensures PlainLiterals(Substitute(segs, s))
  {
    if segs != [] {
      var rest := segs[1..];
      assert PlainLiterals(rest) by {
        forall i | 0 <= i < |rest| && rest[i].Lit? ensures Plain(rest[i].text) {
          assert rest[i] == segs[i + 1];
        }
      }
      OnePass(rest, s);
      var pat := s.field.Placeholder();
      match segs[0]
      case Lit(t) =>
        assert Plain(segs[0].text);
        Text.ReplaceSkipsPrefix(t, Flatten(rest), pat, s.value);
      case Hole(g) =>
        if g == s.field {
          Text.ReplaceAtFront(Flatten(rest), pat, s.value);
        } else {
          OtherPlaceholderKept(g, s.field, Flatten(rest), s.value);
        }
      var out := Substitute(segs, s);
      assert out[0] == SubstituteOne(segs[0], s) && out[1..] == Substitute(rest, s);
      forall i | 0 <= i < |out| && out[i].Lit? ensures Plain(out[i].text) {
        if i > 0 {
          assert out[i] == Substitute(rest, s)[i - 1];
        }
      }
    }
  }

  /** Applying one substitution and then the rest, segment by segment. */
  lemma {:induction false} ResolveAllStep(segs: seq<Segment>, subs: seq<Substitution>)
    requires subs != []
    ensures ResolveAll(segs, subs) == ResolveAll(Substitute(segs, subs[0]), subs[1..])
  {
    if segs != [] {
      ResolveAllStep(segs[1..], subs);
    }
  }

  /** The replacement passes do to the template text what resolving does to
      its segments. */
  lemma {:induction false} FillFlatten(segs: seq<Segment>, subs: seq<Substitution>)
    requires PlainLiterals(segs)
    requires forall i :: 0 <= i < |subs| ==> Plain(subs[i].value)
    ensures Fill(Flatten(segs), subs) == Flatten(ResolveAll(segs, subs))
    decreases subs
  {
    if subs == [] {
      ResolvedByNothing(segs);
    } else {
      OnePass(segs, subs[0]);
      FillFlatten(Substitute(segs, subs[0]), subs[1..]);
      ResolveAllStep(segs, subs);
    }
  }

  lemma {:induction false} ResolvedByNothing(segs: seq<Segment>)
    ensures ResolveAll(segs, []) == segs
  {
    if segs != [] {
      ResolvedByNothing(segs[1..]);
    }
  }

  /** Literal text goes through every substitution untouched. */
  lemma {:induction false} ResolveLiteral(t: string, subs: seq<Substitution>)
    ensures ResolveSegment(Lit(t), subs) == Lit(t)
    decreases subs
  {
    if subs != [] {
      ResolveLiteral(t, subs[1..]);
    }
  }

  /** A placeholder becomes the value of the first substitution for its field. */
  lemma {:induction false} ResolveHole(f: Field, subs: seq<Substitution>, k: nat)
    requires k < |subs| && subs[k].field == f
    requires forall i :: 0 <= i < k ==> subs[i].field != f
    ensures ResolveSegment(Hole(f), subs) == Lit(subs[k].value)
    decreases subs
  {
    if k == 0 {
      ResolveLiteral(subs[0].value, subs[1..]);
    } else {
      ResolveHole(f, subs[1..], k - 1);
    }
  }

  /** Resolving with the four substitutions gives the intended message. */
  lemma {:induction false} ResolvedRenders(segs: seq<Segment>, ts: TriggerSet, inst: Instance, fired: string)
    ensures Flatten(ResolveAll(segs, Substitutions(ts, inst, fired))) == Render(segs, ts, inst, fired)
  {
    if segs != [] {
      var subs := Substitutions(ts, inst, fired);
      ResolvedRenders(segs[1..], ts, inst, fired);
      match segs[0]
      case Lit(t) =>
        ResolveLiteral(t, subs);
      case Hole(f) =>
        var k := match f case ModelField => 0 case InstanceField => 1 case NameField => 2 case DateField => 3;
        ResolveHole(f, subs, k);
    }
  }

  /** Template text made of `{`-free literals and placeholders, filled with
      `{`-free values, becomes exactly the intended message. */
  lemma TemplateRenders(segs: seq<Segment>, ts: TriggerSet, inst: Instance, fired: string)
    requires ts.emailTemplate == Flatten(segs) && PlainLiterals(segs)
    requires Plain(ts.model) && Plain(ts.name) && Plain(fired)
    ensures Fill(ts.emailTemplate, Substitutions(ts, inst, fired)) == Render(segs, ts, inst, fired)
  {
    var subs := Substitutions(ts, inst, fired);
    assert Plain(Text.FormatInt(inst.id));
    FillFlatten(segs, subs);
    ResolvedRenders(segs, ts, inst, fired);
  }

  /** The default template as segments, from the instance id on. */
  const DefaultTail: seq<Segment> :=
    [Hole(InstanceField)] + ([Lit(" triggered on ")] + ([Hole(DateField)] + [Lit(".")]))

  /** The default template as segments. */
  const DefaultSegments: seq<Segment> :=
    [Hole(NameField)] + ([Lit(": ")] + ([Hole(ModelField)] + ([Lit(" instance ")] + DefaultTail)))

  /** The text a single segment stands for in the template. */
  function Piece(seg: Segment): string {
    match seg
    case Lit(t) => t
    case Hole(f) => f.Placeholder()
  }

  lemma FlattenCons(seg: Segment, rest: seq<Segment>)
    ensures Flatten([seg] + rest) == Piece(seg) + Flatten(rest)
  {
    assert ([seg] + rest)[1..] == rest;
  }

  lemma DefaultTailFlatten()
    ensures Flatten(DefaultTail) ==
      InstanceField.Placeholder() + (" triggered on " + (DateField.Placeholder() + "."))
  {
    var s7 := [Lit(".")];
    FlattenCons(Lit("."), []);
    assert [Lit(".")] + [] == s7;
    var s6 := [Hole(DateField)] + s7;
    FlattenCons(Hole(DateField), s7);
    var s5 := [Lit(" triggered on ")] + s6;
    FlattenCons(Lit(" triggered on "), s6);
    FlattenCons(Hole(InstanceField), s5);
  }

  lemma DefaultSegmentsFlatten()
    ensures Flatten(DefaultSegments) == DefaultEmailTemplate
  {
    DefaultTailFlatten();
    var s3 := [Lit(" instance ")] + DefaultTail;
    FlattenCons(Lit(" instance "), DefaultTail);
    var s2 := [Hole(ModelField)] + s3;
    FlattenCons(Hole(ModelField), s3);
    var s1 := [Lit(": ")] + s2;
    FlattenCons(Lit(": "), s2);
    FlattenCons(Hole(NameField), s1);
  }

  lemma DefaultSegmentsPlain()
    ensures PlainLiterals(DefaultSegments)
  {
  }

  lemma RenderCons(seg: Segment, rest: seq<Segment>, ts: TriggerSet, inst: Instance, fired: string)
    ensures Render([seg] + rest, ts, inst, fired) == RenderedPiece(seg, ts, inst, fired) + Render(rest, ts, inst, fired)
  {
    assert ([seg] + rest)[1..] == rest;
  }

  /** "<name>: <model> instance <id> triggered on <date>." */
  function DefaultMessage(name: string, model: string, id: string, date: string): string {
    name + (": " + (model + (" instance " + (id + (" triggered on " + (date + "."))))))
  }

  lemma DefaultTailRender(ts: TriggerSet, inst: Instance, fired: string)
    ensures Render(DefaultTail, ts, inst, fired) == Text.FormatInt(inst.id) + (" triggered on " + (fired + "."))
  {
    var s7 := [Lit(".")];
    RenderCons(Lit("."), [], ts, inst, fired);
    assert [Lit(".")] + [] == s7;
    var s6 := [Hole(DateField)] + s7;
    RenderCons(Hole(DateField), s7, ts, inst, fired);
    var s5 := [Lit(" triggered on ")] + s6;
    RenderCons(Lit(" triggered on "), s6, ts, inst, fired);
    RenderCons(Hole(InstanceField), s5, ts, inst, fired);
  }

  lemma DefaultSegmentsRender(ts: TriggerSet, inst: Instance, fired: string)
    ensures Render(DefaultSegments, ts, inst, fired) == DefaultMessage(ts.name, ts.model, Text.FormatInt(inst.id), fired)
  {
    DefaultTailRender(ts, inst, fired);
    var s3 := [Lit(" instance ")] + DefaultTail;
    RenderCons(Lit(" instance "), DefaultTail, ts, inst, fired);
    var s2 := [Hole(ModelField)] + s3;
    RenderCons(Hole(ModelField), s3, ts, inst, fired);
    var s1 := [Lit(": ")] + s2;
    RenderCons(Lit(": "), s2, ts, inst, fired);
    RenderCons(Hole(NameField), s1, ts, inst, fired);
  }

  /** The default template, with plain values, reads
      "<name>: <model> instance <id> triggered on <date>.". */
  lemma DefaultTemplateMessage(ts: TriggerSet, inst: Instance, fired: string)
    requires ts.emailTemplate == DefaultEmailTemplate
    requires Plain(ts.model) && Plain(ts.name) && Plain(fired)
    ensures Fill(ts.emailTemplate, Substitutions(ts, inst, fired)) ==
      DefaultMessage(ts.name, ts.model, Text.FormatInt(inst.id), fired)
  {
    DefaultSegmentsFlatten();
    DefaultSegmentsPlain();
    TemplateRenders(DefaultSegments, ts, inst, fired);
    DefaultSegmentsRender(ts, inst, fired);
  }

  // The template loop as written, for the finding on `complete_email_template`.

  /** Raised when a string is unpacked into two names but is not two long. */
  datatype UnpackError = TooManyValues(key: string) | NotEnoughValues(key: string)

  /** The keys of the substitution dict in insertion order; iterating a dict
      yields these, not (key, value) pairs. */
  const SubstitutionKeys: seq<string> := ["model", "instance", "name", "date"]

  /** `for field, value in keys: content = content.replace('{' + field + '}', value)`:
      each key string is unpacked into two characters. */
  function FillAsWritten(content: string, keys: seq<string>): (r: Result<string, UnpackError>)
    ensures r.Ok? <==> forall i :: 0 <= i < |keys| ==> |keys[i]| == 2
    ensures r.Err? ==> r.error.key in keys
    decreases keys
  {
    if keys == [] then Ok(content)
    else if |keys[0]| > 2 then Err(TooManyValues(keys[0]))
    else if |keys[0]| < 2 then Err(NotEnoughValues(keys[0]))
    else FillAsWritten(Text.ReplaceAll(content, "{" + [keys[0][0]] + "}", [keys[0][1]]), keys[1..])
  }

  /** `complete_email_template` as written. */
  function CompleteEmailTemplateAsWritten(ts: TriggerSet): Result<string, UnpackError> {
    FillAsWritten(ts.emailTemplate, SubstitutionKeys)
  }

  /** As written, every call raises on the first key, whatever the template.
      With the dict iterated in insertion order (Python 3.7 and later) that key
      is `model`. */
  lemma TemplateAsWrittenAlwaysRaises(ts: TriggerSet)
    ensures CompleteEmailTemplateAsWritten(ts) == Err(TooManyValues("model"))
  {
  }

  /** In whatever order the dict yields its keys (under Python 2 it depends on
      hashing), the first one is longer than two characters, so unpacking it
      raises. */
  lemma TemplateAsWrittenRaisesInAnyOrder(content: string, keys: seq<string>)
    requires multiset(keys) == multiset(SubstitutionKeys)
    ensures FillAsWritten(content, keys) == Err(TooManyValues(keys[0]))
  {
    assert keys[0] in multiset(SubstitutionKeys);
  }

  // ---------------------------------------------------------------------------
  // Firing

  datatype TriggerAlert = TriggerAlert(triggerSet: int, instanceId: int, fired: string)

  /** `triggerAlert` is the position of the alert in the alert table. */
  datatype TriggerAlertStatus = TriggerAlertStatus(user: int, status: AlertStatus, lastUpdatedBy: int, triggerAlert: nat)

  /** A `send_mail` request: subject, body and the recipient list. */
  datatype Mail = Mail(subject: string, body: string, recipients: seq<string>)

  /** The addresses collected from the subscriptions, in subscription order. */
  function Recipients(subs: seq<Subscription>): (r: seq<string>)
    ensures |r| <= |subs|
  {
    if subs == [] then []
    else
      var last := subs[|subs| - 1];
      if last.email then Recipients(subs[..|subs| - 1]) + [last.user.email] else Recipients(subs[..|subs| - 1])
  }

  /** The list holds exactly the addresses of e-mail subscriptions, and is empty
      exactly when no subscription asks for e-mail. */
  lemma {:induction false} RecipientsExactly(subs: seq<Subscription>)
    ensures forall e :: e in Recipients(subs) <==> exists i :: 0 <= i < |subs| && subs[i].email && subs[i].user.email == e
    ensures Recipients(subs) == [] <==> forall i :: 0 <= i < |subs| ==> !subs[i].email
  {
    if subs != [] {
      var front := subs[..|subs| - 1];
      RecipientsExactly(front);
      forall i | 0 <= i < |front| ensures front[i] == subs[i] { }
    }
  }

  /** The addresses of a list of subscriptions are those of its two halves,
      one after the other. */
  lemma {:induction false} RecipientsConcat(a: seq<Subscription>, b: seq<Subscription>)
    ensures Recipients(a + b) == Recipients(a) + Recipients(b)
  {
    if b != [] {
      var front := b[..|b| - 1];
      assert (a + b)[..|a + b| - 1] == a + front;
      assert (a + b)[|a + b| - 1] == b[|b| - 1];
      RecipientsConcat(a, front);
    } else {
      assert a + b == a;
    }
  }

  /** One subscription contributes its user's address exactly when it asks for
      e-mail. */
  lemma RecipientsOfOne(s: Subscription)
    ensures Recipients([s]) == if s.email then [s.user.email] else []
  {
    assert [s][..0] == [];
  }

  /** The number of subscriptions that ask for e-mail, counted from the front. */
  function EmailCount(subs: seq<Subscription>): nat {
    if subs == [] then 0 else (if subs[0].email then 1 else 0) + EmailCount(subs[1..])
  }

  /** There is one address per e-mail subscription. */
  lemma {:induction false} RecipientsCount(subs: seq<Subscription>)
    ensures |Recipients(subs)| == EmailCount(subs)
  {
    if subs != [] {
      RecipientsCount(subs[1..]);
      assert subs == [subs[0]] + subs[1..];
      RecipientsConcat([subs[0]], subs[1..]);
      RecipientsOfOne(subs[0]);
    }
  }

  /** The address of the e-mail subscription at position `i` comes right after
      those of the subscriptions before it. */
  lemma RecipientAt(subs: seq<Subscription>, i: nat)
    requires i < |subs| && subs[i].email
    ensures |Recipients(subs[..i])| < |Recipients(subs)|
    ensures Recipients(subs)[|Recipients(subs[..i])|] == subs[i].user.email
  {
    var before := subs[..i];
    var after := subs[i + 1..];
    assert subs == before + ([subs[i]] + after);
    RecipientsConcat(before, [subs[i]] + after);
    RecipientsConcat([subs[i]], after);
    RecipientsOfOne(subs[i]);
    assert Recipients(subs) == Recipients(before) + ([subs[i].user.email] + Recipients(after));
  }

  /** The addresses follow subscription order, one per e-mail subscription. */
  lemma RecipientsInOrder(subs: seq<Subscription>)
    ensures |Recipients(subs)| == EmailCount(subs)
    ensures forall i :: 0 <= i < |subs| && subs[i].email ==>
      |Recipients(subs[..i])| < |Recipients(subs)| && Recipients(subs)[|Recipients(subs[..i])|] == subs[i].user.email
  {
    RecipientsCount(subs);
    forall i | 0 <= i < |subs| && subs[i].email
      ensures |Recipients(subs[..i])| < |Recipients(subs)| && Recipients(subs)[|Recipients(subs[..i])|] == subs[i].user.email
    {
      RecipientAt(subs, i);
    }
  }

  /** The status a subscriber gets for a new alert: active, owned and last
      updated by the subscriber. */
  function ActiveStatus(user: User, alert: nat): TriggerAlertStatus {
    TriggerAlertStatus(user.id, Active, user.id, alert)
  }

  /** One status per subscription, in subscription order, all for the alert at
      position `alert`. */
  function StatusesFor(subs: seq<Subscription>, alert: nat): (r: seq<TriggerAlertStatus>)
    ensures |r| == |subs|
    ensures forall i :: 0 <= i < |subs| ==> r[i] == ActiveStatus(subs[i].user, alert)
  {
    if subs == [] then []
    else StatusesFor(subs[..|subs| - 1], alert) + [ActiveStatus(subs[|subs| - 1].user, alert)]
  }

  /** The message for a fired set. */
  function EmailBody(ts: TriggerSet, inst: Instance, fired: string): string {
    Fill(ts.emailTemplate, Substitutions(ts, inst, fired))
  }

  /** A set with at least one e-mail subscriber. */
  predicate Mailed(ts: TriggerSet) {
    Recipients(ts.subscriptions) != []
  }

  /** The mail a fired set sends: one message to all e-mail subscribers, or
      none when there are none. */
  function MailsFor(ts: TriggerSet, inst: Instance, fired: string): seq<Mail> {
    if Mailed(ts) then [Mail(ts.emailTitle, EmailBody(ts, inst, fired), Recipients(ts.subscriptions))] else []
  }

  /** The records one call adds, and the error that ended it early, if any. */
  datatype Outcome = Outcome(
    alerts: seq<TriggerAlert>,
    statuses: seq<TriggerAlertStatus>,
    mails: seq<Mail>,
    error: Option<TriggerError>)

  const NoRecords := Outcome([], [], [], None)

  /** The records of one fired set, after those of `o`; `base` is the number
      of alerts stored before the call. */
  function Raise(o: Outcome, ts: TriggerSet, inst: Instance, now: string, base: nat): (r: Outcome)
    ensures r.error == o.error
    ensures o.alerts <= r.alerts && |r.alerts| == |o.alerts| + 1
    ensures o.statuses <= r.statuses && |r.statuses| == |o.statuses| + |ts.subscriptions|
    ensures o.mails <= r.mails && |r.mails| <= |o.mails| + 1
  {
    o.(alerts := o.alerts + [TriggerAlert(ts.id, inst.id, now)],
       statuses := o.statuses + StatusesFor(ts.subscriptions, base + |o.alerts|),
       mails := o.mails + MailsFor(ts, inst, now))
  }

  /** One iteration of `fire_trigger`'s loop over trigger sets. */
  function Step(before: Outcome, ts: TriggerSet, modelName: string, inst: Instance, now: string, base: nat): (r: Outcome)
    ensures before.error.Some? ==> r == before
    ensures before.alerts <= r.alerts && before.statuses <= r.statuses && before.mails <= r.mails
    ensures |r.alerts| <= |before.alerts| + 1 && |r.mails| <= |before.mails| + 1
  {
    if before.error.Some? || ts.model != modelName then before
    else match AllTriggersFire(ts.triggers, inst)
      case Err(e) => before.(error := Some(e))
      case Ok(fires) => if fires then Raise(before, ts, inst, now, base) else before
  }

  /** `fire_trigger` over the trigger sets in storage order: sets of other
      models are skipped, a set whose conditions all hold is raised, and an
      error evaluating a condition ends the call with what was recorded so far. */
  function Fire(sets: seq<TriggerSet>, modelName: string, inst: Instance, now: string, base: nat): (o: Outcome)
    ensures |o.alerts| <= |sets| && |o.mails| <= |sets|
  {
    if sets == [] then NoRecords
    else Step(Fire(sets[..|sets| - 1], modelName, inst, now, base), sets[|sets| - 1], modelName, inst, now, base)
  }

  /** Once an error ends the call, later sets add nothing. */
  lemma {:induction false} FireSettled(sets: seq<TriggerSet>, k: nat, modelName: string, inst: Instance, now: string, base: nat)
    requires k <= |sets| && Fire(sets[..k], modelName, inst, now, base).error.Some?
    ensures Fire(sets, modelName, inst, now, base) == Fire(sets[..k], modelName, inst, now, base)
  {
    if k < |sets| {
      var front := sets[..|sets| - 1];
      assert front[..k] == sets[..k];
      FireSettled(front, k, modelName, inst, now, base);
    } else {
      assert sets[..k] == sets;
    }
  }

  /** The sets of `modelName` in storage order. */
  function OfModel(sets: seq<TriggerSet>, modelName: string): (r: seq<TriggerSet>)
    ensures forall ts :: ts in r <==> ts in sets && ts.model == modelName
  {
    if sets == [] then []
    else
      var front := sets[..|sets| - 1];
      var ts := sets[|sets| - 1];
      assert sets == front + [ts];
      if ts.model == modelName then OfModel(front, modelName) + [ts] else OfModel(front, modelName)
  }

  /** Only sets watching the saved model matter: the others add no record and
      raise no error. */
  lemma {:induction false} OnlyWatchedModel(sets: seq<TriggerSet>, modelName: string, inst: Instance, now: string, base: nat)
    ensures Fire(sets, modelName, inst, now, base) == Fire(OfModel(sets, modelName), modelName, inst, now, base)
  {
    if sets != [] {
      var front := sets[..|sets| - 1];
      var ts := sets[|sets| - 1];
      OnlyWatchedModel(front, modelName, inst, now, base);
      var watched := OfModel(sets, modelName);
      if ts.model == modelName {
        assert watched[..|watched| - 1] == OfModel(front, modelName);
      }
    }
  }

  /** `ts` watches `modelName` and all its conditions hold for `inst`. */
  predicate Fires(ts: TriggerSet, modelName: string, inst: Instance) {
    ts.model == modelName && AllTriggersFire(ts.triggers, inst) == Ok(true)
  }

  /** The sets that fire, in storage order. */
  function FiredSets(sets: seq<TriggerSet>, modelName: string, inst: Instance): (r: seq<TriggerSet>)
    ensures forall ts :: ts in r <==> ts in sets && Fires(ts, modelName, inst)
  {
    if sets == [] then []
    else
      var front := sets[..|sets| - 1];
      var ts := sets[|sets| - 1];
      assert sets == front + [ts];
      if Fires(ts, modelName, inst) then FiredSets(front, modelName, inst) + [ts] else FiredSets(front, modelName, inst)
  }

  /** The records of raising the given sets, one after another. */
  function RaiseAll(fired: seq<TriggerSet>, inst: Instance, now: string, base: nat): (o: Outcome)
    ensures o.error.None? && |o.alerts| == |fired|
  {
    if fired == [] then NoRecords
    else Raise(RaiseAll(fired[..|fired| - 1], inst, now, base), fired[|fired| - 1], inst, now, base)
  }

  /** Without an error, firing is choosing the sets that fire and then raising
      each of them: evaluation itself records nothing. */
  lemma {:induction false} EvaluateThenRaise(sets: seq<TriggerSet>, modelName: string, inst: Instance, now: string, base: nat)
    requires Fire(sets, modelName, inst, now, base).error.None?
    ensures Fire(sets, modelName, inst, now, base) == RaiseAll(FiredSets(sets, modelName, inst), inst, now, base)
  {
    if sets != [] {
      var front := sets[..|sets| - 1];
      var ts := sets[|sets| - 1];
      var before := Fire(front, modelName, inst, now, base);
      assert before.error.None?;
      EvaluateThenRaise(front, modelName, inst, now, base);
      var fired := FiredSets(sets, modelName, inst);
      if Fires(ts, modelName, inst) {
        assert fired[..|fired| - 1] == FiredSets(front, modelName, inst);
        assert Step(before, ts, modelName, inst, now, base) == Raise(before, ts, inst, now, base);
      } else {
        assert Step(before, ts, modelName, inst, now, base) == before;
      }
    }
  }

  function MailedCount(fired: seq<TriggerSet>): nat {
    if fired == [] then 0
    else MailedCount(fired[..|fired| - 1]) + (if Mailed(fired[|fired| - 1]) then 1 else 0)
  }

  function SubscriptionCount(fired: seq<TriggerSet>): nat {
    if fired == [] then 0
    else SubscriptionCount(fired[..|fired| - 1]) + |fired[|fired| - 1].subscriptions|
  }

  lemma RaiseAlerts(o: Outcome, ts: TriggerSet, inst: Instance, now: string, base: nat)
    ensures Raise(o, ts, inst, now, base).alerts == o.alerts + [TriggerAlert(ts.id, inst.id, now)]
  {
  }

  /** Raising sets records no error and one alert per set, in order, for the
      instance and the time of the call. */
  lemma {:induction false} RaisedAlerts(fired: seq<TriggerSet>, inst: Instance, now: string, base: nat)
    ensures RaiseAll(fired, inst, now, base).error.None?
    ensures |RaiseAll(fired, inst, now, base).alerts| == |fired|
    ensures forall k :: 0 <= k < |fired| ==>
      RaiseAll(fired, inst, now, base).alerts[k] == TriggerAlert(fired[k].id, inst.id, now)
  {
    if fired != [] {
      var front := fired[..|fired| - 1];
      var ts := fired[|fired| - 1];
      RaisedAlerts(front, inst, now, base);
      var before := RaiseAll(front, inst, now, base);
      RaiseAlerts(before, ts, inst, now, base);
      var alerts := before.alerts + [TriggerAlert(ts.id, inst.id, now)];
      forall k | 0 <= k < |fired| ensures alerts[k] == TriggerAlert(fired[k].id, inst.id, now) {
        if k < |front| {
          assert front[k] == fired[k];
          assert alerts[k] == before.alerts[k];
        }
      }
    }
  }

  /** `s` is the status of one of `ts`'s subscribers. */
  predicate SubscriberStatus(s: TriggerAlertStatus, ts: TriggerSet) {
    exists i :: 0 <= i < |ts.subscriptions| && s == ActiveStatus(ts.subscriptions[i].user, s.triggerAlert)
  }

  /** `s` names one of the alerts raised for `fired` and belongs to a
      subscriber of the set that alert was raised for. */
  predicate StatusOfFired(s: TriggerAlertStatus, fired: seq<TriggerSet>, base: nat) {
    base <= s.triggerAlert < base + |fired| && SubscriberStatus(s, fired[s.triggerAlert - base])
  }

  /** The statuses of the last set raised are statuses of fired sets. */
  lemma LastStatusesOfFired(fired: seq<TriggerSet>, base: nat)
    requires fired != []
    ensures forall s :: s in StatusesFor(fired[|fired| - 1].subscriptions, base + |fired| - 1) ==>
      StatusOfFired(s, fired, base)
  {
    var ts := fired[|fired| - 1];
    var added := StatusesFor(ts.subscriptions, base + |fired| - 1);
    forall s | s in added ensures StatusOfFired(s, fired, base) {
      var i :| 0 <= i < |added| && added[i] == s;
      assert s == ActiveStatus(ts.subscriptions[i].user, s.triggerAlert);
    }
  }

  /** Statuses of fired sets stay so when more sets are raised after them. */
  lemma EarlierStatusesOfFired(fired: seq<TriggerSet>, k: nat, statuses: seq<TriggerAlertStatus>, base: nat)
    requires k <= |fired|
    requires forall s :: s in statuses ==> StatusOfFired(s, fired[..k], base)
    ensures forall s :: s in statuses ==> StatusOfFired(s, fired, base)
  {
    forall s | s in statuses ensures StatusOfFired(s, fired, base) {
      assert StatusOfFired(s, fired[..k], base);
      assert fired[s.triggerAlert - base] == fired[..k][s.triggerAlert - base];
    }
  }

  lemma RaiseStatuses(o: Outcome, ts: TriggerSet, inst: Instance, now: string, base: nat)
    ensures Raise(o, ts, inst, now, base).statuses == o.statuses + StatusesFor(ts.subscriptions, base + |o.alerts|)
  {
  }

  lemma RaiseMails(o: Outcome, ts: TriggerSet, inst: Instance, now: string, base: nat)
    ensures Raise(o, ts, inst, now, base).mails == o.mails + MailsFor(ts, inst, now)
  {
  }

  /** Raising one more set appends the statuses of its subscribers, naming the
      alert it adds. */
  lemma {:induction false} RaiseAllStatuses(fired: seq<TriggerSet>, inst: Instance, now: string, base: nat)
    requires fired != []
    ensures RaiseAll(fired, inst, now, base).statuses ==
      RaiseAll(fired[..|fired| - 1], inst, now, base).statuses +
      StatusesFor(fired[|fired| - 1].subscriptions, base + |fired| - 1)
  {
    var o := RaiseAll(fired[..|fired| - 1], inst, now, base);
    RaiseStatuses(o, fired[|fired| - 1], inst, now, base);
  }

  /** Statuses of fired sets, joined, are statuses of fired sets. */
  lemma JoinStatusesOfFired(a: seq<TriggerAlertStatus>, b: seq<TriggerAlertStatus>, fired: seq<TriggerSet>, base: nat)
    requires forall s :: s in a ==> StatusOfFired(s, fired, base)
    requires forall s :: s in b ==> StatusOfFired(s, fired, base)
    ensures forall s :: s in a + b ==> StatusOfFired(s, fired, base)
  {
    forall s | s in a + b ensures StatusOfFired(s, fired, base) {
      if s !in a {
        assert s in b;
      }
    }
  }

  /** Raising sets records one status per subscription; each names alert
      `base + k` for the k-th set and belongs to one of its subscribers. */
  lemma {:induction false} RaisedStatuses(fired: seq<TriggerSet>, inst: Instance, now: string, base: nat)
    ensures |RaiseAll(fired, inst, now, base).statuses| == SubscriptionCount(fired)
    ensures forall s :: s in RaiseAll(fired, inst, now, base).statuses ==> StatusOfFired(s, fired, base)
    ensures forall k, i :: 0 <= k < |fired| && 0 <= i < |fired[k].subscriptions| ==>
      ActiveStatus(fired[k].subscriptions[i].user, base + k) in RaiseAll(fired, inst, now, base).statuses
  {
    StatusPositions(fired, inst, now, base);
    EveryStatusInPlace(RaiseAll(fired, inst, now, base).statuses, fired, base);
    if fired != [] {
      var front := fired[..|fired| - 1];
      RaisedStatuses(front, inst, now, base);
      RaiseAllStatuses(fired, inst, now, base);
      var before := RaiseAll(front, inst, now, base).statuses;
      EarlierStatusesOfFired(fired, |fired| - 1, before, base);
      LastStatusesOfFired(fired, base);
      JoinStatusesOfFired(before, StatusesFor(fired[|fired| - 1].subscriptions, base + |fired| - 1), fired, base);
    }
  }

  /** `statuses` lists, in order, for the k-th of the `fired` sets, one status
      per subscription in subscription order, each naming alert `base + k`;
      the k-th set's statuses come right after those of the sets before it. */
  predicate StatusesInPlace(statuses: seq<TriggerAlertStatus>, fired: seq<TriggerSet>, base: nat) {
    && |statuses| == SubscriptionCount(fired)
    && forall k: nat, i: nat :: k < |fired| && i < |fired[k].subscriptions| ==> StatusAt(statuses, fired, base, k, i)
  }

  /** The status of subscription `i` of the k-th set sits right after the
      statuses of the sets before it. */
  predicate StatusAt(statuses: seq<TriggerAlertStatus>, fired: seq<TriggerSet>, base: nat, k: nat, i: nat)
    requires k < |fired| && i < |fired[k].subscriptions|
  {
    SubscriptionCount(fired[..k]) + i < |statuses| &&
    statuses[SubscriptionCount(fired[..k]) + i] == ActiveStatus(fired[k].subscriptions[i].user, base + k)
  }

  /** Appending the statuses of one more set keeps the statuses in place. */
  lemma StatusesInPlaceAppend(fired: seq<TriggerSet>, before: seq<TriggerAlertStatus>, base: nat)
    requires fired != []
    requires StatusesInPlace(before, fired[..|fired| - 1], base)
    ensures StatusesInPlace(before + StatusesFor(fired[|fired| - 1].subscriptions, base + |fired| - 1), fired, base)
  {
    var front := fired[..|fired| - 1];
    var added := StatusesFor(fired[|fired| - 1].subscriptions, base + |fired| - 1);
    assert |before + added| == SubscriptionCount(fired);
    forall k: nat, i: nat | k < |fired| && i < |fired[k].subscriptions|
      ensures StatusAt(before + added, fired, base, k, i)
    {
      if k < |front| {
        assert fired[..k] == front[..k];
        assert fired[k] == front[k];
        assert StatusAt(before, front, base, k, i);
        var j := SubscriptionCount(front[..k]) + i;
        assert (before + added)[j] == before[j];
      } else {
        assert fired[..k] == front;
        assert SubscriptionCount(front) == |before|;
        assert added[i] == ActiveStatus(fired[k].subscriptions[i].user, base + k);
        assert (before + added)[|before| + i] == added[i];
      }
    }
  }

  /** Statuses in place include the status of every subscription of every set. */
  lemma EveryStatusInPlace(statuses: seq<TriggerAlertStatus>, fired: seq<TriggerSet>, base: nat)
    requires StatusesInPlace(statuses, fired, base)
    ensures forall k, i :: 0 <= k < |fired| && 0 <= i < |fired[k].subscriptions| ==>
      ActiveStatus(fired[k].subscriptions[i].user, base + k) in statuses
  {
    forall k, i | 0 <= k < |fired| && 0 <= i < |fired[k].subscriptions|
      ensures ActiveStatus(fired[k].subscriptions[i].user, base + k) in statuses
    {
      assert StatusAt(statuses, fired, base, k, i);
    }
  }

  /** The statuses raising records are in place: every subscription of every
      fired set gets its status, at its own position. */
  lemma {:induction false} StatusPositions(fired: seq<TriggerSet>, inst: Instance, now: string, base: nat)
    ensures StatusesInPlace(RaiseAll(fired, inst, now, base).statuses, fired, base)
  {
    if fired != [] {
      var front := fired[..|fired| - 1];
      StatusPositions(front, inst, now, base);
      RaiseAllStatuses(fired, inst, now, base);
      StatusesInPlaceAppend(fired, RaiseAll(front, inst, now, base).statuses, base);
    }
  }

  /** `mails` lists, in order, one mail per `fired` set with e-mail
      subscribers: that set's title, rendered body and recipient list, right
      after the mails of the sets before it. */
  predicate MailsInPlace(mails: seq<Mail>, fired: seq<TriggerSet>, inst: Instance, now: string) {
    && |mails| == MailedCount(fired)
    && forall k :: 0 <= k < |fired| && Mailed(fired[k]) ==>
         MailedCount(fired[..k]) < |mails| &&
         mails[MailedCount(fired[..k])] ==
           Mail(fired[k].emailTitle, EmailBody(fired[k], inst, now), Recipients(fired[k].subscriptions))
  }

  /** Mails in place include the mail of every set with e-mail subscribers. */
  lemma EveryMailInPlace(mails: seq<Mail>, fired: seq<TriggerSet>, inst: Instance, now: string)
    requires MailsInPlace(mails, fired, inst, now)
    ensures forall k :: 0 <= k < |fired| && Mailed(fired[k]) ==>
      Mail(fired[k].emailTitle, EmailBody(fired[k], inst, now), Recipients(fired[k].subscriptions)) in mails
  {
    forall k | 0 <= k < |fired| && Mailed(fired[k])
      ensures Mail(fired[k].emailTitle, EmailBody(fired[k], inst, now), Recipients(fired[k].subscriptions)) in mails
    {
      var j := MailedCount(fired[..k]);
      assert j < |mails| &&
        mails[j] == Mail(fired[k].emailTitle, EmailBody(fired[k], inst, now), Recipients(fired[k].subscriptions));
    }
  }

  /** The mails raising sends are in place: every fired set with e-mail
      subscribers sends its mail, at its own position. */
  lemma {:induction false} MailPositions(fired: seq<TriggerSet>, inst: Instance, now: string, base: nat)
    ensures MailsInPlace(RaiseAll(fired, inst, now, base).mails, fired, inst, now)
  {
    if fired != [] {
      var front := fired[..|fired| - 1];
      var ts := fired[|fired| - 1];
      MailPositions(front, inst, now, base);
      var o := RaiseAll(front, inst, now, base);
      RaiseMails(o, ts, inst, now, base);
      var before := o.mails;
      var added := MailsFor(ts, inst, now);
      assert RaiseAll(fired, inst, now, base).mails == before + added;
      forall k | 0 <= k < |fired| && Mailed(fired[k])
        ensures MailedCount(fired[..k]) < |before + added| &&
          (before + added)[MailedCount(fired[..k])] ==
            Mail(fired[k].emailTitle, EmailBody(fired[k], inst, now), Recipients(fired[k].subscriptions))
      {
        if k < |front| {
          assert fired[..k] == front[..k];
          assert fired[k] == front[k];
        } else {
          assert fired[..k] == front;
        }
      }
    }
  }

  /** `m` is the mail of fired set `ts`. */
  predicate MailOf(m: Mail, ts: TriggerSet, inst: Instance, now: string) {
    Mailed(ts) && m == Mail(ts.emailTitle, EmailBody(ts, inst, now), Recipients(ts.subscriptions))
  }

  /** Raising sets sends one mail per set with e-mail subscribers, each the
      mail of one of those sets, addressed to all its e-mail subscribers. */
  lemma {:induction false} RaisedMails(fired: seq<TriggerSet>, inst: Instance, now: string, base: nat)
    ensures |RaiseAll(fired, inst, now, base).mails| == MailedCount(fired)
    ensures forall m :: m in RaiseAll(fired, inst, now, base).mails ==>
      exists k :: 0 <= k < |fired| && MailOf(m, fired[k], inst, now)
    ensures forall k :: 0 <= k < |fired| && Mailed(fired[k]) ==>
      Mail(fired[k].emailTitle, EmailBody(fired[k], inst, now), Recipients(fired[k].subscriptions)) in
        RaiseAll(fired, inst, now, base).mails
  {
    MailPositions(fired, inst, now, base);
    EveryMailInPlace(RaiseAll(fired, inst, now, base).mails, fired, inst, now);
    if fired != [] {
      var front := fired[..|fired| - 1];
      var ts := fired[|fired| - 1];
      RaisedMails(front, inst, now, base);
      var before := RaiseAll(front, inst, now, base);
      assert RaiseAll(fired, inst, now, base).mails == before.mails + MailsFor(ts, inst, now);
      forall m | m in before.mails + MailsFor(ts, inst, now)
        ensures exists k :: 0 <= k < |fired| && MailOf(m, fired[k], inst, now)
      {
        if m in before.mails {
          var k :| 0 <= k < |front| && MailOf(m, front[k], inst, now);
          assert fired[k] == front[k];
        } else {
          assert MailOf(m, fired[|fired| - 1], inst, now);
        }
      }
    }
  }

  /** An error comes from the first watched set whose conditions could not be
      evaluated, and leaves in place exactly the records of the sets before it. */
  lemma {:induction false} ErrorKeepsEarlierRecords(sets: seq<TriggerSet>, modelName: string, inst: Instance, now: string, base: nat)
    requires Fire(sets, modelName, inst, now, base).error.Some?
    ensures exists k :: FailsAt(sets, k, modelName, inst, now, base)
  {
    var front := sets[..|sets| - 1];
    var before := Fire(front, modelName, inst, now, base);
    if before.error.Some? {
      ErrorKeepsEarlierRecords(front, modelName, inst, now, base);
      var k :| FailsAt(front, k, modelName, inst, now, base);
      assert front[..k] == sets[..k] && front[k] == sets[k];
      assert FailsAt(sets, k, modelName, inst, now, base);
    } else {
      assert sets[..|sets| - 1] == front;
      assert FailsAt(sets, |sets| - 1, modelName, inst, now, base);
    }
  }

  /** Set `k` is the first whose conditions raise: it watches the model, the
      sets before it raised nothing, and the call keeps their records and
      reports its error. */
  predicate FailsAt(sets: seq<TriggerSet>, k: int, modelName: string, inst: Instance, now: string, base: nat) {
    && 0 <= k < |sets|
    && sets[k].model == modelName
    && Fire(sets[..k], modelName, inst, now, base).error.None?
    && Fire(sets, modelName, inst, now, base).error.Some?
    && AllTriggersFire(sets[k].triggers, inst) == Err(Fire(sets, modelName, inst, now, base).error.value)
    && Fire(sets, modelName, inst, now, base) ==
         Fire(sets[..k], modelName, inst, now, base).(error := Fire(sets, modelName, inst, now, base).error)
  }

  /** A high-severity set watching `Sample` for `status = failed`, with one
      subscriber who wants e-mail. */
  const FailureWatch := TriggerSet(
    1, "Sample", High, DefaultName, DefaultEmailTitle, DefaultEmailTemplate,
    [Trigger("status", Equal, "failed")],
    [Subscription(User(3, "lab@example.org"), true)])

  lemma FailureWatchFires(inst: Instance)
    requires Attribute(inst, "status") == Some(Str("failed"))
    ensures Fires(FailureWatch, "Sample", inst)
  {
    assert TriggerFires(FailureWatch.triggers[0], inst) == Ok(true);
    assert FailureWatch.triggers[1..] == [];
  }

  lemma FailureWatchMessage(inst: Instance, now: string)
    requires inst.id == 7 && Plain(now)
    ensures EmailBody(FailureWatch, inst, now) == DefaultMessage(DefaultName, "Sample", "7", now)
  {
    assert Plain("Sample") && Plain(DefaultName);
    assert Text.FormatInt(7) == "7";
    DefaultTemplateMessage(FailureWatch, inst, now);
  }

  lemma FailureWatchSubscriber(alert: nat)
    ensures Recipients(FailureWatch.subscriptions) == ["lab@example.org"]
    ensures StatusesFor(FailureWatch.subscriptions, alert) == [TriggerAlertStatus(3, Active, 3, alert)]
  {
    assert FailureWatch.subscriptions[..0] == [];
  }

  lemma FailureWatchRecords(inst: Instance, now: string, base: nat)
    requires inst.id == 7 && Plain(now)
    ensures Raise(NoRecords, FailureWatch, inst, now, base) ==
      Outcome(
        [TriggerAlert(1, 7, now)],
        [TriggerAlertStatus(3, Active, 3, base)],
        [Mail(DefaultEmailTitle, DefaultMessage(DefaultName, "Sample", "7", now), ["lab@example.org"])],
        None)
  {
    FailureWatchMessage(inst, now);
    FailureWatchSubscriber(base);
    assert MailsFor(FailureWatch, inst, now) ==
      [Mail(DefaultEmailTitle, DefaultMessage(DefaultName, "Sample", "7", now), ["lab@example.org"])];
  }

  /** Saving a failed sample raises one alert, one active status for the
      subscriber and one mail to that subscriber alone, whose body names the
      instance id and the fire time. */
  lemma FailedSampleRaisesAlert(now: string, base: nat)
    requires Plain(now)
    ensures Fire([FailureWatch], "Sample", Instance(7, map["status" := Str("failed")]), now, base) ==
      Outcome(
        [TriggerAlert(1, 7, now)],
        [TriggerAlertStatus(3, Active, 3, base)],
        [Mail(DefaultEmailTitle, DefaultMessage(DefaultName, "Sample", "7", now), ["lab@example.org"])],
        None)
  {
    var ts := FailureWatch;
    var inst := Instance(7, map["status" := Str("failed")]);
    assert Attribute(inst, "status") == Some(Str("failed"));
    FailureWatchFires(inst);
    FailureWatchRecords(inst, now, base);
    assert [ts][..0] == [];
    assert Fire([ts], "Sample", inst, now, base) == Step(NoRecords, ts, "Sample", inst, now, base);
  }

  /** Saving a sample that succeeded records nothing. */
  lemma SucceededSampleRecordsNothing(now: string, base: nat)
    ensures Fire([FailureWatch], "Sample", Instance(7, map["status" := Str("succeeded")]), now, base) == NoRecords
  {
    var inst := Instance(7, map["status" := Str("succeeded")]);
    assert Attribute(inst, "status") == Some(Str("succeeded"));
    assert "succeeded" != "failed";
    assert TriggerFires(FailureWatch.triggers[0], inst) == Ok(false);
    assert [FailureWatch][..0] == [];
  }

  lemma AppendAssoc<T>(a: seq<T>, b: seq<T>, c: seq<T>)
    ensures (a + b) + c == a + (b + c)
  {
  }

  /** The alert table, the status table and the outgoing mail. */
  class AlertLog {
    var alerts: seq<TriggerAlert>
    var statuses: seq<TriggerAlertStatus>
    var outbox: seq<Mail>

    /** Every status belongs to a stored alert. */
    ghost predicate Valid()
      reads this
    {
      forall s :: s in statuses ==> s.triggerAlert < |alerts|
    }

    constructor ()
      ensures Valid() && alerts == [] && statuses == [] && outbox == []
    {
      alerts, statuses, outbox := [], [], [];
    }

    /** The body of `fire_trigger`'s loop for a set that fires: store the
        alert, give every subscriber an active status and mail the e-mail
        subscribers, if any. */
    method RaiseAlert(ts: TriggerSet, inst: Instance, now: string)
      requires Valid()
      modifies this
      ensures Valid()
      ensures alerts == old(alerts) + [TriggerAlert(ts.id, inst.id, now)]
      ensures statuses == old(statuses) + StatusesFor(ts.subscriptions, |old(alerts)|)
      ensures outbox == old(outbox) + MailsFor(ts, inst, now)
    {
      var recipients: seq<string> := [];
      var alert := |alerts|;
      alerts := alerts + [TriggerAlert(ts.id, inst.id, now)];
      for j := 0 to |ts.subscriptions|
        invariant Valid()
        invariant alerts == old(alerts) + [TriggerAlert(ts.id, inst.id, now)] && alert == |old(alerts)|
        invariant outbox == old(outbox)
        invariant recipients == Recipients(ts.subscriptions[..j])
        invariant statuses == old(statuses) + StatusesFor(ts.subscriptions[..j], alert)
      {
        var subscription := ts.subscriptions[j];
        assert ts.subscriptions[..j + 1][..j] == ts.subscriptions[..j];
        if subscription.email {
          recipients := recipients + [subscription.user.email];
        }
        var status := TriggerAlertStatus(subscription.user.id, Active, subscription.user.id, alert);
        assert status.triggerAlert < |alerts|;
        AppendAssoc(old(statuses), StatusesFor(ts.subscriptions[..j], alert), [status]);
        statuses := statuses + [status];
      }
      assert ts.subscriptions[..|ts.subscriptions|] == ts.subscriptions;
      SendMail(ts, inst, now, recipients);
    }

    /** The end of `fire_trigger`'s loop body: when the set has e-mail
        subscribers, render its template and send one message to all of them. */
    method SendMail(ts: TriggerSet, inst: Instance, now: string, recipients: seq<string>)
      requires recipients == Recipients(ts.subscriptions)
      modifies this
      ensures alerts == old(alerts) && statuses == old(statuses)
      ensures outbox == old(outbox) + MailsFor(ts, inst, now)
    {
      if |recipients| > 0 {
        var content := CompleteEmailTemplate(ts, inst, now);
        outbox := outbox + [Mail(ts.emailTitle, content, recipients)];
      }
    }

    /** One turn of `fire_trigger`'s loop: `before` holds what the call has
        recorded so far, on top of `alerts0`, `statuses0` and `outbox0`; the
        new state holds what `Step` adds. */
    method Visit(ts: TriggerSet, modelName: string, inst: Instance, now: string,
                 ghost before: Outcome, ghost alerts0: seq<TriggerAlert>,
                 ghost statuses0: seq<TriggerAlertStatus>, ghost outbox0: seq<Mail>)
      returns (err: Option<TriggerError>)
      requires Valid() && before.error.None?
      requires alerts == alerts0 + before.alerts
      requires statuses == statuses0 + before.statuses
      requires outbox == outbox0 + before.mails
      modifies this
      ensures Valid()
      ensures var after := Step(before, ts, modelName, inst, now, |alerts0|);
        && err == after.error
        && alerts == alerts0 + after.alerts
        && statuses == statuses0 + after.statuses
        && outbox == outbox0 + after.mails
    {
      if ts.model != modelName {
        assert Step(before, ts, modelName, inst, now, |alerts0|) == before;
        return None;
      }
      var fires := AllTriggersFire(ts.triggers, inst);
      if fires.Err? {
        assert Step(before, ts, modelName, inst, now, |alerts0|) == before.(error := Some(fires.error));
        return Some(fires.error);
      }
      if !fires.value {
        assert Step(before, ts, modelName, inst, now, |alerts0|) == before;
      }
      if fires.value {
        var alert := TriggerAlert(ts.id, inst.id, now);
        var added := StatusesFor(ts.subscriptions, |alerts|);
        assert Step(before, ts, modelName, inst, now, |alerts0|) == Raise(before, ts, inst, now, |alerts0|);
        assert |alerts0| + |before.alerts| == |alerts|;
        RaiseAlert(ts, inst, now);
        AppendAssoc(alerts0, before.alerts, [alert]);
        AppendAssoc(statuses0, before.statuses, added);
        AppendAssoc(outbox0, before.mails, MailsFor(ts, inst, now));
      }
      return None;
    }

    /** `TriggerSet.fire_trigger` for a saved instance of the model named
        `modelName`, given every stored trigger set and the time of the call. */
    method FireTrigger(modelName: string, inst: Instance, sets: seq<TriggerSet>, now: string)
      returns (err: Option<TriggerError>)
      requires Valid()
      modifies this
      ensures Valid()
      ensures var o := Fire(sets, modelName, inst, now, |old(alerts)|);
        && err == o.error
        && alerts == old(alerts) + o.alerts
        && statuses == old(statuses) + o.statuses
        && outbox == old(outbox) + o.mails
    {
      ghost var base := |alerts|;
      err := None;
      var i := 0;
      while i < |sets|
        invariant 0 <= i <= |sets|
        invariant Valid() && err.None?
        invariant Fire(sets[..i], modelName, inst, now, base).error.None?
        invariant alerts == old(alerts) + Fire(sets[..i], modelName, inst, now, base).alerts
        invariant statuses == old(statuses) + Fire(sets[..i], modelName, inst, now, base).statuses
        invariant outbox == old(outbox) + Fire(sets[..i], modelName, inst, now, base).mails
      {
        assert sets[..i + 1][..i] == sets[..i];
        err := Visit(sets[i], modelName, inst, now, Fire(sets[..i], modelName, inst, now, base),
                     old(alerts), old(statuses), old(outbox));
        if err.Some? {
          FireSettled(sets, i + 1, modelName, inst, now, base);
          return;
        }
        i := i + 1;
      }
      assert sets[..|sets|] == sets;
    }
  }
}
