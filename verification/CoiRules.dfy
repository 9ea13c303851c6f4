/** The certificate rule form: the rule definition it prints, and the reader that opens a saved rule in
    the form again when, and only when, nothing of it would be lost. */
module CoiRules {
  import opened Basics

  /** Parsed JSON.  Objects are maps: the order of an object's keys carries no meaning. */
  datatype Json =
    | Null
    | Bool(value: bool)
    | Number(number: real)
    | Str(text: string)
    | Array(items: seq<Json>)
    | Object(fields: map<string, Json>)

  datatype Summary = Summary(version: real, system: bool, valid: bool)

  datatype Rule = Rule(summary: Summary, definition: Json)

  datatype Mailbox = Mailbox(provider: string, accountId: string)

  datatype Provider = Provider(appId: string, version: string, instanceId: string)

  datatype Fields = Fields(name: string, mailbox: Mailbox, sender: string, subject: string,
                           provider: Provider, confirmEach: bool)

  // ---------------------------------------------------------------------------------------------
  // Printing

  function Condition(field: string, op: string, value: string): Json {
    Object(map["field" := Str(field), "op" := Str(op), "value" := Str(value)])
  }

  function SenderCondition(sender: string): Json {
    Condition("sender", "equals", sender)
  }

  function SubjectCondition(subject: string): Json {
    Condition("subject", "contains", subject)
  }

  function PdfCondition(): Json {
    Condition("attachment.media_type", "equals", "application/pdf")
  }

  function Conditions(fields: Fields): seq<Json> {
    [SenderCondition(fields.sender)]
    + (if fields.subject != "" then [SubjectCondition(fields.subject)] else [])
    + [PdfCondition()]
  }

  function ScopeObject(mailbox: Mailbox): Json {
    Object(map["provider" := Str(mailbox.provider), "account_id" := Str(mailbox.accountId)])
  }

  function TriggerObject(): Json {
    Object(map["source_kind" := Str("mail.message")])
  }

  function CapabilityObject(): Json {
    Object(map["id" := Str("certificate.extract"), "version" := Str("1.0")])
  }

  function ProviderObject(provider: Provider): Json {
    Object(map["app_id" := Str(provider.appId), "version" := Str(provider.version), "instance_id" := Str(provider.instanceId)])
  }

  function ActionObject(provider: Provider): Json {
    Object(map["kind" := Str("connect.invoke"), "capability" := CapabilityObject(),
               "provider" := ProviderObject(provider), "parameters" := Object(map[])])
  }

  /** A rule definition with the given conditions. */
  function Definition(fields: Fields, conditions: seq<Json>): Json {
    Object(map["name" := Str(fields.name), "scope" := ScopeObject(fields.mailbox), "trigger" := TriggerObject(),
               "conditions" := Array(conditions), "action" := ActionObject(fields.provider),
               "confirm_each" := Bool(fields.confirmEach)])
  }

  function CoiDefinition(fields: Fields): Json {
    Definition(fields, Conditions(fields))
  }

  // ---------------------------------------------------------------------------------------------
  // What reading promises

  predicate Named(provider: Provider) {
    provider.appId != "" && provider.version != "" && provider.instanceId != ""
  }

  /** Every part that the reader refuses when empty is there. */
  predicate Complete(fields: Fields) {
    && fields.sender != "" && fields.mailbox.provider != "" && fields.mailbox.accountId != ""
    && Named(fields.provider)
  }

  predicate SafeInteger(x: real) {
    x.Floor as real == x && -9007199254740991.0 <= x <= 9007199254740991.0
  }

  predicate Editable(summary: Summary) {
    summary.valid && !summary.system && SafeInteger(summary.version) && summary.version >= 1.0
  }

  /** Valid, not a system rule, and of a version that is a natural number a double holds exactly. */
  lemma EditableMeans(summary: Summary)
    ensures Editable(summary) <==>
      && summary.valid && !summary.system
      && summary.version == summary.version.Floor as real && 1 <= summary.version.Floor < 0x20_0000_0000_0000
  {}

  /** Equal but for the order of the conditions. */
  ghost predicate SameRule(a: Json, b: Json) {
    && a.Object? && b.Object?
    && a.fields.Keys == b.fields.Keys
    && (forall k :: k in a.fields && k != "conditions" ==> a.fields[k] == b.fields[k])
    && ("conditions" in a.fields ==>
          && a.fields["conditions"].Array? && b.fields["conditions"].Array?
          && multiset(a.fields["conditions"].items) == multiset(b.fields["conditions"].items))
  }

  /** The rule can be edited, and the form with these fields would print it. */
  ghost predicate Prints(fields: Fields, rule: Rule) {
    Editable(rule.summary) && Complete(fields) && SameRule(rule.definition, CoiDefinition(fields))
  }

  // ---------------------------------------------------------------------------------------------
  // Reading

  /** An object with exactly these keys, tested by count and presence. */
  predicate HasKeys(value: Json, names: seq<string>) {
    value.Object? && |value.fields.Keys| == |names| && forall name :: name in names ==> name in value.fields
  }

  predicate NonEmptyString(value: Json) {
    value.Str? && value.text != ""
  }

  predicate ScopeReads(scope: Json) {
    && HasKeys(scope, ["provider", "account_id"])
    && NonEmptyString(scope.fields["provider"]) && NonEmptyString(scope.fields["account_id"])
  }

  function MailboxIn(scope: Json): Mailbox
    requires ScopeReads(scope)
  {
    Mailbox(scope.fields["provider"].text, scope.fields["account_id"].text)
  }

  predicate ProviderReads(provider: Json) {
    && HasKeys(provider, ["app_id", "version", "instance_id"])
    && forall k :: k in provider.fields ==> NonEmptyString(provider.fields[k])
  }

  function ProviderIn(provider: Json): Provider
    requires ProviderReads(provider)
  {
    Provider(provider.fields["app_id"].text, provider.fields["version"].text, provider.fields["instance_id"].text)
  }

  predicate TriggerReads(trigger: Json) {
    HasKeys(trigger, ["source_kind"]) && trigger.fields["source_kind"] == Str("mail.message")
  }

  predicate CapabilityReads(capability: Json) {
    && HasKeys(capability, ["id", "version"])
    && capability.fields["id"] == Str("certificate.extract") && capability.fields["version"] == Str("1.0")
  }

  predicate ActionReads(action: Json) {
    && HasKeys(action, ["kind", "capability", "provider", "parameters"])
    && action.fields["kind"] == Str("connect.invoke")
    && CapabilityReads(action.fields["capability"])
    && ProviderReads(action.fields["provider"])
    && HasKeys(action.fields["parameters"], [])
  }

  /** Everything the reader tests before it looks at the conditions. */
  predicate FrameReads(d: Json) {
    && HasKeys(d, ["name", "scope", "trigger", "conditions", "action", "confirm_each"])
    && d.fields["name"].Str? && d.fields["confirm_each"].Bool?
    && ScopeReads(d.fields["scope"])
    && TriggerReads(d.fields["trigger"])
    && ActionReads(d.fields["action"])
    && d.fields["conditions"].Array?
  }

  function ConditionsIn(d: Json): seq<Json>
    requires FrameReads(d)
  {
    d.fields["conditions"].items
  }

  /** The fields the frame holds, with the sender and subject found in the conditions. */
  function FrameFields(d: Json, sender: string, subject: string): Fields
    requires FrameReads(d)
  {
    Fields(d.fields["name"].text, MailboxIn(d.fields["scope"]), sender, subject,
           ProviderIn(d.fields["action"].fields["provider"]), d.fields["confirm_each"].value)
  }

  predicate Distinct(names: seq<string>) {
    forall i, j :: 0 <= i < j < |names| ==> names[i] != names[j]
  }

  lemma {:induction false} DistinctCount(names: seq<string>)
    requires Distinct(names)
    ensures |set name | name in names| == |names|
  {
    if names != [] {
      var last := |names| - 1;
      DistinctCount(names[..last]);
      assert (set name | name in names) == (set name | name in names[..last]) + {names[last]};
    }
  }

  lemma SameSizeSubset(a: set<string>, b: set<string>)
    requires a <= b && |a| == |b|
    ensures a == b
  {
    assert |b - a| == |b| - |a|;
  }

  /** Count and presence of distinct names pin the key set down. */
  lemma HasKeysIsExact(value: Json, names: seq<string>)
    requires Distinct(names)
    ensures HasKeys(value, names) <==> value.Object? && value.fields.Keys == set name | name in names
  {
    DistinctCount(names);
    var all := set name | name in names;
    if HasKeys(value, names) { SameSizeSubset(all, value.fields.Keys); }
  }

  // One lemma for each number of keys: with that many names at hand, the map is written out in one step.

  lemma TwoKeys(value: Json, a: string, b: string)
    requires a != b
    ensures HasKeys(value, [a, b]) <==>
      value.Object? && a in value.fields && b in value.fields
      && value == Object(map[a := value.fields[a], b := value.fields[b]])
  {
    hide HasKeys;
    HasKeysIsExact(value, [a, b]);
    assert (set name | name in [a, b]) == {a, b};
    hide Distinct;
    if value.Object? && value.fields.Keys == {a, b} {
      assert value.fields == map[a := value.fields[a], b := value.fields[b]];
    }
  }

  lemma ThreeKeys(value: Json, a: string, b: string, c: string)
    requires a != b && a != c && b != c
    ensures HasKeys(value, [a, b, c]) <==>
      value.Object? && a in value.fields && b in value.fields && c in value.fields
      && value == Object(map[a := value.fields[a], b := value.fields[b], c := value.fields[c]])
  {
    hide HasKeys;
    HasKeysIsExact(value, [a, b, c]);
    assert (set name | name in [a, b, c]) == {a, b, c};
    hide Distinct;
    if value.Object? && value.fields.Keys == {a, b, c} {
      assert value.fields == map[a := value.fields[a], b := value.fields[b], c := value.fields[c]];
    }
  }

  lemma FourKeys(value: Json, a: string, b: string, c: string, d: string)
    requires a != b && a != c && a != d && b != c && b != d && c != d
    ensures HasKeys(value, [a, b, c, d]) <==>
      value.Object? && a in value.fields && b in value.fields && c in value.fields && d in value.fields
      && value == Object(map[a := value.fields[a], b := value.fields[b], c := value.fields[c], d := value.fields[d]])
  {
    hide HasKeys;
    HasKeysIsExact(value, [a, b, c, d]);
    assert (set name | name in [a, b, c, d]) == {a, b, c, d};
    hide Distinct;
    if value.Object? && value.fields.Keys == {a, b, c, d} {
      assert value.fields == map[a := value.fields[a], b := value.fields[b], c := value.fields[c], d := value.fields[d]];
    }
  }

  lemma SixKeys(value: Json, a: string, b: string, c: string, d: string, e: string, f: string)
    requires a != b && a != c && a != d && a != e && a != f && b != c && b != d && b != e && b != f
    requires c != d && c != e && c != f && d != e && d != f && e != f
    ensures HasKeys(value, [a, b, c, d, e, f]) <==>
      value.Object? && a in value.fields && b in value.fields && c in value.fields
      && d in value.fields && e in value.fields && f in value.fields
      && value == Object(map[a := value.fields[a], b := value.fields[b], c := value.fields[c],
                             d := value.fields[d], e := value.fields[e], f := value.fields[f]])
  {
    hide HasKeys;
    HasKeysIsExact(value, [a, b, c, d, e, f]);
    assert (set name | name in [a, b, c, d, e, f]) == {a, b, c, d, e, f};
    hide Distinct;
    if value.Object? && value.fields.Keys == {a, b, c, d, e, f} {
      assert value.fields == map[a := value.fields[a], b := value.fields[b], c := value.fields[c],
                                 d := value.fields[d], e := value.fields[e], f := value.fields[f]];
    }
  }

  // What each part's test accepts is exactly what the printer prints for that part.

  lemma ScopeForm(scope: Json, mailbox: Mailbox)
    requires mailbox.provider != "" && mailbox.accountId != ""
    ensures ScopeReads(scope) && MailboxIn(scope) == mailbox <==> scope == ScopeObject(mailbox)
  {
    TwoKeys(scope, "provider", "account_id");
  }

  lemma ProviderForm(provider: Json, identity: Provider)
    requires Named(identity)
    ensures ProviderReads(provider) && ProviderIn(provider) == identity <==> provider == ProviderObject(identity)
  {
    ThreeKeys(provider, "app_id", "version", "instance_id");
  }

  lemma CapabilityForm(capability: Json)
    ensures CapabilityReads(capability) <==> capability == CapabilityObject()
  {
    TwoKeys(capability, "id", "version");
  }

  lemma TriggerForm(trigger: Json)
    ensures TriggerReads(trigger) <==> trigger == TriggerObject()
  {
    HasKeysIsExact(trigger, ["source_kind"]);
    if TriggerReads(trigger) { assert trigger.fields == TriggerObject().fields; }
  }

  lemma ActionForm(action: Json, identity: Provider)
    requires Named(identity)
    ensures ActionReads(action) && ProviderIn(action.fields["provider"]) == identity <==> action == ActionObject(identity)
  {
    hide ProviderReads, ProviderObject, ProviderIn, CapabilityReads, CapabilityObject;
    FourKeys(action, "kind", "capability", "provider", "parameters");
    CapabilityForm(CapabilityObject());
    ProviderForm(ProviderObject(identity), identity);
    if ActionReads(action) && ProviderIn(action.fields["provider"]) == identity {
      CapabilityForm(action.fields["capability"]);
      ProviderForm(action.fields["provider"], identity);
      assert action.fields["parameters"].fields == map[];
    }
  }

  /** The frame test accepts what is printed for some fields, and finds just those fields. */
  lemma FrameForm(d: Json, fields: Fields, conditions: seq<Json>)
    requires Complete(fields)
    ensures FrameReads(d) && FrameFields(d, fields.sender, fields.subject) == fields && ConditionsIn(d) == conditions
      <==> d == Definition(fields, conditions)
  {
    hide ActionReads, ScopeReads, TriggerReads, ProviderIn, MailboxIn, ActionObject, ScopeObject, TriggerObject;
    SixKeys(d, "name", "scope", "trigger", "conditions", "action", "confirm_each");
    ActionForm(ActionObject(fields.provider), fields.provider);
    ScopeForm(ScopeObject(fields.mailbox), fields.mailbox);
    TriggerForm(TriggerObject());
    if FrameReads(d) && FrameFields(d, fields.sender, fields.subject) == fields {
      ActionForm(d.fields["action"], fields.provider);
      ScopeForm(d.fields["scope"], fields.mailbox);
      TriggerForm(d.fields["trigger"]);
    }
  }

  lemma FrameComplete(d: Json, sender: string, subject: string)
    requires FrameReads(d) && sender != ""
    ensures Complete(FrameFields(d, sender, subject))
  {}

  /** A rule that differs from a printed one only in the order of its conditions. */
  lemma SameRuleForm(d: Json, fields: Fields)
    requires Complete(fields)
    ensures SameRule(d, CoiDefinition(fields)) <==>
      && FrameReads(d) && FrameFields(d, fields.sender, fields.subject) == fields
      && multiset(ConditionsIn(d)) == multiset(Conditions(fields))
  {
    hide ActionObject, ScopeObject, TriggerObject, Conditions, FrameReads, FrameFields, ConditionsIn, HasKeys;
    if SameRule(d, CoiDefinition(fields)) {
      assert "conditions" in CoiDefinition(fields).fields;
      var items := d.fields["conditions"].items;
      assert d.fields == Definition(fields, items).fields;
      FrameForm(d, fields, items);
    } else if FrameReads(d) {
      FrameForm(d, fields, ConditionsIn(d));
    }
  }

  // ---------------------------------------------------------------------------------------------
  // The conditions

  /** The conditions that the loop has taken. */
  ghost function Taken(sender: Option<string>, subject: Option<string>, pdf: bool): multiset<Json> {
    (if sender.Some? then multiset{SenderCondition(sender.value)} else multiset{})
    + (if subject.Some? then multiset{SubjectCondition(subject.value)} else multiset{})
    + (if pdf then multiset{PdfCondition()} else multiset{})
  }

  function OrEmpty(text: Option<string>): string {
    if text.Some? then text.value else ""
  }

  lemma TakenIsPrinted(fields: Fields, subject: Option<string>)
    requires subject.Some? ==> subject.value != ""
    requires fields.subject == OrEmpty(subject)
    ensures multiset(Conditions(fields)) == Taken(Some(fields.sender), subject, true)
  {
    assert Conditions(fields) == [SenderCondition(fields.sender)]
      + (if subject.Some? then [SubjectCondition(subject.value)] else []) + [PdfCondition()];
  }

  lemma ConditionForm(c: Json, field: string, op: string, value: string)
    ensures HasKeys(c, ["field", "op", "value"])
      && c.fields["field"] == Str(field) && c.fields["op"] == Str(op) && c.fields["value"] == Str(value)
      <==> c == Condition(field, op, value)
  {
    ThreeKeys(c, "field", "op", "value");
    hide HasKeys;
  }

  /** The locals of the loop. */
  datatype Locals = Locals(sender: Option<string>, subject: Option<string>, pdf: bool)

  predicate Sound(found: Locals) {
    (found.sender.Some? ==> found.sender.value != "") && (found.subject.Some? ==> found.subject.value != "")
  }

  ghost function TakenBy(found: Locals): multiset<Json> {
    Taken(found.sender, found.subject, found.pdf)
  }

  /** What one condition does to the locals of the loop; None refuses the rule. */
  function Take(found: Locals, c: Json): Option<Locals> {
    if !HasKeys(c, ["field", "op", "value"]) || !c.fields["value"].Str? then None
    else
      var value := c.fields["value"].text;
      if c.fields["field"] == Str("sender") && c.fields["op"] == Str("equals") && found.sender.None? && value != ""
      then Some(found.(sender := Some(value)))
      else if c.fields["field"] == Str("subject") && c.fields["op"] == Str("contains") && found.subject.None? && value != ""
      then Some(found.(subject := Some(value)))
      else if c.fields["field"] == Str("attachment.media_type") && c.fields["op"] == Str("equals")
              && value == "application/pdf" && !found.pdf
      then Some(found.(pdf := true))
      else None
  }

  /** The conditions that are taken, and how they move the locals. */
  lemma TakeForm(found: Locals, c: Json, next: Locals)
    ensures Take(found, c) == Some(next) <==>
      || (found.sender.None? && next == found.(sender := next.sender) && next.sender.Some? && next.sender.value != ""
          && c == SenderCondition(next.sender.value))
      || (found.subject.None? && next == found.(subject := next.subject) && next.subject.Some? && next.subject.value != ""
          && c == SubjectCondition(next.subject.value))
      || (!found.pdf && next == found.(pdf := true) && c == PdfCondition())
  {
    ConditionForm(c, "sender", "equals", OrEmpty(next.sender));
    ConditionForm(c, "subject", "contains", OrEmpty(next.subject));
    ConditionForm(c, "attachment.media_type", "equals", "application/pdf");
    hide HasKeys, Condition;
  }

  lemma Rearranged(a: multiset<Json>, b: multiset<Json>, c: multiset<Json>, x: multiset<Json>)
    ensures x + b + c == multiset{} + b + c + x
    ensures a + x + c == a + multiset{} + c + x
    ensures a + b + x == a + b + multiset{} + x
  {}

  lemma TakeAdds(found: Locals, c: Json)
    requires Sound(found) && Take(found, c).Some?
    ensures Sound(Take(found, c).value)
    ensures TakenBy(Take(found, c).value) == TakenBy(found) + multiset{c}
  {
    hide Take, SenderCondition, SubjectCondition, PdfCondition;
    TakeForm(found, c, Take(found, c).value);
    Rearranged(if found.sender.Some? then multiset{SenderCondition(found.sender.value)} else multiset{},
               if found.subject.Some? then multiset{SubjectCondition(found.subject.value)} else multiset{},
               if found.pdf then multiset{PdfCondition()} else multiset{}, multiset{c});
  }

  lemma ConditionInjective(field: string, op: string, value: string, field': string, op': string, value': string)
    requires Condition(field, op, value) == Condition(field', op', value')
    ensures field == field' && op == op' && value == value'
  {
    var c := Condition(field, op, value).fields;
    var c' := Condition(field', op', value').fields;
    assert c["field"] == c'["field"] && c["op"] == c'["op"] && c["value"] == c'["value"];
  }

  /** The printed conditions have different fields. */
  lemma PrintedOnce(fields: Fields)
    ensures forall s :: SenderCondition(s) in Conditions(fields) ==> s == fields.sender
    ensures forall s :: SubjectCondition(s) in Conditions(fields) ==> s == fields.subject
    ensures forall c :: multiset(Conditions(fields))[c] <= 1
  {
    forall s | SenderCondition(s) in Conditions(fields) ensures s == fields.sender {
      SenderAmongPrinted(s, fields);
    }
    forall s | SubjectCondition(s) in Conditions(fields) ensures s == fields.subject {
      SubjectAmongPrinted(s, fields);
    }
    assert SenderCondition(fields.sender).fields["field"] != SubjectCondition(fields.subject).fields["field"];
    assert SenderCondition(fields.sender).fields["field"] != PdfCondition().fields["field"];
    assert SubjectCondition(fields.subject).fields["field"] != PdfCondition().fields["field"];
    hide SenderCondition, SubjectCondition, PdfCondition;
    assert Conditions(fields) == if fields.subject != ""
      then [SenderCondition(fields.sender), SubjectCondition(fields.subject), PdfCondition()]
      else [SenderCondition(fields.sender), PdfCondition()];
  }

  lemma SenderAmongPrinted(s: string, fields: Fields)
    requires SenderCondition(s) in Conditions(fields)
    ensures s == fields.sender
  {
    var c := SenderCondition(s).fields["field"];
    assert SubjectCondition(fields.subject).fields["field"] != c && PdfCondition().fields["field"] != c;
    assert SenderCondition(s) == SenderCondition(fields.sender);
    ConditionInjective("sender", "equals", s, "sender", "equals", fields.sender);
  }

  lemma SubjectAmongPrinted(s: string, fields: Fields)
    requires SubjectCondition(s) in Conditions(fields)
    ensures s == fields.subject
  {
    var c := SubjectCondition(s).fields["field"];
    assert SenderCondition(fields.sender).fields["field"] != c && PdfCondition().fields["field"] != c;
    assert SubjectCondition(s) == SubjectCondition(fields.subject);
    ConditionInjective("subject", "contains", s, "subject", "contains", fields.subject);
  }

  /** A printed condition is refused only when one for the same field was taken before. */
  lemma RefusedIsTaken(found: Locals, c: Json, fields: Fields)
    requires Sound(found) && Take(found, c).None? && Complete(fields) && c in Conditions(fields)
    ensures (c == SenderCondition(fields.sender) && found.sender.Some?)
         || (c == SubjectCondition(fields.subject) && found.subject.Some?)
         || (c == PdfCondition() && found.pdf)
  {
    hide Take, SenderCondition, SubjectCondition, PdfCondition;
    TakeForm(found, c, found.(sender := Some(fields.sender)));
    TakeForm(found, c, found.(subject := Some(fields.subject)));
    TakeForm(found, c, found.(pdf := true));
  }

  /** A refused condition is one that no form with complete fields prints beside those taken. */
  lemma RefusedIsNotPrinted(found: Locals, c: Json, fields: Fields)
    requires Sound(found) && Take(found, c).None? && Complete(fields)
    ensures !(TakenBy(found) + multiset{c} <= multiset(Conditions(fields)))
  {
    hide Take, Conditions, SenderCondition, SubjectCondition, PdfCondition, Complete;
    var printed := multiset(Conditions(fields));
    var all := TakenBy(found) + multiset{c};
    PrintedOnce(fields);
    assert found.sender.Some? ==> SenderCondition(found.sender.value) in all;
    assert found.subject.Some? ==> SubjectCondition(found.subject.value) in all;
    assert all[c] == TakenBy(found)[c] + 1;
    if all <= printed {
      RefusedIsTaken(found, c, fields);
      assert false;
    }
  }

  lemma ConditionsInjective(f: Fields, g: Fields)
    requires multiset(Conditions(f)) == multiset(Conditions(g))
    ensures f.sender == g.sender && f.subject == g.subject
  {
    PrintedOnce(f);
    PrintedOnce(g);
    hide SenderCondition, SubjectCondition, PdfCondition;
    assert forall c :: c in Conditions(f) <==> c in Conditions(g) by {
      assert forall c :: c in Conditions(f) <==> c in multiset(Conditions(f));
      assert forall c :: c in Conditions(g) <==> c in multiset(Conditions(g));
    }
    assert SenderCondition(f.sender) in Conditions(f);
    assert f.subject != "" ==> SubjectCondition(f.subject) in Conditions(f);
    assert g.subject != "" ==> SubjectCondition(g.subject) in Conditions(g);
  }

  // ---------------------------------------------------------------------------------------------
  // The reader

  /** Reads a saved rule into the form: exactly when the form prints that rule back, up to the order of
      its conditions, and then with the one set of fields that does. */
  method EditableCoiFields(rule: Rule) returns (r: Option<Fields>)
    ensures forall f :: r == Some(f) <==> Prints(f, rule)
  {
    hide FrameReads, FrameFields, ConditionsIn, SameRule, Sound, TakenBy, Take, Editable, CoiDefinition, Complete;
    var d := rule.definition;
    if !Editable(rule.summary) {
      return None;
    }
    if !FrameReads(d) {
      forall f ensures !Prints(f, rule) { UnreadFrame(f, rule); }
      return None;
    }
    var conditions := ConditionsIn(d);
    var found := Locals(None, None, false);
    NothingTaken(found);
    var i := 0;
    while i < |conditions|
      invariant i <= |conditions|
      invariant Sound(found) && TakenBy(found) == multiset(conditions[..i])
    {
      var c := conditions[i];
      var next := Take(found, c);
      assert conditions[..i + 1] == conditions[..i] + [c];
      if next.None? {
        forall f ensures !Prints(f, rule) { RefusedCondition(f, rule, found, i); }
        return None;
      }
      TakeAdds(found, c);
      found := next.value;
      i := i + 1;
    }
    assert conditions[..i] == conditions;
    if found.sender.None? || !found.pdf {
      forall f ensures !Prints(f, rule) { MissingCondition(f, rule, found); }
      return None;
    }
    r := Some(FrameFields(d, found.sender.value, OrEmpty(found.subject)));
    forall f ensures r == Some(f) <==> Prints(f, rule) { ReadIsPrinted(f, rule, found); }
  }

  lemma NothingTaken(found: Locals)
    requires found == Locals(None, None, false)
    ensures Sound(found) && TakenBy(found) == multiset{}
  {}

  lemma UnreadFrame(f: Fields, rule: Rule)
    requires !FrameReads(rule.definition)
    ensures !Prints(f, rule)
  {
    hide FrameReads, CoiDefinition;
    if Prints(f, rule) {
      SameRuleForm(rule.definition, f);
      assert false;
    }
  }

  lemma PrefixOfPrinted(f: Fields, rule: Rule, i: nat)
    requires FrameReads(rule.definition) && Prints(f, rule) && i <= |ConditionsIn(rule.definition)|
    ensures multiset(ConditionsIn(rule.definition)[..i]) <= multiset(Conditions(f))
  {
    hide Conditions, FrameReads, SameRule, ConditionsIn;
    SameRuleForm(rule.definition, f);
    var items := ConditionsIn(rule.definition);
    assert items == items[..i] + items[i..];
  }

  lemma RefusedCondition(f: Fields, rule: Rule, found: Locals, i: nat)
    requires FrameReads(rule.definition) && i < |ConditionsIn(rule.definition)|
    requires Sound(found) && TakenBy(found) == multiset(ConditionsIn(rule.definition)[..i])
    requires Take(found, ConditionsIn(rule.definition)[i]).None?
    ensures !Prints(f, rule)
  {
    hide Take, Conditions, TakenBy, SameRule, FrameReads, ConditionsIn;
    var items := ConditionsIn(rule.definition);
    assert items[..i + 1] == items[..i] + [items[i]];
    if Prints(f, rule) {
      PrefixOfPrinted(f, rule, i + 1);
      RefusedIsNotPrinted(found, items[i], f);
      assert false;
    }
  }

  lemma MissingCondition(f: Fields, rule: Rule, found: Locals)
    requires FrameReads(rule.definition) && (found.sender.None? || !found.pdf)
    requires TakenBy(found) == multiset(ConditionsIn(rule.definition))
    ensures !Prints(f, rule)
  {
    hide FrameReads, SameRule, ConditionsIn;
    assert SenderCondition(f.sender) in Conditions(f) && PdfCondition() in Conditions(f);
    assert SenderCondition(f.sender).fields["field"] != PdfCondition().fields["field"];
    assert found.subject.Some? ==> SubjectCondition(found.subject.value).fields["field"] != PdfCondition().fields["field"];
    assert found.subject.Some? ==> SubjectCondition(found.subject.value).fields["field"] != SenderCondition(f.sender).fields["field"];
    hide SenderCondition, SubjectCondition, PdfCondition, Conditions;
    assert SenderCondition(f.sender) in multiset(Conditions(f)) && PdfCondition() in multiset(Conditions(f));
    if Prints(f, rule) {
      SameRuleForm(rule.definition, f);
      assert false;
    }
  }

  lemma ReadIsPrinted(f: Fields, rule: Rule, found: Locals)
    requires Editable(rule.summary) && FrameReads(rule.definition) && Sound(found)
    requires found.sender.Some? && found.pdf
    requires TakenBy(found) == multiset(ConditionsIn(rule.definition))
    ensures Prints(f, rule) <==> f == FrameFields(rule.definition, found.sender.value, OrEmpty(found.subject))
  {
    hide FrameReads, SameRule, ConditionsIn, Conditions, SenderCondition, SubjectCondition, PdfCondition, CoiDefinition;
    var d := rule.definition;
    var read := FrameFields(d, found.sender.value, OrEmpty(found.subject));
    TakenIsPrinted(read, found.subject);
    FrameComplete(d, found.sender.value, OrEmpty(found.subject));
    SameRuleForm(d, read);
    if Prints(f, rule) {
      SameRuleForm(d, f);
      ConditionsInjective(f, read);
    }
  }

  // ---------------------------------------------------------------------------------------------
  // Round trips

  /** No rule is printed by two different forms. */
  lemma OneReading(f: Fields, g: Fields, rule: Rule)
    requires Prints(f, rule) && Prints(g, rule)
    ensures f == g
  {
    hide FrameReads, SameRule, ConditionsIn, Conditions, CoiDefinition;
    SameRuleForm(rule.definition, f);
    SameRuleForm(rule.definition, g);
    ConditionsInjective(f, g);
  }

  /** A printed rule opens in the form again exactly when its summary allows editing and the fields
      are complete, and then with the fields it was printed from. */
  lemma ReopensIff(summary: Summary, f: Fields)
    ensures Prints(f, Rule(summary, CoiDefinition(f))) <==> Editable(summary) && Complete(f)
    ensures forall g :: Prints(g, Rule(summary, CoiDefinition(f))) ==> g == f
  {
    hide Editable, Conditions, ConditionsIn, ActionReads, ScopeReads, TriggerReads;
    forall g | Prints(g, Rule(summary, CoiDefinition(f))) ensures g == f {
      PrintedForReopening(f, g);
    }
  }

  lemma PrintedForReopening(f: Fields, g: Fields)
    requires Complete(g) && SameRule(CoiDefinition(f), CoiDefinition(g))
    ensures f == g
  {
    hide Conditions;
    var d, e := CoiDefinition(f).fields, CoiDefinition(g).fields;
    assert d["name"] == e["name"] && d["scope"] == e["scope"] && d["action"] == e["action"] && d["confirm_each"] == e["confirm_each"];
    assert d["conditions"] == Array(Conditions(f)) && e["conditions"] == Array(Conditions(g));
    ConditionsInjective(f, g);
    var p, q := d["action"].fields["provider"].fields, e["action"].fields["provider"].fields;
    assert p["app_id"] == q["app_id"] && p["version"] == q["version"] && p["instance_id"] == q["instance_id"];
    var m, n := d["scope"].fields, e["scope"].fields;
    assert m["provider"] == n["provider"] && m["account_id"] == n["account_id"];
  }
}
