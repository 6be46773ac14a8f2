/** What a change of an authorization rule writes and who may make it, stated on the fields of the request,
    the rule and the entry (admin/authorization-rules/authorization-rules.service.ts): for one change with
    any failures, and over every serial run. */
module RuleEdits {
  import opened Outcomes
  import opened Faults
  import opened RbacConstants
  import opened ActorClaims
  import opened AuthorizationRules
  import opened RuleHistory

  function Awaited(plan: Plan<Await>, point: Await): Exit {
    Leaves(At(plan, point), Unavailable)
  }

  /** One await after another: the first that does not go through decides. */
  function Then(first: Exit, second: Exit): Exit {
    if first.Go? then second else first
  }

  /** The second of two awaited writes, which the first must let through. */
  predicate BothTakeEffect(plan: Plan<Await>, first: Await, second: Await) {
    At(plan, first) == Works && TakesEffect(At(plan, second))
  }

  ghost predicate Stored(t: Tables, id: nat) {
    id < |t.rules| && !t.rules[id].deleted
  }

  /** A superadmin changes a stored rule, which is found. */
  ghost predicate MayChange(t: Tables, id: nat, actor: Actor, plan: Plan<Await>) {
    ClaimsSuper(actor) && At(plan, FindRule) == Works && Stored(t, id)
  }

  /** How a change that does not start is left. */
  ghost function TurnedAway(actor: Actor, plan: Plan<Await>): Exit {
    if !ClaimsSuper(actor) then Threw(Forbidden) else Then(Awaited(plan, FindRule), Threw(RuleNotFound))
  }

  /** A creation: only a superadmin's, the rule as requested and, after it, its entry. */
  lemma MakeWrites(t: Tables, dto: CreateRule, actor: Actor, plan: Plan<Await>)
    ensures var p := Created(t, dto, actor, plan);
      if !ClaimsSuper(actor) then p == Progress(t, Threw(Forbidden))
      else
        && p.t.rules == t.rules
             + (if TakesEffect(At(plan, SaveRule)) then
                  [Rule(dto.ruleName, dto.cif, dto.threshold, 1, actor.sub, None, false)] else [])
        && p.t.history == t.history
             + (if BothTakeEffect(plan, SaveRule, SaveHistory) then
                  [Entry(|t.rules|, Snapshot(dto.ruleName, dto.cif, dto.threshold, Made), 1, actor.sub)] else [])
        && p.exit == Then(Awaited(plan, SaveRule), Awaited(plan, SaveHistory))
  {
    ChecksAreByClaims(actor, "");
  }

  /** The rule after an update: the name and the threshold of the request where it gives them, and as they
      were where it does not. */
  ghost predicate Takes(before: Rule, dto: EditRule, author: string, after: Rule) {
    && (match dto.ruleName
        case Some(name) => after.ruleName == name
        case None => after.ruleName == before.ruleName)
    && (match dto.threshold
        case Some(threshold) => after.threshold == threshold
        case None => after.threshold == before.threshold)
    && after.cif == before.cif && after.createdBy == before.createdBy && after.deleted == before.deleted
    && after.version == before.version + 1 && after.updatedBy == Some(author)
  }

  /** The entry of an update: the rule as it now is, the request's reason and the author. */
  ghost predicate Tells(entry: Entry, id: nat, rule: Rule, reason: Option<string>, author: string) {
    && entry.ruleId == id && entry.version == rule.version && entry.changedBy == author
    && entry.snapshot.ruleName == rule.ruleName && entry.snapshot.cif == rule.cif
    && entry.snapshot.threshold == rule.threshold && entry.snapshot.change == Edited(reason)
  }

  /** An update changes the one rule as the request says and then adds its entry; it only starts for a
      superadmin and a stored rule. */
  lemma EditWrites(t: Tables, dto: EditRule, actor: Actor, plan: Plan<Await>)
    ensures var p := Updated(t, dto, actor, plan);
      if !MayChange(t, dto.id, actor, plan) then p == Progress(t, TurnedAway(actor, plan))
      else
        && |p.t.rules| == |t.rules|
        && (forall i | 0 <= i < |t.rules| && i != dto.id :: p.t.rules[i] == t.rules[i])
        && (if TakesEffect(At(plan, SaveRule)) then Takes(t.rules[dto.id], dto, actor.sub, p.t.rules[dto.id])
            else p.t.rules[dto.id] == t.rules[dto.id])
        && (if BothTakeEffect(plan, SaveRule, SaveHistory) then
              exists entry :: p.t.history == t.history + [entry]
                && Tells(entry, dto.id, p.t.rules[dto.id], dto.changeReason, actor.sub)
            else p.t.history == t.history)
        && p.exit == Then(Awaited(plan, SaveRule), Awaited(plan, SaveHistory))
  {
    ChecksAreByClaims(actor, "");
    var p := Updated(t, dto, actor, plan);
    if MayChange(t, dto.id, actor, plan) && BothTakeEffect(plan, SaveRule, SaveHistory) {
      var entry := p.t.history[|t.history|];
      assert p.t.history == t.history + [entry];
    }
  }

  /** A deactivation adds its entry, numbered past the rule, and then deletes the rule. */
  lemma RetireWrites(t: Tables, id: nat, actor: Actor, plan: Plan<Await>)
    ensures var p := Retired(t, id, actor, plan);
      if !MayChange(t, id, actor, plan) then p == Progress(t, TurnedAway(actor, plan))
      else
        var rule := t.rules[id];
        && p.t.history == t.history
             + (if TakesEffect(At(plan, SaveHistory)) then
                  [Entry(id, Snapshot(rule.ruleName, rule.cif, rule.threshold, Deactivated),
                         rule.version + 1, actor.sub)]
                else [])
        && p.t.rules == (if BothTakeEffect(plan, SaveHistory, SoftDelete) then
                           t.rules[id := Rule(rule.ruleName, rule.cif, rule.threshold, rule.version, rule.createdBy,
                                              rule.updatedBy, true)]
                         else t.rules)
        && p.exit == Then(Awaited(plan, SaveHistory), Awaited(plan, SoftDelete))
  {
    ChecksAreByClaims(actor, "");
  }

  // ---- every run

  datatype Field = RuleName | Threshold | UpdatedBy

  function Value(rule: Rule, field: Field): Option<string> {
    match field
    case RuleName => Some(rule.ruleName)
    case Threshold => Some(rule.threshold)
    case UpdatedBy => rule.updatedBy
  }

  /** The event writes the rule's row: a superadmin's creation or update whose save takes effect. */
  ghost predicate Saves(t: Tables, e: Event, id: nat) {
    match e
    case Make(_, actor, plan) => id == |t.rules| && ClaimsSuper(actor) && TakesEffect(At(plan, SaveRule))
    case Edit(edit, actor, plan) =>
      id == edit.id && MayChange(t, id, actor, plan) && TakesEffect(At(plan, SaveRule))
    case Retire(_, _, _) => false
  }

  /** The event asks for the field to be this: every field of a creation, the given ones of an update, and its
      author. */
  ghost predicate Asks(e: Event, field: Field, value: Option<string>) {
    match e
    case Make(dto, _, _) =>
      (match field
       case RuleName => value == Some(dto.ruleName)
       case Threshold => value == Some(dto.threshold)
       case UpdatedBy => value == None)
    case Edit(dto, actor, _) =>
      (match field
       case RuleName => value.Some? && value == dto.ruleName
       case Threshold => value.Some? && value == dto.threshold
       case UpdatedBy => value == Some(actor.sub))
    case Retire(_, _, _) => false
  }

  ghost predicate Sets(t: Tables, e: Event, id: nat, field: Field, value: Option<string>) {
    Saves(t, e, id) && Asks(e, field, value)
  }

  ghost predicate SetsNone(t: Tables, e: Event, id: nat, field: Field) {
    forall value :: !Sets(t, e, id, field, value)
  }

  lemma StepSetsOrKeeps(t: Tables, e: Event, id: nat, field: Field)
    requires id < |Next(t, e).rules|
    ensures var v := Next(t, e);
      || Sets(t, e, id, field, Value(v.rules[id], field))
      || (&& id < |t.rules| && Value(v.rules[id], field) == Value(t.rules[id], field)
          && SetsNone(t, e, id, field))
  {
    match e
    case Make(dto, actor, plan) => MakeWrites(t, dto, actor, plan);
    case Edit(dto, actor, plan) => EditWrites(t, dto, actor, plan);
    case Retire(rid, actor, plan) => RetireWrites(t, rid, actor, plan);
  }

  /** No event from the k-th on sets the field. */
  ghost predicate Unset(events: seq<Event>, k: nat, id: nat, field: Field) {
    forall j: nat | k <= j < |events| :: SetsNone(Run(events[..j]), events[j], id, field)
  }

  lemma UnsetLonger(events: seq<Event>, k: nat, id: nat, field: Field)
    requires events != [] && Unset(events[..|events| - 1], k, id, field)
    requires SetsNone(Run(events[..|events| - 1]), events[|events| - 1], id, field)
    ensures Unset(events, k, id, field)
  {
    var front := events[..|events| - 1];
    forall j: nat | k <= j < |events| ensures SetsNone(Run(events[..j]), events[j], id, field) {
      if j < |front| {
        assert front[..j] == events[..j] && front[j] == events[j];
      }
    }
  }

  /** After any serial run, with any failures, a rule's name and threshold are those that the last event to
      set them asked for: the last update that gave one and was saved, or else the creation; and the rule was
      last updated by the author of the last update that was saved, or nobody. */
  lemma {:induction false} LastSetWins(events: seq<Event>, id: nat, field: Field)
    requires id < |Run(events).rules|
    ensures exists k: nat | k < |events| ::
      && Sets(Run(events[..k]), events[k], id, field, Value(Run(events).rules[id], field))
      && Unset(events, k + 1, id, field)
  {
    var last := |events| - 1;
    var front := events[..last];
    StepSetsOrKeeps(Run(front), events[last], id, field);
    if Sets(Run(front), events[last], id, field, Value(Run(events).rules[id], field)) {
      assert front == events[..last] && Unset(events, last + 1, id, field);
    } else {
      LastSetWins(front, id, field);
      var k: nat :| k < |front|
        && Sets(Run(front[..k]), front[k], id, field, Value(Run(front).rules[id], field))
        && Unset(front, k + 1, id, field);
      UnsetLonger(events, k + 1, id, field);
      assert front[..k] == events[..k];
    }
  }

  /** Written by a superadmin's event, about its rule and in its author's name. */
  ghost predicate WrittenBy(t: Tables, e: Event, entry: Entry) {
    && ClaimsSuper(e.actor) && entry.changedBy == e.actor.sub
    && match e
       case Make(dto, _, _) =>
         entry.ruleId == |t.rules| && entry.snapshot == Snapshot(dto.ruleName, dto.cif, dto.threshold, Made)
       case Edit(dto, _, _) =>
         && entry.ruleId == dto.id && Stored(t, dto.id) && entry.snapshot.change == Edited(dto.changeReason)
         && entry.version == t.rules[dto.id].version + 1
       case Retire(id, _, _) =>
         && entry.ruleId == id && Stored(t, id) && entry.snapshot.change == Deactivated
         && entry.version == t.rules[id].version + 1
  }

  lemma StepWritesEntry(t: Tables, e: Event)
    ensures var v := Next(t, e);
      || v.history == t.history
      || exists entry :: v.history == t.history + [entry] && WrittenBy(t, e, entry)
  {
    match e
    case Make(dto, actor, plan) =>
      MakeWrites(t, dto, actor, plan);
      assert WrittenBy(t, e, Entry(|t.rules|, Snapshot(dto.ruleName, dto.cif, dto.threshold, Made), 1, actor.sub))
          || !ClaimsSuper(actor);
    case Edit(dto, actor, plan) => EditWrites(t, dto, actor, plan);
    case Retire(id, actor, plan) =>
      RetireWrites(t, id, actor, plan);
      if MayChange(t, id, actor, plan) {
        var rule := t.rules[id];
        assert WrittenBy(t, e, Entry(id, Snapshot(rule.ruleName, rule.cif, rule.threshold, Deactivated),
                                     rule.version + 1, actor.sub));
      }
  }

  /** After any serial run, with any failures, every entry of the history was written by an event of a
      superadmin, in its author's name and with its reason. */
  lemma {:induction false} EveryEntryHasItsAuthor(events: seq<Event>, j: nat)
    requires j < |Run(events).history|
    ensures exists k: nat | k < |events| :: WrittenBy(Run(events[..k]), events[k], Run(events).history[j])
  {
    var last := |events| - 1;
    var front := events[..last];
    StepWritesEntry(Run(front), events[last]);
    if j < |Run(front).history| {
      EveryEntryHasItsAuthor(front, j);
      var k: nat :| k < |front| && WrittenBy(Run(front[..k]), front[k], Run(front).history[j]);
      assert front[..k] == events[..k];
    } else {
      assert front == events[..last];
    }
  }
}
