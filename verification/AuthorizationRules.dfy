/** Versioned authorization rules and their history (admin/authorization-rules/authorization-rules.service.ts).
    A rule's id is its position in the table. */
module AuthorizationRules {
  import opened Outcomes
  import opened Faults
  import opened RbacConstants

  datatype Rule = Rule(
    ruleName: string, cif: string, threshold: string, version: nat, createdBy: string, updatedBy: Option<string>,
    deleted: bool)

  datatype Change = Made | Edited(reason: Option<string>) | Deactivated

  datatype Snapshot = Snapshot(ruleName: string, cif: string, threshold: string, change: Change)

  datatype Entry = Entry(ruleId: nat, snapshot: Snapshot, version: nat, changedBy: string)

  datatype Tables = Tables(rules: seq<Rule>, history: seq<Entry>)

  datatype RuleError = Forbidden | RuleNotFound | Unavailable

  datatype CreateRule = CreateRule(ruleName: string, cif: string, threshold: string)

  datatype EditRule = EditRule(
    id: nat, ruleName: Option<string>, threshold: Option<string>, changeReason: Option<string>)

  datatype Await = FindRule | SaveRule | SaveHistory | SoftDelete

  type Exit = Control<RuleError>

  datatype Progress = Progress(t: Tables, exit: Exit)

  function Write(t: Tables, mode: Mode, after: Tables): Progress {
    Progress(if TakesEffect(mode) then after else t, Leaves(mode, Unavailable))
  }

  function SnapshotOf(rule: Rule, change: Change): Snapshot {
    Snapshot(rule.ruleName, rule.cif, rule.threshold, change)
  }

  function WithEntry(t: Tables, id: nat, rule: Rule, change: Change, version: nat, author: string): Tables {
    t.(history := t.history + [Entry(id, SnapshotOf(rule, change), version, author)])
  }

  function Created(t: Tables, dto: CreateRule, actor: Actor, plan: Plan<Await>): Progress {
    if !IsSuperadmin(actor) then Progress(t, Threw(Forbidden))
    else
      var rule := Rule(dto.ruleName, dto.cif, dto.threshold, 1, actor.sub, None, false);
      var saved := Write(t, At(plan, SaveRule), t.(rules := t.rules + [rule]));
      if !saved.exit.Go? then saved
      else Write(saved.t, At(plan, SaveHistory), WithEntry(saved.t, |t.rules|, rule, Made, rule.version, actor.sub))
  }

  /** Soft-deleted rows are invisible to `findOne`. */
  predicate Live(t: Tables, id: nat) {
    id < |t.rules| && !t.rules[id].deleted
  }

  /** Why a change of the rule does not start. */
  function Refusal(t: Tables, id: nat, actor: Actor, plan: Plan<Await>): Exit {
    if !IsSuperadmin(actor) then Threw(Forbidden)
    else if !At(plan, FindRule).Works? then Leaves(At(plan, FindRule), Unavailable)
    else if !Live(t, id) then Threw(RuleNotFound)
    else Go
  }

  function EditedRule(rule: Rule, dto: EditRule, author: string): Rule {
    rule.(ruleName := if dto.ruleName.Some? then dto.ruleName.value else rule.ruleName,
          threshold := if dto.threshold.Some? then dto.threshold.value else rule.threshold,
          version := rule.version + 1,
          updatedBy := Some(author))
  }

  function Updated(t: Tables, dto: EditRule, actor: Actor, plan: Plan<Await>): Progress {
    var refusal := Refusal(t, dto.id, actor, plan);
    if !refusal.Go? then Progress(t, refusal)
    else
      var rule := EditedRule(t.rules[dto.id], dto, actor.sub);
      var saved := Write(t, At(plan, SaveRule), t.(rules := t.rules[dto.id := rule]));
      if !saved.exit.Go? then saved
      else
        Write(saved.t, At(plan, SaveHistory),
              WithEntry(saved.t, dto.id, rule, Edited(dto.changeReason), rule.version, actor.sub))
  }

  function Retired(t: Tables, id: nat, actor: Actor, plan: Plan<Await>): Progress {
    var refusal := Refusal(t, id, actor, plan);
    if !refusal.Go? then Progress(t, refusal)
    else
      var rule := t.rules[id];
      var logged := Write(t, At(plan, SaveHistory), WithEntry(t, id, rule, Deactivated, rule.version + 1, actor.sub));
      if !logged.exit.Go? then logged
      else Write(logged.t, At(plan, SoftDelete), logged.t.(rules := t.rules[id := rule.(deleted := true)]))
  }

  class Service {
    var rules: seq<Rule>
    var history: seq<Entry>

    constructor ()
      ensures State() == Tables([], [])
    {
      rules, history := [], [];
    }

    function State(): Tables
      reads this
    {
      Tables(rules, history)
    }

    method SaveEntry(id: nat, rule: Rule, change: Change, version: nat, author: string, mode: Mode) returns (exit: Exit)
      modifies `history
      ensures Progress(State(), exit) ==
          Write(old(State()), mode, WithEntry(old(State()), id, rule, change, version, author))
    {
      if TakesEffect(mode) {
        history := history + [Entry(id, SnapshotOf(rule, change), version, author)];
      }
      return Leaves(mode, Unavailable);
    }

    method Create(dto: CreateRule, actor: Actor, plan: Plan<Await>) returns (exit: Exit)
      modifies this
      ensures Progress(State(), exit) == Created(old(State()), dto, actor, plan)
    {
      if !IsSuperadmin(actor) {
        return Threw(Forbidden);
      }
      var id, save := |rules|, At(plan, SaveRule);
      var rule := Rule(dto.ruleName, dto.cif, dto.threshold, 1, actor.sub, None, false);
      if TakesEffect(save) {
        rules := rules + [rule];
      }
      if save != Works {
        return Leaves(save, Unavailable);
      }
      exit := SaveEntry(id, rule, Made, rule.version, actor.sub, At(plan, SaveHistory));
    }

    method Update(dto: EditRule, actor: Actor, plan: Plan<Await>) returns (exit: Exit)
      modifies this
      ensures Progress(State(), exit) == Updated(old(State()), dto, actor, plan)
    {
      if !IsSuperadmin(actor) {
        return Threw(Forbidden);
      }
      if At(plan, FindRule) != Works {
        return Leaves(At(plan, FindRule), Unavailable);
      }
      if dto.id >= |rules| || rules[dto.id].deleted {
        return Threw(RuleNotFound);
      }
      var rule, save := rules[dto.id], At(plan, SaveRule);
      if dto.ruleName.Some? {
        rule := rule.(ruleName := dto.ruleName.value);
      }
      if dto.threshold.Some? {
        rule := rule.(threshold := dto.threshold.value);
      }
      rule := rule.(version := rule.version + 1, updatedBy := Some(actor.sub));
      if TakesEffect(save) {
        rules := rules[dto.id := rule];
      }
      if save != Works {
        return Leaves(save, Unavailable);
      }
      exit := SaveEntry(dto.id, rule, Edited(dto.changeReason), rule.version, actor.sub, At(plan, SaveHistory));
    }

    method Deactivate(id: nat, actor: Actor, plan: Plan<Await>) returns (exit: Exit)
      modifies this
      ensures Progress(State(), exit) == Retired(old(State()), id, actor, plan)
    {
      if !IsSuperadmin(actor) {
        return Threw(Forbidden);
      }
      if At(plan, FindRule) != Works {
        return Leaves(At(plan, FindRule), Unavailable);
      }
      if id >= |rules| || rules[id].deleted {
        return Threw(RuleNotFound);
      }
      var rule := rules[id];
      exit := SaveEntry(id, rule, Deactivated, rule.version + 1, actor.sub, At(plan, SaveHistory));
      if exit != Go {
        return;
      }
      var remove := At(plan, SoftDelete);
      if TakesEffect(remove) {
        rules := rules[id := rule.(deleted := true)];
      }
      return Leaves(remove, Unavailable);
    }
  }
}
