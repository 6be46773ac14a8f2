/** The history of authorization rules over serial runs: which runs leave it complete, and what a complete
    history says about every earlier moment. */
module RuleHistory {
  import opened Outcomes
  import opened Faults
  import opened RbacConstants
  import opened AuthorizationRules

  datatype Event =
    | Make(rule: CreateRule, actor: Actor, plan: Plan<Await>)
    | Edit(edit: EditRule, actor: Actor, plan: Plan<Await>)
    | Retire(id: nat, actor: Actor, plan: Plan<Await>)

  function Next(t: Tables, e: Event): Tables {
    match e
    case Make(rule, actor, plan) => Created(t, rule, actor, plan).t
    case Edit(edit, actor, plan) => Updated(t, edit, actor, plan).t
    case Retire(id, actor, plan) => Retired(t, id, actor, plan).t
  }

  function Run(events: seq<Event>): Tables {
    if events == [] then Tables([], []) else Next(Run(events[..|events| - 1]), events[|events| - 1])
  }

  /** The entries of one rule, oldest first. */
  function EntriesOf(history: seq<Entry>, id: nat): seq<Entry> {
    if history == [] then []
    else
      var last := history[|history| - 1];
      EntriesOf(history[..|history| - 1], id) + if last.ruleId == id then [last] else []
  }

  /** The event writes one of its two rows without the other: the rule without its entry, or the entry of
      a deactivation without the deactivation. */
  predicate Torn(t: Tables, e: Event) {
    match e
    case Make(_, actor, plan) =>
      && IsSuperadmin(actor) && TakesEffect(At(plan, SaveRule))
      && !(At(plan, SaveRule).Works? && TakesEffect(At(plan, SaveHistory)))
    case Edit(edit, actor, plan) =>
      && Refusal(t, edit.id, actor, plan).Go? && TakesEffect(At(plan, SaveRule))
      && !(At(plan, SaveRule).Works? && TakesEffect(At(plan, SaveHistory)))
    case Retire(id, actor, plan) =>
      && Refusal(t, id, actor, plan).Go? && TakesEffect(At(plan, SaveHistory))
      && !(At(plan, SaveHistory).Works? && TakesEffect(At(plan, SoftDelete)))
  }

  // ---- what one event does to one rule and its entries

  function Subject(t: Tables, e: Event): nat {
    match e
    case Make(_, _, _) => |t.rules|
    case Edit(edit, _, _) => edit.id
    case Retire(id, _, _) => id
  }

  predicate Follows(rule: Rule, edited: Rule) {
    !rule.deleted && edited == rule.(ruleName := edited.ruleName, threshold := edited.threshold,
                                     version := rule.version + 1, updatedBy := edited.updatedBy)
  }

  /** Written in step with the rule by an update. */
  predicate Records(entry: Entry, rule: Rule) {
    && entry.version == rule.version && !entry.snapshot.change.Deactivated?
    && entry.snapshot.ruleName == rule.ruleName && entry.snapshot.cif == rule.cif
    && entry.snapshot.threshold == rule.threshold
  }

  /** Written by a deactivation of the rule. */
  predicate Closes(entry: Entry, rule: Rule) {
    entry.version == rule.version + 1 && entry.snapshot == SnapshotOf(rule, Deactivated)
  }

  /** One row of the rule table and the rule's entries, before and after one event. */
  ghost predicate Moves(rule: Rule, entries: seq<Entry>, rule': Rule, entries': seq<Entry>, torn: bool) {
    || (!torn && rule' == rule && entries' == entries)
    || (torn && Follows(rule, rule') && entries' == entries)
    || (torn && !rule.deleted && rule' == rule
        && exists entry {:trigger Closes(entry, rule)} :: entries' == entries + [entry] && Closes(entry, rule))
    || (!torn && Follows(rule, rule')
        && exists entry {:trigger Records(entry, rule')} :: entries' == entries + [entry] && Records(entry, rule'))
    || (!torn && !rule.deleted && rule' == rule.(deleted := true)
        && exists entry {:trigger Closes(entry, rule)} :: entries' == entries + [entry] && Closes(entry, rule))
  }

  lemma EntriesAfter(history: seq<Entry>, entry: Entry, id: nat)
    ensures EntriesOf(history + [entry], id) == EntriesOf(history, id) + if entry.ruleId == id then [entry] else []
  {
    assert (history + [entry])[..|history|] == history;
  }

  lemma {:induction false} NoEntries(history: seq<Entry>, id: nat)
    requires forall i | 0 <= i < |history| :: history[i].ruleId != id
    ensures EntriesOf(history, id) == []
  {
    if history != [] {
      NoEntries(history[..|history| - 1], id);
    }
  }

  lemma EntryAppended(t: Tables, e: Event)
    ensures var v := Next(t, e);
      || v.history == t.history
      || (&& |v.history| == |t.history| + 1 && v.history == t.history + [v.history[|t.history|]]
          && v.history[|t.history|].ruleId == Subject(t, e))
  {
  }

  /** Other rules keep their row and their entries. */
  lemma OthersKept(t: Tables, e: Event, id: nat)
    requires id < |t.rules| && id != Subject(t, e)
    ensures var v := Next(t, e);
      id < |v.rules| && v.rules[id] == t.rules[id] && EntriesOf(v.history, id) == EntriesOf(t.history, id)
  {
    EntryAppended(t, e);
    if Next(t, e).history != t.history {
      EntriesAfter(t.history, Next(t, e).history[|t.history|], id);
    }
  }

  lemma EditMoves(t: Tables, dto: EditRule, actor: Actor, plan: Plan<Await>)
    requires dto.id < |t.rules|
    ensures var v, id := Updated(t, dto, actor, plan).t, dto.id;
      && |v.rules| == |t.rules|
      && Moves(t.rules[id], EntriesOf(t.history, id), v.rules[id], EntriesOf(v.history, id),
               Torn(t, Edit(dto, actor, plan)))
  {
    var id := dto.id;
    var v, entries := Updated(t, dto, actor, plan).t, EntriesOf(t.history, id);
    var rule := EditedRule(t.rules[id], dto, actor.sub);
    var entry := Entry(id, SnapshotOf(rule, Edited(dto.changeReason)), rule.version, actor.sub);
    var save, log := At(plan, SaveRule), At(plan, SaveHistory);
    if Refusal(t, id, actor, plan).Go? && TakesEffect(save) {
      assert v.rules[id] == rule;
      if save.Works? && TakesEffect(log) {
        EntriesAfter(t.history, entry, id);
        assert EntriesOf(v.history, id) == entries + [entry] && Records(entry, rule);
      }
    } else {
      assert v == t;
    }
  }

  lemma RetireMoves(t: Tables, id: nat, actor: Actor, plan: Plan<Await>)
    requires id < |t.rules|
    ensures var v := Retired(t, id, actor, plan).t;
      && |v.rules| == |t.rules|
      && Moves(t.rules[id], EntriesOf(t.history, id), v.rules[id], EntriesOf(v.history, id),
               Torn(t, Retire(id, actor, plan)))
  {
    var v, rule, entries := Retired(t, id, actor, plan).t, t.rules[id], EntriesOf(t.history, id);
    var entry := Entry(id, SnapshotOf(rule, Deactivated), rule.version + 1, actor.sub);
    var log, remove := At(plan, SaveHistory), At(plan, SoftDelete);
    if Refusal(t, id, actor, plan).Go? && TakesEffect(log) {
      EntriesAfter(t.history, entry, id);
      assert v.history == t.history + [entry];
      assert EntriesOf(v.history, id) == entries + [entry] && Closes(entry, rule);
      if log.Works? && TakesEffect(remove) {
        assert v.rules[id] == rule.(deleted := true) && !Torn(t, Retire(id, actor, plan));
      } else {
        assert v.rules == t.rules && Torn(t, Retire(id, actor, plan));
      }
    } else {
      assert v == t;
    }
  }

  /** A rule just made, with its entry unless that was cut off. */
  ghost predicate Begins(rule: Rule, entries: seq<Entry>, torn: bool) {
    && rule.version == 1 && !rule.deleted
    && if torn then entries == [] else |entries| == 1 && Records(entries[0], rule)
  }

  lemma MakeBegins(t: Tables, dto: CreateRule, actor: Actor, plan: Plan<Await>)
    requires forall i | 0 <= i < |t.history| :: t.history[i].ruleId < |t.rules|
    ensures var v, id, torn := Created(t, dto, actor, plan).t, |t.rules|, Torn(t, Make(dto, actor, plan));
      || (v == t && !torn)
      || (|v.rules| == id + 1 && v.rules[..id] == t.rules && Begins(v.rules[id], EntriesOf(v.history, id), torn))
  {
    var id := |t.rules|;
    NoEntries(t.history, id);
    var rule := Rule(dto.ruleName, dto.cif, dto.threshold, 1, actor.sub, None, false);
    EntriesAfter(t.history, Entry(id, SnapshotOf(rule, Made), 1, actor.sub), id);
  }

  lemma SubjectMoves(t: Tables, e: Event)
    requires !e.Make? && Subject(t, e) < |t.rules|
    ensures var v, id := Next(t, e), Subject(t, e);
      && |v.rules| == |t.rules|
      && Moves(t.rules[id], EntriesOf(t.history, id), v.rules[id], EntriesOf(v.history, id), Torn(t, e))
  {
    if e.Edit? {
      EditMoves(t, e.edit, e.actor, e.plan);
    } else {
      RetireMoves(t, e.id, e.actor, e.plan);
    }
  }

  // ---- numbering

  /** Versions are 1..n with no gap or repeat; n is the rule's version, one more once deactivated; and the
      deactivation of a deactivated rule, and nothing else, is a Deactivated entry, the last. */
  ghost predicate Numbered(rule: Rule, entries: seq<Entry>) {
    && (forall v | 0 <= v < |entries| ::
          && entries[v].version == v + 1
          && (entries[v].snapshot.change.Deactivated? <==> rule.deleted && v == |entries| - 1))
    && |entries| == rule.version + if rule.deleted then 1 else 0
  }

  /** Of every run: entries carry the rule's cif, and only a deactivation is numbered past the rule. */
  ghost predicate Sound(rule: Rule, entries: seq<Entry>) {
    forall v | 0 <= v < |entries| ::
      && entries[v].snapshot.cif == rule.cif
      && (entries[v].version <= rule.version || entries[v].snapshot.change.Deactivated?)
  }

  /** A change keeps the numbering exactly when it was there before and the event is not torn. */
  lemma MoveNumberedIff(rule: Rule, entries: seq<Entry>, rule': Rule, entries': seq<Entry>, torn: bool)
    requires Sound(rule, entries) && Moves(rule, entries, rule', entries', torn)
    ensures Sound(rule', entries')
    ensures Numbered(rule', entries') <==> Numbered(rule, entries) && !torn
  {
    if torn && |entries'| == rule'.version {
      var last := entries'[|entries'| - 1];
      assert last.version == rule'.version ==> last.snapshot.change.Deactivated?;
    }
    if !torn && Numbered(rule', entries') {
      assert forall v | 0 <= v < |entries| :: entries'[v] == entries[v];
    }
  }

  ghost predicate AllSound(t: Tables) {
    && (forall i | 0 <= i < |t.history| :: t.history[i].ruleId < |t.rules|)
    && (forall id: nat | id < |t.rules| :: Sound(t.rules[id], EntriesOf(t.history, id)))
  }

  ghost predicate AllNumbered(t: Tables) {
    forall id: nat | id < |t.rules| :: Numbered(t.rules[id], EntriesOf(t.history, id))
  }

  lemma EntriesNameRules(t: Tables, e: Event)
    requires forall i | 0 <= i < |t.history| :: t.history[i].ruleId < |t.rules|
    ensures |t.rules| <= |Next(t, e).rules|
    ensures forall i | 0 <= i < |Next(t, e).history| :: Next(t, e).history[i].ruleId < |Next(t, e).rules|
  {
  }

  lemma MakeKeepsOthers(t: Tables, e: Event, id: nat)
    requires e.Make? && id < |t.rules|
    ensures var v := Next(t, e);
      id < |v.rules| && v.rules[id] == t.rules[id] && EntriesOf(v.history, id) == EntriesOf(t.history, id)
  {
    OthersKept(t, e, id);
  }

  lemma MakeNumberedIff(t: Tables, e: Event)
    requires AllSound(t) && e.Make?
    ensures AllSound(Next(t, e))
    ensures AllNumbered(Next(t, e)) <==> AllNumbered(t) && !Torn(t, e)
  {
    var v, torn := Next(t, e), Torn(t, e);
    MakeBegins(t, e.rule, e.actor, e.plan);
    EntriesNameRules(t, e);
    if |v.rules| > |t.rules| {
      forall id: nat | id < |t.rules|
        ensures v.rules[id] == t.rules[id] && EntriesOf(v.history, id) == EntriesOf(t.history, id)
      {
        MakeKeepsOthers(t, e, id);
      }
      AppendedRule(t, v, torn);
    }
  }

  lemma AppendedRule(t: Tables, v: Tables, torn: bool)
    requires |v.rules| == |t.rules| + 1
    requires forall id: nat | id < |t.rules| ::
      v.rules[id] == t.rules[id] && EntriesOf(v.history, id) == EntriesOf(t.history, id)
    requires Begins(v.rules[|t.rules|], EntriesOf(v.history, |t.rules|), torn)
    requires forall i | 0 <= i < |v.history| :: v.history[i].ruleId < |v.rules|
    requires AllSound(t)
    ensures AllSound(v)
    ensures AllNumbered(v) <==> AllNumbered(t) && !torn
  {
    var rule, entries := v.rules[|t.rules|], EntriesOf(v.history, |t.rules|);
    assert Numbered(rule, entries) <==> !torn;
    if AllNumbered(v) {
      assert Numbered(rule, entries);
      assert forall id: nat | id < |t.rules| :: Numbered(v.rules[id], EntriesOf(v.history, id));
    }
  }

  lemma ChangeNumberedIff(t: Tables, e: Event)
    requires AllSound(t) && !e.Make?
    ensures AllSound(Next(t, e))
    ensures AllNumbered(Next(t, e)) <==> AllNumbered(t) && !Torn(t, e)
  {
    var v, subject := Next(t, e), Subject(t, e);
    if subject < |t.rules| {
      SubjectMoves(t, e);
      EntriesNameRules(t, e);
      MoveNumberedIff(t.rules[subject], EntriesOf(t.history, subject), v.rules[subject], EntriesOf(v.history, subject),
                      Torn(t, e));
      forall id: nat | id < |t.rules| && id != subject
        ensures v.rules[id] == t.rules[id] && EntriesOf(v.history, id) == EntriesOf(t.history, id)
      {
        OthersKept(t, e, id);
      }
      if AllNumbered(v) {
        assert Numbered(v.rules[subject], EntriesOf(v.history, subject));
        assert forall id: nat | id < |t.rules| && id != subject :: Numbered(v.rules[id], EntriesOf(v.history, id));
      }
    }
  }

  /** No event of the run was torn when it came. */
  predicate NothingTorn(events: seq<Event>) {
    events == []
    || (NothingTorn(events[..|events| - 1]) && !Torn(Run(events[..|events| - 1]), events[|events| - 1]))
  }

  /** After any serial run, with any failures: every rule's versions are exactly 1..n, n being its live
      version (one more once deactivated), if and only if no event of the run was torn. What one torn event
      breaks, no later event repairs. */
  lemma {:induction false} NumberedIffNothingTorn(events: seq<Event>)
    ensures AllSound(Run(events))
    ensures AllNumbered(Run(events)) <==> NothingTorn(events)
  {
    if events != [] {
      var front, last := events[..|events| - 1], events[|events| - 1];
      NumberedIffNothingTorn(front);
      if last.Make? {
        MakeNumberedIff(Run(front), last);
      } else {
        ChangeNumberedIff(Run(front), last);
      }
    }
  }

  // ---- what the entries say

  /** Entry number v tells the rule's state at version v. */
  ghost predicate Recorded(rule: Rule, entries: seq<Entry>) {
    1 <= rule.version <= |entries| && Records(entries[rule.version - 1], rule)
  }

  ghost predicate AllRecorded(t: Tables) {
    forall id: nat | id < |t.rules| :: Recorded(t.rules[id], EntriesOf(t.history, id))
  }

  lemma StepKeepsRecorded(t: Tables, e: Event, rule: Rule, id: nat)
    requires Recorded(rule, EntriesOf(t.history, id))
    ensures Recorded(rule, EntriesOf(Next(t, e).history, id))
  {
    EntryAppended(t, e);
    if Next(t, e).history != t.history {
      EntriesAfter(t.history, Next(t, e).history[|t.history|], id);
    }
  }

  lemma MoveKeepsRecorded(rule: Rule, entries: seq<Entry>, rule': Rule, entries': seq<Entry>)
    requires Numbered(rule, entries) && Recorded(rule, entries) && Moves(rule, entries, rule', entries', false)
    ensures Recorded(rule', entries')
  {
  }

  lemma StepKeepsAllRecorded(t: Tables, e: Event)
    requires AllSound(t) && AllNumbered(t) && AllRecorded(t) && !Torn(t, e)
    ensures AllRecorded(Next(t, e))
  {
    var v, subject := Next(t, e), Subject(t, e);
    if e.Make? {
      MakeBegins(t, e.rule, e.actor, e.plan);
    } else if subject < |t.rules| {
      SubjectMoves(t, e);
      MoveKeepsRecorded(
        t.rules[subject], EntriesOf(t.history, subject), v.rules[subject], EntriesOf(v.history, subject));
    }
    forall id: nat | id < |v.rules| && id != subject
      ensures Recorded(v.rules[id], EntriesOf(v.history, id))
    {
      OthersKept(t, e, id);
    }
  }

  lemma {:induction false} RunIsRecorded(events: seq<Event>)
    requires NothingTorn(events)
    ensures AllRecorded(Run(events))
  {
    if events != [] {
      var front := events[..|events| - 1];
      RunIsRecorded(front);
      NumberedIffNothingTorn(front);
      StepKeepsAllRecorded(Run(front), events[|events| - 1]);
    }
  }

  /** The history reconstructs every earlier moment: whatever version a rule had after the first k events
      of an untorn run, the entry of that number at the end tells the rule as it was then. */
  lemma {:induction false} HistoryTellsEveryMoment(events: seq<Event>, k: nat, id: nat)
    requires k <= |events| && id < |Run(events[..k]).rules|
    requires NothingTorn(events)
    ensures Recorded(Run(events[..k]).rules[id], EntriesOf(Run(events).history, id))
  {
    if k == |events| {
      assert events[..k] == events;
      RunIsRecorded(events);
    } else {
      var front := events[..|events| - 1];
      assert front[..k] == events[..k];
      HistoryTellsEveryMoment(front, k, id);
      StepKeepsRecorded(Run(front), events[|events| - 1], Run(events[..k]).rules[id], id);
    }
  }

  // ---- what no event changes

  /** The rule's cif and creator are fixed, its version never drops, and its entries only grow; once
      deactivated, the rule and its entries stay as they are. */
  ghost predicate Continues(t: Tables, v: Tables, id: nat)
    requires id < |t.rules|
  {
    && id < |v.rules|
    && v.rules[id].cif == t.rules[id].cif && v.rules[id].createdBy == t.rules[id].createdBy
    && v.rules[id].version >= t.rules[id].version
    && EntriesOf(t.history, id) <= EntriesOf(v.history, id)
    && (t.rules[id].deleted ==> v.rules[id] == t.rules[id] && EntriesOf(v.history, id) == EntriesOf(t.history, id))
  }

  lemma StepContinues(t: Tables, e: Event, id: nat)
    requires id < |t.rules|
    ensures Continues(t, Next(t, e), id)
  {
    if id != Subject(t, e) {
      OthersKept(t, e, id);
    } else {
      SubjectMoves(t, e);
    }
  }

  /** Over any run, whatever fails. */
  lemma {:induction false} RunContinues(events: seq<Event>, k: nat, id: nat)
    requires k <= |events| && id < |Run(events[..k]).rules|
    ensures Continues(Run(events[..k]), Run(events), id)
  {
    if k == |events| {
      assert events[..k] == events;
    } else {
      var front := events[..|events| - 1];
      assert front[..k] == events[..k];
      RunContinues(front, k, id);
      StepContinues(Run(front), events[|events| - 1], id);
    }
  }
}
