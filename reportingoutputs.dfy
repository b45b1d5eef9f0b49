/**
 * The `reportingOutputs` hook of the MySQL module: a changed doc is written
 * to the full reporting database, then to the sanitised one. Within
 * `generateDatabase` a doc whose form is excluded writes nothing, a case
 * writes its flat record, its participants, then per event the event forms
 * followed by the case event; any other doc writes its flat record only.
 *
 * The writes are described as the ordered list of steps `generateDatabase`
 * takes; `Run` gives the store after them.
 */
module ReportingOutputs {
  import opened Wrappers
  import opened Strings
  import opened JsonValues
  import opened ReportingFlat
  import opened ReportingStore

  /**
   * `exclusions && exclusions.includes(formId)`: None when `includes` is not
   * a method of the value (a truthy value that is neither array nor string),
   * which throws.
   */
  function Excluded(exclusions: Json, formId: string): (r: Option<bool>)
    ensures !Truthy(exclusions) ==> r == Some(false)
    ensures exclusions.Arr? ==> r == Some(Str(formId) in exclusions.items)
    ensures r.None? <==> Truthy(exclusions) && !exclusions.Arr? && !exclusions.Str?
  {
    if !Truthy(exclusions) then Some(false)
    else if exclusions.Arr? then Some(Str(formId) in exclusions.items)
    else if exclusions.Str? then Some(Contains(exclusions.s, formId))
    else None
  }

  /** One write of `generateDatabase`, or a throw; `guarded` when it runs inside the event-form `try`, whose failures are swallowed. */
  datatype Step = Put(record: Fields, guarded: bool) | Fail(guarded: bool)

  /** The store after a list of steps, and whether `generateDatabase` resolved. */
  datatype Outcome = Outcome(docs: map<string, Fields>, ok: bool)

  function Run(docs: map<string, Fields>, steps: seq<Step>): Outcome
    decreases |steps|
  {
    if steps == [] then Outcome(docs, true)
    else
      match steps[0]
      case Fail(guarded) => if guarded then Run(docs, steps[1..]) else Outcome(docs, false)
      case Put(record, guarded) =>
        if PushOk(docs, record) then Run(AfterPush(docs, record), steps[1..])
        else if guarded then Run(docs, steps[1..])
        else Outcome(docs, false)
  }

  /** Running two lists of steps is running the first, then, if it did not throw, the second. */
  lemma {:induction false} RunAppend(docs: map<string, Fields>, a: seq<Step>, b: seq<Step>)
    ensures Run(docs, a + b) == if Run(docs, a).ok then Run(Run(docs, a).docs, b) else Run(docs, a)
    decreases |a|
  {
    if a == [] {
      assert a + b == b;
    } else {
      assert (a + b)[0] == a[0] && (a + b)[1..] == a[1..] + b;
      match a[0] {
        case Fail(g) =>
          if g { RunAppend(docs, a[1..], b); }
        case Put(record, g) =>
          if PushOk(docs, record) {
            RunAppend(AfterPush(docs, record), a[1..], b);
          } else if g {
            RunAppend(docs, a[1..], b);
          }
      }
    }
  }

  /** A failure a guard swallows changes nothing, and no step after an unguarded failure runs. */
  lemma RunFailures(docs: map<string, Fields>, rest: seq<Step>)
    ensures Run(docs, [Fail(true)] + rest) == Run(docs, rest)
    ensures Run(docs, [Fail(false)] + rest) == Outcome(docs, false)
  {
    assert ([Fail(true)] + rest)[1..] == rest;
  }

  /** The write of the flat record: a throw when building it throws. */
  function FlatStep(r: Response, sanitized: bool): Step {
    match FlatOf(r, sanitized)
    case None => Fail(false)
    case Some(flat) => Put(SavedRecord(r.top, flat), false)
  }

  predicate Nullish(v: Json) {
    v.Undefined? || v.Null?
  }

  /** The columns a participant row adds to the participant's own properties, in order. */
  function ParticipantColumns(p: Json, docId: Json, archived: Json, multi: bool): Fields {
    var pid := Get(p, "id");
    [("_id", if multi then Add(Add(docId, Str("-")), pid) else pid),
     ("caseId", docId),
     ("participantId", pid),
     ("type", Str("participant")),
     ("archived", OrEmpty(archived))]
  }

  /** The participant row: the participant's own properties, then its id, the case id, its participant id, its type and `archived`. */
  function ParticipantRecord(p: Json, docId: Json, archived: Json, multi: bool): Fields {
    Spread(Spread([], OwnEntries(p)), ParticipantColumns(p, docId, archived, multi))
  }

  /** Reading the id of a null participant throws. */
  function ParticipantStep(p: Json, docId: Json, archived: Json, multi: bool): Step {
    if Nullish(p) then Fail(false) else Put(ParticipantRecord(p, docId, archived, multi), false)
  }

  function ParticipantSteps(ps: seq<Json>, docId: Json, archived: Json, multi: bool): (r: seq<Step>)
    ensures |r| == |ps|
    ensures forall i :: 0 <= i < |ps| ==> r[i] == ParticipantStep(ps[i], docId, archived, multi)
  {
    seq(|ps|, i requires 0 <= i < |ps| => ParticipantStep(ps[i], docId, archived, multi))
  }

  lemma ParticipantStepsAppend(a: seq<Json>, b: seq<Json>, docId: Json, archived: Json, multi: bool)
    ensures ParticipantSteps(a + b, docId, archived, multi) == ParticipantSteps(a, docId, archived, multi) + ParticipantSteps(b, docId, archived, multi)
  {
  }

  function EventFormColumns(f: Json, archived: Json): Fields {
    [("type", Str("event-form")), ("_id", Get(f, "id")), ("archived", archived)]
  }

  /** The event-form row: the form's own properties, then its type, id and the case's `archived`. */
  function EventFormRecord(f: Json, archived: Json): Fields {
    Spread(Spread([], OwnEntries(f)), EventFormColumns(f, archived))
  }

  /** Reading the id of a null event form throws inside the `try`. */
  function EventFormStep(f: Json, archived: Json): Step {
    if Nullish(f) then Fail(true) else Put(EventFormRecord(f, archived), true)
  }

  function EventFormSteps(forms: seq<Json>, archived: Json): (r: seq<Step>)
    ensures |r| == |forms|
    ensures forall i :: 0 <= i < |forms| ==> r[i] == EventFormStep(forms[i], archived)
  {
    seq(|forms|, i requires 0 <= i < |forms| => EventFormStep(forms[i], archived))
  }

  /** A copy of the event without `eventForms`. */
  function EventClone(e: Json): Fields {
    ObjRemove(Spread([], OwnEntries(e)), "eventForms")
  }

  function CaseEventColumns(e: Json, archived: Json): Fields {
    [("_id", Lookup(EventClone(e), "id")), ("type", Str("case-event")), ("archived", archived)]
  }

  /** The case-event row: the copy of the event, then its id, type and the case's `archived`. */
  function CaseEventRecord(e: Json, archived: Json): Fields {
    Spread(Spread([], EventClone(e)), CaseEventColumns(e, archived))
  }

  /** The event forms the inner loop visits: those of a truthy `eventForms` array. */
  function OwnForms(e: Json): seq<Json> {
    var forms := Get(e, "eventForms");
    if !Nullish(e) && Truthy(forms) && forms.Arr? then forms.items else []
  }

  /** The steps of one event: its event forms when `eventForms` is truthy, then the case event. */
  function EventSteps(e: Json, archived: Json): seq<Step> {
    var forms := Get(e, "eventForms");
    if Nullish(e) || (Truthy(forms) && !forms.Arr?) then [Fail(false)]
    else EventFormSteps(OwnForms(e), archived) + [Put(CaseEventRecord(e, archived), false)]
  }

  function EventsSteps(events: seq<Json>, archived: Json): seq<Step>
    decreases |events|
  {
    if events == [] then [] else EventSteps(events[0], archived) + EventsSteps(events[1..], archived)
  }

  lemma JsonsSplit(a: seq<Json>, b: seq<Json>)
    requires a != []
    ensures (a + b)[0] == a[0] && (a + b)[1..] == a[1..] + b
  {
  }

  lemma {:induction false} EventsStepsAppend(a: seq<Json>, b: seq<Json>, archived: Json)
    ensures EventsSteps(a + b, archived) == EventsSteps(a, archived) + EventsSteps(b, archived)
    decreases |a|
  {
    if a == [] {
      assert a + b == b;
    } else {
      JsonsSplit(a, b);
      EventsStepsAppend(a[1..], b, archived);
      StepsAssoc(EventSteps(a[0], archived), EventsSteps(a[1..], archived), EventsSteps(b, archived));
    }
  }

  /** `for (const event of doc.events)`: only an array is iterated, anything else throws. */
  function EventsOf(events: Json, archived: Json): seq<Step> {
    if events.Arr? then EventsSteps(events.items, archived) else [Fail(false)]
  }

  /** The steps of a case after its flat record: participants, then events. */
  function CaseRest(top: Fields, multi: bool): seq<Step> {
    var participants := Lookup(top, "participants");
    var archived := Lookup(top, "archived");
    if participants.Arr? then
      ParticipantSteps(participants.items, Lookup(top, "_id"), archived, multi) + EventsOf(Lookup(top, "events"), archived)
    else [Fail(false)]
  }

  predicate IsCase(r: Response) {
    Lookup(r.top, "type") == Str("case")
  }

  /** The steps of `generateDatabase(sourceDb, targetDb, doc, sanitized, exclusions)`. */
  function Steps(r: Response, sanitized: bool, exclusions: Json, multi: bool): seq<Step> {
    match Excluded(exclusions, r.form.id)
    case None => [Fail(false)]
    case Some(excluded) =>
      if excluded then []
      else if IsCase(r) then [FlatStep(r, sanitized)] + CaseRest(r.top, multi)
      else [FlatStep(r, sanitized)]
  }

  /** The doc after `generateDatabase`: its form id made non-empty once the flat record was built. */
  function Passed(r: Response, exclusions: Json): Response {
    if Excluded(exclusions, r.form.id) == Some(false) then WithFormId(r) else r
  }

  lemma StepsAssoc(a: seq<Step>, b: seq<Step>, c: seq<Step>)
    ensures a + (b + c) == (a + b) + c
  {
  }

  /** The state after one more step. */
  lemma RunOne(docs: map<string, Fields>, done: seq<Step>, s: Step)
    requires Run(docs, done).ok
    ensures Run(docs, done + [s]) == Run(Run(docs, done).docs, [s])
  {
    RunAppend(docs, done, [s]);
  }

  /** The effect of one write: the store after `pushResponse`, and a throw only when it rejects outside the `try`. */
  lemma RunPut(docs: map<string, Fields>, record: Fields, guarded: bool)
    ensures Run(docs, [Put(record, guarded)]).docs == AfterPush(docs, record)
    ensures Run(docs, [Put(record, guarded)]).ok == (PushOk(docs, record) || guarded)
  {
    assert [Put(record, guarded)][1..] == [];
  }

  /** Once a step has thrown, nothing after it runs. */
  lemma RunStopped(docs: map<string, Fields>, done: seq<Step>, rest: seq<Step>)
    requires !Run(docs, done).ok
    ensures Run(docs, done + rest) == Run(docs, done)
  {
    RunAppend(docs, done, rest);
  }

  /** One `pushResponse` outside the `try`: the state of the steps so far followed by this write. */
  method PushStep(db: ReportingDb, record: Fields, ghost start: map<string, Fields>, ghost done: seq<Step>) returns (ok: bool)
    requires Run(start, done).ok && Run(start, done).docs == db.docs
    modifies db
    ensures ok == Run(start, done + [Put(record, false)]).ok
    ensures db.docs == Run(start, done + [Put(record, false)]).docs
  {
    RunOne(start, done, Put(record, false));
    RunPut(db.docs, record, false);
    ok := PushResponse(record, db);
  }

  /** A throw outside the `try`. */
  lemma Throw(start: map<string, Fields>, done: seq<Step>)
    requires Run(start, done).ok
    ensures !Run(start, done + [Fail(false)]).ok
    ensures Run(start, done + [Fail(false)]).docs == Run(start, done).docs
  {
    RunOne(start, done, Fail(false));
  }

  /** One event form, inside the `try`: whatever happens, the loop goes on. */
  method EventFormTurn(db: ReportingDb, f: Json, archived: Json, ghost start: map<string, Fields>, ghost done: seq<Step>)
    requires Run(start, done).ok && Run(start, done).docs == db.docs
    modifies db
    ensures Run(start, done + [EventFormStep(f, archived)]).ok
    ensures db.docs == Run(start, done + [EventFormStep(f, archived)]).docs
  {
    RunOne(start, done, EventFormStep(f, archived));
    if !Nullish(f) {
      RunPut(db.docs, EventFormRecord(f, archived), true);
      var written := PushResponse(EventFormRecord(f, archived), db);
    } else {
      assert [Fail(true)][1..] == [];
    }
  }

  lemma EventFormsSnoc(forms: seq<Json>, i: nat, archived: Json)
    requires i < |forms|
    ensures EventFormSteps(forms[..i + 1], archived) == EventFormSteps(forms[..i], archived) + [EventFormStep(forms[i], archived)]
  {
  }

  /** The event-form loop of one event, inside its `try`. */
  method OutputEventForms(db: ReportingDb, forms: seq<Json>, archived: Json, ghost start: map<string, Fields>, ghost done: seq<Step>)
    requires Run(start, done).ok && Run(start, done).docs == db.docs
    modifies db
    ensures Run(start, done + EventFormSteps(forms, archived)).ok
    ensures db.docs == Run(start, done + EventFormSteps(forms, archived)).docs
  {
    ghost var progress := done;
    var i := 0;
    while i < |forms|
      invariant i <= |forms|
      invariant progress == done + EventFormSteps(forms[..i], archived)
      invariant Run(start, progress).ok && Run(start, progress).docs == db.docs
    {
      var f := forms[i];
      EventFormTurn(db, f, archived, start, progress);
      EventFormsSnoc(forms, i, archived);
      StepsAssoc(done, EventFormSteps(forms[..i], archived), [EventFormStep(f, archived)]);
      progress := progress + [EventFormStep(f, archived)];
      i := i + 1;
    }
    assert forms[..i] == forms;
  }

  /** One event: its event forms, then the case event. */
  method OutputEvent(db: ReportingDb, e: Json, archived: Json, ghost start: map<string, Fields>, ghost done: seq<Step>)
    returns (ok: bool)
    requires Run(start, done).ok && Run(start, done).docs == db.docs
    modifies db
    ensures ok == Run(start, done + EventSteps(e, archived)).ok
    ensures db.docs == Run(start, done + EventSteps(e, archived)).docs
  {
    if Nullish(e) {
      Throw(start, done);
      return false;
    }
    var forms := Get(e, "eventForms");
    if Truthy(forms) && !forms.Arr? {
      Throw(start, done);
      return false;
    }
    var own := if Truthy(forms) then forms.items else [];
    assert own == OwnForms(e);
    OutputEventForms(db, own, archived, start, done);
    assert done + EventSteps(e, archived) == (done + EventFormSteps(own, archived)) + [Put(CaseEventRecord(e, archived), false)];
    ok := PushStep(db, CaseEventRecord(e, archived), start, done + EventFormSteps(own, archived));
  }

  lemma EventsSnoc(es: seq<Json>, i: nat, archived: Json)
    requires i < |es|
    ensures EventsSteps(es[..i + 1], archived) == EventsSteps(es[..i], archived) + EventSteps(es[i], archived)
  {
    EventsStepsAppend(es[..i], [es[i]], archived);
    assert es[..i] + [es[i]] == es[..i + 1];
    assert EventsSteps([es[i]], archived) == EventSteps(es[i], archived) + EventsSteps([], archived);
  }

  lemma EventsRest(es: seq<Json>, i: nat, archived: Json)
    requires i <= |es|
    ensures EventsSteps(es, archived) == EventsSteps(es[..i], archived) + EventsSteps(es[i..], archived)
  {
    assert es == es[..i] + es[i..];
    EventsStepsAppend(es[..i], es[i..], archived);
  }

  /** An event that throws ends the loop: the later events write nothing. */
  lemma EventsStop(start: map<string, Fields>, done: seq<Step>, es: seq<Json>, i: nat, archived: Json)
    requires i <= |es|
    requires !Run(start, done + EventsSteps(es[..i], archived)).ok
    ensures Run(start, done + EventsSteps(es, archived)) == Run(start, done + EventsSteps(es[..i], archived))
  {
    EventsRest(es, i, archived);
    RunStopped(start, done + EventsSteps(es[..i], archived), EventsSteps(es[i..], archived));
    StepsAssoc(done, EventsSteps(es[..i], archived), EventsSteps(es[i..], archived));
  }

  /** The event loop of a case. */
  method OutputEvents(db: ReportingDb, es: seq<Json>, archived: Json, ghost start: map<string, Fields>, ghost done: seq<Step>)
    returns (ok: bool)
    requires Run(start, done).ok && Run(start, done).docs == db.docs
    modifies db
    ensures ok == Run(start, done + EventsSteps(es, archived)).ok
    ensures db.docs == Run(start, done + EventsSteps(es, archived)).docs
  {
    ghost var progress := done;
    var i := 0;
    while i < |es|
      invariant i <= |es|
      invariant progress == done + EventsSteps(es[..i], archived)
      invariant Run(start, progress).ok && Run(start, progress).docs == db.docs
    {
      EventsSnoc(es, i, archived);
      StepsAssoc(done, EventsSteps(es[..i], archived), EventSteps(es[i], archived));
      ok := OutputEvent(db, es[i], archived, start, progress);
      progress := progress + EventSteps(es[i], archived);
      if !ok {
        EventsStop(start, done, es, i + 1, archived);
        return;
      }
      i := i + 1;
    }
    assert es[..i] == es;
    ok := true;
  }

  /** One participant: reading its id throws when it is null, otherwise its row is written. */
  method ParticipantTurn(db: ReportingDb, p: Json, docId: Json, archived: Json, multi: bool, ghost start: map<string, Fields>, ghost done: seq<Step>)
    returns (ok: bool)
    requires Run(start, done).ok && Run(start, done).docs == db.docs
    modifies db
    ensures ok == Run(start, done + [ParticipantStep(p, docId, archived, multi)]).ok
    ensures db.docs == Run(start, done + [ParticipantStep(p, docId, archived, multi)]).docs
  {
    if Nullish(p) {
      Throw(start, done);
      return false;
    }
    ok := PushStep(db, ParticipantRecord(p, docId, archived, multi), start, done);
  }

  lemma ParticipantsRest(ps: seq<Json>, i: nat, docId: Json, archived: Json, multi: bool)
    requires i < |ps|
    ensures ParticipantSteps(ps[..i + 1], docId, archived, multi) == ParticipantSteps(ps[..i], docId, archived, multi) + [ParticipantStep(ps[i], docId, archived, multi)]
    ensures ParticipantSteps(ps, docId, archived, multi) == ParticipantSteps(ps[..i + 1], docId, archived, multi) + ParticipantSteps(ps[i + 1..], docId, archived, multi)
  {
    ParticipantStepsAppend(ps[..i], [ps[i]], docId, archived, multi);
    assert ps[..i] + [ps[i]] == ps[..i + 1];
    ParticipantStepsAppend(ps[..i + 1], ps[i + 1..], docId, archived, multi);
    assert ps[..i + 1] + ps[i + 1..] == ps;
  }

  /** The participant loop of a case. */
  method OutputParticipants(db: ReportingDb, ps: seq<Json>, docId: Json, archived: Json, multi: bool, ghost start: map<string, Fields>, ghost done: seq<Step>)
    returns (ok: bool)
    requires Run(start, done).ok && Run(start, done).docs == db.docs
    modifies db
    ensures ok == Run(start, done + ParticipantSteps(ps, docId, archived, multi)).ok
    ensures db.docs == Run(start, done + ParticipantSteps(ps, docId, archived, multi)).docs
  {
    ghost var progress := done;
    var i := 0;
    while i < |ps|
      invariant i <= |ps|
      invariant progress == done + ParticipantSteps(ps[..i], docId, archived, multi)
      invariant Run(start, progress).ok && Run(start, progress).docs == db.docs
    {
      ParticipantsRest(ps, i, docId, archived, multi);
      StepsAssoc(done, ParticipantSteps(ps[..i], docId, archived, multi), [ParticipantStep(ps[i], docId, archived, multi)]);
      ok := ParticipantTurn(db, ps[i], docId, archived, multi, start, progress);
      progress := progress + [ParticipantStep(ps[i], docId, archived, multi)];
      if !ok {
        RunStopped(start, progress, ParticipantSteps(ps[i + 1..], docId, archived, multi));
        StepsAssoc(done, ParticipantSteps(ps[..i + 1], docId, archived, multi), ParticipantSteps(ps[i + 1..], docId, archived, multi));
        return;
      }
      i := i + 1;
    }
    assert ps[..i] == ps;
    ok := true;
  }

  /** The participant loop, then the event loop, of a case. */
  method OutputCaseRest(db: ReportingDb, top: Fields, multi: bool, ghost start: map<string, Fields>, ghost done: seq<Step>)
    returns (ok: bool)
    requires Run(start, done).ok && Run(start, done).docs == db.docs
    modifies db
    ensures ok == Run(start, done + CaseRest(top, multi)).ok
    ensures db.docs == Run(start, done + CaseRest(top, multi)).docs
  {
    var archived := Lookup(top, "archived");
    var participants := Lookup(top, "participants");
    if !participants.Arr? {
      Throw(start, done);
      return false;
    }
    ghost var steps := ParticipantSteps(participants.items, Lookup(top, "_id"), archived, multi);
    ok := OutputParticipants(db, participants.items, Lookup(top, "_id"), archived, multi, start, done);
    var events := Lookup(top, "events");
    StepsAssoc(done, steps, EventsOf(events, archived));
    if !ok {
      RunStopped(start, done + steps, EventsOf(events, archived));
      return;
    }
    if !events.Arr? {
      Throw(start, done + steps);
      return false;
    }
    ok := OutputEvents(db, events.items, archived, start, done + steps);
  }

  /** The first write of `generateDatabase`: the flat record. */
  method OutputFlat(db: ReportingDb, r: Response, sanitized: bool) returns (r': Response, ok: bool)
    modifies db
    ensures r' == WithFormId(r)
    ensures ok == Run(old(db.docs), [FlatStep(r, sanitized)]).ok
    ensures db.docs == Run(old(db.docs), [FlatStep(r, sanitized)]).docs
  {
    assert [FlatStep(r, sanitized)][1..] == [];
    r', ok := SaveFlatResponse(r, db, sanitized);
  }

  /** `generateDatabase`: returns the doc as it leaves it, and whether it resolved. */
  method GenerateDatabase(db: ReportingDb, r: Response, sanitized: bool, exclusions: Json, multi: bool)
    returns (r': Response, ok: bool)
    modifies db
    ensures r' == Passed(r, exclusions)
    ensures ok == Run(old(db.docs), Steps(r, sanitized, exclusions, multi)).ok
    ensures db.docs == Run(old(db.docs), Steps(r, sanitized, exclusions, multi)).docs
  {
    ghost var start := db.docs;
    var excluded := Excluded(exclusions, r.form.id);
    if excluded.None? {
      return r, false;
    }
    if excluded.value {
      return r, true;
    }
    r', ok := OutputFlat(db, r, sanitized);
    if IsCase(r) {
      if ok {
        ok := OutputCaseRest(db, r.top, multi, start, [FlatStep(r, sanitized)]);
      } else {
        RunStopped(start, [FlatStep(r, sanitized)], CaseRest(r.top, multi));
      }
    }
  }

  /** The hook: the full reporting database first, then, with the doc as the first pass left it, the sanitised one. */
  method ReportingOutputsHook(r: Response, exclusions: Json, multi: bool, mysqlDb: ReportingDb, sanitizedDb: ReportingDb)
    returns (ok: bool)
    requires mysqlDb != sanitizedDb
    modifies mysqlDb, sanitizedDb
    ensures var full := Run(old(mysqlDb.docs), Steps(r, false, exclusions, multi));
      var sanitized := Run(old(sanitizedDb.docs), Steps(Passed(r, exclusions), true, exclusions, multi));
      && mysqlDb.docs == full.docs
      && (full.ok ==> sanitizedDb.docs == sanitized.docs && ok == sanitized.ok)
      && (!full.ok ==> sanitizedDb.docs == old(sanitizedDb.docs) && !ok)
  {
    var r1;
    r1, ok := GenerateDatabase(mysqlDb, r, false, exclusions, multi);
    if !ok {
      return;
    }
    var r2;
    r2, ok := GenerateDatabase(sanitizedDb, r1, true, exclusions, multi);
  }

  // ---------------------------------------------------------------------------------------------
  // Properties of the steps

  /** An excluded form writes nothing; exclusions that cannot be searched make the hook throw before any write. */
  lemma ExclusionsSkip(r: Response, sanitized: bool, exclusions: Json, multi: bool, docs: map<string, Fields>)
    ensures Excluded(exclusions, r.form.id) == Some(true) ==> Run(docs, Steps(r, sanitized, exclusions, multi)) == Outcome(docs, true)
    ensures Excluded(exclusions, r.form.id).None? ==> Run(docs, Steps(r, sanitized, exclusions, multi)) == Outcome(docs, false)
  {
  }

  /**
   * The exclusion list is checked against the form id as each pass sees it:
   * a form with an empty id is written to the full database even when
   * `blank` is excluded, and then skipped for the sanitised one, because the
   * first pass renamed it.
   */
  lemma BlankFormExclusion(r: Response, multi: bool)
    requires r.form.id == ""
    ensures Steps(r, false, Arr([Str("blank")]), multi) != []
    ensures Steps(Passed(r, Arr([Str("blank")])), true, Arr([Str("blank")]), multi) == []
  {
    assert Str("") != Str("blank");
  }

  /** The sanitised database receives what the full one would for the same doc with its identifier inputs removed. */
  lemma SanitizedStepsUnidentified(r: Response, exclusions: Json, multi: bool)
    ensures Steps(r, true, exclusions, multi) == Steps(r.(items := UnidentifiedItems(r.items)), false, exclusions, multi)
  {
    SanitizedFlatIsUnidentified(r);
  }

  /** The event forms of the events, in order, as the inner loop visits them. */
  function FormsOf(events: seq<Json>): seq<Json>
    decreases |events|
  {
    if events == [] then [] else OwnForms(events[0]) + FormsOf(events[1..])
  }

  lemma EventFormStepsAppend(a: seq<Json>, b: seq<Json>, archived: Json)
    ensures EventFormSteps(a + b, archived) == EventFormSteps(a, archived) + EventFormSteps(b, archived)
  {
  }

  /** Only event-form writes are guarded: any other write that fails, and any other throw, ends `generateDatabase`. */
  lemma {:induction false} EventsStepsGuards(events: seq<Json>, archived: Json)
    ensures forall s :: s in EventsSteps(events, archived) && s.guarded ==> s in EventFormSteps(FormsOf(events), archived)
    decreases |events|
  {
    if events != [] {
      var e := events[0];
      EventsStepsGuards(events[1..], archived);
      EventFormStepsAppend(OwnForms(e), FormsOf(events[1..]), archived);
    }
  }

  lemma ParticipantColumnsKeys(p: Json, docId: Json, archived: Json, multi: bool)
    ensures Keys(ParticipantColumns(p, docId, archived, multi)) == ["_id", "caseId", "participantId", "type", "archived"]
    ensures UniqueKeys(ParticipantColumns(p, docId, archived, multi))
  {
    var cols := ParticipantColumns(p, docId, archived, multi);
    assert Keys(cols) == [cols[0].0, cols[1].0, cols[2].0, cols[3].0, cols[4].0];
    assert "_id"[0] != "caseId"[0] && "_id"[0] != "participantId"[0] && "_id"[0] != "type"[0] && "_id"[0] != "archived"[0];
    assert "caseId"[0] != "participantId"[0] && "caseId"[0] != "type"[0] && "caseId"[0] != "archived"[0];
    assert "participantId"[0] != "type"[0] && "participantId"[0] != "archived"[0] && "type"[0] != "archived"[0];
  }

  /** A property of the participant row comes from the added columns when it is one of them, otherwise from the participant. */
  lemma ParticipantRecordLookup(p: Json, docId: Json, archived: Json, multi: bool, k: string)
    requires p.Obj? && UniqueKeys(p.fields)
    ensures Lookup(ParticipantRecord(p, docId, archived, multi), k)
      == if k in ["_id", "caseId", "participantId", "type", "archived"] then Lookup(ParticipantColumns(p, docId, archived, multi), k) else Get(p, k)
  {
    ParticipantColumnsKeys(p, docId, archived, multi);
    FreshSpreadLookup(p.fields, ParticipantColumns(p, docId, archived, multi), k);
  }

  /** The participant row: its id (prefixed with the case id in the multi-participant schema), the case id, its type, and `archived` never undefined. */
  lemma ParticipantRecordFields(p: Json, docId: Json, archived: Json, multi: bool, k: string)
    requires p.Obj? && UniqueKeys(p.fields)
    ensures var rec := ParticipantRecord(p, docId, archived, multi);
      && Lookup(rec, "_id") == (if multi then Add(Add(docId, Str("-")), Get(p, "id")) else Get(p, "id"))
      && Lookup(rec, "caseId") == docId
      && Lookup(rec, "participantId") == Get(p, "id")
      && Lookup(rec, "type") == Str("participant")
      && Lookup(rec, "archived") == OrEmpty(archived)
      && (k !in ["_id", "caseId", "participantId", "type", "archived"] ==> Lookup(rec, k) == Get(p, k))
  {
    var cols := ParticipantColumns(p, docId, archived, multi);
    ParticipantColumnsKeys(p, docId, archived, multi);
    ParticipantRecordLookup(p, docId, archived, multi, k);
    ParticipantRecordLookup(p, docId, archived, multi, "_id");
    ParticipantRecordLookup(p, docId, archived, multi, "caseId");
    ParticipantRecordLookup(p, docId, archived, multi, "participantId");
    ParticipantRecordLookup(p, docId, archived, multi, "type");
    ParticipantRecordLookup(p, docId, archived, multi, "archived");
    LookupAt(cols, 0);
    LookupAt(cols, 1);
    LookupAt(cols, 2);
    LookupAt(cols, 3);
    LookupAt(cols, 4);
  }

  lemma CaseEventColumnsKeys(e: Json, archived: Json)
    ensures Keys(CaseEventColumns(e, archived)) == ["_id", "type", "archived"]
    ensures UniqueKeys(CaseEventColumns(e, archived))
  {
    var cols := CaseEventColumns(e, archived);
    assert Keys(cols) == [cols[0].0, cols[1].0, cols[2].0];
    assert "_id"[0] != "type"[0] && "_id"[0] != "archived"[0] && "type"[0] != "archived"[0];
  }

  /** The copy of the event has the event's properties except `eventForms`. */
  lemma EventCloneLookup(e: Json, k: string)
    requires e.Obj? && UniqueKeys(e.fields)
    ensures UniqueKeys(EventClone(e))
    ensures Lookup(EventClone(e), k) == if k == "eventForms" then Undefined else Get(e, k)
  {
    assert [] + e.fields == e.fields;
    SpreadOntoFresh([], e.fields);
    ObjRemoveUnique(e.fields, "eventForms");
    ObjRemoveLookup(e.fields, "eventForms", k);
  }

  /** A property of the case-event row comes from the added columns when it is one of them, otherwise from the copy of the event. */
  lemma CaseEventRecordLookup(e: Json, archived: Json, k: string)
    requires e.Obj? && UniqueKeys(e.fields)
    ensures Lookup(CaseEventRecord(e, archived), k)
      == if k in ["_id", "type", "archived"] then Lookup(CaseEventColumns(e, archived), k) else Lookup(EventClone(e), k)
  {
    EventCloneLookup(e, k);
    CaseEventColumnsKeys(e, archived);
    FreshSpreadLookup(EventClone(e), CaseEventColumns(e, archived), k);
  }

  /** The case-event row carries no `eventForms`, is typed `case-event` and keeps the event's other properties. */
  lemma CaseEventRecordFields(e: Json, archived: Json, k: string)
    requires e.Obj? && UniqueKeys(e.fields)
    ensures var rec := CaseEventRecord(e, archived);
      && Lookup(rec, "eventForms") == Undefined
      && Lookup(rec, "_id") == Get(e, "id")
      && Lookup(rec, "type") == Str("case-event")
      && Lookup(rec, "archived") == archived
      && (k !in ["_id", "type", "archived", "eventForms"] ==> Lookup(rec, k) == Get(e, k))
  {
    var cols := CaseEventColumns(e, archived);
    CaseEventColumnsKeys(e, archived);
    CaseEventRecordLookup(e, archived, k);
    CaseEventRecordLookup(e, archived, "eventForms");
    CaseEventRecordLookup(e, archived, "_id");
    CaseEventRecordLookup(e, archived, "type");
    CaseEventRecordLookup(e, archived, "archived");
    EventCloneLookup(e, k);
    EventCloneLookup(e, "eventForms");
    EventCloneLookup(e, "id");
    LookupAt(cols, 0);
    LookupAt(cols, 1);
    LookupAt(cols, 2);
  }

  /** Removing a key keeps the others unique. */
  lemma {:induction false} ObjRemoveUnique(fields: Fields, k: string)
    requires UniqueKeys(fields)
    ensures UniqueKeys(ObjRemove(fields, k))
    ensures forall e :: e in ObjRemove(fields, k) ==> e in fields
  {
    if fields != [] {
      UniqueKeysParts([fields[0]], fields[1..]);
      assert [fields[0]] + fields[1..] == fields;
      ObjRemoveUnique(fields[1..], k);
      var rest := ObjRemove(fields[1..], k);
      if fields[0].0 != k {
        forall i, j | 0 <= i < j < |[fields[0]] + rest|
          ensures ([fields[0]] + rest)[i].0 != ([fields[0]] + rest)[j].0
        {
          if i == 0 {
            var e := rest[j - 1];
            assert e in fields[1..];
            var m :| 0 <= m < |fields[1..]| && fields[1..][m] == e;
            assert fields[m + 1] == e;
          }
        }
      }
    }
  }
}
