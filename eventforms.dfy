/**
 * The editor's "event forms for participant" component: for one participant
 * of one case event it lists the event forms the participant has, the event
 * form definitions the participant may still add, whether the case event has
 * any definition for the participant's role, and the link to the form-add
 * page. `render` loads the case (a parameter here), selects the case event
 * and its definition, and builds the participant's info.
 *
 * A `find` that matches nothing gives `undefined`, and reading a property of
 * it throws: both are `None` here.
 */
module EventForms {
  import opened Wrappers
  import opened Strings

  datatype EventFormDefinition = EventFormDefinition(id: string, forCaseRole: string, repeatable: bool)
  datatype CaseEventDefinition = CaseEventDefinition(id: string, eventFormDefinitions: seq<EventFormDefinition>)
  /** A case role; its list-item template is rendered with `eval`, which is not part of this model. */
  datatype CaseRole = CaseRole(id: string)
  datatype CaseDefinition = CaseDefinition(eventDefinitions: seq<CaseEventDefinition>, caseRoles: seq<CaseRole>)

  datatype EventForm = EventForm(id: string, participantId: string, eventFormDefinitionId: string, archived: bool)
  datatype CaseEvent = CaseEvent(id: string, caseEventDefinitionId: string, eventForms: seq<EventForm>)
  datatype Participant = Participant(id: string, caseRoleId: string)
  datatype Case = Case(id: string, participants: seq<Participant>, events: seq<CaseEvent>)

  /** A form of the participant, with the definition of matching id when there is one. */
  datatype EventFormInfo = EventFormInfo(eventFormDefinition: Option<EventFormDefinition>, eventForm: EventForm)

  /** What the component shows for the participant; the rendered list item is not part of this model. */
  datatype ParticipantInfo = ParticipantInfo(
    id: string,
    newFormLink: string,
    eventFormsParticipantCanCreate: seq<EventFormDefinition>,
    caseEventHasEventFormsForParticipantsRole: bool,
    eventFormInfos: seq<EventFormInfo>)

  // ---------------------------------------------------------------------------------------------
  // Array.prototype.filter and Array.prototype.find

  /** `s.filter(p)`. */
  function Filter<T(!new)>(s: seq<T>, p: T -> bool): (r: seq<T>)
    ensures |r| <= |s|
    ensures forall x :: x in r <==> x in s && p(x)
    decreases |s|
  {
    if s == [] then []
    else Filter(s[..|s| - 1], p) + (if p(s[|s| - 1]) then [s[|s| - 1]] else [])
  }

  /** Filtering keeps the order: the kept elements of a prefix come first. */
  lemma {:induction false} FilterAppend<T(!new)>(a: seq<T>, b: seq<T>, p: T -> bool)
    ensures Filter(a + b, p) == Filter(a, p) + Filter(b, p)
    decreases |b|
  {
    if b == [] {
      assert a + b == a;
    } else {
      var b' := b[..|b| - 1];
      assert (a + b)[..|a + b| - 1] == a + b';
      assert (a + b)[|a + b| - 1] == b[|b| - 1];
      FilterAppend(a, b', p);
    }
  }

  /** `s.find(p)`: the first element satisfying `p`, or `undefined`. */
  function Find<T(==,!new)>(s: seq<T>, p: T -> bool): (r: Option<T>)
    ensures r.Some? ==> r.value in s && p(r.value)
    ensures r.None? <==> forall x :: x in s ==> !p(x)
    ensures r.Some? ==> exists i :: 0 <= i < |s| && s[i] == r.value && forall j :: 0 <= j < i ==> !p(s[j])
    decreases |s|
  {
    if s == [] then None
    else if p(s[0]) then
      assert s[0] == s[0];
      Some(s[0])
    else
      var r := Find(s[1..], p);
      assert forall x :: x in s ==> x == s[0] || x in s[1..];
      if r.Some? then
        var i :| 0 <= i < |s[1..]| && s[1..][i] == r.value && forall j :: 0 <= j < i ==> !p(s[1..][j]);
        assert s[i + 1] == r.value;
        assert forall j :: 0 <= j < i + 1 ==> !p(s[j]) by {
          forall j | 0 <= j < i + 1
            ensures !p(s[j])
          {
            if j > 0 {
              assert s[j] == s[1..][j - 1];
            }
          }
        }
        r
      else r
  }

  // ---------------------------------------------------------------------------------------------
  // Role matching

  /** `forCaseRole.split(',').map(e => e.trim())`. */
  function RoleList(forCaseRole: string): (r: seq<string>)
    ensures |r| == |Split(forCaseRole, ',')|
    ensures forall k :: 0 <= k < |r| ==> r[k] == Trim(Split(forCaseRole, ',')[k])
  {
    var parts := Split(forCaseRole, ',');
    seq(|parts|, k requires 0 <= k < |parts| => Trim(parts[k]))
  }

  /** The definition is for the role: its comma-separated role list includes it. */
  function ForRole(role: string): EventFormDefinition -> bool {
    (d: EventFormDefinition) => role in RoleList(d.forCaseRole)
  }

  /** A role list written as trimmed names joined by commas is read back as those names. */
  lemma RoleListJoined(roles: seq<string>)
    requires roles != []
    requires forall k :: 0 <= k < |roles| ==> ',' !in roles[k] && Trimmed(roles[k])
    ensures RoleList(Join(roles, ",")) == roles
  {
    var joined := Join(roles, ",");
    JoinSplit(roles, ',');
    var parts := Split(joined, ',');
    assert parts == roles;
    var r := RoleList(joined);
    forall k | 0 <= k < |roles|
      ensures r[k] == roles[k]
    {
      assert r[k] == Trim(parts[k]);
      TrimTrimmed(roles[k]);
    }
  }

  /** So a definition whose role list is such a join is for exactly the roles joined. */
  lemma ForJoinedRoles(d: EventFormDefinition, roles: seq<string>, role: string)
    requires roles != []
    requires forall k :: 0 <= k < |roles| ==> ',' !in roles[k] && Trimmed(roles[k])
    requires d.forCaseRole == Join(roles, ",")
    ensures ForRole(role)(d) <==> role in roles
  {
    RoleListJoined(roles);
  }

  /** `eventFormDefinitions.some(...)` with the role test. */
  function AnyForRole(defs: seq<EventFormDefinition>, role: string): (r: bool)
    decreases |defs|
  {
    if defs == [] then false else ForRole(role)(defs[0]) || AnyForRole(defs[1..], role)
  }

  /** `caseEventHasEventFormsForParticipantsRole` holds iff some definition is for the role, that is iff the role filter keeps one. */
  lemma {:induction false} AnyForRoleIff(defs: seq<EventFormDefinition>, role: string)
    ensures AnyForRole(defs, role) <==> exists d :: d in defs && ForRole(role)(d)
    ensures AnyForRole(defs, role) <==> Filter(defs, ForRole(role)) != []
    decreases |defs|
  {
    if defs != [] {
      AnyForRoleIff(defs[1..], role);
      assert forall x :: x in defs ==> x == defs[0] || x in defs[1..];
      assert defs[0] in defs;
    }
    if exists d :: d in defs && ForRole(role)(d) {
      var d :| d in defs && ForRole(role)(d);
      assert d in Filter(defs, ForRole(role));
    }
    if Filter(defs, ForRole(role)) != [] {
      var x := Filter(defs, ForRole(role))[0];
      assert x in Filter(defs, ForRole(role));
    }
  }

  // ---------------------------------------------------------------------------------------------
  // The forms a participant can create

  function OfParticipant(participantId: string): EventForm -> bool {
    (f: EventForm) => f.participantId == participantId
  }

  /** The `reduce((has, form) => has || form.eventFormDefinitionId === id, false)` over some forms. */
  function AnyOfDefinition(forms: seq<EventForm>, definitionId: string): (r: bool)
    ensures r <==> exists f :: f in forms && f.eventFormDefinitionId == definitionId
    decreases |forms|
  {
    if forms == [] then false
    else
      var prefix := forms[..|forms| - 1];
      assert forall f :: f in forms ==> f in prefix || f == forms[|forms| - 1];
      assert forms[|forms| - 1] in forms;
      AnyOfDefinition(prefix, definitionId) || forms[|forms| - 1].eventFormDefinitionId == definitionId
  }

  /** The participant already has a form of the definition in this event. */
  function HasForm(forms: seq<EventForm>, participantId: string, definitionId: string): bool {
    AnyOfDefinition(Filter(forms, OfParticipant(participantId)), definitionId)
  }

  /** Only this participant's forms count. */
  lemma HasFormIff(forms: seq<EventForm>, participantId: string, definitionId: string)
    ensures HasForm(forms, participantId, definitionId)
      <==> exists f :: f in forms && f.participantId == participantId && f.eventFormDefinitionId == definitionId
  {
    if HasForm(forms, participantId, definitionId) {
      var f :| f in Filter(forms, OfParticipant(participantId)) && f.eventFormDefinitionId == definitionId;
      assert f in forms && f.participantId == participantId;
    }
    if exists f :: f in forms && f.participantId == participantId && f.eventFormDefinitionId == definitionId {
      var f :| f in forms && f.participantId == participantId && f.eventFormDefinitionId == definitionId;
      assert OfParticipant(participantId)(f);
      assert f in Filter(forms, OfParticipant(participantId));
    }
  }

  /** Whether a definition is still offered: repeatable, or no form of it yet. */
  function Available(forms: seq<EventForm>, participantId: string): EventFormDefinition -> bool {
    (d: EventFormDefinition) => d.repeatable || !HasForm(forms, participantId, d.id)
  }

  /** The `reduce` that appends each available definition to the accumulator. */
  function Offer(defs: seq<EventFormDefinition>, forms: seq<EventForm>, participantId: string): seq<EventFormDefinition>
    decreases |defs|
  {
    if defs == [] then []
    else
      var d := defs[|defs| - 1];
      var acc := Offer(defs[..|defs| - 1], forms, participantId);
      if d.repeatable || !HasForm(forms, participantId, d.id) then acc + [d] else acc
  }

  /** The reduce is the filter on availability. */
  lemma {:induction false} OfferIsFilter(defs: seq<EventFormDefinition>, forms: seq<EventForm>, participantId: string)
    ensures Offer(defs, forms, participantId) == Filter(defs, Available(forms, participantId))
    decreases |defs|
  {
    if defs != [] {
      OfferIsFilter(defs[..|defs| - 1], forms, participantId);
    }
  }

  /** `eventFormsParticipantCanCreate` for a participant the case has, in a loaded case event. */
  function CanCreate(defs: seq<EventFormDefinition>, forms: seq<EventForm>, p: Participant): seq<EventFormDefinition> {
    Offer(Filter(defs, ForRole(p.caseRoleId)), forms, p.id)
  }

  /**
   * A definition is offered iff it is for the participant's role and it is
   * repeatable or this participant has no form of it in the event.
   */
  lemma CanCreateIff(defs: seq<EventFormDefinition>, forms: seq<EventForm>, p: Participant, d: EventFormDefinition)
    ensures d in CanCreate(defs, forms, p)
      <==> (d in defs && ForRole(p.caseRoleId)(d)
        && (d.repeatable || !exists f :: f in forms && f.participantId == p.id && f.eventFormDefinitionId == d.id))
  {
    OfferIsFilter(Filter(defs, ForRole(p.caseRoleId)), forms, p.id);
    HasFormIff(forms, p.id, d.id);
  }

  /** The offered definitions keep the order of `eventFormDefinitions`. */
  lemma CanCreateOrder(a: seq<EventFormDefinition>, b: seq<EventFormDefinition>, forms: seq<EventForm>, p: Participant)
    ensures CanCreate(a + b, forms, p) == CanCreate(a, forms, p) + CanCreate(b, forms, p)
  {
    FilterAppend(a, b, ForRole(p.caseRoleId));
    OfferIsFilter(Filter(a + b, ForRole(p.caseRoleId)), forms, p.id);
    OfferIsFilter(Filter(a, ForRole(p.caseRoleId)), forms, p.id);
    OfferIsFilter(Filter(b, ForRole(p.caseRoleId)), forms, p.id);
    FilterAppend(Filter(a, ForRole(p.caseRoleId)), Filter(b, ForRole(p.caseRoleId)), Available(forms, p.id));
  }

  /** Another participant's form changes nothing. */
  lemma OtherParticipantsForms(defs: seq<EventFormDefinition>, forms: seq<EventForm>, f: EventForm, p: Participant)
    requires f.participantId != p.id
    ensures CanCreate(defs, forms + [f], p) == CanCreate(defs, forms, p)
  {
    FilterAppend(forms, [f], OfParticipant(p.id));
    assert Filter([f], OfParticipant(p.id)) == [] by {
      assert [f][..0] == [];
    }
    assert Filter(forms + [f], OfParticipant(p.id)) == Filter(forms, OfParticipant(p.id));
    OfferSameForms(Filter(defs, ForRole(p.caseRoleId)), forms + [f], forms, p.id);
  }

  /** The offer depends on the event's forms only through the participant's own. */
  lemma {:induction false} OfferSameForms(defs: seq<EventFormDefinition>, forms: seq<EventForm>, forms': seq<EventForm>, participantId: string)
    requires Filter(forms, OfParticipant(participantId)) == Filter(forms', OfParticipant(participantId))
    ensures Offer(defs, forms, participantId) == Offer(defs, forms', participantId)
    decreases |defs|
  {
    if defs != [] {
      OfferSameForms(defs[..|defs| - 1], forms, forms', participantId);
    }
  }

  /** Nothing can be created when the case event has no definition for the role. */
  lemma CanCreateNeedsRole(defs: seq<EventFormDefinition>, forms: seq<EventForm>, p: Participant)
    requires !AnyForRole(defs, p.caseRoleId)
    ensures CanCreate(defs, forms, p) == []
  {
    AnyForRoleIff(defs, p.caseRoleId);
    assert Offer([], forms, p.id) == [];
  }

  // ---------------------------------------------------------------------------------------------
  // The participant's forms

  function DefinitionIs(id: string): EventFormDefinition -> bool {
    (d: EventFormDefinition) => d.id == id
  }

  /** The form is listed: it is this participant's and not archived, or archived forms are shown. */
  function Visible(participantId: string, showArchived: bool): EventForm -> bool {
    (f: EventForm) => f.participantId == participantId && (showArchived || !f.archived)
  }

  /** The `reduce` building `eventFormInfos`. */
  function FormInfos(forms: seq<EventForm>, defs: seq<EventFormDefinition>, participantId: string, showArchived: bool): seq<EventFormInfo>
    decreases |forms|
  {
    if forms == [] then []
    else
      var f := forms[|forms| - 1];
      var acc := FormInfos(forms[..|forms| - 1], defs, participantId, showArchived);
      if f.participantId == participantId && (showArchived || !f.archived)
      then acc + [EventFormInfo(Find(defs, DefinitionIs(f.eventFormDefinitionId)), f)]
      else acc
  }

  /**
   * `eventFormInfos` lists exactly the visible forms, in `eventForms` order,
   * each with the first definition whose id is its definition id.
   */
  lemma {:induction false} FormInfosSpec(forms: seq<EventForm>, defs: seq<EventFormDefinition>, participantId: string, showArchived: bool)
    ensures var infos := FormInfos(forms, defs, participantId, showArchived);
      var visible := Filter(forms, Visible(participantId, showArchived));
      && |infos| == |visible|
      && forall i :: 0 <= i < |infos| ==>
          infos[i].eventForm == visible[i]
          && infos[i].eventFormDefinition == Find(defs, DefinitionIs(visible[i].eventFormDefinitionId))
    decreases |forms|
  {
    if forms != [] {
      FormInfosSpec(forms[..|forms| - 1], defs, participantId, showArchived);
    }
  }

  /** `/case/event/form-add/${caseId}/${eventId}/${participantId}`. */
  function NewFormLink(caseId: string, eventId: string, participantId: string): string {
    "/case/event/form-add/" + caseId + "/" + eventId + "/" + participantId
  }

  /** Three ids joined by slashes split back into the ids. */
  lemma IdsSegments(caseId: string, eventId: string, participantId: string)
    requires '/' !in caseId && '/' !in eventId && '/' !in participantId
    ensures Split(caseId + "/" + eventId + "/" + participantId, '/') == [caseId, eventId, participantId]
  {
    var l5 := eventId + "/" + participantId;
    assert caseId + "/" + eventId + "/" + participantId == caseId + "/" + l5;
    SplitWithoutSeparator(participantId, '/');
    SplitAtSeparator(eventId, '/', participantId);
    SplitAtSeparator(caseId, '/', l5);
  }

  lemma FormAddSegments(tail: string)
    ensures Split("form-add/" + tail, '/') == ["form-add"] + Split(tail, '/')
  {
    assert "form-add/" + tail == "form-add" + "/" + tail;
    SplitAtSeparator("form-add", '/', tail);
  }

  lemma EventFormAddSegments(tail: string)
    ensures Split("event/form-add/" + tail, '/') == ["event", "form-add"] + Split(tail, '/')
  {
    assert "event/form-add/" + tail == "event" + "/" + ("form-add/" + tail);
    SplitAtSeparator("event", '/', "form-add/" + tail);
    FormAddSegments(tail);
  }

  lemma CaseEventFormAddSegments(tail: string)
    ensures Split("case/event/form-add/" + tail, '/') == ["case", "event", "form-add"] + Split(tail, '/')
  {
    assert "case/event/form-add/" + tail == "case" + "/" + ("event/form-add/" + tail);
    SplitAtSeparator("case", '/', "event/form-add/" + tail);
    EventFormAddSegments(tail);
  }

  /** The route prefix splits into its four segments. */
  lemma RouteSegments(tail: string)
    ensures Split("/case/event/form-add/" + tail, '/') == ["", "case", "event", "form-add"] + Split(tail, '/')
  {
    assert "/case/event/form-add/" + tail == "" + "/" + ("case/event/form-add/" + tail);
    SplitAtSeparator("", '/', "case/event/form-add/" + tail);
    CaseEventFormAddSegments(tail);
  }

  /** The link's path segments are the route's and the three ids, when no id contains a slash. */
  lemma NewFormLinkSegments(caseId: string, eventId: string, participantId: string)
    requires '/' !in caseId && '/' !in eventId && '/' !in participantId
    ensures Split(NewFormLink(caseId, eventId, participantId), '/') == ["", "case", "event", "form-add", caseId, eventId, participantId]
  {
    var tail := caseId + "/" + eventId + "/" + participantId;
    assert NewFormLink(caseId, eventId, participantId) == "/case/event/form-add/" + tail;
    IdsSegments(caseId, eventId, participantId);
    RouteSegments(tail);
  }

  // ---------------------------------------------------------------------------------------------
  // The component

  function ParticipantIs(id: string): Participant -> bool {
    (p: Participant) => p.id == id
  }

  function RoleIs(id: string): CaseRole -> bool {
    (r: CaseRole) => r.id == id
  }

  function EventIs(id: string): CaseEvent -> bool {
    (e: CaseEvent) => e.id == id
  }

  function EventDefinitionIs(id: string): CaseEventDefinition -> bool {
    (d: CaseEventDefinition) => d.id == id
  }

  /**
   * `eventFormsParticipantCanCreate(participantId)` on the component's case
   * event: it throws when there is no case-event definition, when the
   * participant is missing and there is a definition to test against its
   * role, and when the case event is missing and some definition is for the
   * role.
   */
  function CanCreateFor(c: Case, event: Option<CaseEvent>, eventDef: Option<CaseEventDefinition>, participantId: string)
    : (r: Option<seq<EventFormDefinition>>)
    ensures var participant := Find(c.participants, ParticipantIs(participantId));
      r.None? <==>
        || eventDef.None?
        || (participant.None? && eventDef.value.eventFormDefinitions != [])
        || (participant.Some? && event.None? && Filter(eventDef.value.eventFormDefinitions, ForRole(participant.value.caseRoleId)) != [])
    ensures var participant := Find(c.participants, ParticipantIs(participantId));
      r.Some? && participant.Some? && event.Some? ==>
        r.value == CanCreate(eventDef.value.eventFormDefinitions, event.value.eventForms, participant.value)
    ensures r.Some? && Find(c.participants, ParticipantIs(participantId)).None? ==> r.value == []
  {
    var participant := Find(c.participants, ParticipantIs(participantId));
    if eventDef.None? then None
    else
      var defs := eventDef.value.eventFormDefinitions;
      if participant.None? then (if defs == [] then Some([]) else None)
      else
        var matched := Filter(defs, ForRole(participant.value.caseRoleId));
        if matched == [] then Some([])
        else if event.None? then None
        else Some(Offer(matched, event.value.eventForms, participantId))
  }

  /**
   * `getParticipantInfo`: None when it throws, that is when the participant
   * or its role is missing from the case, or when there is no case event or
   * no case-event definition.
   */
  function ParticipantInfoOf(c: Case, definition: CaseDefinition, event: Option<CaseEvent>, eventDef: Option<CaseEventDefinition>,
                             participantId: string, showArchived: bool): (r: Option<ParticipantInfo>)
    ensures r.Some? <==> ((exists p :: p in c.participants && p.id == participantId)
      && Find(definition.caseRoles, RoleIs(Find(c.participants, ParticipantIs(participantId)).value.caseRoleId)).Some?
      && event.Some? && eventDef.Some?)
  {
    var participant := Find(c.participants, ParticipantIs(participantId));
    if participant.None? then None
    else
      var p := participant.value;
      var role := Find(definition.caseRoles, RoleIs(p.caseRoleId));
      if role.None? || event.None? || eventDef.None? then None
      else
        var defs := eventDef.value.eventFormDefinitions;
        var forms := event.value.eventForms;
        Some(ParticipantInfo(
          p.id,
          NewFormLink(c.id, event.value.id, p.id),
          CanCreate(defs, forms, p),
          AnyForRole(defs, p.caseRoleId),
          FormInfos(forms, defs, p.id, showArchived)))
  }

  /** The info built is the one `eventFormsParticipantCanCreate` would give for the same participant. */
  lemma ParticipantInfoCanCreate(c: Case, definition: CaseDefinition, event: Option<CaseEvent>, eventDef: Option<CaseEventDefinition>,
                                 participantId: string, showArchived: bool)
    requires ParticipantInfoOf(c, definition, event, eventDef, participantId, showArchived).Some?
    ensures var info := ParticipantInfoOf(c, definition, event, eventDef, participantId, showArchived).value;
      && info.id == participantId
      && CanCreateFor(c, event, eventDef, participantId) == Some(info.eventFormsParticipantCanCreate)
      && info.newFormLink == NewFormLink(c.id, event.value.id, participantId)
  {
    var p := Find(c.participants, ParticipantIs(participantId)).value;
    var matched := Filter(eventDef.value.eventFormDefinitions, ForRole(p.caseRoleId));
    if matched == [] {
      assert Offer(matched, event.value.eventForms, participantId) == [];
    }
  }

  /** The component with its inputs and the state `render` assigns. */
  class EventFormsForParticipant {
    var participantId: string
    var caseId: string
    var eventId: string
    var showArchived: bool
    var caseEvent: Option<CaseEvent>
    var caseEventDefinition: Option<CaseEventDefinition>
    var participantInfo: Option<ParticipantInfo>
    var loaded: bool

    constructor (participantId: string, caseId: string, eventId: string, showArchived: bool)
      ensures this.participantId == participantId && this.caseId == caseId
      ensures this.eventId == eventId && this.showArchived == showArchived
      ensures caseEvent.None? && caseEventDefinition.None? && participantInfo.None? && !loaded
    {
      this.participantId := participantId;
      this.caseId := caseId;
      this.eventId := eventId;
      this.showArchived := showArchived;
      caseEvent := None;
      caseEventDefinition := None;
      participantInfo := None;
      loaded := false;
    }

    /** `eventFormsParticipantCanCreate(participantId)` on the loaded case. */
    function EventFormsParticipantCanCreate(c: Case, participantId: string): (r: Option<seq<EventFormDefinition>>)
      reads this
      ensures caseEventDefinition.None? ==> r.None?
      ensures var participant := Find(c.participants, ParticipantIs(participantId));
        caseEvent.Some? && caseEventDefinition.Some? && participant.Some? ==>
          r == Some(CanCreate(caseEventDefinition.value.eventFormDefinitions, caseEvent.value.eventForms, participant.value))
    {
      CanCreateFor(c, caseEvent, caseEventDefinition, participantId)
    }

    /** `getParticipantInfo`: assigns the info unless building it throws. */
    method GetParticipantInfo(c: Case, definition: CaseDefinition) returns (ok: bool)
      modifies this
      ensures var info := ParticipantInfoOf(c, definition, caseEvent, caseEventDefinition, participantId, showArchived);
        && ok == info.Some?
        && participantInfo == (if ok then info else old(participantInfo))
      ensures participantId == old(participantId) && caseId == old(caseId) && eventId == old(eventId)
      ensures showArchived == old(showArchived) && loaded == old(loaded)
      ensures caseEvent == old(caseEvent) && caseEventDefinition == old(caseEventDefinition)
    {
      var info := ParticipantInfoOf(c, definition, caseEvent, caseEventDefinition, participantId, showArchived);
      if info.None? {
        return false;
      }
      participantInfo := info;
      ok := true;
    }

    /**
     * `render`, once the case service has loaded `c` and its definition:
     * selects the case event, then its definition, then builds the
     * participant's info and marks the component loaded. A missing case
     * event throws when its definition id is read, after it was assigned;
     * with no event definitions that read never happens, the definition
     * becomes undefined, and `getParticipantInfo` throws instead.
     */
    method Render(c: Case, definition: CaseDefinition) returns (ok: bool)
      modifies this
      ensures participantId == old(participantId) && caseId == old(caseId) && eventId == old(eventId)
      ensures showArchived == old(showArchived)
      ensures caseEvent == Find(c.events, EventIs(eventId))
      ensures caseEvent.None? ==> (!ok
        && caseEventDefinition == (if definition.eventDefinitions == [] then None else old(caseEventDefinition))
        && participantInfo == old(participantInfo) && loaded == old(loaded))
      ensures caseEvent.Some? ==>
        && caseEventDefinition == Find(definition.eventDefinitions, EventDefinitionIs(caseEvent.value.caseEventDefinitionId))
        && var info := ParticipantInfoOf(c, definition, caseEvent, caseEventDefinition, participantId, showArchived);
        && ok == info.Some?
        && participantInfo == (if ok then info else old(participantInfo))
        && loaded == (ok || old(loaded))
    {
      caseEvent := Find(c.events, EventIs(eventId));
      if caseEvent.None? {
        if definition.eventDefinitions == [] {
          caseEventDefinition := None;
        }
        return false;
      }
      caseEventDefinition := Find(definition.eventDefinitions, EventDefinitionIs(caseEvent.value.caseEventDefinitionId));
      ok := GetParticipantInfo(c, definition);
      if ok {
        loaded := true;
      }
    }
  }
}
