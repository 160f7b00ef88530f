/**
 Reconciling generated reminders with the action ledger (`linkedin/crm_v2_actions.py`), one Opportunity
 at a time. Keys are structured instead of rendered to text; everything looked up outside the ledger
 (contacts, messages, meetings, notes) is part of the row's surroundings.
 */
module ActionModel {
  import opened Outcomes

  datatype Basis =
    | OfNote(note: int)
    | OfMessage(message: int)
    | OfMeeting(meeting: int)
    | OfAccount(tail: string)
    | OfTarget(lead: int, reason: int, due: Option<int>)

  // `V2` is `v2:<opportunity>:<basis>`; `OtherV2` and `System` are the other generated prefixes.
  datatype Key = V2(opportunity: int, basis: Basis) | OtherV2(text: string) | System(text: string) | Authored(text: string)

  datatype Status = Open | Waiting | Completed | Cancelled

  datatype Action = Action(
    id: nat, key: Key, status: Status, humanRevision: nat, target: Option<int>, kind: string, description: string,
    due: Option<int>, waitingUntil: Option<int>, channel: string, draft: string,
    triggerMessage: Option<int>, triggerMeeting: Option<int>,
    disposition: string, handledAt: Option<int>, sentAt: Option<int>, completedAt: Option<int>)

  datatype Reminder = OverdueNextAction | DueToday | NeedsResponse | MeetingPrep | PostMeetingFollowup | FollowUpDue
                    | ScheduledNextAction | DefineNextStep | NotActionable

  // What the reason code says about its channel is read from its text.
  datatype Reason = Reason(code: int, gmail: bool, linkedin: bool)

  datatype Evidence = Evidence(
    admitted: bool, shouldRemind: bool, reminder: Reminder, reason: Reason, due: Option<int>,
    target: Option<int>, triggerMessage: Option<int>, triggerMeeting: Option<int>, triggerNote: Option<int>,
    manualPin: bool, salesMotion: bool, doNotOutreach: bool, commitment: string)

  datatype Meeting = Meeting(opportunity: Option<int>, leads: set<int>)

  datatype Note = Note(opportunity: Option<int>, meeting: Option<int>)

  datatype World = World(messages: map<int, int>, meetings: map<int, Meeting>, notes: map<int, Note>)

  datatype Opportunity = Opportunity(id: int, activeAccount: bool, closed: bool, owned: bool, contacts: set<int>, actions: seq<Action>)

  datatype Proposal = Proposal(
    key: Key, kind: string, description: string, due: Option<int>, target: Option<int>,
    triggerMessage: Option<int>, triggerMeeting: Option<int>, channel: string)

  // `Untranslatable` raises: no action text exists for the reminder.
  datatype Proposed = NoProposal | Untranslatable | Proposes(proposal: Proposal)

  // The changes a pass reports.
  datatype Change = ActionCreated(id: nat) | ActionUpdated(id: nat) | ActionReused(id: nat) | ActionCancelled(id: nat)
                  | HumanPreserved(id: nat) | TerminalPreserved(id: nat)

  // ------------------------------------------------------------- classification

  predicate IsCurrent(a: Action) { a.status == Open || a.status == Waiting }

  predicate Replaceable(a: Action) { a.humanRevision == 0 && !a.key.Authored? }

  predicate Reusable(a: Action) { a.status == Cancelled && Replaceable(a) }

  predicate AccountKey(key: Key, opportunity: int) {
    key.V2? && key.opportunity == opportunity && key.basis.OfAccount?
  }

  predicate CurrentAccountLevel(current: Option<Action>, opportunity: int) {
    current.Some? && Replaceable(current.value) && current.value.target.None? && AccountKey(current.value.key, opportunity)
  }

  // The first current action, and the first action with a key; |actions| when there is none.
  function CurrentIndex(actions: seq<Action>): (i: nat)
    ensures i <= |actions| && (i < |actions| ==> IsCurrent(actions[i]))
    ensures forall k | 0 <= k < i :: !IsCurrent(actions[k])
  {
    if actions == [] || IsCurrent(actions[0]) then 0 else CurrentIndex(actions[1..]) + 1
  }

  function KeyIndex(actions: seq<Action>, key: Key): (i: nat)
    ensures i <= |actions| && (i < |actions| ==> actions[i].key == key)
    ensures forall k | 0 <= k < i :: actions[k].key != key
  {
    if actions == [] || actions[0].key == key then 0 else KeyIndex(actions[1..], key) + 1
  }

  function ReplaceableCurrent(actions: seq<Action>): Option<Action> {
    var i := CurrentIndex(actions);
    if i < |actions| && Replaceable(actions[i]) then Some(actions[i]) else None
  }

  // --------------------------------------------------------------- the proposal

  predicate Pinned(row: Evidence) { row.manualPin || row.salesMotion }

  predicate AccountLevelAllowed(row: Evidence, opportunity: int, current: Option<Action>) {
    row.target.None? &&
    (row.reminder.DefineNextStep? || row.triggerNote.Some?
     || (Pinned(row) && row.triggerMessage.None? && row.triggerMeeting.None?)
     || CurrentAccountLevel(current, opportunity))
  }

  predicate MessageFits(row: Evidence, o: Opportunity, w: World) {
    row.triggerMessage.None? ||
    (row.triggerMessage.value in w.messages
     && w.messages[row.triggerMessage.value] in o.contacts
     && (row.target.None? || w.messages[row.triggerMessage.value] == row.target.value))
  }

  predicate NoteFits(row: Evidence, o: Opportunity, w: World) {
    row.triggerNote.None? ||
    (row.triggerNote.value in w.notes &&
     var note := w.notes[row.triggerNote.value];
     note.opportunity == Some(o.id)
     || (note.opportunity.None? && note.meeting.Some? && note.meeting.value in w.meetings
         && var meeting := w.meetings[note.meeting.value];
            meeting.opportunity == Some(o.id) || meeting.leads * o.contacts != {}))
  }

  predicate MeetingFits(row: Evidence, o: Opportunity, w: World) {
    row.triggerMeeting.None? ||
    (row.triggerMeeting.value in w.meetings &&
     var leads := w.meetings[row.triggerMeeting.value].leads;
     leads * o.contacts != {} && (row.target.None? || row.target.value in leads))
  }

  function Basis1(row: Evidence, opportunity: int, current: Option<Action>): Basis {
    if row.triggerNote.Some? then OfNote(row.triggerNote.value)
    else if row.triggerMessage.Some? then OfMessage(row.triggerMessage.value)
    else if row.triggerMeeting.Some? then OfMeeting(row.triggerMeeting.value)
    else if AccountLevelAllowed(row, opportunity, current) then
      if current.Some? && AccountKey(current.value.key, opportunity) then current.value.key.basis
      else OfAccount(if Pinned(row) then "authoritative-next-step" else "define-next-step")
    else OfTarget(if row.target.Some? then row.target.value else 0, row.reason.code, row.due)
  }

  function Translated(reminder: Reminder): (string, string) {
    match reminder
    case OverdueNextAction => ("next_step", "Complete the overdue next action")
    case DueToday => ("next_step", "Complete today's next action")
    case NeedsResponse => ("needs_response", "Respond to the latest human inbound")
    case MeetingPrep => ("meeting_prep", "Prepare for the upcoming meeting")
    case PostMeetingFollowup => ("post_meeting_commitment", "Complete the post-meeting follow-up")
    case FollowUpDue => ("followup", "Follow up on the latest conversation")
    case ScheduledNextAction => ("next_step", "Complete the scheduled next action")
    case DefineNextStep => ("next_step", "Define and schedule the next step")
    case NotActionable => ("", "")
  }

  // The reminder reflects the task's own date.
  predicate Dated(reminder: Reminder) {
    reminder.OverdueNextAction? || reminder.DueToday? || reminder.ScheduledNextAction?
  }

  function ChannelFor(row: Evidence, own: Option<Action>): string {
    if row.doNotOutreach then ""
    else if row.reason.gmail then "email"
    else if row.reason.linkedin then "linkedin"
    else if own.Some? && Dated(row.reminder) then own.value.channel
    else ""
  }

  // _proposal_for
  function ProposalFor(row: Evidence, o: Opportunity, w: World, current: Option<Action>): Proposed {
    if row.target.Some? && row.target.value !in o.contacts then NoProposal
    else if row.target.None? && !AccountLevelAllowed(row, o.id, current) then NoProposal
    else if !MessageFits(row, o, w) || !NoteFits(row, o, w) || !MeetingFits(row, o, w) then NoProposal
    else if row.reminder.NotActionable? then Untranslatable
    else if row.triggerNote.Some? && row.commitment == "" then NoProposal
    else
      var key := V2(o.id, Basis1(row, o.id, current));
      var own := if current.Some? && current.value.key == key then current else None;
      var (kind, text) := Translated(row.reminder);
      var reflected := own.Some? && Dated(row.reminder);
      Proposes(Proposal(
        key, if reflected then own.value.kind else kind,
        if reflected then own.value.description else if row.triggerNote.Some? then row.commitment else text,
        row.due, row.target, row.triggerMessage, row.triggerMeeting, ChannelFor(row, own)))
  }

  // -------------------------------------------------------------- the row's writes

  function Updated(a: Action, p: Proposal): Action {
    a.(target := p.target, kind := p.kind, status := Open, description := p.description, due := p.due, waitingUntil := None,
       channel := p.channel, draft := "", triggerMessage := p.triggerMessage, triggerMeeting := p.triggerMeeting)
  }

  function Reused(a: Action, p: Proposal): Action {
    Updated(a, p).(disposition := "", handledAt := None, sentAt := None, completedAt := None)
  }

  function Created(id: nat, p: Proposal): Action {
    Action(id, p.key, Open, 0, p.target, p.kind, p.description, p.due, None, p.channel, "",
           p.triggerMessage, p.triggerMeeting, "", None, None, None)
  }

  // Cancel the current action if it is replaceable, otherwise leave it.
  function Withdrawn(actions: seq<Action>): (seq<Action>, seq<Change>) {
    var i := CurrentIndex(actions);
    if i == |actions| then (actions, [])
    else if Replaceable(actions[i]) then (actions[i := actions[i].(status := Cancelled)], [ActionCancelled(actions[i].id)])
    else (actions, [HumanPreserved(actions[i].id)])
  }

  // Bring the ledger in line with a proposal; `next` is the id a new action gets.
  function Proposing(actions: seq<Action>, p: Proposal, next: nat): (seq<Action>, seq<Change>) {
    var i := CurrentIndex(actions);
    if i < |actions| && actions[i].key == p.key then
      if Updated(actions[i], p) == actions[i] then (actions, [])
      else (actions[i := Updated(actions[i], p)], [ActionUpdated(actions[i].id)])
    else
      var (cleared, cancelled) := Withdrawn(actions);
      var m := KeyIndex(actions, p.key);
      if m == |actions| then (cleared + [Created(next, p)], cancelled + [ActionCreated(next)])
      else if Reusable(cleared[m]) then (cleared[m := Reused(cleared[m], p)], cancelled + [ActionReused(cleared[m].id)])
      else (cleared, cancelled + [TerminalPreserved(cleared[m].id)])
  }

  predicate Eligible(row: Evidence, o: Opportunity, inScope: bool) {
    inScope && row.admitted && o.activeAccount && !o.closed && o.owned
  }

  // _reconcile_row on one Opportunity. None: the transaction raises.
  function ReconcileRow(row: Evidence, o: Opportunity, w: World, inScope: bool, next: nat): Option<(seq<Action>, seq<Change>)> {
    var current := CurrentIndex(o.actions);
    if !Eligible(row, o, inScope) || !row.shouldRemind then Some(Withdrawn(o.actions))
    else if current < |o.actions| && !Replaceable(o.actions[current]) then Some(Withdrawn(o.actions))
    else
      match ProposalFor(row, o, w, ReplaceableCurrent(o.actions))
      case NoProposal => Some(Withdrawn(o.actions))
      case Untranslatable => None
      case Proposes(p) => Some(Proposing(o.actions, p, next))
  }

  // ------------------------------------------------------------------- invariants

  ghost predicate OneCurrent(actions: seq<Action>) {
    forall i, j | 0 <= i < j < |actions| :: !(IsCurrent(actions[i]) && IsCurrent(actions[j]))
  }

  ghost predicate KeysUnique(actions: seq<Action>) {
    forall i, j | 0 <= i < j < |actions| :: actions[i].key != actions[j].key || actions[i].key == Authored("")
  }

  // Human work: completed, revised by a human, or not generated.
  predicate Protected(a: Action) {
    a.status == Completed || a.humanRevision > 0 || a.key.Authored?
  }

  ghost predicate Preserves(before: seq<Action>, after: seq<Action>) {
    && |before| <= |after|
    && (forall i | 0 <= i < |before| :: after[i].id == before[i].id && after[i].key == before[i].key
                                        && after[i].humanRevision == before[i].humanRevision)
    && (forall i | 0 <= i < |before| && Protected(before[i]) :: after[i] == before[i])
  }
}
