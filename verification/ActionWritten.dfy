/** What a row of evidence writes into its Opportunity's ledger, told by the rows before and after. */
module ActionWritten {
  import opened Outcomes
  import opened ActionModel
  import opened ActionTheorems

  // ----------------------------------------------------- what a written action says

  // A do-not-outreach lead has no channel. Otherwise the reason's channel, and an action that only reflects its own
  // date keeps the channel it had.
  predicate ChannelIs(channel: string, row: Evidence, own: Option<Action>) {
    && (row.doNotOutreach ==> channel == "")
    && (!row.doNotOutreach && row.reason.gmail ==> channel == "email")
    && (!row.doNotOutreach && !row.reason.gmail && row.reason.linkedin ==> channel == "linkedin")
    && (!row.doNotOutreach && !row.reason.gmail && !row.reason.linkedin ==>
          channel == if own.Some? && row.reminder in {OverdueNextAction, DueToday, ScheduledNextAction} then own.value.channel else "")
  }

  // The evidence names the work: a note, else a message, else a meeting, else the lead and reason, else the account.
  predicate Keyed(key: Key, row: Evidence, o: Opportunity, current: Option<Action>) {
    && key.V2? && key.opportunity == o.id
    && (row.triggerNote.Some? ==> key.basis == OfNote(row.triggerNote.value))
    && (row.triggerNote.None? && row.triggerMessage.Some? ==> key.basis == OfMessage(row.triggerMessage.value))
    && (row.triggerNote.None? && row.triggerMessage.None? && row.triggerMeeting.Some? ==> key.basis == OfMeeting(row.triggerMeeting.value))
    && (row.triggerNote.None? && row.triggerMessage.None? && row.triggerMeeting.None? ==>
          if row.target.Some? then key.basis == OfTarget(row.target.value, row.reason.code, row.due)
          else if current.Some? && current.value.key.V2? && current.value.key.opportunity == o.id && current.value.key.basis.OfAccount?
          then key == current.value.key
          else key.basis == OfAccount(if row.manualPin || row.salesMotion then "authoritative-next-step" else "define-next-step"))
  }

  predicate Reads(kind: string, text: string, reminder: Reminder) {
    match reminder
    case OverdueNextAction => kind == "next_step" && text == "Complete the overdue next action"
    case DueToday => kind == "next_step" && text == "Complete today's next action"
    case NeedsResponse => kind == "needs_response" && text == "Respond to the latest human inbound"
    case MeetingPrep => kind == "meeting_prep" && text == "Prepare for the upcoming meeting"
    case PostMeetingFollowup => kind == "post_meeting_commitment" && text == "Complete the post-meeting follow-up"
    case FollowUpDue => kind == "followup" && text == "Follow up on the latest conversation"
    case ScheduledNextAction => kind == "next_step" && text == "Complete the scheduled next action"
    case DefineNextStep => kind == "next_step" && text == "Define and schedule the next step"
    case NotActionable => false
  }

  // A reminder of the action's own date leaves what the action is; any other one says it, a note in its own words.
  ghost predicate TextTold(kind: string, description: string, row: Evidence, own: Option<Action>) {
    if own.Some? && row.reminder in {OverdueNextAction, DueToday, ScheduledNextAction} then
      kind == own.value.kind && description == own.value.description
    else exists text :: Reads(kind, text, row.reminder) && description == if row.triggerNote.Some? then row.commitment else text
  }

  function Own(current: Option<Action>, key: Key): Option<Action> {
    if current.Some? && current.value.key == key then current else None
  }

  // `a` carries the row's reminder; `current` is the generated action it found current.
  ghost predicate Says(a: Action, row: Evidence, o: Opportunity, current: Option<Action>) {
    && a.status == Open && a.waitingUntil.None? && a.draft == ""
    && a.target == row.target && a.due == row.due && a.triggerMessage == row.triggerMessage && a.triggerMeeting == row.triggerMeeting
    && Keyed(a.key, row, o, current)
    && ChannelIs(a.channel, row, Own(current, a.key)) && TextTold(a.kind, a.description, row, Own(current, a.key))
  }

  // --------------------------------------------------------- when one is written

  predicate AccountLevel(current: Option<Action>, opportunity: int) {
    current.Some? && current.value.target.None? && current.value.key.V2? && current.value.key.opportunity == opportunity
    && current.value.key.basis.OfAccount?
  }

  predicate Linked(meeting: int, o: Opportunity, w: World) {
    meeting in w.meetings && exists lead | lead in w.meetings[meeting].leads :: lead in o.contacts
  }

  // About one of its contacts, or about the account as a whole.
  predicate ToWhom(row: Evidence, o: Opportunity, current: Option<Action>) {
    if row.target.Some? then row.target.value in o.contacts
    else
      || row.reminder == DefineNextStep || row.triggerNote.Some? || AccountLevel(current, o.id)
      || ((row.manualPin || row.salesMotion) && row.triggerMessage.None? && row.triggerMeeting.None?)
  }

  predicate OwnMessage(row: Evidence, o: Opportunity, w: World) {
    row.triggerMessage.Some? ==>
      row.triggerMessage.value in w.messages
      && var lead := w.messages[row.triggerMessage.value];
         lead in o.contacts && (row.target.None? || row.target.value == lead)
  }

  predicate OwnMeeting(row: Evidence, o: Opportunity, w: World) {
    row.triggerMeeting.Some? ==>
      Linked(row.triggerMeeting.value, o, w) && (row.target.None? || row.target.value in w.meetings[row.triggerMeeting.value].leads)
  }

  predicate OwnNote(row: Evidence, o: Opportunity, w: World) {
    row.triggerNote.Some? ==>
      row.triggerNote.value in w.notes
      && var note := w.notes[row.triggerNote.value];
         if note.opportunity.Some? then note.opportunity.value == o.id
         else
           note.meeting.Some? && note.meeting.value in w.meetings
           && (w.meetings[note.meeting.value].opportunity == Some(o.id) || Linked(note.meeting.value, o, w))
  }

  // The reminder and everything it points at belong to this Opportunity.
  predicate Addressed(row: Evidence, o: Opportunity, w: World, current: Option<Action>) {
    ToWhom(row, o, current) && OwnMessage(row, o, w) && OwnMeeting(row, o, w) && OwnNote(row, o, w)
  }

  lemma Meets<T>(xs: set<T>, ys: set<T>)
    ensures xs * ys != {} <==> exists x :: x in xs && x in ys
  {
    if x :| x in xs && x in ys { assert x in xs * ys; }
    if xs * ys != {} { var x :| x in xs * ys; }
  }

  lemma LinkedMeets(meeting: int, o: Opportunity, w: World)
    ensures Linked(meeting, o, w) <==> meeting in w.meetings && w.meetings[meeting].leads * o.contacts != {}
  {
    if meeting in w.meetings {
      var leads := w.meetings[meeting].leads;
      Meets(leads, o.contacts);
      if Linked(meeting, o, w) {
        var x :| x in leads && x in o.contacts;
      } else {
        assert forall x | x in leads :: x !in o.contacts;
      }
    }
  }

  // A proposal exists exactly for an addressed reminder; it is lost only for want of a note's words, and it raises for
  // a reminder that has none.
  lemma ProposesExactly(row: Evidence, o: Opportunity, w: World, current: Option<Action>)
    requires current.Some? ==> Replaceable(current.value)
    ensures var p := ProposalFor(row, o, w, current);
            && (p.Untranslatable? <==> Addressed(row, o, w, current) && row.reminder == NotActionable)
            && (p.Proposes? <==> Addressed(row, o, w, current) && row.reminder != NotActionable && (row.triggerNote.Some? ==> row.commitment != ""))
  {
    MeetingFitsExactly(row, o, w);
    NoteFitsExactly(row, o, w);
    hide Translated, ChannelFor, Basis1, MeetingFits, NoteFits, OwnMeeting, OwnNote;
  }

  lemma MeetingFitsExactly(row: Evidence, o: Opportunity, w: World)
    ensures MeetingFits(row, o, w) <==> OwnMeeting(row, o, w)
  {
    if row.triggerMeeting.Some? { LinkedMeets(row.triggerMeeting.value, o, w); }
  }

  lemma NoteFitsExactly(row: Evidence, o: Opportunity, w: World)
    ensures NoteFits(row, o, w) <==> OwnNote(row, o, w)
  {
    if row.triggerNote.Some? && row.triggerNote.value in w.notes {
      var meeting := w.notes[row.triggerNote.value].meeting;
      if meeting.Some? { LinkedMeets(meeting.value, o, w); }
    }
  }

  lemma ProposalCopies(row: Evidence, o: Opportunity, w: World, current: Option<Action>, p: Proposal)
    requires ProposalFor(row, o, w, current) == Proposes(p)
    ensures p.due == row.due && p.target == row.target && p.triggerMessage == row.triggerMessage && p.triggerMeeting == row.triggerMeeting
    ensures p.key == V2(o.id, Basis1(row, o.id, current)) && p.channel == ChannelFor(row, Own(current, p.key))
    ensures row.target.None? ==> AccountLevelAllowed(row, o.id, current)
    ensures TextTold(p.kind, p.description, row, Own(current, p.key))
  {
    hide MessageFits, NoteFits, MeetingFits, ChannelFor, Basis1;
    assert row.reminder != NotActionable ==> Reads(Translated(row.reminder).0, Translated(row.reminder).1, row.reminder);
  }

  lemma BasisKeyed(row: Evidence, o: Opportunity, current: Option<Action>)
    requires (current.Some? ==> Replaceable(current.value)) && (row.target.None? ==> AccountLevelAllowed(row, o.id, current))
    ensures Keyed(V2(o.id, Basis1(row, o.id, current)), row, o, current)
  {
  }

  lemma ChannelTold(row: Evidence, own: Option<Action>)
    ensures ChannelIs(ChannelFor(row, own), row, own)
  {
  }

  lemma ProposalSays(row: Evidence, o: Opportunity, w: World, current: Option<Action>, p: Proposal, a: Action)
    requires (current.Some? ==> Replaceable(current.value)) && ProposalFor(row, o, w, current) == Proposes(p)
    requires a.key == p.key && Updated(a, p) == a
    ensures Says(a, row, o, current) && p.key.V2?
  {
    ProposalCopies(row, o, w, current, p);
    BasisKeyed(row, o, current);
    ChannelTold(row, Own(current, p.key));
    hide ProposalFor, Basis1, ChannelFor, ChannelIs, TextTold, Keyed;
    assert a.status == Open && a.kind == p.kind && a.description == p.description && a.channel == p.channel;
  }

  // ------------------------------------------------------------ the rows, before and after

  predicate WasWithdrawn(before: Action, after: Action) {
    IsCurrent(before) && !Protected(before) && after == before.(status := Cancelled)
  }

  // Outcome fields of earlier work are kept while it goes on, and cleared when it begins anew.
  predicate Carries(before: Action, after: Action) {
    && !Protected(before)
    && after.id == before.id && after.key == before.key && after.humanRevision == before.humanRevision
    && if IsCurrent(before) then
         after.disposition == before.disposition && after.handledAt == before.handledAt && after.sentAt == before.sentAt
         && after.completedAt == before.completedAt
       else after.disposition == "" && after.handledAt.None? && after.sentAt.None? && after.completedAt.None?
  }

  predicate Began(a: Action, next: nat) {
    a.id == next && a.humanRevision == 0 && a.disposition == "" && a.handledAt.None? && a.sentAt.None? && a.completedAt.None?
  }

  // Every action is left alone, withdrawn, or says what the row says; at most one is new.
  ghost predicate RowsTell(row: Evidence, o: Opportunity, after: seq<Action>, next: nat) {
    var before, current := o.actions, ReplaceableCurrent(o.actions);
    && |before| <= |after| <= |before| + 1
    && (forall k | 0 <= k < |before| ::
          after[k] == before[k] || WasWithdrawn(before[k], after[k]) || (Carries(before[k], after[k]) && Says(after[k], row, o, current)))
    && (|after| > |before| ==> Began(after[|before|], next) && Says(after[|before|], row, o, current))
  }

  lemma WithdrawnTell(row: Evidence, o: Opportunity, next: nat)
    ensures RowsTell(row, o, Withdrawn(o.actions).0, next)
  {
    hide Says;
  }

  lemma UpdateTells(row: Evidence, o: Opportunity, w: World, p: Proposal, next: nat)
    requires var i := CurrentIndex(o.actions); i < |o.actions| && Replaceable(o.actions[i]) && o.actions[i].key == p.key
    requires ProposalFor(row, o, w, ReplaceableCurrent(o.actions)) == Proposes(p)
    ensures RowsTell(row, o, Proposing(o.actions, p, next).0, next)
  {
    var i := CurrentIndex(o.actions);
    ProposalSays(row, o, w, ReplaceableCurrent(o.actions), p, Updated(o.actions[i], p));
    hide Says, ProposalFor, KeyIndex, CurrentIndex, Withdrawn;
  }

  lemma TellsAppended(row: Evidence, o: Opportunity, cleared: seq<Action>, next: nat, a: Action)
    requires RowsTell(row, o, cleared, next) && |cleared| == |o.actions|
    requires Began(a, next) && Says(a, row, o, ReplaceableCurrent(o.actions))
    ensures RowsTell(row, o, cleared + [a], next)
  {
    hide Says, Carries, Began, ReplaceableCurrent;
  }

  lemma TellsReplaced(row: Evidence, o: Opportunity, cleared: seq<Action>, next: nat, m: nat, a: Action)
    requires RowsTell(row, o, cleared, next) && |cleared| == |o.actions| && m < |o.actions|
    requires Carries(o.actions[m], a) && Says(a, row, o, ReplaceableCurrent(o.actions))
    ensures RowsTell(row, o, cleared[m := a], next)
  {
    hide Says, Carries, Began, ReplaceableCurrent;
  }

  lemma Beginnings(a: Action, p: Proposal, next: nat)
    ensures Began(Created(next, p), next)
    ensures Reusable(a) ==> Carries(a, Reused(a, p))
  {
  }

  // Withdrawing leaves the action under another key, and one that can be reused, as it was.
  lemma WithdrawnElsewhere(actions: seq<Action>, m: nat)
    requires m < |actions| && (m != CurrentIndex(actions) || !Replaceable(actions[m]))
    ensures |Withdrawn(actions).0| == |actions| && Withdrawn(actions).0[m] == actions[m]
  {
  }

  lemma EntryTells(row: Evidence, o: Opportunity, w: World, p: Proposal, next: nat)
    requires var i := CurrentIndex(o.actions); i == |o.actions| || (Replaceable(o.actions[i]) && o.actions[i].key != p.key)
    requires ProposalFor(row, o, w, ReplaceableCurrent(o.actions)) == Proposes(p)
    ensures RowsTell(row, o, Proposing(o.actions, p, next).0, next)
  {
    var actions, current := o.actions, ReplaceableCurrent(o.actions);
    var cleared, m := Withdrawn(actions).0, KeyIndex(actions, p.key);
    WithdrawnTell(row, o, next);
    hide Says, ProposalFor, RowsTell, Carries, Began, ReplaceableCurrent, Reused, Created, CurrentIndex, KeyIndex;
    assert |cleared| == |actions|;
    if m == |actions| {
      Beginnings(Created(next, p), p, next);
      CreatedSays(row, o, w, p, next);
      TellsAppended(row, o, cleared, next, Created(next, p));
    } else if Reusable(cleared[m]) {
      WithdrawnElsewhere(actions, m);
      hide Withdrawn;
      Beginnings(actions[m], p, next);
      ReusedSays(row, o, w, p, actions[m]);
      TellsReplaced(row, o, cleared, next, m, Reused(actions[m], p));
    }
  }

  lemma CreatedSays(row: Evidence, o: Opportunity, w: World, p: Proposal, next: nat)
    requires ProposalFor(row, o, w, ReplaceableCurrent(o.actions)) == Proposes(p)
    ensures Says(Created(next, p), row, o, ReplaceableCurrent(o.actions))
  {
    assert var c := ReplaceableCurrent(o.actions); c.Some? ==> Replaceable(c.value);
    hide Says, ProposalFor, ReplaceableCurrent;
    ProposalSays(row, o, w, ReplaceableCurrent(o.actions), p, Created(next, p));
  }

  lemma ReusedSays(row: Evidence, o: Opportunity, w: World, p: Proposal, a: Action)
    requires ProposalFor(row, o, w, ReplaceableCurrent(o.actions)) == Proposes(p) && a.key == p.key
    ensures Says(Reused(a, p), row, o, ReplaceableCurrent(o.actions))
  {
    assert var c := ReplaceableCurrent(o.actions); c.Some? ==> Replaceable(c.value);
    hide Says, ProposalFor, ReplaceableCurrent;
    ProposalSays(row, o, w, ReplaceableCurrent(o.actions), p, Reused(a, p));
  }

  // What a row of evidence may do to a ledger, field by field.
  lemma WrittenSays(row: Evidence, o: Opportunity, w: World, inScope: bool, next: nat)
    requires ReconcileRow(row, o, w, inScope, next).Some?
    ensures RowsTell(row, o, ReconcileRow(row, o, w, inScope, next).value.0, next)
  {
    WithdrawnTell(row, o, next);
    var i := CurrentIndex(o.actions);
    if i == |o.actions| || Replaceable(o.actions[i]) {
      match ProposalFor(row, o, w, ReplaceableCurrent(o.actions)) {
        case Proposes(p) =>
          if i < |o.actions| && o.actions[i].key == p.key { UpdateTells(row, o, w, p, next); } else { EntryTells(row, o, w, p, next); }
        case _ =>
      }
    }
    hide Withdrawn, Proposing, ProposalFor, RowsTell;
  }

  // --------------------------------------------------------------- when, exactly

  // The row asks for an action here, and no human's action is in progress.
  predicate Asks(row: Evidence, o: Opportunity, inScope: bool) {
    && inScope && row.admitted && o.activeAccount && !o.closed && o.owned && row.shouldRemind
    && forall a | a in o.actions && (a.status == Open || a.status == Waiting) :: a.humanRevision == 0 && !a.key.Authored?
  }

  // The reminder's key belongs to work that is finished, or that a human took over.
  ghost predicate Taken(row: Evidence, o: Opportunity) {
    exists a :: a in o.actions && Keyed(a.key, row, o, ReplaceableCurrent(o.actions)) && a.status != Open && a.status != Waiting
                && (a.status == Completed || a.humanRevision > 0)
  }

  predicate Worded(row: Evidence) {
    row.triggerNote.Some? ==> row.commitment != ""
  }

  // A generated action is in progress.
  predicate UnderWay(actions: seq<Action>) {
    exists a | a in actions :: (a.status == Open || a.status == Waiting) && a.humanRevision == 0 && !a.key.Authored?
  }

  lemma {:induction false} CurrentReplaceable(actions: seq<Action>)
    requires OneCurrent(actions)
    ensures (forall a | a in actions && (a.status == Open || a.status == Waiting) :: a.humanRevision == 0 && !a.key.Authored?)
              <==> CurrentIndex(actions) == |actions| || Replaceable(actions[CurrentIndex(actions)])
    ensures UnderWay(actions) <==> CurrentIndex(actions) < |actions| && Replaceable(actions[CurrentIndex(actions)])
  {
    OthersNotCurrent(actions);
    var i := CurrentIndex(actions);
    if i < |actions| { assert actions[i] in actions; }
    hide CurrentIndex;
  }

  lemma KeyedAlone(row: Evidence, o: Opportunity, current: Option<Action>, key: Key, other: Key)
    requires Keyed(key, row, o, current) && Keyed(other, row, o, current)
    ensures key == other
  {
  }

  lemma {:induction false} TakenIsTerminal(row: Evidence, o: Opportunity, key: Key)
    requires KeysUnique(o.actions) && Keyed(key, row, o, ReplaceableCurrent(o.actions))
    ensures Taken(row, o) <==> var m := KeyIndex(o.actions, key); m < |o.actions| && !IsCurrent(o.actions[m]) && !Reusable(o.actions[m])
  {
    var m := KeyIndex(o.actions, key);
    if a :| a in o.actions && Keyed(a.key, row, o, ReplaceableCurrent(o.actions)) && a.status != Open && a.status != Waiting
            && (a.status == Completed || a.humanRevision > 0) {
      KeyedAlone(row, o, ReplaceableCurrent(o.actions), key, a.key);
      var k :| 0 <= k < |o.actions| && o.actions[k] == a;
      KeyIs(o.actions, key, k);
    }
    if m < |o.actions| { assert o.actions[m] in o.actions; }
    hide Keyed, KeyIndex, KeysUnique;
  }

  // A row raises exactly for an addressed reminder without words, and leaves a generated action in progress exactly
  // when it asks for one, the reminder is addressed and worded, and its key is not taken.
  lemma WrittenExactly(row: Evidence, o: Opportunity, w: World, inScope: bool, next: nat)
    requires OneCurrent(o.actions) && KeysUnique(o.actions)
    ensures var r := ReconcileRow(row, o, w, inScope, next);
            var addressed := Asks(row, o, inScope) && Addressed(row, o, w, ReplaceableCurrent(o.actions));
            && (r.None? <==> addressed && row.reminder == NotActionable)
            && (r.Some? ==> (UnderWay(r.value.0) <==> addressed && Worded(row) && !Taken(row, o)))
  {
    var i, current := CurrentIndex(o.actions), ReplaceableCurrent(o.actions);
    CurrentReplaceable(o.actions);
    WithdrawnKeeps(o.actions);
    CurrentReplaceable(Withdrawn(o.actions).0);
    ProposesExactly(row, o, w, current);
    if Eligible(row, o, inScope) && row.shouldRemind && (i == |o.actions| || Replaceable(o.actions[i])) {
      var proposed := ProposalFor(row, o, w, current);
      if proposed.Proposes? {
        ProposalCopies(row, o, w, current, proposed.proposal);
        BasisKeyed(row, o, current);
        LeftUnderWay(row, o, proposed.proposal, next);
      }
    }
    hide Withdrawn, Proposing, ProposalFor, Addressed, Taken, UnderWay, OneCurrent, KeysUnique;
  }

  lemma LeftUnderWay(row: Evidence, o: Opportunity, p: Proposal, next: nat)
    requires OneCurrent(o.actions) && KeysUnique(o.actions) && p.key.V2? && Keyed(p.key, row, o, ReplaceableCurrent(o.actions))
    requires var i := CurrentIndex(o.actions); i == |o.actions| || Replaceable(o.actions[i])
    ensures UnderWay(Proposing(o.actions, p, next).0) <==> !Taken(row, o)
  {
    var after := Proposing(o.actions, p, next).0;
    TakenIsTerminal(row, o, p.key);
    ProposingLeaves(o.actions, p, next);
    ProposingKeeps(o.actions, p, next);
    CurrentReplaceable(after);
    hide Proposing, OneCurrent, KeysUnique, Taken, UnderWay, Keyed;
  }

  // ------------------------------------------------------------------ what is reported

  // What a reported change says of the action at `k`, and of the length of the ledger.
  ghost predicate Became(before: seq<Action>, after: seq<Action>, k: nat, c: Change) {
    k < |after| && after[k].id == c.id
    && if k == |before| then c.ActionCreated?
       else if k > |before| then false
       else
         match c
         case ActionCreated(_) => false
         case ActionUpdated(_) => IsCurrent(before[k]) && IsCurrent(after[k]) && after[k] != before[k]
         case ActionReused(_) => before[k].status == Cancelled && IsCurrent(after[k])
         case ActionCancelled(_) => IsCurrent(before[k]) && after[k].status == Cancelled
         case HumanPreserved(_) => IsCurrent(before[k]) && Protected(before[k]) && after[k] == before[k]
         case TerminalPreserved(_) => !IsCurrent(before[k]) && !Reusable(before[k]) && after[k] == before[k]
  }

  ghost predicate Happened(before: seq<Action>, after: seq<Action>, c: Change) {
    exists k: nat :: Became(before, after, k, c)
  }

  ghost predicate Reported(before: seq<Action>, after: seq<Action>, changes: seq<Change>) {
    && (forall c | c in changes :: Happened(before, after, c))
    && (forall c | Writes(c) && Happened(before, after, c) :: c in changes)
  }

  // Only the actions at `i` and `m` differ.
  lemma ReportedAt(before: seq<Action>, after: seq<Action>, changes: seq<Change>, i: nat, m: nat)
    requires |before| <= |after|
    requires forall k | 0 <= k < |before| && k != i && k != m :: after[k] == before[k]
    requires |after| > |before| ==> m == |before| && |after| == |before| + 1
    requires forall c | c in changes :: Became(before, after, i, c) || Became(before, after, m, c)
    requires forall c | Writes(c) && (Became(before, after, i, c) || Became(before, after, m, c)) :: c in changes
    ensures Reported(before, after, changes)
  {
    forall c | Writes(c) && Happened(before, after, c) ensures c in changes {
      var k: nat :| Became(before, after, k, c);
      assert k == i || k == m;
    }
  }

  lemma {:induction false} WithdrawnReports(actions: seq<Action>)
    requires OneCurrent(actions)
    ensures Reported(actions, Withdrawn(actions).0, Withdrawn(actions).1)
  {
    var i := CurrentIndex(actions);
    hide CurrentIndex, OneCurrent;
    ReportedAt(actions, Withdrawn(actions).0, Withdrawn(actions).1, i, i);
  }

  lemma {:induction false} ProposingReports(actions: seq<Action>, p: Proposal, next: nat)
    requires OneCurrent(actions) && KeysUnique(actions) && p.key.V2?
    requires var i := CurrentIndex(actions); i == |actions| || Replaceable(actions[i])
    ensures Reported(actions, Proposing(actions, p, next).0, Proposing(actions, p, next).1)
  {
    var i, m := CurrentIndex(actions), KeyIndex(actions, p.key);
    OthersNotCurrent(actions);
    if i < |actions| && actions[i].key == p.key {
      hide CurrentIndex, KeyIndex, Withdrawn, OneCurrent, KeysUnique, Reported;
      ReportedAt(actions, Proposing(actions, p, next).0, Proposing(actions, p, next).1, i, i);
    } else {
      EntryReports(actions, p, next);
    }
  }

  lemma {:induction false} EntryReports(actions: seq<Action>, p: Proposal, next: nat)
    requires OneCurrent(actions) && KeysUnique(actions) && p.key.V2?
    requires var i := CurrentIndex(actions); i == |actions| || (Replaceable(actions[i]) && actions[i].key != p.key)
    ensures Reported(actions, Proposing(actions, p, next).0, Proposing(actions, p, next).1)
  {
    var i, m := CurrentIndex(actions), KeyIndex(actions, p.key);
    var after, changes := Proposing(actions, p, next).0, Proposing(actions, p, next).1;
    WithdrawnClears(actions, p.key);
    var cleared := Withdrawn(actions).0;
    assert Created(next, p).id == next;
    if m < |actions| {
      WithdrawnElsewhere(actions, m);
      assert Reused(actions[m], p).id == actions[m].id && IsCurrent(Reused(actions[m], p));
    }
    hide CurrentIndex, KeyIndex, OneCurrent, KeysUnique, Reported, Updated, Reused, Created;
    if m == |actions| {
      ReportedAt(actions, after, changes, i, m);
    } else if Reusable(actions[m]) {
      ReportedAt(actions, after, changes, i, m);
    } else {
      ReportedAt(actions, after, changes, i, m);
    }
  }

  // Every change a row reports happened, and every write is reported.
  lemma ChangesTell(row: Evidence, o: Opportunity, w: World, inScope: bool, next: nat)
    requires OneCurrent(o.actions) && KeysUnique(o.actions) && ReconcileRow(row, o, w, inScope, next).Some?
    ensures var (after, changes) := ReconcileRow(row, o, w, inScope, next).value; Reported(o.actions, after, changes)
  {
    WithdrawnReports(o.actions);
    var i := CurrentIndex(o.actions);
    if i == |o.actions| || Replaceable(o.actions[i]) {
      match ProposalFor(row, o, w, ReplaceableCurrent(o.actions)) {
        case Proposes(p) =>
          ProposalKey(row, o, w, ReplaceableCurrent(o.actions));
          ProposingReports(o.actions, p, next);
        case _ =>
      }
    }
    hide Withdrawn, Proposing, ProposalFor, Reported;
  }

  // What keeps a row from writing is reported too: a human's action in progress, or a key that is taken.
  lemma ObstaclesTell(row: Evidence, o: Opportunity, w: World, inScope: bool, next: nat)
    requires OneCurrent(o.actions) && KeysUnique(o.actions) && ReconcileRow(row, o, w, inScope, next).Some?
    ensures var changes := ReconcileRow(row, o, w, inScope, next).value.1;
            && (forall a | a in o.actions && IsCurrent(a) && Protected(a) :: changes == [HumanPreserved(a.id)])
            && (Asks(row, o, inScope) && Addressed(row, o, w, ReplaceableCurrent(o.actions)) && Worded(row) && Taken(row, o) ==>
                  exists a :: a in o.actions && Keyed(a.key, row, o, ReplaceableCurrent(o.actions)) && TerminalPreserved(a.id) in changes)
  {
    var i, current := CurrentIndex(o.actions), ReplaceableCurrent(o.actions);
    CurrentReplaceable(o.actions);
    ProposesExactly(row, o, w, current);
    forall a | a in o.actions && IsCurrent(a) && Protected(a)
      ensures i < |o.actions| && a == o.actions[i] && !Replaceable(a)
    {
      OthersNotCurrent(o.actions);
    }
    if Eligible(row, o, inScope) && row.shouldRemind && (i == |o.actions| || Replaceable(o.actions[i])) {
      var proposed := ProposalFor(row, o, w, current);
      if proposed.Proposes? && Taken(row, o) {
        ProposalCopies(row, o, w, current, proposed.proposal);
        BasisKeyed(row, o, current);
        TakenTells(row, o, proposed.proposal, next);
      }
    }
    hide Proposing, ProposalFor, Addressed, Taken, OneCurrent, KeysUnique, CurrentIndex, Keyed;
  }

  lemma TakenTells(row: Evidence, o: Opportunity, p: Proposal, next: nat)
    requires OneCurrent(o.actions) && KeysUnique(o.actions) && p.key.V2? && Keyed(p.key, row, o, ReplaceableCurrent(o.actions))
    requires var i := CurrentIndex(o.actions); i == |o.actions| || Replaceable(o.actions[i])
    requires Taken(row, o)
    ensures exists a :: a in o.actions && Keyed(a.key, row, o, ReplaceableCurrent(o.actions))
                        && TerminalPreserved(a.id) in Proposing(o.actions, p, next).1
  {
    var i, m := CurrentIndex(o.actions), KeyIndex(o.actions, p.key);
    TakenIsTerminal(row, o, p.key);
    if i < |o.actions| && o.actions[i].key == p.key { KeyIs(o.actions, p.key, i); }
    assert o.actions[m] in o.actions;
    WithdrawnElsewhere(o.actions, m);
    hide OneCurrent, KeysUnique, Taken, Keyed, CurrentIndex, KeyIndex, Updated, Created, Reused, Withdrawn;
    assert TerminalPreserved(o.actions[m].id) in Proposing(o.actions, p, next).1;
  }
}
