/**
 Which lead, message, meeting or note the collected rows name (`_reminder_provenance` and the end of
 `collect_account_evidence` in `linkedin/crm_v2_evidence.py`), and what reconciling collected rows settles.
 */
module RowProvenance {
  import opened Outcomes
  import opened ActionModel
  import opened ActionTheorems
  import opened ActionBatch

  // `thread` is the external thread id, or one made from the lead when there is none.
  datatype Message = Message(
    id: int, lead: int, gmail: bool, inbound: bool, thread: string, automated: bool, highIntent: bool, sentAt: int)

  datatype Event = Event(id: int, lead: int, startAt: int, endAt: Option<int>)

  datatype Commitment = Commitment(note: int, description: string)

  datatype Decision = Decision(admitted: bool, shouldRemind: bool, reminder: Reminder, code: int, reason: string, due: Option<int>)

  // What was collected for one account: its Opportunity with the current action, if any, and its evidence.
  datatype Account = Account(
    key: int, opportunity: Option<int>, current: Option<Action>, messages: seq<Message>, events: seq<Event>, now: int,
    gmailThread: Option<(int, string)>, commitment: Option<Commitment>, leads: set<int>, suppressed: set<int>,
    manualPin: bool, salesMotion: bool)

  datatype Provenance = Provenance(target: Option<int>, message: Option<int>, meeting: Option<int>)

  const NoProvenance := Provenance(None, None, None)

  // `word in text`
  predicate Mentions(text: string, word: string) {
    exists i | 0 <= i <= |text| - |word| :: ReadsAt(text, word, i)
  }

  predicate ReadsAt(text: string, word: string, i: nat)
    requires i <= |text| - |word|
  {
    text[i..i + |word|] == word
  }

  lemma MentionsExactly(text: string, word: string)
    ensures Mentions(text, word) <==> exists before, after :: text == before + word + after
  {
    if Mentions(text, word) {
      var i: nat :| i <= |text| - |word| && ReadsAt(text, word, i);
      assert text == text[..i] + word + text[i + |word|..];
    }
    if before, after :| text == before + word + after {
      assert text[|before|..|before| + |word|] == word;
      assert ReadsAt(text, word, |before|);
    }
  }

  // _action_controls_policy
  predicate Controls(a: Action) { !Replaceable(a) }

  // ------------------------------------------------------------- latest and next

  predicate Qualifies(m: Message, thread: (int, string), inbound: bool) {
    m.gmail && m.inbound == inbound && (m.lead, m.thread) == thread && !m.automated && (inbound ==> m.highIntent)
  }

  predicate Later(m: Message, than: Message) {
    m.sentAt > than.sentAt || (m.sentAt == than.sentAt && m.id > than.id)
  }

  function LatestMessage(ms: seq<Message>, thread: (int, string), inbound: bool): (r: Option<Message>)
    ensures r.None? ==> forall m | m in ms :: !Qualifies(m, thread, inbound)
    ensures r.Some? ==> r.value in ms && Qualifies(r.value, thread, inbound)
    ensures r.Some? ==> forall m | m in ms && Qualifies(m, thread, inbound) :: !Later(m, r.value)
  {
    if ms == [] then None
    else
      var rest := LatestMessage(ms[1..], thread, inbound);
      if !Qualifies(ms[0], thread, inbound) || (rest.Some? && Later(rest.value, ms[0])) then rest else Some(ms[0])
  }

  predicate Starts(e: Event, after: Event) {
    e.startAt > after.startAt || (e.startAt == after.startAt && e.id > after.id)
  }

  predicate Upcoming(e: Event, now: int) { e.startAt >= now }

  // _meeting_is_completed
  predicate Held(e: Event, now: int) {
    (if e.endAt.Some? then e.endAt.value else e.startAt) <= now
  }

  function NextEvent(es: seq<Event>, now: int): (r: Option<Event>)
    ensures r.None? ==> forall e | e in es :: !Upcoming(e, now)
    ensures r.Some? ==> r.value in es && Upcoming(r.value, now)
    ensures r.Some? ==> forall e | e in es && Upcoming(e, now) :: !Starts(r.value, e)
  {
    if es == [] then None
    else
      var rest := NextEvent(es[1..], now);
      if !Upcoming(es[0], now) || (rest.Some? && Starts(es[0], rest.value)) then rest else Some(es[0])
  }

  function LastEvent(es: seq<Event>, now: int): (r: Option<Event>)
    ensures r.None? ==> forall e | e in es :: !Held(e, now)
    ensures r.Some? ==> r.value in es && Held(r.value, now)
    ensures r.Some? ==> forall e | e in es && Held(e, now) :: !Starts(e, r.value)
  {
    if es == [] then None
    else
      var rest := LastEvent(es[1..], now);
      if !Held(es[0], now) || (rest.Some? && Starts(rest.value, es[0])) then rest else Some(es[0])
  }

  // --------------------------------------------------------------------- the row

  function OfEvents(reason: string, a: Account): Provenance {
    if !Mentions(reason, "meeting") then NoProvenance
    else
      var event := if Mentions(reason, "prep") then NextEvent(a.events, a.now) else LastEvent(a.events, a.now);
      if event.None? then NoProvenance else Provenance(Some(event.value.lead), None, Some(event.value.id))
  }

  // _reminder_provenance
  function ReminderProvenance(d: Decision, a: Account): Provenance {
    if a.current.Some? && a.current.value.target.Some? && Controls(a.current.value) then
      Provenance(a.current.value.target, a.current.value.triggerMessage, a.current.value.triggerMeeting)
    else if Mentions(d.reason, "gmail") then
      if a.gmailThread.None? then NoProvenance
      else
        var message := LatestMessage(a.messages, a.gmailThread.value, Mentions(d.reason, "unanswered"));
        if message.Some? then Provenance(Some(message.value.lead), Some(message.value.id), None) else OfEvents(d.reason, a)
    else OfEvents(d.reason, a)
  }

  // The owner's commitment from a note, if it is what the reminder is about.
  function ActiveCommitment(d: Decision, a: Account): Option<Commitment> {
    if a.commitment.None? then None
    else
      var current := a.current.Some? && a.opportunity.Some?
                     && a.current.value.key == V2(a.opportunity.value, OfNote(a.commitment.value.note));
      if d.reminder.PostMeetingFollowup? || (current && Dated(d.reminder)) then a.commitment else None
  }

  // The row collected for an account.
  function Collected(d: Decision, a: Account): Evidence {
    var commitment := ActiveCommitment(d, a);
    var p := if commitment.Some? then NoProvenance else ReminderProvenance(d, a);
    var all := a.leads != {} && a.leads <= a.suppressed;
    Evidence(
      d.admitted, d.shouldRemind, d.reminder, Reason(d.code, Mentions(d.reason, "gmail"), Mentions(d.reason, "linkedin")), d.due,
      p.target, p.message, p.meeting, if commitment.Some? then Some(commitment.value.note) else None,
      a.manualPin, a.salesMotion, all || (p.target.Some? && p.target.value in a.suppressed),
      if commitment.Some? then commitment.value.description else "")
  }

  function CollectedRow(d: Decision, a: Account): Row {
    Row(if a.opportunity.Some? then Known(a.opportunity.value) else Missing, a.key, Collected(d, a))
  }

  function CollectedRows(accounts: seq<(Decision, Account)>): (rows: seq<Row>)
    ensures |rows| == |accounts| && forall i | 0 <= i < |rows| :: rows[i] == CollectedRow(accounts[i].0, accounts[i].1)
  {
    if accounts == [] then [] else [CollectedRow(accounts[0].0, accounts[0].1)] + CollectedRows(accounts[1..])
  }

  // ---------------------------------------------------------------- what it names

  // A message or meeting is never named without a lead, and never beside a note.
  predicate Targeted(row: Evidence) {
    && (row.triggerMessage.Some? || row.triggerMeeting.Some? ==> row.target.Some?)
    && (row.triggerNote.Some? ==> row.target.None? && row.triggerMessage.None? && row.triggerMeeting.None?)
  }

  lemma CollectedIsTargeted(d: Decision, a: Account)
    ensures Targeted(Collected(d, a))
  {
  }

  // A message the reminder may be about: in the selected Gmail thread, by hand, and in the right direction.
  ghost predicate MayName(m: Message, d: Decision, a: Account) {
    && a.gmailThread == Some((m.lead, m.thread)) && m.gmail && !m.automated
    && if Mentions(d.reason, "unanswered") then m.inbound && m.highIntent else !m.inbound
  }

  // A meeting the reminder may be about: still to come when it is to be prepared, over otherwise.
  ghost predicate MayMeet(e: Event, d: Decision, a: Account) {
    if Mentions(d.reason, "prep") then a.now <= e.startAt
    else match e.endAt case Some(end) => end <= a.now case None => e.startAt <= a.now
  }

  ghost predicate NamesMessage(m: Message, d: Decision, a: Account) {
    && m in a.messages && MayName(m, d, a)
    && forall n | n in a.messages && MayName(n, d, a) :: n.sentAt < m.sentAt || (n.sentAt == m.sentAt && n.id <= m.id)
  }

  ghost predicate NamesMeeting(e: Event, d: Decision, a: Account) {
    && e in a.events && MayMeet(e, d, a)
    && forall f | f in a.events && MayMeet(f, d, a) ::
         if Mentions(d.reason, "prep") then e.startAt < f.startAt || (e.startAt == f.startAt && e.id <= f.id)
         else f.startAt < e.startAt || (f.startAt == e.startAt && f.id <= e.id)
  }

  // A person decided on the current action and named a lead.
  ghost predicate Decided(a: Account) {
    && a.current.Some? && a.current.value.target.Some?
    && (a.current.value.humanRevision > 0 || a.current.value.key.Authored?)
  }

  // The latest message of the thread comes first; the meeting is looked for when there is none, but not when a Gmail
  // reason has no thread.
  ghost predicate Exact(d: Decision, a: Account, p: Provenance) {
    var gmail := Mentions(d.reason, "gmail");
    var message := gmail && exists m | m in a.messages :: MayName(m, d, a);
    var meeting := !message && (gmail ==> a.gmailThread.Some?) && Mentions(d.reason, "meeting") && exists e | e in a.events :: MayMeet(e, d, a);
    if Decided(a) then p == Provenance(a.current.value.target, a.current.value.triggerMessage, a.current.value.triggerMeeting)
    else if message then exists m :: NamesMessage(m, d, a) && p == Provenance(Some(m.lead), Some(m.id), None)
    else if meeting then exists e :: NamesMeeting(e, d, a) && p == Provenance(Some(e.lead), None, Some(e.id))
    else p == Provenance(None, None, None)
  }

  lemma ProvenanceIsExact(d: Decision, a: Account)
    ensures Exact(d, a, ReminderProvenance(d, a))
  {
    hide Mentions;
    if !Decided(a) {
      if Mentions(d.reason, "gmail") && a.gmailThread.Some? { MessageIsExact(d, a); }
      EventIsExact(d, a);
    }
  }

  lemma MessageIsExact(d: Decision, a: Account)
    requires a.gmailThread.Some?
    ensures match LatestMessage(a.messages, a.gmailThread.value, Mentions(d.reason, "unanswered"))
            case Some(m) => NamesMessage(m, d, a)
            case None => forall m | m in a.messages :: !MayName(m, d, a)
  {
    hide Mentions;
    forall m: Message ensures MayName(m, d, a) <==> Qualifies(m, a.gmailThread.value, Mentions(d.reason, "unanswered")) {
    }
  }

  lemma EventIsExact(d: Decision, a: Account)
    ensures match (if Mentions(d.reason, "prep") then NextEvent(a.events, a.now) else LastEvent(a.events, a.now))
            case Some(e) => NamesMeeting(e, d, a)
            case None => forall e | e in a.events :: !MayMeet(e, d, a)
  {
    hide Mentions;
    forall e: Event ensures MayMeet(e, d, a) <==> if Mentions(d.reason, "prep") then Upcoming(e, a.now) else Held(e, a.now) {
    }
  }

  // The reminder is about the owner's commitment: one is due after a meeting, or the current action stands for it
  // and the reminder is that action's date.
  ghost predicate AboutCommitment(d: Decision, a: Account) {
    && a.commitment.Some?
    && d.reminder in {PostMeetingFollowup, OverdueNextAction, DueToday, ScheduledNextAction}
    && (d.reminder == PostMeetingFollowup
        || exists o, c :: a.opportunity == Some(o) && a.current == Some(c) && c.key == V2(o, OfNote(a.commitment.value.note)))
  }

  // Such a row names the note and nobody; any other names what the reminder's provenance is. Contact is ruled out
  // when every lead of the account is suppressed, and for a suppressed target.
  lemma RowIsExact(d: Decision, a: Account)
    ensures var row := Collected(d, a);
            && (AboutCommitment(d, a) ==>
                  row.triggerNote == Some(a.commitment.value.note) && row.commitment == a.commitment.value.description
                  && row.target.None? && row.triggerMessage.None? && row.triggerMeeting.None?)
            && (!AboutCommitment(d, a) ==>
                  row.triggerNote.None? && row.commitment == ""
                  && Exact(d, a, Provenance(row.target, row.triggerMessage, row.triggerMeeting)))
            && (row.doNotOutreach <==>
                  || (a.leads != {} && forall lead | lead in a.leads :: lead in a.suppressed)
                  || (row.target.Some? && row.target.value in a.suppressed))
            && row.reason == Reason(d.code, Mentions(d.reason, "gmail"), Mentions(d.reason, "linkedin"))
            && row.admitted == d.admitted && row.shouldRemind == d.shouldRemind && row.reminder == d.reminder && row.due == d.due
            && row.manualPin == a.manualPin && row.salesMotion == a.salesMotion
  {
    hide Mentions, Exact, ReminderProvenance;
    ProvenanceIsExact(d, a);
    if forall lead | lead in a.leads :: lead in a.suppressed { assert a.leads <= a.suppressed; }
  }

  // --------------------------------------------------- reconciling collected rows

  // The second pass over a collected row changes nothing.
  lemma CollectedRowSettles(d: Decision, a: Account, o: Opportunity, w: World, inScope: bool, next: nat, next2: nat)
    requires OneCurrent(o.actions) && KeysUnique(o.actions) && ReconcileRow(Collected(d, a), o, w, inScope, next).Some?
    ensures var after := ReconcileRow(Collected(d, a), o, w, inScope, next).value.0;
            Idle(ReconcileRow(Collected(d, a), o.(actions := after), w, inScope, next2), after)
  {
    hide ReconcileRow, Collected, Idle;
    CollectedIsTargeted(d, a);
    TargetedRowsSettle(Collected(d, a), o, w, inScope, next, next2);
  }

  lemma {:induction false} ParsedFrom(rows: seq<Row>, x: Item)
    requires x in Parsed(rows)
    ensures exists i :: 0 <= i < |rows| && rows[i].evidence == x.evidence
  {
    if rows[0].opportunity.Known? && x == Item(rows[0].opportunity.id, rows[0].accountKey, rows[0].evidence) {
      assert rows[0].evidence == x.evidence;
    } else {
      ParsedFrom(rows[1..], x);
      var i :| 0 <= i < |rows[1..]| && rows[1..][i].evidence == x.evidence;
      assert rows[i + 1].evidence == x.evidence;
    }
  }

  lemma WorkFrom(rows: seq<Row>, x: Item)
    requires x in Work(rows)
    ensures exists i :: 0 <= i < |rows| && rows[i].evidence == x.evidence
  {
    var items := Parsed(rows);
    assert multiset(Ordered(items))[x] > 0;
    assert multiset(items)[x] > 0;
    ParsedFrom(rows, x);
  }

  // Nor does a second pass over all collected rows.
  lemma {:induction false} CollectedPassSettles(accounts: seq<(Decision, Account)>, book: Book, w: World, scope: Option<set<int>>, next: nat, next2: nat)
    requires SoundBook(book) && Pass(Work(CollectedRows(accounts)), book, w, scope, next).Some?
    ensures var items := Work(CollectedRows(accounts));
            var after := Pass(items, book, w, scope, next).value.0;
            PassIdle(Pass(items, after, w, scope, next2), after)
  {
    hide Pass, PassIdle, SoundBook, Work, Collected;
    var rows := CollectedRows(accounts);
    var items := Work(rows);
    WorkDistinct(rows);
    forall i | 0 <= i < |items| ensures Targeted(items[i].evidence) {
      WorkFrom(rows, items[i]);
      var k :| 0 <= k < |rows| && rows[k].evidence == items[i].evidence;
      CollectedIsTargeted(accounts[k].0, accounts[k].1);
    }
    assert NoneSlips(items, book, w, scope);
    PassTwice(items, book, w, scope, next, next2);
  }
}
