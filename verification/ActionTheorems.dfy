/** What action reconciliation keeps, and exactly when a second pass has nothing to do. */
module ActionTheorems {
  import opened Outcomes
  import opened ActionModel

  // ------------------------------------------------------------- what one row keeps

  lemma {:induction false} OthersNotCurrent(actions: seq<Action>)
    requires OneCurrent(actions)
    ensures forall k | 0 <= k < |actions| && k != CurrentIndex(actions) :: !IsCurrent(actions[k])
  {
    var i := CurrentIndex(actions);
    forall k | 0 <= k < |actions| && k != i ensures !IsCurrent(actions[k]) {
      if i < k { assert !(IsCurrent(actions[i]) && IsCurrent(actions[k])); }
    }
  }

  lemma {:induction false} KeyIs(actions: seq<Action>, key: Key, i: nat)
    requires KeysUnique(actions) && i < |actions| && actions[i].key == key && key != Authored("")
    ensures KeyIndex(actions, key) == i
  {
    var m := KeyIndex(actions, key);
    assert m <= i && actions[m].key == actions[i].key;
  }

  // Rewriting one generated, unfinished action.
  lemma ReplaceKeeps(actions: seq<Action>, i: nat, a: Action)
    requires OneCurrent(actions) && KeysUnique(actions) && i < |actions| && !Protected(actions[i])
    requires a.key == actions[i].key && a.id == actions[i].id && a.humanRevision == actions[i].humanRevision
    requires IsCurrent(a) ==> forall k | 0 <= k < |actions| && k != i :: !IsCurrent(actions[k])
    ensures OneCurrent(actions[i := a]) && KeysUnique(actions[i := a]) && Preserves(actions, actions[i := a])
  {
  }

  lemma {:induction false} AppendKeeps(actions: seq<Action>, a: Action)
    requires OneCurrent(actions) && KeysUnique(actions) && KeyIndex(actions, a.key) == |actions|
    requires forall k | 0 <= k < |actions| :: !IsCurrent(actions[k])
    ensures OneCurrent(actions + [a]) && KeysUnique(actions + [a]) && Preserves(actions, actions + [a])
  {
  }

  lemma PreservesTwice(one: seq<Action>, two: seq<Action>, three: seq<Action>)
    requires Preserves(one, two) && Preserves(two, three)
    ensures Preserves(one, three)
  {
  }

  lemma {:induction false} WithdrawnKeeps(actions: seq<Action>)
    requires OneCurrent(actions) && KeysUnique(actions)
    ensures var after := Withdrawn(actions).0;
            && OneCurrent(after) && KeysUnique(after) && Preserves(actions, after) && |after| == |actions|
            && (forall k | 0 <= k < |after| :: IsCurrent(after[k]) ==> !Replaceable(after[k]))
            && (forall k | 0 <= k < |after| && k != CurrentIndex(actions) :: after[k] == actions[k])
  {
    var i := CurrentIndex(actions);
    OthersNotCurrent(actions);
    if i < |actions| && Replaceable(actions[i]) { ReplaceKeeps(actions, i, actions[i].(status := Cancelled)); }
  }

  // With no human action current, withdrawing leaves nothing current and every key in place.
  lemma {:induction false} WithdrawnClears(actions: seq<Action>, key: Key)
    requires OneCurrent(actions) && KeysUnique(actions)
    requires var i := CurrentIndex(actions); i == |actions| || Replaceable(actions[i])
    ensures var cleared := Withdrawn(actions).0;
            && (forall k | 0 <= k < |cleared| :: !IsCurrent(cleared[k]))
            && KeyIndex(cleared, key) == KeyIndex(actions, key)
  {
    OthersNotCurrent(actions);
    var cleared := Withdrawn(actions).0;
    SameKeys(actions, cleared, key);
  }

  lemma {:induction false} ProposingKeeps(actions: seq<Action>, p: Proposal, next: nat)
    requires OneCurrent(actions) && KeysUnique(actions) && p.key.V2?
    requires var i := CurrentIndex(actions); i == |actions| || Replaceable(actions[i])
    ensures var after := Proposing(actions, p, next).0;
            OneCurrent(after) && KeysUnique(after) && Preserves(actions, after)
  {
    var i := CurrentIndex(actions);
    OthersNotCurrent(actions);
    if i < |actions| && actions[i].key == p.key {
      ReplaceKeeps(actions, i, Updated(actions[i], p));
    } else {
      WithdrawnKeeps(actions);
      WithdrawnClears(actions, p.key);
      var cleared, m := Withdrawn(actions).0, KeyIndex(actions, p.key);
      hide OneCurrent, KeysUnique, Preserves, Withdrawn;
      if m == |actions| {
        AppendKeeps(cleared, Created(next, p));
        PreservesTwice(actions, cleared, cleared + [Created(next, p)]);
      } else if Reusable(cleared[m]) {
        ReplaceKeeps(cleared, m, Reused(cleared[m], p));
        PreservesTwice(actions, cleared, cleared[m := Reused(cleared[m], p)]);
      }
    }
  }

  lemma ProposalKey(row: Evidence, o: Opportunity, w: World, current: Option<Action>)
    ensures ProposalFor(row, o, w, current).Proposes? ==>
              ProposalFor(row, o, w, current).proposal.key == V2(o.id, Basis1(row, o.id, current))
  {
  }

  // One row of evidence leaves at most one current action, keeps keys unique, changes no field of human
  // work, and never renames, renumbers or removes an action.
  lemma RowKeeps(row: Evidence, o: Opportunity, w: World, inScope: bool, next: nat)
    requires OneCurrent(o.actions) && KeysUnique(o.actions) && ReconcileRow(row, o, w, inScope, next).Some?
    ensures var after := ReconcileRow(row, o, w, inScope, next).value.0;
            OneCurrent(after) && KeysUnique(after) && Preserves(o.actions, after)
  {
    hide Withdrawn, Proposing, ProposalFor, Preserves, OneCurrent, KeysUnique;
    WithdrawnKeeps(o.actions);
    ProposalKey(row, o, w, ReplaceableCurrent(o.actions));
    var i := CurrentIndex(o.actions);
    if i == |o.actions| || Replaceable(o.actions[i]) {
      match ProposalFor(row, o, w, ReplaceableCurrent(o.actions)) {
        case Proposes(p) => ProposingKeeps(o.actions, p, next);
        case _ =>
      }
    }
  }

  // Work outside the scope, or no longer wanted, is withdrawn; nothing replaceable stays current.
  lemma UnwantedIsWithdrawn(row: Evidence, o: Opportunity, w: World, inScope: bool, next: nat)
    requires OneCurrent(o.actions) && KeysUnique(o.actions) && (!Eligible(row, o, inScope) || !row.shouldRemind)
    ensures ReconcileRow(row, o, w, inScope, next).Some?
    ensures var after := ReconcileRow(row, o, w, inScope, next).value.0;
            forall a | a in after :: IsCurrent(a) ==> !Replaceable(a)
  {
    WithdrawnKeeps(o.actions);
  }

  // ---------------------------------------------------------------- the second pass

  predicate Writes(c: Change) {
    c.ActionCreated? || c.ActionUpdated? || c.ActionReused? || c.ActionCancelled?
  }

  // A pass over `actions` leaves them as they are and reports no write.
  ghost predicate Idle(result: Option<(seq<Action>, seq<Change>)>, actions: seq<Action>) {
    result.Some? && result.value.0 == actions && forall c | c in result.value.1 :: !Writes(c)
  }

  // The rows a second pass would still change: the reminder names a message or meeting but no lead, and
  // only an account-level action in progress lets it through. The pass replaces that action by one keyed
  // to the message or meeting, after which nothing lets the row through and the new action is withdrawn.
  predicate Slips(row: Evidence, o: Opportunity, w: World, inScope: bool) {
    var current := ReplaceableCurrent(o.actions);
    && Eligible(row, o, inScope) && row.shouldRemind && !row.reminder.NotActionable?
    && row.target.None? && row.triggerNote.None? && !row.reminder.DefineNextStep?
    && (row.triggerMessage.Some? || row.triggerMeeting.Some?)
    && MessageFits(row, o, w) && MeetingFits(row, o, w)
    && CurrentAccountLevel(current, o.id)
    && var m := KeyIndex(o.actions, V2(o.id, Basis1(row, o.id, current)));
       (m == |o.actions| || Reusable(o.actions[m]))
  }

  lemma {:induction false} NoCurrentIndex(actions: seq<Action>)
    requires forall k | 0 <= k < |actions| :: !IsCurrent(actions[k])
    ensures CurrentIndex(actions) == |actions|
  {
    var i := CurrentIndex(actions);
  }

  lemma {:induction false} OnlyCurrentIndex(actions: seq<Action>, k: nat)
    requires k < |actions| && IsCurrent(actions[k]) && forall l | 0 <= l < |actions| && l != k :: !IsCurrent(actions[l])
    ensures CurrentIndex(actions) == k
  {
    var i := CurrentIndex(actions);
  }

  lemma WithdrawnTwice(actions: seq<Action>)
    requires OneCurrent(actions) && KeysUnique(actions)
    ensures Idle(Some(Withdrawn(Withdrawn(actions).0)), Withdrawn(actions).0)
  {
    var i := CurrentIndex(actions);
    if i == |actions| || Replaceable(actions[i]) {
      WithdrawnClears(actions, Authored(""));
      NoCurrentIndex(Withdrawn(actions).0);
    }
  }

  // The ledger after a proposal: either its action is the only current one and says what was proposed, or
  // the key is taken by finished work and nothing is current.
  ghost predicate Settled(actions: seq<Action>, p: Proposal, after: seq<Action>) {
    var k, m := CurrentIndex(after), KeyIndex(actions, p.key);
    if m < |actions| && !IsCurrent(actions[m]) && !Reusable(actions[m])
    then k == |after| == |actions| && KeyIndex(after, p.key) == m && after[m] == actions[m]
    else k < |after| && after[k].key == p.key && Updated(after[k], p) == after[k] && Replaceable(after[k])
  }

  lemma {:induction false} ProposingLeaves(actions: seq<Action>, p: Proposal, next: nat)
    requires OneCurrent(actions) && KeysUnique(actions) && p.key.V2?
    requires var i := CurrentIndex(actions); i == |actions| || Replaceable(actions[i])
    ensures Settled(actions, p, Proposing(actions, p, next).0)
  {
    var i := CurrentIndex(actions);
    if i < |actions| && actions[i].key == p.key {
      LeavesUpdated(actions, p, next);
    } else {
      LeavesEntered(actions, p, next);
    }
  }

  lemma {:induction false} LeavesUpdated(actions: seq<Action>, p: Proposal, next: nat)
    requires OneCurrent(actions) && KeysUnique(actions) && p.key.V2?
    requires var i := CurrentIndex(actions); i < |actions| && Replaceable(actions[i]) && actions[i].key == p.key
    ensures Settled(actions, p, Proposing(actions, p, next).0)
  {
    hide Withdrawn;
    OthersNotCurrent(actions);
    KeyIs(actions, p.key, CurrentIndex(actions));
    hide OneCurrent, KeysUnique;
    OnlyCurrentIndex(Proposing(actions, p, next).0, CurrentIndex(actions));
  }

  lemma {:induction false} LeavesEntered(actions: seq<Action>, p: Proposal, next: nat)
    requires OneCurrent(actions) && KeysUnique(actions) && p.key.V2?
    requires var i := CurrentIndex(actions); i == |actions| || (Replaceable(actions[i]) && actions[i].key != p.key)
    ensures Settled(actions, p, Proposing(actions, p, next).0)
  {
    hide Withdrawn, OneCurrent, KeysUnique, Preserves;
    OthersNotCurrent(actions);
    WithdrawnKeeps(actions);
    WithdrawnClears(actions, p.key);
    var m, after, cleared := KeyIndex(actions, p.key), Proposing(actions, p, next).0, Withdrawn(actions).0;
    if m == |actions| {
      OnlyCurrentIndex(after, |actions|);
    } else if Reusable(cleared[m]) {
      OnlyCurrentIndex(after, m);
    } else {
      NoCurrentIndex(after);
    }
  }

  lemma {:induction false} SameKeys(one: seq<Action>, two: seq<Action>, key: Key)
    requires |one| == |two| && forall k | 0 <= k < |one| :: one[k].key == two[k].key
    ensures KeyIndex(one, key) == KeyIndex(two, key)
  {
    var i, j := KeyIndex(one, key), KeyIndex(two, key);
  }

  // The part of `Slips` that concerns the row and the action in progress.
  predicate SlipsAt(row: Evidence, opportunity: int, current: Option<Action>) {
    && row.target.None? && row.triggerNote.None? && !row.reminder.DefineNextStep?
    && (row.triggerMessage.Some? || row.triggerMeeting.Some?)
    && CurrentAccountLevel(current, opportunity)
  }

  // Proposing again, with the action the first proposal left: the same proposal, or none at all.
  lemma ProposedAgain(row: Evidence, o: Opportunity, w: World, current: Option<Action>, a: Action, p: Proposal)
    requires ProposalFor(row, o, w, current) == Proposes(p) && a.key == p.key && Updated(a, p) == a && Replaceable(a)
    ensures ProposalFor(row, o, w, Some(a)) == if SlipsAt(row, o.id, current) then NoProposal else Proposes(p)
  {
    hide MessageFits, NoteFits, MeetingFits, Translated;
    assert a.target == row.target && a.kind == p.kind && a.description == p.description && a.channel == p.channel;
    if !SlipsAt(row, o.id, current) {
      assert Basis1(row, o.id, Some(a)) == Basis1(row, o.id, current);
    }
  }

  // Proposing again when nothing is current: nothing, or the same key.
  lemma ProposedAfresh(row: Evidence, o: Opportunity, w: World, current: Option<Action>, p: Proposal)
    requires ProposalFor(row, o, w, current) == Proposes(p) && (current.Some? ==> current.value.key != p.key)
    ensures var again := ProposalFor(row, o, w, None);
            again.NoProposal? || (again.Proposes? && again.proposal.key == p.key)
  {
    hide MessageFits, NoteFits, MeetingFits, Translated;
  }

  lemma NothingAgain(row: Evidence, o: Opportunity, w: World, current: Option<Action>)
    requires ProposalFor(row, o, w, current).NoProposal?
    ensures ProposalFor(row, o, w, None).NoProposal?
  {
    hide MessageFits, NoteFits, MeetingFits, Translated;
  }

  lemma SlippingProposes(row: Evidence, o: Opportunity, w: World, inScope: bool)
    requires Slips(row, o, w, inScope)
    ensures var c := ReplaceableCurrent(o.actions);
            && SlipsAt(row, o.id, c) && ProposalFor(row, o, w, c).Proposes?
            && ProposalFor(row, o, w, c).proposal.key == V2(o.id, Basis1(row, o.id, c))
            && !Basis1(row, o.id, c).OfAccount?
  {
    hide Translated;
  }

  lemma {:induction false} IdleWithout(actions: seq<Action>, p: Proposal, next: nat)
    requires CurrentIndex(actions) == |actions| && KeyIndex(actions, p.key) < |actions|
    requires !Reusable(actions[KeyIndex(actions, p.key)])
    ensures Idle(Some(Proposing(actions, p, next)), actions)
  {
  }

  lemma {:induction false} IdleWith(actions: seq<Action>, p: Proposal, next: nat)
    requires var k := CurrentIndex(actions); k < |actions| && actions[k].key == p.key && Updated(actions[k], p) == actions[k]
    ensures Idle(Some(Proposing(actions, p, next)), actions)
  {
  }

  lemma {:induction false} Cancels(actions: seq<Action>)
    requires var k := CurrentIndex(actions); k < |actions| && Replaceable(actions[k])
    ensures !Idle(Some(Withdrawn(actions)), actions)
  {
    assert Withdrawn(actions).0[CurrentIndex(actions)] != actions[CurrentIndex(actions)];
  }

  // The second pass after a proposal was carried out.
  lemma SecondAfterProposal(row: Evidence, o: Opportunity, w: World, inScope: bool, p: Proposal, next: nat, next2: nat)
    requires OneCurrent(o.actions) && KeysUnique(o.actions) && Eligible(row, o, inScope) && row.shouldRemind
    requires var i := CurrentIndex(o.actions); i == |o.actions| || Replaceable(o.actions[i])
    requires ProposalFor(row, o, w, ReplaceableCurrent(o.actions)) == Proposes(p)
    ensures var after := Proposing(o.actions, p, next).0;
            Idle(ReconcileRow(row, o.(actions := after), w, inScope, next2), after) <==> !Slips(row, o, w, inScope)
  {
    hide Proposing, Withdrawn, ProposalFor, Idle, ReconcileRow, Slips;
    var i, m := CurrentIndex(o.actions), KeyIndex(o.actions, p.key);
    ProposalKey(row, o, w, ReplaceableCurrent(o.actions));
    ProposingLeaves(o.actions, p, next);
    if m < |o.actions| && i < |o.actions| && o.actions[i].key == p.key { KeyIs(o.actions, p.key, i); }
    OthersNotCurrent(o.actions);
    hide OneCurrent, KeysUnique;
    if m < |o.actions| && !IsCurrent(o.actions[m]) && !Reusable(o.actions[m]) {
      SecondAfterTerminal(row, o, w, inScope, p, Proposing(o.actions, p, next).0, next2);
    } else {
      SecondAfterLeft(row, o, w, inScope, p, Proposing(o.actions, p, next).0, next2);
    }
  }

  // The key was taken by finished work: nothing is current after the first pass.
  lemma SecondAfterTerminal(row: Evidence, o: Opportunity, w: World, inScope: bool, p: Proposal, after: seq<Action>, next2: nat)
    requires Eligible(row, o, inScope) && row.shouldRemind
    requires var c := ReplaceableCurrent(o.actions); ProposalFor(row, o, w, c) == Proposes(p) && (c.Some? ==> c.value.key != p.key)
    requires Settled(o.actions, p, after)
    requires var m := KeyIndex(o.actions, p.key); m < |o.actions| && !IsCurrent(o.actions[m]) && !Reusable(o.actions[m])
    ensures Idle(ReconcileRow(row, o.(actions := after), w, inScope, next2), after) && !Slips(row, o, w, inScope)
  {
    hide Proposing, Withdrawn, ProposalFor, Idle;
    var c := ReplaceableCurrent(o.actions);
    if Slips(row, o, w, inScope) { SlippingProposes(row, o, w, inScope); }
    ProposedAfresh(row, o, w, c, p);
    SameSurroundings(row, o, after, w, None);
    match ProposalFor(row, o, w, None) {
      case NoProposal => IdleWithdrawn(after);
      case Proposes(again) => IdleWithout(after, again, next2);
    }
  }

  // The proposal is current after the first pass.
  lemma SecondAfterLeft(row: Evidence, o: Opportunity, w: World, inScope: bool, p: Proposal, after: seq<Action>, next2: nat)
    requires OneCurrent(o.actions) && KeysUnique(o.actions) && Eligible(row, o, inScope) && row.shouldRemind
    requires ProposalFor(row, o, w, ReplaceableCurrent(o.actions)) == Proposes(p) && Settled(o.actions, p, after)
    requires var m := KeyIndex(o.actions, p.key); m == |o.actions| || IsCurrent(o.actions[m]) || Reusable(o.actions[m])
    ensures Idle(ReconcileRow(row, o.(actions := after), w, inScope, next2), after) <==> !Slips(row, o, w, inScope)
  {
    hide Proposing, Withdrawn, ProposalFor, Idle, OneCurrent, KeysUnique, Slips;
    var c, k := ReplaceableCurrent(o.actions), CurrentIndex(after);
    if Slips(row, o, w, inScope) { SlippingProposes(row, o, w, inScope); }
    SameSurroundings(row, o, after, w, Some(after[k]));
    ProposedAgain(row, o, w, c, after[k], p);
    if SlipsAt(row, o.id, c) {
      SlipsHere(row, o, w, inScope, p);
      Cancels(after);
    } else {
      IdleWith(after, p, next2);
    }
  }

  lemma SameSurroundings(row: Evidence, o: Opportunity, after: seq<Action>, w: World, current: Option<Action>)
    ensures ProposalFor(row, o.(actions := after), w, current) == ProposalFor(row, o, w, current)
  {
    hide Translated, Basis1;
  }

  lemma {:induction false} IdleWithdrawn(actions: seq<Action>)
    requires CurrentIndex(actions) == |actions|
    ensures Idle(Some(Withdrawn(actions)), actions)
  {
  }

  lemma SlipsHere(row: Evidence, o: Opportunity, w: World, inScope: bool, p: Proposal)
    requires OneCurrent(o.actions) && KeysUnique(o.actions) && Eligible(row, o, inScope) && row.shouldRemind
    requires ProposalFor(row, o, w, ReplaceableCurrent(o.actions)) == Proposes(p)
    requires SlipsAt(row, o.id, ReplaceableCurrent(o.actions))
    requires var m := KeyIndex(o.actions, p.key); m == |o.actions| || IsCurrent(o.actions[m]) || Reusable(o.actions[m])
    ensures Slips(row, o, w, inScope)
  {
    hide Translated;
    OthersNotCurrent(o.actions);
  }

  // A second pass over the same row changes nothing, except exactly for the rows that slip.
  lemma SecondPassExactly(row: Evidence, o: Opportunity, w: World, inScope: bool, next: nat, next2: nat)
    requires OneCurrent(o.actions) && KeysUnique(o.actions) && ReconcileRow(row, o, w, inScope, next).Some?
    ensures var after := ReconcileRow(row, o, w, inScope, next).value.0;
            Idle(ReconcileRow(row, o.(actions := after), w, inScope, next2), after) <==> !Slips(row, o, w, inScope)
  {
    var c, i := ReplaceableCurrent(o.actions), CurrentIndex(o.actions);
    var after := ReconcileRow(row, o, w, inScope, next).value.0;
    var cleared := Withdrawn(o.actions).0;
    if Slips(row, o, w, inScope) { SlippingProposes(row, o, w, inScope); }
    WithdrawnTwice(o.actions);
    if Eligible(row, o, inScope) && row.shouldRemind && (i == |o.actions| || Replaceable(o.actions[i])) {
      WithdrawnClears(o.actions, Authored(""));
      NoCurrentIndex(cleared);
      hide Withdrawn, Proposing, ProposalFor, Idle, OneCurrent, KeysUnique;
      match ProposalFor(row, o, w, c) {
        case NoProposal =>
          NothingAgain(row, o, w, c);
          SameSurroundings(row, o, cleared, w, None);
        case Proposes(p) => SecondAfterProposal(row, o, w, inScope, p, next, next2);
      }
    } else if i < |o.actions| && !Replaceable(o.actions[i]) {
      assert cleared == o.actions;
    }
  }

  // The promised case: rows whose message or meeting always carries a target lead.
  lemma TargetedRowsSettle(row: Evidence, o: Opportunity, w: World, inScope: bool, next: nat, next2: nat)
    requires OneCurrent(o.actions) && KeysUnique(o.actions) && ReconcileRow(row, o, w, inScope, next).Some?
    requires row.triggerMessage.Some? || row.triggerMeeting.Some? ==> row.target.Some?
    ensures var after := ReconcileRow(row, o, w, inScope, next).value.0;
            Idle(ReconcileRow(row, o.(actions := after), w, inScope, next2), after)
  {
    SecondPassExactly(row, o, w, inScope, next, next2);
  }
}
