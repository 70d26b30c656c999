/** The properties one run of the playbook has, for every combination of
    platform answers and every order of resolution. */
module Outcome {
  import opened Collected
  import opened Events
  import opened Routing
  import opened Properties

  /** The routing that leads to each ticket block: filter_1 matched a device,
      then filter_3's condition 1 (create_ticket_3), or filter_3's condition 2
      followed by prompt response 1 (create_ticket_2) or, failing that,
      response 2 (create_ticket_1). */
  predicate TicketPath(ticket: Block, o: Outcomes)
    requires IsTicket(ticket)
  {
    && o.deviceMatch.Any()
    && match ticket
       case CreateTicket3 => o.notExecutive.Any()
       case CreateTicket2 => o.executive.Any() && o.responseIs1.Any()
       case CreateTicket1 => o.executive.Any() && !o.responseIs1.Any() && o.responseIs2.Any()
  }

  /** The case ends closed iff the join after some filed ticket found
      actions_done to hold. */
  predicate ClosesCase(o: Outcomes) {
    || (TicketPath(CreateTicket3, o) && o.doneAfterTicket3)
    || (TicketPath(CreateTicket2, o) && o.doneAfterTicket2)
    || (TicketPath(CreateTicket1, o) && o.doneAfterTicket1)
  }

  /** Each ticket's description is the output of the format request it is
      paired with. */
  lemma TicketDescribedByItsFormat(ticket: Block)
    requires IsTicket(ticket)
    ensures |TicketAct(ticket).parameters| == 1
    ensures TicketAct(ticket).parameters[0].description == FormatData(FormatRequest(ticket).name)
  {
  }

  /** Which block issued a request; only set_status_1 issues a status change. */
  function Issuer(e: Event): Block {
    if e.SetStatus? then SetStatus1 else e.name
  }

  /** Every request in `m` other than the closing status change was issued by
      one of the blocks in `s`. */
  predicate IssuedBy(m: multiset<Event>, s: set<Block>) {
    forall e :: e in m ==> e == Closed || Issuer(e) in s
  }

  /** No request other than the closing status change occurs twice in `m`. */
  ghost predicate AtMostOnce(m: multiset<Event>) {
    forall e :: e != Closed ==> m[e] <= 1
  }

  /** Requests issued by disjoint sets of blocks add up without repeats. */
  lemma Combine(a: multiset<Event>, sa: set<Block>, b: multiset<Event>, sb: set<Block>)
    requires IssuedBy(a, sa) && AtMostOnce(a)
    requires IssuedBy(b, sb) && AtMostOnce(b)
    requires sa !! sb
    ensures IssuedBy(a + b, sa + sb) && AtMostOnce(a + b)
  {
    forall e | e != Closed
      ensures (a + b)[e] <= 1
    {
      assert !(e in a && e in b);
    }
  }

  lemma JoinShape(ticket: Block, o: Outcomes)
    ensures IssuedBy(JoinPart(ticket, o), {}) && AtMostOnce(JoinPart(ticket, o))
  {
  }

  lemma DirectResetShape(o: Outcomes)
    ensures IssuedBy(DirectResetPart(o), {Format3, CreateTicket3}) && AtMostOnce(DirectResetPart(o))
  {
    var m := multiset{Format3Event(), TicketAct(CreateTicket3)};
    assert Issuer(Format3Event()) == Format3 && Issuer(TicketAct(CreateTicket3)) == CreateTicket3;
    assert IssuedBy(m, {Format3, CreateTicket3}) && AtMostOnce(m);
    JoinShape(CreateTicket3, o);
    Combine(m, {Format3, CreateTicket3}, JoinPart(CreateTicket3, o), {});
  }

  lemma DirectBranchShape(o: Outcomes)
    ensures IssuedBy(DirectBranchPart(o), {ResetPassword1, Format3, CreateTicket3})
    ensures AtMostOnce(DirectBranchPart(o))
  {
    if o.notExecutive.Any() {
      var r := ResetPassword1Act(o.resetRows1);
      assert Issuer(r) == ResetPassword1;
      assert IssuedBy(multiset{r}, {ResetPassword1}) && AtMostOnce(multiset{r});
      DirectResetShape(o);
      Combine(multiset{r}, {ResetPassword1}, DirectResetPart(o), {Format3, CreateTicket3});
    }
  }

  lemma DecisionShape(o: Outcomes)
    ensures IssuedBy(DecisionPart(o), {ResetPassword2, Format4, CreateTicket2, Format5, CreateTicket1})
    ensures AtMostOnce(DecisionPart(o))
  {
    if o.responseIs1.Any() {
      ResetDecisionShape(o);
    } else if o.responseIs2.Any() {
      NoResetDecisionShape(o);
    }
  }

  lemma ResetDecisionShape(o: Outcomes)
    requires o.responseIs1.Any()
    ensures IssuedBy(DecisionPart(o), {ResetPassword2, Format4, CreateTicket2})
    ensures AtMostOnce(DecisionPart(o))
  {
    var m := multiset{ResetPassword2Act(o.resetRows2), Format4Event(), TicketAct(CreateTicket2)};
    assert Issuer(ResetPassword2Act(o.resetRows2)) == ResetPassword2;
    assert Issuer(Format4Event()) == Format4 && Issuer(TicketAct(CreateTicket2)) == CreateTicket2;
    assert IssuedBy(m, {ResetPassword2, Format4, CreateTicket2}) && AtMostOnce(m);
    JoinShape(CreateTicket2, o);
    Combine(m, {ResetPassword2, Format4, CreateTicket2}, JoinPart(CreateTicket2, o), {});
  }

  lemma NoResetDecisionShape(o: Outcomes)
    requires !o.responseIs1.Any() && o.responseIs2.Any()
    ensures IssuedBy(DecisionPart(o), {Format5, CreateTicket1})
    ensures AtMostOnce(DecisionPart(o))
  {
    var m := multiset{Format5Event(), TicketAct(CreateTicket1)};
    assert Issuer(Format5Event()) == Format5 && Issuer(TicketAct(CreateTicket1)) == CreateTicket1;
    assert IssuedBy(m, {Format5, CreateTicket1}) && AtMostOnce(m);
    JoinShape(CreateTicket1, o);
    Combine(m, {Format5, CreateTicket1}, JoinPart(CreateTicket1, o), {});
  }

  lemma ExecutiveBranchShape(o: Outcomes)
    ensures IssuedBy(ExecutiveBranchPart(o), {Prompt1, ResetPassword2, Format4, CreateTicket2, Format5, CreateTicket1})
    ensures AtMostOnce(ExecutiveBranchPart(o))
  {
    if o.executive.Any() {
      assert Issuer(PromptEvent()) == Prompt1;
      assert IssuedBy(multiset{PromptEvent()}, {Prompt1}) && AtMostOnce(multiset{PromptEvent()});
      DecisionShape(o);
      Combine(multiset{PromptEvent()}, {Prompt1}, DecisionPart(o), {ResetPassword2, Format4, CreateTicket2, Format5, CreateTicket1});
    }
  }

  const UserBlocks: set<Block> :=
    {ResetPassword1, Format3, CreateTicket3, Prompt1, ResetPassword2, Format4, CreateTicket2, Format5, CreateTicket1}

  lemma UserShape(o: Outcomes)
    ensures IssuedBy(UserPart(o), UserBlocks) && AtMostOnce(UserPart(o))
  {
    DirectBranchShape(o);
    ExecutiveBranchShape(o);
    Combine(DirectBranchPart(o), {ResetPassword1, Format3, CreateTicket3},
            ExecutiveBranchPart(o), {Prompt1, ResetPassword2, Format4, CreateTicket2, Format5, CreateTicket1});
  }

  lemma FollowUpShape(o: Outcomes)
    ensures IssuedBy(FollowUp(o), {LockDevice1, GetUserAttributes1} + UserBlocks) && AtMostOnce(FollowUp(o))
  {
    if o.deviceMatch.Any() {
      var m := multiset{LockDeviceAct(o.lockRows), UserAttributesAct(o.userRows)};
      assert Issuer(LockDeviceAct(o.lockRows)) == LockDevice1;
      assert Issuer(UserAttributesAct(o.userRows)) == GetUserAttributes1;
      assert IssuedBy(m, {LockDevice1, GetUserAttributes1}) && AtMostOnce(m);
      UserShape(o);
      Combine(m, {LockDevice1, GetUserAttributes1}, UserPart(o), UserBlocks);
    }
  }

  /** Every request is issued at most once per run, and each by the block
      named after it. */
  lemma ExpectedShape(o: Outcomes)
    ensures IssuedBy(Expected(o), {ListMobileDevices, LockDevice1, GetUserAttributes1} + UserBlocks)
    ensures AtMostOnce(Expected(o))
  {
    var m := multiset{ListDevicesAct()};
    assert Issuer(ListDevicesAct()) == ListMobileDevices;
    assert IssuedBy(m, {ListMobileDevices}) && AtMostOnce(m);
    FollowUpShape(o);
    Combine(m, {ListMobileDevices}, FollowUp(o), {LockDevice1, GetUserAttributes1} + UserBlocks);
  }

  /** When no listed device matches the artifact, the run issues the device
      listing and nothing else. */
  lemma NoMatchStopsAfterListing(o: Outcomes)
    requires !o.deviceMatch.Any()
    ensures Whole(o) == multiset{ListDevicesAct()}
  {
    WholeIsExpected(o);
  }

  /** The device listing is issued exactly once, whatever happens next. */
  lemma ListedOnce(o: Outcomes)
    ensures Whole(o)[ListDevicesAct()] == 1
  {
    WholeIsExpected(o);
    ListedOnceInExpected(o);
  }

  lemma ListedOnceInExpected(o: Outcomes)
    ensures Expected(o)[ListDevicesAct()] == 1
  {
    var l := ListDevicesAct();
    assert FollowUp(o)[l] == 0 by {
      FollowUpShape(o);
      assert Issuer(l) == ListMobileDevices && l != Closed;
      assert ListMobileDevices !in {LockDevice1, GetUserAttributes1} + UserBlocks;
    }
  }

  /** A request issued by one of the blocks filter_1 leads to is in the run
      iff a device matched and it is in what filter_3 leads to. */
  lemma InUserPart(o: Outcomes, e: Event)
    requires e != Closed && Issuer(e) in UserBlocks
    ensures e in Whole(o) <==> o.deviceMatch.Any() && e in UserPart(o)
  {
    WholeIsExpected(o);
    InUserPartOfExpected(o, e);
  }

  lemma InUserPartOfExpected(o: Outcomes, e: Event)
    requires e != Closed && Issuer(e) in UserBlocks
    ensures e in Expected(o) <==> o.deviceMatch.Any() && e in UserPart(o)
  {
    assert e != ListDevicesAct() by {
      assert Issuer(ListDevicesAct()) == ListMobileDevices;
    }
    InUserPartOfFollowUp(o, e);
  }

  lemma InUserPartOfFollowUp(o: Outcomes, e: Event)
    requires e != Closed && Issuer(e) in UserBlocks
    ensures e in FollowUp(o) <==> o.deviceMatch.Any() && e in UserPart(o)
  {
    assert e != LockDeviceAct(o.lockRows) && e != UserAttributesAct(o.userRows) by {
      assert Issuer(LockDeviceAct(o.lockRows)) == LockDevice1;
      assert Issuer(UserAttributesAct(o.userRows)) == GetUserAttributes1;
    }
  }

  /** The lock request and the user lookup are issued iff a device matched. */
  lemma LockIff(o: Outcomes)
    ensures LockDeviceAct(o.lockRows) in Whole(o) <==> o.deviceMatch.Any()
    ensures UserAttributesAct(o.userRows) in Whole(o) <==> o.deviceMatch.Any()
  {
    WholeIsExpected(o);
    assert Issuer(ListDevicesAct()) == ListMobileDevices;
    assert Issuer(LockDeviceAct(o.lockRows)) == LockDevice1;
    assert Issuer(UserAttributesAct(o.userRows)) == GetUserAttributes1;
  }

  /** A request of filter_3's first branch is in what filter_3 leads to iff
      it is in that branch. */
  lemma InDirectBranch(o: Outcomes, e: Event)
    requires e != Closed && Issuer(e) in {ResetPassword1, Format3, CreateTicket3}
    ensures e in UserPart(o) <==> e in DirectBranchPart(o)
  {
    assert e !in ExecutiveBranchPart(o) by {
      ExecutiveBranchShape(o);
      assert Issuer(e) !in {Prompt1, ResetPassword2, Format4, CreateTicket2, Format5, CreateTicket1};
    }
  }

  /** A request of filter_3's second branch is in what filter_3 leads to iff
      it is in that branch. */
  lemma InExecutiveBranch(o: Outcomes, e: Event)
    requires e != Closed && Issuer(e) in {Prompt1, ResetPassword2, Format4, CreateTicket2, Format5, CreateTicket1}
    ensures e in UserPart(o) <==> e in ExecutiveBranchPart(o)
  {
    assert e !in DirectBranchPart(o) by {
      DirectBranchShape(o);
      assert Issuer(e) !in {ResetPassword1, Format3, CreateTicket3};
    }
  }

  /** filter_3's conditions are tested independently: the direct reset
      follows condition 1 and the prompt follows condition 2, so both, either
      or neither may be issued. */
  lemma Filter3Independent(o: Outcomes)
    ensures ResetPassword1Act(o.resetRows1) in Whole(o) <==> o.deviceMatch.Any() && o.notExecutive.Any()
    ensures PromptEvent() in Whole(o) <==> o.deviceMatch.Any() && o.executive.Any()
  {
    var r := ResetPassword1Act(o.resetRows1);
    assert Issuer(r) == ResetPassword1 && Issuer(PromptEvent()) == Prompt1;
    InUserPart(o, r);
    InDirectBranch(o, r);
    InUserPart(o, PromptEvent());
    InExecutiveBranch(o, PromptEvent());
  }

  /** decision_2 resets the executive's password iff the response was 1. */
  lemma ResetAfterPromptIff(o: Outcomes)
    ensures ResetPassword2Act(o.resetRows2) in Whole(o)
      <==> o.deviceMatch.Any() && o.executive.Any() && o.responseIs1.Any()
  {
    var r := ResetPassword2Act(o.resetRows2);
    assert Issuer(r) == ResetPassword2;
    InUserPart(o, r);
    InExecutiveBranch(o, r);
    InResetPassword2(o);
  }

  /** The executive reset is in filter_3's second branch iff the user is an
      executive and the response was 1. */
  lemma InResetPassword2(o: Outcomes)
    ensures ResetPassword2Act(o.resetRows2) in ExecutiveBranchPart(o) <==> o.executive.Any() && o.responseIs1.Any()
  {
    var r := ResetPassword2Act(o.resetRows2);
    assert Issuer(r) == ResetPassword2 && Issuer(PromptEvent()) == Prompt1 && r != Closed;
    assert Issuer(Format5Event()) == Format5 && Issuer(TicketAct(CreateTicket1)) == CreateTicket1;
  }

  lemma Ticket3Filed(o: Outcomes)
    ensures TicketAct(CreateTicket3) in Whole(o) <==> TicketPath(CreateTicket3, o)
    ensures Format3Event() in Whole(o) <==> TicketPath(CreateTicket3, o)
  {
    InDirectReset(o, TicketAct(CreateTicket3));
    InDirectReset(o, Format3Event());
  }

  /** filter_3's first branch files the ticket described by format_3. */
  lemma InDirectReset(o: Outcomes, e: Event)
    requires e == Format3Event() || e == TicketAct(CreateTicket3)
    ensures e in Whole(o) <==> TicketPath(CreateTicket3, o)
  {
    assert e != Closed && Issuer(e) in {Format3, CreateTicket3};
    assert e != ResetPassword1Act(o.resetRows1) by {
      assert Issuer(ResetPassword1Act(o.resetRows1)) == ResetPassword1;
    }
    InUserPart(o, e);
    InDirectBranch(o, e);
  }

  /** decision_2's first branch files the ticket described by format_4. */
  lemma InResetDecision(o: Outcomes, e: Event)
    requires e == Format4Event() || e == TicketAct(CreateTicket2)
    ensures e in ExecutiveBranchPart(o) <==> o.executive.Any() && o.responseIs1.Any()
  {
    assert Issuer(e) != Prompt1 && e != Closed;
    assert Issuer(Format5Event()) == Format5 && Issuer(TicketAct(CreateTicket1)) == CreateTicket1;
    assert Issuer(ResetPassword2Act(o.resetRows2)) == ResetPassword2;
  }

  /** decision_2's second branch files the ticket described by format_5. */
  lemma InNoResetDecision(o: Outcomes, e: Event)
    requires e == Format5Event() || e == TicketAct(CreateTicket1)
    ensures e in ExecutiveBranchPart(o) <==> o.executive.Any() && !o.responseIs1.Any() && o.responseIs2.Any()
  {
    assert Issuer(e) != Prompt1 && e != Closed;
    assert Issuer(Format4Event()) == Format4 && Issuer(TicketAct(CreateTicket2)) == CreateTicket2;
    assert Issuer(ResetPassword2Act(o.resetRows2)) == ResetPassword2;
  }

  lemma Ticket2Filed(o: Outcomes)
    ensures TicketAct(CreateTicket2) in Whole(o) <==> TicketPath(CreateTicket2, o)
    ensures Format4Event() in Whole(o) <==> TicketPath(CreateTicket2, o)
  {
    var t, f := TicketAct(CreateTicket2), Format4Event();
    assert Issuer(t) == CreateTicket2 && Issuer(f) == Format4;
    InUserPart(o, t);
    InExecutiveBranch(o, t);
    InResetDecision(o, t);
    InUserPart(o, f);
    InExecutiveBranch(o, f);
    InResetDecision(o, f);
  }

  lemma Ticket1Filed(o: Outcomes)
    ensures TicketAct(CreateTicket1) in Whole(o) <==> TicketPath(CreateTicket1, o)
    ensures Format5Event() in Whole(o) <==> TicketPath(CreateTicket1, o)
  {
    var t, f := TicketAct(CreateTicket1), Format5Event();
    assert Issuer(t) == CreateTicket1 && Issuer(f) == Format5;
    InUserPart(o, t);
    InExecutiveBranch(o, t);
    InNoResetDecision(o, t);
    InUserPart(o, f);
    InExecutiveBranch(o, f);
    InNoResetDecision(o, f);
  }

  /** Each ticket is filed iff the routing reaches its block, and it is
      filed together with the format request that describes it. */
  lemma TicketFiledIff(ticket: Block, o: Outcomes)
    requires IsTicket(ticket)
    ensures TicketAct(ticket) in Whole(o) <==> TicketPath(ticket, o)
    ensures FormatRequest(ticket) in Whole(o) <==> TicketPath(ticket, o)
  {
    match ticket
    case CreateTicket3 => Ticket3Filed(o);
    case CreateTicket2 => Ticket2Filed(o);
    case CreateTicket1 => Ticket1Filed(o);
  }

  /** A prompt answered with neither 1 nor 2 files no ticket on the
      executive path. */
  lemma UnansweredPromptFilesNothing(o: Outcomes)
    requires !o.responseIs1.Any() && !o.responseIs2.Any()
    ensures TicketAct(CreateTicket2) !in Whole(o) && TicketAct(CreateTicket1) !in Whole(o)
  {
    Ticket2Filed(o);
    Ticket1Filed(o);
  }

  lemma ClosedInDirectBranch(o: Outcomes)
    ensures Closed in DirectBranchPart(o) <==> o.notExecutive.Any() && o.doneAfterTicket3
  {
    assert ResetPassword1Act(o.resetRows1) != Closed;
    assert Format3Event() != Closed && TicketAct(CreateTicket3) != Closed;
  }

  lemma ClosedInDecision(o: Outcomes)
    ensures Closed in DecisionPart(o) <==>
      || (o.responseIs1.Any() && o.doneAfterTicket2)
      || (!o.responseIs1.Any() && o.responseIs2.Any() && o.doneAfterTicket1)
  {
    if o.responseIs1.Any() {
      var m := multiset{ResetPassword2Act(o.resetRows2), Format4Event(), TicketAct(CreateTicket2)};
      assert m[Closed] == 0;
      assert DecisionPart(o) == m + JoinPart(CreateTicket2, o);
    } else if o.responseIs2.Any() {
      var m := multiset{Format5Event(), TicketAct(CreateTicket1)};
      assert m[Closed] == 0;
      assert DecisionPart(o) == m + JoinPart(CreateTicket1, o);
    }
  }

  lemma ClosedInUserPart(o: Outcomes)
    ensures Closed in UserPart(o) <==>
      || (o.notExecutive.Any() && o.doneAfterTicket3)
      || (o.executive.Any() && o.responseIs1.Any() && o.doneAfterTicket2)
      || (o.executive.Any() && !o.responseIs1.Any() && o.responseIs2.Any() && o.doneAfterTicket1)
  {
    ClosedInDirectBranch(o);
    ClosedInDecision(o);
    assert PromptEvent() != Closed;
  }

  lemma ClosedInExpected(o: Outcomes)
    ensures Closed in Expected(o) <==> ClosesCase(o)
  {
    assert Closed in FollowUp(o) <==> o.deviceMatch.Any() && Closed in UserPart(o) by {
      assert LockDeviceAct(o.lockRows) != Closed && UserAttributesAct(o.userRows) != Closed;
    }
    assert Closed in Expected(o) <==> Closed in FollowUp(o) by {
      assert ListDevicesAct() != Closed;
    }
    ClosedInUserPart(o);
    ClosesCaseUnfolded(o);
  }

  lemma ClosesCaseUnfolded(o: Outcomes)
    ensures ClosesCase(o) <==>
      && o.deviceMatch.Any()
      && (|| (o.notExecutive.Any() && o.doneAfterTicket3)
          || (o.executive.Any() && o.responseIs1.Any() && o.doneAfterTicket2)
          || (o.executive.Any() && !o.responseIs1.Any() && o.responseIs2.Any() && o.doneAfterTicket1))
  {
  }

  /** The status is set to closed iff some ticket was filed and the join
      after it found actions_done to hold. */
  lemma ClosedIff(o: Outcomes)
    ensures Closed in Whole(o) <==> ClosesCase(o)
  {
    WholeIsExpected(o);
    ClosedInExpected(o);
  }

  /** Every request is issued at most once per run. */
  lemma IssuedAtMostOnce(o: Outcomes, e: Event)
    requires e != Closed
    ensures Whole(o)[e] <= 1
  {
    WholeIsExpected(o);
    ExpectedShape(o);
  }
}
