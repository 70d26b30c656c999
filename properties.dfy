/** What one run of the playbook issues, for every combination of platform
    answers, whatever order the requests resolve in. */
module Properties {
  import opened Collected
  import opened Events
  import opened Routing

  /** What the join callback following `ticket` issues. */
  function JoinPart(ticket: Block, o: Outcomes): multiset<Event> {
    if o.ActionsDone(ticket) then multiset{Closed} else multiset{}
  }

  /** The ticket path of filter_3's first branch, after reset_password_1. */
  function DirectResetPart(o: Outcomes): multiset<Event> {
    multiset{Format3Event(), TicketAct(CreateTicket3)} + JoinPart(CreateTicket3, o)
  }

  /** What decision_2 leads to once the prompt is answered. */
  function DecisionPart(o: Outcomes): multiset<Event> {
    if o.responseIs1.Any() then
      multiset{ResetPassword2Act(o.resetRows2), Format4Event(), TicketAct(CreateTicket2)} + JoinPart(CreateTicket2, o)
    else if o.responseIs2.Any() then
      multiset{Format5Event(), TicketAct(CreateTicket1)} + JoinPart(CreateTicket1, o)
    else multiset{}
  }

  /** What filter_3's first branch leads to: the direct reset and its ticket. */
  function DirectBranchPart(o: Outcomes): multiset<Event> {
    if o.notExecutive.Any() then multiset{ResetPassword1Act(o.resetRows1)} + DirectResetPart(o) else multiset{}
  }

  /** What filter_3's second branch leads to: the prompt and its decision. */
  function ExecutiveBranchPart(o: Outcomes): multiset<Event> {
    if o.executive.Any() then multiset{PromptEvent()} + DecisionPart(o) else multiset{}
  }

  /** What filter_3 leads to: either branch, both, or neither. */
  function UserPart(o: Outcomes): multiset<Event> {
    DirectBranchPart(o) + ExecutiveBranchPart(o)
  }

  /** What filter_1 leads to. */
  function FollowUp(o: Outcomes): multiset<Event> {
    if o.deviceMatch.Any() then
      multiset{LockDeviceAct(o.lockRows), UserAttributesAct(o.userRows)} + UserPart(o)
    else multiset{}
  }

  /** The whole run, written out branch by branch. */
  function Expected(o: Outcomes): multiset<Event> {
    multiset{ListDevicesAct()} + FollowUp(o)
  }

  /** A request that resolves registers its own callback, under its name. */
  lemma ContinuationsOne(e: Event)
    ensures ContinuationsOf([e]) == if e.Resolves() then [Continuation(e.callback, e.name)] else []
  {
    assert [e][0] == e && [e][1..] == [];
  }

  lemma TotalJoin(ticket: Block, o: Outcomes)
    ensures Total(Continuation(JoinSetStatus1, ticket), o) == JoinPart(ticket, o)
  {
    var c := Continuation(JoinSetStatus1, ticket);
    TotalUnfold(c, o);
    RunJoin(ticket, o);
    assert ContinuationsOf(Run(c.block, c.after, o)) == [];
  }

  lemma FormatContinuations(ticket: Block, after: Block, o: Outcomes)
    requires IsTicket(ticket)
    ensures ContinuationsOf(Run(DescriptionSource(ticket), after, o)) == [Continuation(JoinSetStatus1, ticket)]
  {
    var own := Own(DescriptionSource(ticket), o);
    RunFormat(ticket, after, o);
    ContinuationsOfAppend(own, [TicketAct(ticket)]);
    ContinuationsOne(TicketAct(ticket));
    FormatRegistersNothing(ticket, o);
  }

  /** A format request registers no callback. */
  lemma FormatRegistersNothing(ticket: Block, o: Outcomes)
    requires IsTicket(ticket)
    ensures ContinuationsOf(Own(DescriptionSource(ticket), o)) == []
  {
    match ticket
    case CreateTicket3 => ContinuationsOne(Format3Event());
    case CreateTicket2 => ContinuationsOne(Format4Event());
    case CreateTicket1 => ContinuationsOne(Format5Event());
  }

  lemma JoinOutstanding(ticket: Block, o: Outcomes)
    ensures Outstanding([Continuation(JoinSetStatus1, ticket)], o) == JoinPart(ticket, o)
  {
    OutstandingSingle(Continuation(JoinSetStatus1, ticket), o);
    TotalJoin(ticket, o);
  }

  /** A format callback files its ticket, then the join follows that ticket. */
  lemma TotalFormat(ticket: Block, after: Block, o: Outcomes)
    requires IsTicket(ticket)
    ensures Total(Continuation(DescriptionSource(ticket), after), o)
      == multiset(Run(DescriptionSource(ticket), after, o)) + JoinPart(ticket, o)
  {
    TotalUnfold(Continuation(DescriptionSource(ticket), after), o);
    FormatContinuations(ticket, after, o);
    JoinOutstanding(ticket, o);
  }

  lemma Format4Outstanding(o: Outcomes)
    ensures Outstanding([Continuation(Format4, ResetPassword2)], o)
      == multiset{Format4Event(), TicketAct(CreateTicket2)} + JoinPart(CreateTicket2, o)
  {
    OutstandingSingle(Continuation(Format4, ResetPassword2), o);
    TotalFormat(CreateTicket2, ResetPassword2, o);
    RunFormat(CreateTicket2, ResetPassword2, o);
    assert FormatRequest(CreateTicket2) == Format4Event();
  }

  lemma Format3Outstanding(o: Outcomes)
    ensures Outstanding([Continuation(Format3, ResetPassword1)], o) == DirectResetPart(o)
  {
    OutstandingSingle(Continuation(Format3, ResetPassword1), o);
    TotalFormat(CreateTicket3, ResetPassword1, o);
    RunFormat(CreateTicket3, ResetPassword1, o);
    assert FormatRequest(CreateTicket3) == Format3Event();
  }

  lemma TotalDecision2Reset(o: Outcomes)
    requires o.responseIs1.Any()
    ensures Total(Continuation(Decision2, Prompt1), o) == DecisionPart(o)
  {
    var r := ResetPassword2Act(o.resetRows2);
    TotalUnfold(Continuation(Decision2, Prompt1), o);
    RunDecision2(Prompt1, o);
    assert ContinuationsOf([r]) == [Continuation(Format4, ResetPassword2)] by {
      ContinuationsOne(r);
    }
    Format4Outstanding(o);
    AddOneToTwo(r, Format4Event(), TicketAct(CreateTicket2), JoinPart(CreateTicket2, o));
  }

  lemma TotalDecision2NoReset(o: Outcomes)
    requires !o.responseIs1.Any() && o.responseIs2.Any()
    ensures Total(Continuation(Decision2, Prompt1), o) == DecisionPart(o)
  {
    TotalUnfold(Continuation(Decision2, Prompt1), o);
    RunDecision2(Prompt1, o);
    RunFormat(CreateTicket1, Prompt1, o);
    assert FormatRequest(CreateTicket1) == Format5Event();
    FormatContinuations(CreateTicket1, Prompt1, o);
    JoinOutstanding(CreateTicket1, o);
  }

  /** Resuming decision_2 after the prompt issues the branch it chooses. */
  lemma TotalDecision2(o: Outcomes)
    ensures Total(Continuation(Decision2, Prompt1), o) == DecisionPart(o)
  {
    if o.responseIs1.Any() {
      TotalDecision2Reset(o);
    } else if o.responseIs2.Any() {
      TotalDecision2NoReset(o);
    } else {
      TotalUnfold(Continuation(Decision2, Prompt1), o);
      RunDecision2(Prompt1, o);
    }
  }

  /** filter_3's first branch: the direct reset, when condition 1 matched. */
  function DirectEvents(o: Outcomes): seq<Event> {
    if o.notExecutive.Any() then [ResetPassword1Act(o.resetRows1)] else []
  }

  /** filter_3's second branch: the prompt, when condition 2 matched. */
  function ExecutiveEvents(o: Outcomes): seq<Event> {
    if o.executive.Any() then [PromptEvent()] else []
  }

  lemma Filter3Run(o: Outcomes)
    ensures Run(Filter3, GetUserAttributes1, o) == DirectEvents(o) + ExecutiveEvents(o)
  {
    RunFilter3(GetUserAttributes1, o);
  }

  lemma DirectBranch(o: Outcomes)
    ensures multiset(DirectEvents(o)) + Outstanding(ContinuationsOf(DirectEvents(o)), o)
      == DirectBranchPart(o)
  {
    if o.notExecutive.Any() {
      ContinuationsOne(ResetPassword1Act(o.resetRows1));
      Format3Outstanding(o);
    }
  }

  lemma ExecutiveBranch(o: Outcomes)
    ensures multiset(ExecutiveEvents(o)) + Outstanding(ContinuationsOf(ExecutiveEvents(o)), o)
      == ExecutiveBranchPart(o)
  {
    if o.executive.Any() {
      ContinuationsOne(PromptEvent());
      OutstandingSingle(Continuation(Decision2, Prompt1), o);
      TotalDecision2(o);
    }
  }

  /** Resuming filter_3 issues each branch whose condition matched. */
  lemma TotalFilter3(o: Outcomes)
    ensures Total(Continuation(Filter3, GetUserAttributes1), o) == UserPart(o)
  {
    var first, second := DirectEvents(o), ExecutiveEvents(o);
    TotalUnfold(Continuation(Filter3, GetUserAttributes1), o);
    Filter3Run(o);
    ContinuationsOfAppend(first, second);
    OutstandingAppend(ContinuationsOf(first), ContinuationsOf(second), o);
    DirectBranch(o);
    ExecutiveBranch(o);
  }

  lemma TotalGetUserAttributes1(o: Outcomes)
    ensures Total(Continuation(GetUserAttributes1, LockDevice1), o)
      == multiset{UserAttributesAct(o.userRows)} + UserPart(o)
  {
    var u := UserAttributesAct(o.userRows);
    var next := Continuation(Filter3, GetUserAttributes1);
    TotalUnfold(Continuation(GetUserAttributes1, LockDevice1), o);
    assert Run(GetUserAttributes1, LockDevice1, o) == [u] by {
      RunLeaf(GetUserAttributes1, LockDevice1, o);
    }
    assert ContinuationsOf([u]) == [next] by {
      ContinuationsOne(u);
    }
    assert Outstanding([next], o) == UserPart(o) by {
      OutstandingSingle(next, o);
      TotalFilter3(o);
    }
  }

  lemma TotalFilter1(o: Outcomes)
    ensures Total(Continuation(Filter1, ListMobileDevices), o) == FollowUp(o)
  {
    var c := Continuation(Filter1, ListMobileDevices);
    TotalUnfold(c, o);
    RunFilter1(ListMobileDevices, o);
    if o.deviceMatch.Any() {
      var lock := LockDeviceAct(o.lockRows);
      var rest := multiset{UserAttributesAct(o.userRows)} + UserPart(o);
      var next := Continuation(GetUserAttributes1, LockDevice1);
      assert ContinuationsOf([lock]) == [next] by {
        ContinuationsOne(lock);
      }
      assert Outstanding([next], o) == rest by {
        OutstandingSingle(next, o);
        TotalGetUserAttributes1(o);
      }
      AddTwo(lock, UserAttributesAct(o.userRows), UserPart(o));
    } else {
      assert ContinuationsOf([]) == [];
    }
  }

  lemma AddTwo(a: Event, b: Event, m: multiset<Event>)
    ensures multiset{a} + (multiset{b} + m) == multiset{a, b} + m
  {
  }

  lemma AddOneToTwo(a: Event, b: Event, c: Event, m: multiset<Event>)
    ensures multiset{a} + (multiset{b, c} + m) == multiset{a, b, c} + m
  {
  }

  /** The whole run is exactly the branch-by-branch description. */
  lemma WholeIsExpected(o: Outcomes)
    ensures Whole(o) == Expected(o)
  {
    RunListMobileDevices(OnStart, o);
    OutstandingSingle(Continuation(Filter1, ListMobileDevices), o);
    TotalFilter1(o);
  }
}

