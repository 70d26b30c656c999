/** The playbook run against one container: each block is a method that
    records the calls it makes into the platform, and the platform resumes
    registered callbacks in whatever order their requests resolve. */
module Playbook {
  import opened Collected
  import opened Events
  import opened Routing
  import opened Outcome

  class Case {
    /** The container's status, as set_status leaves it. */
    var status: string
    /** Every call made into the platform, in issue order. */
    var issued: seq<Event>
    /** Callbacks whose request has been issued and not yet resumed. */
    var pending: seq<Continuation>
    /** The platform's answers for this case. */
    const outcomes: Outcomes
    const initialStatus: string

    /** What has been issued plus what the pending callbacks will still issue
        is always the whole run; every pending callback was registered by an
        issued request and is one the playbook registers; the status is
        closed exactly when set_status ran. */
    ghost predicate Valid()
      reads this
    {
      Consistent(issued, pending, status, outcomes, initialStatus)
    }

    /** The block just run appended `events` to the log, registered their
        callbacks, and closed the case iff one of them set the status. */
    twostate predicate Appended(events: seq<Event>)
      reads this
    {
      && issued == old(issued) + events
      && pending == old(pending) + ContinuationsOf(events)
      && status == (if Closed in events then "closed" else old(status))
    }

    /** The platform starts the playbook on a container: on_start. */
    constructor Launch(initialStatus: string, outcomes: Outcomes)
      ensures Valid()
      ensures this.outcomes == outcomes && this.initialStatus == initialStatus
      ensures issued == [ListDevicesAct()]
      ensures pending == [Continuation(Block.Filter1, Block.ListMobileDevices)]
      ensures status == initialStatus
    {
      this.outcomes := outcomes;
      this.initialStatus := initialStatus;
      status := initialStatus;
      issued := [];
      pending := [];
      new;
      RunListMobileDevices(Block.OnStart, outcomes);
      OnStart();
      assert issued == Run(Block.OnStart, Block.OnStart, outcomes);
      assert pending == ContinuationsOf(Run(Block.OnStart, Block.OnStart, outcomes));
    }

    /** phantom.act, phantom.format or phantom.prompt: the call is recorded,
        and an act or a prompt registers its callback. */
    method Issue(e: Event)
      requires !e.SetStatus?
      modifies this
      ensures Appended([e])
    {
      assert [e][0] == e && [e][1..] == [];
      issued := issued + [e];
      if e.Resolves() {
        pending := pending + [Continuation(e.callback, e.name)];
      }
    }

    method OnStart()
      modifies this
      ensures Appended([ListDevicesAct()])
    {
      ListMobileDevices();
    }

    method ListMobileDevices()
      modifies this
      ensures Appended([ListDevicesAct()])
    {
      var parameters := [ListDevices(500000, "1")];
      Issue(Act("list devices", parameters, ["mobileiron"], Block.Filter1, Block.ListMobileDevices));
    }

    method Filter1()
      modifies this
      ensures Appended(if outcomes.deviceMatch.Any() then [LockDeviceAct(outcomes.lockRows)] else [])
    {
      if outcomes.deviceMatch.Any() {
        LockDevice1();
      }
    }

    method LockDevice1()
      modifies this
      ensures Appended([LockDeviceAct(outcomes.lockRows)])
    {
      var parameters := BuildParameters(outcomes.lockRows, LockDeviceRequest);
      Issue(Act("lock device", parameters, ["mobileiron"], Block.GetUserAttributes1, Block.LockDevice1));
    }

    method GetUserAttributes1()
      modifies this
      ensures Appended([UserAttributesAct(outcomes.userRows)])
    {
      var parameters := BuildParameters(outcomes.userRows, UserAttributesRequest);
      Issue(Act("get user attributes", parameters, ["domainctrl1"], Block.Filter3, Block.GetUserAttributes1));
    }

    method Filter3()
      modifies this
      ensures Appended((if outcomes.notExecutive.Any() then [ResetPassword1Act(outcomes.resetRows1)] else [])
                       + (if outcomes.executive.Any() then [PromptEvent()] else []))
    {
      ghost var first: seq<Event> := if outcomes.notExecutive.Any() then [ResetPassword1Act(outcomes.resetRows1)] else [];
      ghost var second: seq<Event> := if outcomes.executive.Any() then [PromptEvent()] else [];
      ghost var issued0, pending0 := issued, pending;
      if outcomes.notExecutive.Any() {
        ResetPassword1();
      }
      assert issued == issued0 + first && pending == pending0 + ContinuationsOf(first);
      ghost var issued1, pending1 := issued, pending;
      if outcomes.executive.Any() {
        Prompt1();
      }
      assert issued == issued1 + second && pending == pending1 + ContinuationsOf(second);
      ContinuationsOfAppend(first, second);
    }

    method ResetPassword1()
      modifies this
      ensures Appended([ResetPassword1Act(outcomes.resetRows1)])
    {
      var parameters := BuildParameters(outcomes.resetRows1, ResetPasswordRequest);
      Issue(Act("reset password", parameters, ["domainctrl1"], Block.Format3, Block.ResetPassword1));
    }

    method Format3()
      modifies this
      ensures Appended([FormatRequest(Block.CreateTicket3), TicketAct(Block.CreateTicket3)])
    {
      Issue(Format3Event());
      CreateTicket3();
      ContinuationsOfAppend([Format3Event()], [TicketAct(Block.CreateTicket3)]);
    }

    method CreateTicket3()
      modifies this
      ensures Appended([TicketAct(Block.CreateTicket3)])
    {
      var parameters := [CreateTicket(TicketShortDescription, "", "", FormatData(Block.Format3), "")];
      Issue(Act("create ticket", parameters, ["servicenow"], Block.JoinSetStatus1, Block.CreateTicket3));
    }

    method Prompt1()
      modifies this
      ensures Appended([PromptEvent()])
    {
      Issue(Prompt("admin", PromptMessage, 30, Block.Prompt1, [ExecutiveUsernamePath], Range(1, 100), Block.Decision2));
    }

    method Decision2()
      modifies this
      ensures Appended(if outcomes.responseIs1.Any() then [ResetPassword2Act(outcomes.resetRows2)]
                       else if outcomes.responseIs2.Any() then [Format5Event(), TicketAct(Block.CreateTicket1)]
                       else [])
    {
      if outcomes.responseIs1.Any() {
        ResetPassword2();
        return;
      }
      if outcomes.responseIs2.Any() {
        Format5();
        return;
      }
    }

    method ResetPassword2()
      modifies this
      ensures Appended([ResetPassword2Act(outcomes.resetRows2)])
    {
      var parameters := BuildParameters(outcomes.resetRows2, ResetPasswordRequest);
      Issue(Act("reset password", parameters, ["domainctrl1"], Block.Format4, Block.ResetPassword2));
    }

    method Format4()
      modifies this
      ensures Appended([FormatRequest(Block.CreateTicket2), TicketAct(Block.CreateTicket2)])
    {
      Issue(Format4Event());
      CreateTicket2();
      ContinuationsOfAppend([Format4Event()], [TicketAct(Block.CreateTicket2)]);
    }

    method CreateTicket2()
      modifies this
      ensures Appended([TicketAct(Block.CreateTicket2)])
    {
      var parameters := [CreateTicket(TicketShortDescription, "", "", FormatData(Block.Format4), "")];
      Issue(Act("create ticket", parameters, ["servicenow"], Block.JoinSetStatus1, Block.CreateTicket2));
    }

    method Format5()
      modifies this
      ensures Appended([FormatRequest(Block.CreateTicket1), TicketAct(Block.CreateTicket1)])
    {
      Issue(Format5Event());
      CreateTicket1();
      ContinuationsOfAppend([Format5Event()], [TicketAct(Block.CreateTicket1)]);
    }

    method CreateTicket1()
      modifies this
      ensures Appended([TicketAct(Block.CreateTicket1)])
    {
      var parameters := [CreateTicket(TicketShortDescription, "", "", FormatData(Block.Format5), "")];
      Issue(Act("create ticket", parameters, ["servicenow"], Block.JoinSetStatus1, Block.CreateTicket1));
    }

    /** `action` is the ticket action whose resolution triggered this call. */
    method JoinSetStatus1(action: Block)
      modifies this
      ensures Appended(if outcomes.ActionsDone(action) then [Closed] else [])
    {
      if outcomes.ActionsDone(action) {
        SetStatus1();
      }
    }

    method SetStatus1()
      modifies this
      ensures Appended([Closed])
    {
      status := "closed";
      issued := issued + [Closed];
    }

    /** The platform calls `block` as the callback of `action`. */
    method Dispatch(block: Block, action: Block)
      requires IsCallback(block)
      modifies this
      ensures Appended(Run(block, action, outcomes))
    {
      match block
      case Filter1 => RunFilter1(action, outcomes); Filter1();
      case GetUserAttributes1 => RunLeaf(Block.GetUserAttributes1, action, outcomes); GetUserAttributes1();
      case Filter3 => RunFilter3(action, outcomes); Filter3();
      case Format3 => RunFormat(Block.CreateTicket3, action, outcomes); Format3();
      case Decision2 => RunDecision2(action, outcomes); Decision2();
      case Format4 => RunFormat(Block.CreateTicket2, action, outcomes); Format4();
      case JoinSetStatus1 => RunJoin(action, outcomes); JoinSetStatus1(action);
    }

    /** The request behind pending callback `k` resolved: the platform resumes
        it. Each resumption brings the run strictly closer to its end. */
    method Resume(k: nat)
      requires Valid()
      requires k < |pending|
      modifies this
      ensures Valid()
      ensures var c := old(pending[k]);
        && issued == old(issued) + Run(c.block, c.after, outcomes)
        && pending == old(pending[..k] + pending[k + 1..]) + ContinuationsOf(Run(c.block, c.after, outcomes))
      ensures || |Outstanding(pending, outcomes)| < old(|Outstanding(pending, outcomes)|)
              || (Outstanding(pending, outcomes) == old(Outstanding(pending, outcomes)) && |pending| < old(|pending|))
    {
      var c := pending[k];
      ghost var events := Run(c.block, c.after, outcomes);
      TotalUnfold(c, outcomes);
      RunBelow(c.block, c.after, outcomes);
      ResumeKeepsConsistent(issued, pending, status, k, events, outcomes, initialStatus);
      ResumeProgress(pending, k, outcomes);
      pending := pending[..k] + pending[k + 1..];
      Dispatch(c.block, c.after);
    }

    /** The platform resumes pending callbacks until none is left, choosing
        the i-th one by `schedule` (any order requests may resolve in). For
        the given platform answers, every order ends and issues the same
        calls. */
    method RunToCompletion(schedule: seq<nat>)
      requires Valid()
      modifies this
      ensures Valid() && pending == []
      ensures multiset(issued) == Whole(outcomes)
      ensures status == (if Closed in Whole(outcomes) then "closed" else initialStatus)
      ensures status == (if ClosesCase(outcomes) then "closed" else initialStatus)
      ensures forall e :: e != Closed ==> multiset(issued)[e] <= 1
      ensures old(issued) <= issued
    {
      var i := 0;
      while pending != []
        invariant Valid()
        invariant old(issued) <= issued
        decreases |Outstanding(pending, outcomes)|, |pending|
      {
        var k := if i < |schedule| then schedule[i] % |pending| else 0;
        Resume(k);
        i := i + 1;
      }
      assert Outstanding(pending, outcomes) == multiset{};
      ClosedIff(outcomes);
      forall e | e != Closed
        ensures multiset(issued)[e] <= 1
      {
        IssuedAtMostOnce(outcomes, e);
      }
    }
  }
}
