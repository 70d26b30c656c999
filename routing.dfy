/** The wiring of the playbook: which blocks each block calls directly, which
    callback each request registers, and what a whole run issues. */
module Routing {
  import opened Collected
  import opened Events

  /** What phantom.condition returned: the matched artifacts and results. */
  datatype Matches = Matches(artifacts: seq<Datum>, results: seq<Datum>) {
    /** `if matched_artifacts or matched_results`: either list is non-empty. */
    predicate Any() {
      |artifacts| > 0 || |results| > 0
    }
  }

  /** The platform's answers during one case: each condition evaluation, each
      data collection, and what actions_done reports in the join callback that
      follows each ticket action. */
  datatype Outcomes = Outcomes(
    deviceMatch: Matches,       // filter_1 condition_1: listed uuid == artifact deviceExternalId
    lockRows: seq<Row>,         // collect2 in lock_device_1: (uuid, artifact id)
    userRows: seq<Row>,         // collect2 in get_user_attributes_1: (userId, artifact id)
    notExecutive: Matches,      // filter_3 condition_1: username not in executives
    executive: Matches,         // filter_3 condition_2: username in executives
    resetRows1: seq<Row>,       // collect2 in reset_password_1
    responseIs1: Matches,       // decision_2 condition 1: prompt response == "1"
    responseIs2: Matches,       // decision_2 condition 2: prompt response == "2"
    resetRows2: seq<Row>,       // collect2 in reset_password_2
    doneAfterTicket3: bool,
    doneAfterTicket2: bool,
    doneAfterTicket1: bool)
  {
    /** actions_done over the three ticket actions, as seen by the join
        callback that the resolution of `after` triggered. */
    predicate ActionsDone(after: Block) {
      match after
      case CreateTicket3 => doneAfterTicket3
      case CreateTicket2 => doneAfterTicket2
      case CreateTicket1 => doneAfterTicket1
      case _ => false
    }
  }

  // ---- routing of the decision blocks ----

  /** filter_1 calls lock_device_1 iff its condition matched something. */
  function Filter1Calls(deviceMatch: Matches): (calls: seq<Block>)
    ensures LockDevice1 in calls <==> deviceMatch.Any()
    ensures forall b :: b in calls ==> b == LockDevice1
    ensures |calls| <= 1
  {
    if deviceMatch.Any() then [LockDevice1] else []
  }

  /** filter_3 tests its two conditions independently, the first one first:
      both, one or neither branch may be taken. */
  function Filter3Calls(notExecutive: Matches, executive: Matches): (calls: seq<Block>)
    ensures ResetPassword1 in calls <==> notExecutive.Any()
    ensures Prompt1 in calls <==> executive.Any()
    ensures forall b :: b in calls ==> b == ResetPassword1 || b == Prompt1
    ensures |calls| <= 2
    ensures |calls| == 2 ==> calls == [ResetPassword1, Prompt1]
  {
    (if notExecutive.Any() then [ResetPassword1] else [])
    + (if executive.Any() then [Prompt1] else [])
  }

  /** decision_2 is an if/elif: response 1 wins over response 2, and any
      other outcome calls nothing. */
  function Decision2Calls(responseIs1: Matches, responseIs2: Matches): (calls: seq<Block>)
    ensures ResetPassword2 in calls <==> responseIs1.Any()
    ensures Format5 in calls <==> !responseIs1.Any() && responseIs2.Any()
    ensures |calls| <= 1
    ensures forall b :: b in calls ==> b == ResetPassword2 || b == Format5
  {
    if responseIs1.Any() then [ResetPassword2]
    else if responseIs2.Any() then [Format5]
    else []
  }

  /** join_set_status_1 calls set_status_1 iff actions_done held. */
  function JoinCalls(done: bool): (calls: seq<Block>)
    ensures SetStatus1 in calls <==> done
    ensures forall b :: b in calls ==> b == SetStatus1
    ensures |calls| <= 1
  {
    if done then [SetStatus1] else []
  }

  // ---- the blocks ----

  /** Height of a block in the callback graph: every callback a block's run
      registers is lower, every block it calls directly is no higher. */
  function Depth(b: Block): (d: nat)
    ensures d < MaxDepth
  {
    match b
    case OnStart | ListMobileDevices => 7
    case Filter1 | LockDevice1 => 6
    case GetUserAttributes1 => 5
    case Filter3 | Prompt1 => 4
    case ResetPassword1 | Decision2 | ResetPassword2 => 3
    case Format3 | Format4 | Format5 | CreateTicket3 | CreateTicket2 | CreateTicket1 => 2
    case JoinSetStatus1 => 1
    case SetStatus1 => 0
  }

  const MaxDepth: nat := 8

  /** Nesting of direct calls below a block. */
  function SyncRank(b: Block): nat {
    match b
    case Decision2 => 2
    case OnStart | Filter1 | Filter3 | Format3 | Format4 | Format5 | JoinSetStatus1 => 1
    case _ => 0
  }

  /** The call a block itself makes into the platform. */
  function Own(b: Block, o: Outcomes): seq<Event> {
    match b
    case ListMobileDevices => [ListDevicesAct()]
    case LockDevice1 => [LockDeviceAct(o.lockRows)]
    case GetUserAttributes1 => [UserAttributesAct(o.userRows)]
    case ResetPassword1 => [ResetPassword1Act(o.resetRows1)]
    case Prompt1 => [PromptEvent()]
    case ResetPassword2 => [ResetPassword2Act(o.resetRows2)]
    case Format3 => [Format3Event()]
    case Format4 => [Format4Event()]
    case Format5 => [Format5Event()]
    case CreateTicket3 => [TicketAct(CreateTicket3)]
    case CreateTicket2 => [TicketAct(CreateTicket2)]
    case CreateTicket1 => [TicketAct(CreateTicket1)]
    case SetStatus1 => [Closed]
    case OnStart | Filter1 | Filter3 | Decision2 | JoinSetStatus1 => []
  }

  /** The blocks a block calls directly, in call order, after its own call. */
  function Calls(b: Block, after: Block, o: Outcomes): (calls: seq<Block>)
    ensures forall c :: c in calls ==> SyncRank(c) < SyncRank(b) && Depth(c) <= Depth(b)
  {
    match b
    case OnStart => [ListMobileDevices]
    case Filter1 => Filter1Calls(o.deviceMatch)
    case Filter3 => Filter3Calls(o.notExecutive, o.executive)
    case Decision2 => Decision2Calls(o.responseIs1, o.responseIs2)
    case Format3 => [CreateTicket3]
    case Format4 => [CreateTicket2]
    case Format5 => [CreateTicket1]
    case JoinSetStatus1 => JoinCalls(o.ActionsDone(after))
    case _ => []
  }

  /** Everything running block `b` issues, its direct callees included; `after`
      is the action whose resolution led to it. */
  function Run(b: Block, after: Block, o: Outcomes): seq<Event>
    decreases SyncRank(b), 1
  {
    Own(b, o) + RunAll(Calls(b, after, o), after, o, SyncRank(b))
  }

  function RunAll(bs: seq<Block>, after: Block, o: Outcomes, rank: nat): seq<Event>
    requires forall c :: c in bs ==> SyncRank(c) < rank
    decreases rank, 0, |bs|
  {
    if bs == [] then []
    else Run(bs[0], after, o) + RunAll(bs[1..], after, o, rank)
  }

  /** Every request a block makes registers a callback lower in the callback
      graph, and one the playbook registers. */
  lemma OwnBelow(b: Block, o: Outcomes)
    ensures forall e :: e in Own(b, o) && e.Resolves() ==> Depth(e.callback) < Depth(b) && IsCallback(e.callback)
  {
  }

  /** Every request a run issues registers a callback lower than the block
      that ran, and one the playbook registers: so every chain of callbacks
      ends. */
  lemma RunBelow(b: Block, after: Block, o: Outcomes)
    ensures forall e :: e in Run(b, after, o) && e.Resolves() ==> Depth(e.callback) < Depth(b) && IsCallback(e.callback)
    decreases SyncRank(b), 1
  {
    OwnBelow(b, o);
    RunAllBelow(Calls(b, after, o), after, o, SyncRank(b), Depth(b));
  }

  lemma RunAllBelow(bs: seq<Block>, after: Block, o: Outcomes, rank: nat, depth: nat)
    requires forall c :: c in bs ==> SyncRank(c) < rank && Depth(c) <= depth
    ensures forall e :: e in RunAll(bs, after, o, rank) && e.Resolves() ==> Depth(e.callback) < depth && IsCallback(e.callback)
    decreases rank, 0, |bs|
  {
    if bs != [] {
      RunBelow(bs[0], after, o);
      RunAllBelow(bs[1..], after, o, rank, depth);
    }
  }

  // ---- what is still to come ----

  /** Every continuation registered by events whose callbacks are below `d`
      is itself below `d`. */
  lemma {:induction false} ContinuationsBelow(events: seq<Event>, d: nat)
    requires forall e :: e in events && e.Resolves() ==> Depth(e.callback) < d
    ensures forall c :: c in ContinuationsOf(events) ==> Depth(c.block) < d
  {
    if events != [] {
      ContinuationsBelow(events[1..], d);
    }
  }

  /** All events that resuming `c` will eventually issue, once every request
      it leads to has resolved. */
  function Total(c: Continuation, o: Outcomes): multiset<Event>
    decreases Depth(c.block), 1, 0
  {
    var events := Run(c.block, c.after, o);
    RunBelow(c.block, c.after, o);
    ContinuationsBelow(events, Depth(c.block));
    multiset(events) + TotalAll(ContinuationsOf(events), o, Depth(c.block))
  }

  function TotalAll(cs: seq<Continuation>, o: Outcomes, depth: nat): multiset<Event>
    requires forall c :: c in cs ==> Depth(c.block) < depth
    decreases depth, 0, |cs|
  {
    if cs == [] then multiset{}
    else Total(cs[0], o) + TotalAll(cs[1..], o, depth)
  }

  /** All events the pending continuations `cs` will still issue. */
  function Outstanding(cs: seq<Continuation>, o: Outcomes): multiset<Event> {
    TotalAll(cs, o, MaxDepth)
  }

  /** Everything one run of the playbook issues, from on_start on. */
  function Whole(o: Outcomes): multiset<Event> {
    var start := Run(OnStart, OnStart, o);
    multiset(start) + Outstanding(ContinuationsOf(start), o)
  }

  lemma {:induction false} TotalAllAnyBound(cs: seq<Continuation>, o: Outcomes, d: nat)
    requires forall c :: c in cs ==> Depth(c.block) < d
    ensures TotalAll(cs, o, d) == Outstanding(cs, o)
  {
    if cs != [] {
      TotalAllAnyBound(cs[1..], o, d);
    }
  }

  /** Resuming a continuation issues its run and leaves the continuations it
      registers to issue the rest. */
  lemma TotalUnfold(c: Continuation, o: Outcomes)
    ensures Total(c, o) == multiset(Run(c.block, c.after, o)) + Outstanding(ContinuationsOf(Run(c.block, c.after, o)), o)
  {
    var events := Run(c.block, c.after, o);
    RunBelow(c.block, c.after, o);
    ContinuationsBelow(events, Depth(c.block));
    TotalAllAnyBound(ContinuationsOf(events), o, Depth(c.block));
  }

  lemma {:induction false} OutstandingAppend(a: seq<Continuation>, b: seq<Continuation>, o: Outcomes)
    ensures Outstanding(a + b, o) == Outstanding(a, o) + Outstanding(b, o)
  {
    if a == [] {
      assert a + b == b;
    } else {
      assert (a + b)[0] == a[0];
      assert (a + b)[1..] == a[1..] + b;
      OutstandingAppend(a[1..], b, o);
    }
  }

  lemma OutstandingSingle(c: Continuation, o: Outcomes)
    ensures Outstanding([c], o) == Total(c, o)
  {
    var cs := [c];
    assert cs[0] == c && cs[1..] == [];
    assert TotalAll(cs[1..], o, MaxDepth) == multiset{};
    assert TotalAll(cs, o, MaxDepth) == Total(cs[0], o) + TotalAll(cs[1..], o, MaxDepth);
  }

  /** Taking one pending continuation out of the list leaves the rest to issue
      everything else. */
  lemma OutstandingRemove(cs: seq<Continuation>, k: nat, o: Outcomes)
    requires k < |cs|
    ensures Outstanding(cs, o) == Outstanding(cs[..k] + cs[k + 1..], o) + Total(cs[k], o)
  {
    var front, x, back := cs[..k], cs[k], cs[k + 1..];
    assert cs == (front + [x]) + back;
    OutstandingAppend(front + [x], back, o);
    OutstandingAppend(front, [x], o);
    OutstandingAppend(front, back, o);
    OutstandingSingle(x, o);
  }

  /** Resuming pending continuation `k`, which issues `events` and leaves
      the continuations they register to issue the rest, moves those events
      from what is outstanding to what is issued. */
  lemma ResumeConserves(log: seq<Event>, cs: seq<Continuation>, k: nat, events: seq<Event>, o: Outcomes)
    requires k < |cs|
    requires Total(cs[k], o) == multiset(events) + Outstanding(ContinuationsOf(events), o)
    ensures multiset(log + events) + Outstanding(cs[..k] + cs[k + 1..] + ContinuationsOf(events), o)
      == multiset(log) + Outstanding(cs, o)
  {
    var rest := cs[..k] + cs[k + 1..];
    OutstandingRemove(cs, k, o);
    OutstandingAppend(rest, ContinuationsOf(events), o);
    assert multiset(log + events) == multiset(log) + multiset(events);
    Regroup(multiset(log), multiset(events), Outstanding(rest, o), Outstanding(ContinuationsOf(events), o));
  }

  lemma Regroup(a: multiset<Event>, b: multiset<Event>, c: multiset<Event>, d: multiset<Event>)
    ensures (a + b) + (c + d) == a + (c + b + d)
  {
  }

  /** What pending continuation `k` will issue is its run plus what the
      continuations that run registers will issue. */
  lemma ResumeSplit(cs: seq<Continuation>, k: nat, o: Outcomes)
    requires k < |cs|
    ensures var events := Run(cs[k].block, cs[k].after, o);
      var rest := cs[..k] + cs[k + 1..];
      && Outstanding(cs, o) == Outstanding(rest, o) + multiset(events) + Outstanding(ContinuationsOf(events), o)
      && Outstanding(rest + ContinuationsOf(events), o) == Outstanding(rest, o) + Outstanding(ContinuationsOf(events), o)
  {
    var c := cs[k];
    var events := Run(c.block, c.after, o);
    OutstandingRemove(cs, k, o);
    TotalUnfold(c, o);
    OutstandingAppend(cs[..k] + cs[k + 1..], ContinuationsOf(events), o);
  }

  /** A log of issued events, a list of pending continuations and a status
      fit one run: what has been issued plus what the pending continuations
      will still issue is the whole run; every pending continuation was
      registered by an issued request and is one the playbook registers; the
      status is closed exactly when set_status ran. */
  ghost predicate Consistent(log: seq<Event>, cs: seq<Continuation>, status: string, o: Outcomes, initialStatus: string) {
    && multiset(log) + Outstanding(cs, o) == Whole(o)
    && multiset(cs) <= multiset(ContinuationsOf(log))
    && status == (if Closed in log then "closed" else initialStatus)
    && forall c :: c in cs ==> IsCallback(c.block)
  }

  /** Resuming pending continuation `k` keeps the log, the pending list and
      the status consistent. */
  lemma ResumeKeepsConsistent(log: seq<Event>, cs: seq<Continuation>, status: string, k: nat,
                               events: seq<Event>, o: Outcomes, initialStatus: string)
    requires Consistent(log, cs, status, o, initialStatus) && k < |cs|
    requires Total(cs[k], o) == multiset(events) + Outstanding(ContinuationsOf(events), o)
    requires forall e :: e in events && e.Resolves() ==> IsCallback(e.callback)
    ensures Consistent(log + events, cs[..k] + cs[k + 1..] + ContinuationsOf(events),
                       if Closed in events then "closed" else status, o, initialStatus)
  {
    ResumeConserves(log, cs, k, events, o);
    ResumeRegistered(log, cs, k, events);
    ClosedInAppend(log, events);
    ResumeCallbacks(cs, k, events);
  }

  lemma ClosedInAppend(log: seq<Event>, events: seq<Event>)
    ensures Closed in log + events <==> Closed in log || Closed in events
  {
  }

  /** After a resumption every pending continuation is still one the
      playbook registers. */
  lemma ResumeCallbacks(cs: seq<Continuation>, k: nat, events: seq<Event>)
    requires k < |cs|
    requires forall c :: c in cs ==> IsCallback(c.block)
    requires forall e :: e in events && e.Resolves() ==> IsCallback(e.callback)
    ensures forall c :: c in cs[..k] + cs[k + 1..] + ContinuationsOf(events) ==> IsCallback(c.block)
  {
    ContinuationsAreCallbacks(events);
    assert forall c :: c in cs[..k] + cs[k + 1..] ==> c in cs;
  }

  /** After a resumption every pending continuation is still one that an
      issued request registered. */
  lemma ResumeRegistered(log: seq<Event>, cs: seq<Continuation>, k: nat, events: seq<Event>)
    requires k < |cs|
    requires multiset(cs) <= multiset(ContinuationsOf(log))
    ensures multiset(cs[..k] + cs[k + 1..] + ContinuationsOf(events)) <= multiset(ContinuationsOf(log + events))
  {
    var rest := cs[..k] + cs[k + 1..];
    assert multiset(rest) <= multiset(cs) by {
      assert cs == cs[..k] + [cs[k]] + cs[k + 1..];
    }
    ContinuationsOfAppend(log, events);
    assert multiset(rest + ContinuationsOf(events)) == multiset(rest) + multiset(ContinuationsOf(events));
  }

  /** A resumption that issues nothing registers nothing, so every resumption
      shrinks what is outstanding or the pending list. */
  lemma ResumeProgress(cs: seq<Continuation>, k: nat, o: Outcomes)
    requires k < |cs|
    ensures var c := cs[k];
      var events := Run(c.block, c.after, o);
      var rest := cs[..k] + cs[k + 1..] + ContinuationsOf(events);
      || |Outstanding(rest, o)| < |Outstanding(cs, o)|
      || (Outstanding(rest, o) == Outstanding(cs, o) && |rest| < |cs|)
  {
    var c := cs[k];
    var events := Run(c.block, c.after, o);
    ResumeSplit(cs, k, o);
    if events == [] {
      assert ContinuationsOf(events) == [];
      assert cs[..k] + cs[k + 1..] + ContinuationsOf(events) == cs[..k] + cs[k + 1..];
    }
  }

  // ---- what each block issues when it runs ----

  /** on_start and list_mobile_devices issue one request to "list devices"
      with the single parameter set {limit: 500000, start_index: "1"},
      whose callback is filter_1. */
  lemma RunListMobileDevices(after: Block, o: Outcomes)
    ensures Run(OnStart, after, o) == Run(ListMobileDevices, after, o) == [ListDevicesAct()]
    ensures ContinuationsOf([ListDevicesAct()]) == [Continuation(Filter1, ListMobileDevices)]
  {
  }

  /** filter_1 issues the lock request iff its condition matched, and
      nothing otherwise. */
  lemma RunFilter1(after: Block, o: Outcomes)
    ensures Run(Filter1, after, o) == if o.deviceMatch.Any() then [LockDeviceAct(o.lockRows)] else []
  {
  }

  /** A block that calls exactly one other block issues its own call, then
      everything that block issues. */
  lemma RunThen(b: Block, c: Block, after: Block, o: Outcomes)
    requires Calls(b, after, o) == [c]
    ensures Run(b, after, o) == Own(b, o) + Run(c, after, o)
  {
    assert c in Calls(b, after, o);
    RunAllOne(c, after, o, SyncRank(b));
  }

  /** A block that calls two other blocks issues its own call, then
      everything the first issues, then everything the second issues. */
  lemma RunThenBoth(b: Block, c: Block, d: Block, after: Block, o: Outcomes)
    requires Calls(b, after, o) == [c, d]
    ensures Run(b, after, o) == Own(b, o) + Run(c, after, o) + Run(d, after, o)
  {
    assert c in Calls(b, after, o) && d in Calls(b, after, o);
    RunAllTwo(c, d, after, o, SyncRank(b));
  }

  /** A block that calls no other block issues only its own call. */
  lemma RunNone(b: Block, after: Block, o: Outcomes)
    requires Calls(b, after, o) == []
    ensures Run(b, after, o) == Own(b, o)
  {
  }

  /** The blocks that never call another block (the requests, the tickets
      and set_status_1) issue only their own call. */
  lemma RunLeaf(b: Block, after: Block, o: Outcomes)
    requires SyncRank(b) == 0
    ensures Run(b, after, o) == Own(b, o)
  {
    assert Calls(b, after, o) == [];
    RunNone(b, after, o);
  }

  lemma RunAllOne(b: Block, after: Block, o: Outcomes, rank: nat)
    requires SyncRank(b) < rank
    ensures RunAll([b], after, o, rank) == Run(b, after, o)
  {
    assert [b][0] == b && [b][1..] == [];
  }

  lemma RunAllTwo(b: Block, c: Block, after: Block, o: Outcomes, rank: nat)
    requires SyncRank(b) < rank && SyncRank(c) < rank
    ensures RunAll([b, c], after, o, rank) == Run(b, after, o) + Run(c, after, o)
  {
    assert [b, c][0] == b && [b, c][1..] == [c];
    RunAllOne(c, after, o, rank);
  }

  /** filter_3: the direct reset iff condition 1 matched, then the prompt iff
      condition 2 matched. */
  lemma RunFilter3(after: Block, o: Outcomes)
    ensures Run(Filter3, after, o) ==
      (if o.notExecutive.Any() then [ResetPassword1Act(o.resetRows1)] else [])
      + (if o.executive.Any() then [PromptEvent()] else [])
  {
    if o.notExecutive.Any() && o.executive.Any() {
      RunThenBoth(Filter3, ResetPassword1, Prompt1, after, o);
      RunLeaf(ResetPassword1, after, o);
      RunLeaf(Prompt1, after, o);
    } else if o.notExecutive.Any() {
      RunThen(Filter3, ResetPassword1, after, o);
      RunLeaf(ResetPassword1, after, o);
    } else if o.executive.Any() {
      RunThen(Filter3, Prompt1, after, o);
      RunLeaf(Prompt1, after, o);
    } else {
      RunNone(Filter3, after, o);
    }
  }

  /** Each ticket block issues one "create ticket" request whose description
      is the output of its own format block and whose callback is the join. */
  lemma RunTicket(ticket: Block, after: Block, o: Outcomes)
    requires IsTicket(ticket)
    ensures Run(ticket, after, o) == [TicketAct(ticket)]
  {
    RunLeaf(ticket, after, o);
  }

  /** A format block's own call is its format request. */
  lemma OwnFormat(ticket: Block, o: Outcomes)
    requires IsTicket(ticket)
    ensures Own(DescriptionSource(ticket), o) == [FormatRequest(ticket)]
  {
  }

  /** Each format block formats, then calls its own ticket block. */
  lemma RunFormat(ticket: Block, after: Block, o: Outcomes)
    requires IsTicket(ticket)
    ensures Run(DescriptionSource(ticket), after, o) == [FormatRequest(ticket), TicketAct(ticket)]
  {
    var f := DescriptionSource(ticket);
    assert Calls(f, after, o) == [ticket] by {
      match ticket
      case CreateTicket3 =>
      case CreateTicket2 =>
      case CreateTicket1 =>
    }
    RunThen(f, ticket, after, o);
    RunTicket(ticket, after, o);
    OwnFormat(ticket, o);
  }

  /** decision_2: response 1 resets the password (and nothing else), else
      response 2 formats and files the no-action ticket, else nothing. */
  lemma RunDecision2(after: Block, o: Outcomes)
    ensures Run(Decision2, after, o) ==
      if o.responseIs1.Any() then [ResetPassword2Act(o.resetRows2)]
      else if o.responseIs2.Any() then [Format5Event(), TicketAct(CreateTicket1)]
      else []
  {
    if o.responseIs1.Any() {
      RunThen(Decision2, ResetPassword2, after, o);
      RunLeaf(ResetPassword2, after, o);
    } else if o.responseIs2.Any() {
      RunThen(Decision2, Format5, after, o);
      RunFormat(CreateTicket1, after, o);
      assert FormatRequest(CreateTicket1) == Format5Event();
    } else {
      RunNone(Decision2, after, o);
    }
  }

  /** The join closes the case iff actions_done held; set_status_1 closes it. */
  lemma RunJoin(after: Block, o: Outcomes)
    ensures Run(SetStatus1, after, o) == [Closed]
    ensures Run(JoinSetStatus1, after, o) == if o.ActionsDone(after) then [Closed] else []
  {
  }
}
