# Lost or stolen mobile device response, modelled in Dafny

This project models the `lost_device_response` playbook. The playbook runs on a
security-orchestration platform against one container (a case) that reports a lost or stolen
mobile device. It works in this order:

1. It lists the managed mobile devices.
2. It keeps the device whose uuid matches the reported artifact, locks that device, and looks up
   the device's user in the directory.
3. It splits on membership of the executive list:
   - A non-executive has their password reset at once.
   - For an executive, an administrator is prompted. A response of 1 resets the password. A
     response of 2 leaves it unchanged.
4. Each path formats a report and files a ServiceNow ticket with it.
5. A join callback sets the container's status to "closed" once the platform reports the ticket
   actions done.

The model has five layers, one module per file.

- `Collected` (collected.dfy): the values the platform's data collector returns and Python
  truthiness over them. It also holds the loop shared by the four per-record blocks
  (lock_device_1, get_user_attributes_1, reset_password_1, reset_password_2). That loop keeps one
  parameter set for each collected tuple whose first element is truthy. It is the method
  `BuildParameters`, proved against the function `Build`.
- `Events` (events.dfy): the blocks, the parameter dictionaries, the templates and the calls a
  block makes into the platform. A call is an action request, a format request, the prompt or the
  status change.
- `Routing` (routing.dfy): the decision blocks (filter_1, filter_3, decision_2,
  join_set_status_1), the calls each block makes directly, and the callback each request
  registers. `Run` is what running one block issues. `Total` is everything resuming a callback
  eventually issues. `Whole` is everything one run of the playbook issues.
- `Properties` (properties.dfy) computes `Whole` branch by branch as `Expected`. `Outcome`
  (outcome.dfy) proves the routing and closure properties over it.
- `Playbook` (playbook.dfy): the class `Case`. It holds the container's status, the log of
  issued calls and the callbacks still pending. There is one method per block.
  - The platform's resumption of callbacks is `Resume`. It may pick any pending callback, so
    every order in which requests resolve is covered.
  - `RunToCompletion` proves three things for every order: the run ends, it issues exactly
    `Whole`, and the case ends closed exactly under the closure condition.

The platform's answers are given up front as one `Outcomes` value:

- what each `phantom.condition` matched;
- what each `phantom.collect2` returned;
- what `phantom.actions_done` reports in the join after each ticket.

## Model

| member | source | states |
|---|---|---|
| Collected.TruthyIndicesExact | lost_device_response.py:164-165 | the kept rows are exactly those whose first element is truthy, each once, in collection order |
| Collected.BuildSelects | lost_device_response.py:164-171 | the k-th parameter set is made from the k-th kept row, and there is one per kept row |
| Collected.BuildKeepsAllIffAllTruthy | lost_device_response.py:188-196 | a builder never outputs more sets than rows; it outputs as many iff every row's first element is truthy |
| Collected.BuildParameters | lost_device_response.py:210-219 | the append loop produces exactly the filtered-and-mapped list `Build` |
| Events.LockDeviceParameters | lost_device_response.py:161-171 | every lock set has reason "", a truthy uuid taken from its row, and that row's artifact id as context |
| Events.UserAttributesParameters | lost_device_response.py:185-196 | every lookup set has the row's truthy user id as username, empty fields and attribute, and the row's artifact id as context |
| Events.ResetPasswordParameters | lost_device_response.py:67-76 | every reset set (reset_password_1 and reset_password_2) has the row's truthy username and the row's artifact id as context |
| Routing.Filter1Calls | lost_device_response.py:383-393 | filter_1 calls lock_device_1 iff its condition matched an artifact or a result, and calls nothing else |
| Routing.Filter3Calls | lost_device_response.py:126-149 | filter_3 calls reset_password_1 iff condition 1 matched and prompt_1 iff condition 2 matched, independently, in that order |
| Routing.Decision2Calls | lost_device_response.py:298-323 | decision_2 calls reset_password_2 iff response 1 matched, format_5 iff response 1 did not and response 2 did, and at most one block |
| Routing.JoinCalls | lost_device_response.py:29-32 | the join calls set_status_1 iff actions_done holds |
| Routing.Calls | lost_device_response.py:13-393 | a block calls directly only blocks of strictly lower call-nesting rank, and never a block higher in the callback graph; the direct calls are those at lines 13, 31, 55, 101, 136, 149, 244, 307, 320 and 393 |
| Routing.OwnBelow | lost_device_response.py:78-375 | the request a block makes itself registers a callback deeper than the block, and one of the seven blocks the playbook uses as callbacks (over the `callback=` registrations at lines 78, 118, 173, 198, 221, 267, 290, 352 and 375) |
| Routing.RunBelow | lost_device_response.py:78-375 | every request a block's run issues, its direct callees' included, registers a callback deeper than the block and one the playbook uses as a callback, so every callback chain ends (over the `callback=` registrations at lines 78, 118, 173, 198, 221, 267, 290, 352 and 375) |
| Routing.RunListMobileDevices | lost_device_response.py:110-117 | on_start and list_mobile_devices issue one "list devices" request on mobileiron with the single set {limit 500000, start_index "1"}, registering filter_1 |
| Routing.RunFilter1 | lost_device_response.py:379-395 | filter_1 issues the lock request iff a device matched, otherwise nothing |
| Routing.RunLeaf | lost_device_response.py:78-375 | a per-record block, the prompt or a ticket block issues exactly its own request and calls no other block (the `phantom.act`/`phantom.prompt` calls at lines 78, 173, 198, 221, 267, 290, 352 and 375) |
| Routing.RunThen | lost_device_response.py:242-244 | a block that makes its own call and then calls one block issues its call followed by that block's run |
| Routing.RunFilter3 | lost_device_response.py:122-151 | filter_3 issues the direct reset iff condition 1 matched, then the prompt iff condition 2 matched |
| Routing.RunTicket | lost_device_response.py:254-267 | each ticket block issues one "create ticket" on servicenow, short description "Lost/Stolen Mobile Device", its format block's output as description, join callback |
| Events.Format4RepeatsDevicePlaceholder | lost_device_response.py:38-45 | format_4's template uses the device placeholder `{1}` twice: it opens with the header it shares with format_3, whose last line is `{1}`, and it ends with the executive-team line followed by `{1}` again |
| Events.FormatRequest | lost_device_response.py:254 | the format request a ticket reads is the one named by the ticket's description source: format_3 for create_ticket_3, format_4 for create_ticket_2, format_5 for create_ticket_1 |
| Routing.OwnFormat | lost_device_response.py:242 | a format block's own call is exactly the format request its ticket reads |
| Routing.RunFormat | lost_device_response.py:242-244 | format_3, format_4 and format_5 each issue their format request and then file create_ticket_3, create_ticket_2 and create_ticket_1 respectively, nothing more |
| Routing.RunDecision2 | lost_device_response.py:294-323 | decision_2 issues the reset on response 1, else format_5 and its ticket on response 2, else nothing |
| Routing.RunJoin | lost_device_response.py:25-35 | the join issues the closing status change iff actions_done holds; set_status_1 always issues it |
| Properties.WholeIsExpected | lost_device_response.py:9-15 | for given platform answers, whatever order requests resolve in, one run issues exactly the branch-by-branch description `Expected` |
| Properties.TotalFilter1 | lost_device_response.py:379-395 | resuming filter_1 after the listing issues the lock, the user lookup and what filter_3 leads to when a device matched, and nothing otherwise |
| Properties.TotalGetUserAttributes1 | lost_device_response.py:177-200 | resuming get_user_attributes_1 after the lock issues the user lookup and then what filter_3 leads to |
| Properties.TotalFilter3 | lost_device_response.py:134-149 | resuming filter_3 issues the union of both branches' outcomes, each present iff its condition matched |
| Properties.TotalDecision2 | lost_device_response.py:305-321 | resuming decision_2 issues the reset, format_4 and ticket 2, or format_5 and ticket 1, or nothing, plus what the join issues |
| Properties.TotalFormat | lost_device_response.py:244 | resuming a format callback issues the format, its ticket and then what the join after that ticket issues |
| Properties.TotalJoin | lost_device_response.py:29-32 | resuming the join after a ticket issues the closing status change iff actions_done holds for it |
| Outcome.TicketDescribedByItsFormat | lost_device_response.py:277-286 | each ticket carries one parameter set whose description is the output of the format request paired with it |
| Outcome.NoMatchStopsAfterListing | lost_device_response.py:391-395 | when no listed device matches, the run issues the device listing and nothing else |
| Outcome.ListedOnce | lost_device_response.py:13 | the device listing is issued exactly once |
| Outcome.LockIff | lost_device_response.py:392-393 | the lock request and the user lookup are issued iff a device matched |
| Outcome.Filter3Independent | lost_device_response.py:135-149 | the direct reset is issued iff a device matched and condition 1 matched; the prompt iff a device matched and condition 2 matched |
| Outcome.ResetAfterPromptIff | lost_device_response.py:306-308 | the executive's password is reset iff a device matched, the user is an executive and the response is 1 |
| Outcome.TicketFiledIff | lost_device_response.py:244 | each ticket and its describing format are issued iff the routing reaches that ticket's block |
| Outcome.UnansweredPromptFilesNothing | lost_device_response.py:319-323 | a response that is neither 1 nor 2 (a timeout included) files no executive ticket |
| Outcome.ClosedIff | lost_device_response.py:29-33 | the case is set to closed iff some ticket is filed and the join after it finds actions_done to hold |
| Outcome.IssuedAtMostOnce | lost_device_response.py:9-395 | no request is issued twice in one run |
| Outcome.ExpectedShape | lost_device_response.py:78-375 | each request is issued by the block named after it, at most once (over the `callback=` registrations at lines 78, 118, 173, 198, 221, 267, 290, 352 and 375) |
| Playbook.Case.Launch | lost_device_response.py:9-15 | starting the playbook issues the device listing and leaves filter_1 pending, with the status unchanged |
| Playbook.Case.OnStart | lost_device_response.py:9-15 | on_start calls list_mobile_devices, so it appends exactly the single listing request and registers filter_1 |
| Playbook.Case.Issue | lost_device_response.py:118 | a phantom.act, phantom.format or phantom.prompt call is appended to the log, and an act or a prompt registers its callback under its name; the status is unchanged |
| Playbook.Case.ListMobileDevices | lost_device_response.py:104-118 | issues the single listing request and registers filter_1 |
| Playbook.Case.Filter1 | lost_device_response.py:379-395 | appends the lock request iff a device matched |
| Playbook.Case.LockDevice1 | lost_device_response.py:153-175 | appends the lock request built from the collected rows and registers get_user_attributes_1 |
| Playbook.Case.GetUserAttributes1 | lost_device_response.py:177-200 | appends the user lookup built from the collected rows and registers filter_3 |
| Playbook.Case.Filter3 | lost_device_response.py:122-151 | appends the direct reset iff condition 1 matched, then the prompt iff condition 2 matched |
| Playbook.Case.ResetPassword1 | lost_device_response.py:202-223 | appends the reset built from the rows of condition 1 and registers format_3 |
| Playbook.Case.Format3 | lost_device_response.py:225-246 | appends format_3's request and then create_ticket_3's |
| Playbook.Case.CreateTicket3 | lost_device_response.py:248-269 | appends the ticket described by format_3 and registers the join |
| Playbook.Case.Prompt1 | lost_device_response.py:325-354 | appends the prompt to "admin" with a 30-minute limit and a 1..100 range, registering decision_2 |
| Playbook.Case.Decision2 | lost_device_response.py:294-323 | appends the reset on response 1, else format_5 and its ticket on response 2, else nothing |
| Playbook.Case.ResetPassword2 | lost_device_response.py:60-80 | appends the reset built from the rows of condition 2 and registers format_4 |
| Playbook.Case.Format4 | lost_device_response.py:35-58 | appends format_4's request and then create_ticket_2's |
| Playbook.Case.CreateTicket2 | lost_device_response.py:271-292 | appends the ticket described by format_4 and registers the join |
| Playbook.Case.Format5 | lost_device_response.py:82-102 | appends format_5's request and then create_ticket_1's |
| Playbook.Case.CreateTicket1 | lost_device_response.py:356-377 | appends the ticket described by format_5 and registers the join |
| Playbook.Case.JoinSetStatus1 | lost_device_response.py:25-35 | sets the status to closed iff actions_done holds for the ticket that triggered it |
| Playbook.Case.SetStatus1 | lost_device_response.py:17-23 | sets the container's status to "closed" and records the change |
| Events.ContinuationsOfAppend | lost_device_response.py:78-375 | the callbacks registered by two consecutive runs of calls are those of the first followed by those of the second (over the `callback=` registrations at lines 78, 118, 173, 198, 221, 267, 290, 352 and 375) |
| Events.ContinuationsAreCallbacks | lost_device_response.py:78-375 | calls whose callbacks are all among the playbook's callback blocks register only those (over the `callback=` registrations at lines 78, 118, 173, 198, 221, 267, 290, 352 and 375) |
| Routing.ResumeConserves | lost_device_response.py:78-375 | resuming a callback moves exactly the calls it issues from what is still to come to what has been issued (over the `callback=` registrations at lines 78, 118, 173, 198, 221, 267, 290, 352 and 375) |
| Routing.ResumeRegistered | lost_device_response.py:78-375 | after a resumption every pending callback was registered by an issued request (over the `callback=` registrations at lines 78, 118, 173, 198, 221, 267, 290, 352 and 375) |
| Routing.ResumeCallbacks | lost_device_response.py:78-375 | after a resumption every pending callback is still one of the playbook's callback blocks (over the `callback=` registrations at lines 78, 118, 173, 198, 221, 267, 290, 352 and 375) |
| Routing.ResumeKeepsConsistent | lost_device_response.py:78-375 | resuming any pending callback keeps log, pending callbacks and status consistent with the whole run (over the `callback=` registrations at lines 78, 118, 173, 198, 221, 267, 290, 352 and 375) |
| Routing.ResumeProgress | lost_device_response.py:78-375 | every resumption shrinks what is still to come, or leaves it and shortens the pending list (over the `callback=` registrations at lines 78, 118, 173, 198, 221, 267, 290, 352 and 375) |
| Playbook.Case.Dispatch | lost_device_response.py:78-375 | the platform calling one of the playbook's callback blocks appends exactly that block's `Run` (over the `callback=` registrations at lines 78, 118, 173, 198, 221, 267, 290, 352 and 375) |
| Playbook.Case.Resume | lost_device_response.py:78-375 | resuming any pending callback appends its run, replaces it by the callbacks that run registers, keeps `Valid` (issued plus still-to-come is the whole run, every pending callback was registered and is a callback block, status closed iff set_status ran) and strictly shrinks what remains (over the `callback=` registrations at lines 78, 118, 173, 198, 221, 267, 290, 352 and 375) |
| Playbook.Case.RunToCompletion | lost_device_response.py:30-33 | for every resolution order the run ends with nothing pending, having issued exactly `Whole`; the status is closed iff the closure condition holds; no request repeats |

## Left out

- `phantom.condition` is not evaluated. Its answers are part of `Outcomes`. These are the uuid
  comparison with `deviceExternalId`, the executive custom-list lookup and the prompt-response
  comparisons. The model fixes one answer per condition for the case, whatever the order of
  resolution.
- `phantom.collect2` is not evaluated. Its result for each per-record block is part of `Outcomes`.
  The filtered-data views that blocks pass on (`filtered_artifacts`, `filtered_results`) stand
  behind these answers and are not modelled separately.
- `phantom.actions_done` is part of `Outcomes`: one answer per join call, after each ticket. It
  may answer true after several tickets, and the model then issues the status change each time.
  These answers are fixed before the run and do not vary with the order in which requests
  resolve. On the platform, what `actions_done` answers after one ticket depends on which other
  tickets have already resolved. So the claim that every resolution order issues the same calls
  holds for given answers: the order-independence of the closing status change is assumed, not
  proved.
- Format rendering is not modelled. `phantom.get_format_data` yields the name of the format block
  (`FormatData`) rather than the rendered text. Requests name their templates, prompt message
  and datapaths by a `Text` value; the verbatim text of each is `Events.Verbatim`, including
  format_4's repeated `{1}` placeholder.
- The external services (MobileIron, the domain controller, ServiceNow) and the human channel
  are only recorded as requests. Their effects and the results they return are left out.
- Every action and every prompt is assumed to resolve exactly once and then to invoke its
  callback. Success and failure are not distinguished, since no block branches on them. A prompt
  that times out counts as a response matching neither decision_2 condition.
- Concurrency is modelled as an arbitrary choice of which pending callback resumes next. Nothing
  runs truly in parallel.
- `phantom.debug` logging, `on_finish` (which only logs), and the unused `json`/`datetime`
  imports are left out.
- Playbook.Case.GetUserAttributes1: the `parent_action=action` argument of get_user_attributes_1's request
  is not modelled. It only links results for display.
- The comment in join_set_status_1 (lost_device_response.py:27) presents the join as a barrier
  that waits until all connected incoming actions are done. The code calls `join_set_status_1`
  after each ticket and closes only when `actions_done` holds at that moment. The model follows
  the code.
