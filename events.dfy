/** The blocks of the lost-device playbook and what each one hands to the
    platform: action requests with their parameter sets, format requests, the
    human prompt and the status change. */
module Events {
  import opened Collected

  /** One function of the playbook, named after it. */
  datatype Block =
    | OnStart
    | ListMobileDevices | Filter1 | LockDevice1 | GetUserAttributes1 | Filter3
    | ResetPassword1 | Format3 | CreateTicket3
    | Prompt1 | Decision2
    | ResetPassword2 | Format4 | CreateTicket2
    | Format5 | CreateTicket1
    | JoinSetStatus1 | SetStatus1

  /** The three ticket actions the join waits for. */
  predicate IsTicket(b: Block) {
    b == CreateTicket3 || b == CreateTicket2 || b == CreateTicket1
  }

  /** The blocks the playbook registers as callbacks of its requests: the
      only ones the platform ever calls back. */
  predicate IsCallback(b: Block) {
    || b == Filter1 || b == GetUserAttributes1 || b == Filter3 || b == Format3
    || b == Decision2 || b == Format4 || b == JoinSetStatus1
  }

  /** The `context` entry: correlates a request with its artifact. */
  datatype Context = Context(artifactId: Datum)

  /** The named result of a format block, as read by get_format_data; the
      rendered text itself belongs to the platform. */
  datatype FormatData = FormatData(name: Block)

  /** One parameter dictionary of an action request. */
  datatype Param =
    | ListDevices(limit: int, startIndex: string)
    | LockDevice(reason: string, uuid: Datum, context: Context)
    | GetUserAttributes(username: Datum, fields: string, attribute: string, context: Context)
    | ResetPassword(username: Datum, context: Context)
    | CreateTicket(shortDescription: string, table: string, vaultId: string, description: FormatData, fields: string)

  /** The response options of a prompt: an integer range. */
  datatype RangeOption = Range(min: int, max: int)

  /** A call the playbook makes into the platform, recorded in issue order. */
  datatype Event =
    | Act(action: string, parameters: seq<Param>, assets: seq<string>, callback: Block, name: Block)
    | Format(template: Text, datapaths: seq<Text>, name: Block)
    | Prompt(user: string, message: Text, respondInMins: nat, name: Block, datapaths: seq<Text>, options: RangeOption, callback: Block)
    | SetStatus(status: string)
  {
    /** Acts and prompts resolve later and then call their callback. */
    predicate Resolves() {
      Act? || Prompt?
    }
  }

  /** A callback awaiting the resolution of the request issued by `after`. */
  datatype Continuation = Continuation(block: Block, after: Block)

  // ---- per-record parameter sets ----

  function LockDeviceRequest(row: Row): Param {
    LockDevice("", row.value, Context(row.artifactId))
  }

  function UserAttributesRequest(row: Row): Param {
    GetUserAttributes(row.value, "", "", Context(row.artifactId))
  }

  function ResetPasswordRequest(row: Row): Param {
    ResetPassword(row.value, Context(row.artifactId))
  }

  /** lock_device_1: one set per kept row, with an empty reason, the row's
      device uuid and the row's artifact as context. */
  lemma {:induction false} LockDeviceParameters(rows: seq<Row>)
    ensures |Build(rows, LockDeviceRequest)| == |TruthyIndices(rows)| <= |rows|
    ensures forall k :: 0 <= k < |Build(rows, LockDeviceRequest)| ==>
      TruthyIndices(rows)[k] < |rows| &&
      var p, row := Build(rows, LockDeviceRequest)[k], rows[TruthyIndices(rows)[k]];
      && p.LockDevice? && p.reason == ""
      && p.uuid == row.value && Truthy(p.uuid)
      && p.context == Context(row.artifactId)
  {
    BuildSelects(rows, LockDeviceRequest);
    TruthyIndicesExact(rows);
  }

  /** get_user_attributes_1: one set per kept row, with the row's user id as
      username, empty fields and attribute, and the row's artifact as context. */
  lemma {:induction false} UserAttributesParameters(rows: seq<Row>)
    ensures |Build(rows, UserAttributesRequest)| == |TruthyIndices(rows)| <= |rows|
    ensures forall k :: 0 <= k < |Build(rows, UserAttributesRequest)| ==>
      TruthyIndices(rows)[k] < |rows| &&
      var p, row := Build(rows, UserAttributesRequest)[k], rows[TruthyIndices(rows)[k]];
      && p.GetUserAttributes? && p.fields == "" && p.attribute == ""
      && p.username == row.value && Truthy(p.username)
      && p.context == Context(row.artifactId)
  {
    BuildSelects(rows, UserAttributesRequest);
    TruthyIndicesExact(rows);
  }

  /** reset_password_1 and reset_password_2: one set per kept row, with the
      row's username and the row's artifact as context. */
  lemma {:induction false} ResetPasswordParameters(rows: seq<Row>)
    ensures |Build(rows, ResetPasswordRequest)| == |TruthyIndices(rows)| <= |rows|
    ensures forall k :: 0 <= k < |Build(rows, ResetPasswordRequest)| ==>
      TruthyIndices(rows)[k] < |rows| &&
      var p, row := Build(rows, ResetPasswordRequest)[k], rows[TruthyIndices(rows)[k]];
      && p.ResetPassword?
      && p.username == row.value && Truthy(p.username)
      && p.context == Context(row.artifactId)
  {
    BuildSelects(rows, ResetPasswordRequest);
    TruthyIndicesExact(rows);
  }

  // ---- constants of the playbook ----

  const TicketShortDescription := "Lost/Stolen Mobile Device"

  /** The playbook's long text constants: format templates, the prompt
      message and the datapaths they read. Requests carry the name; the
      verbatim text of each is `Verbatim`. */
  datatype Text =
    | Format3Template | Format4Template | Format5Template | PromptMessage
    | DeviceUuidPath | ExecutiveUsernamePath | Reset1UsernamePath | Reset2UsernamePath

  /** The opening lines shared by format_3's and format_4's templates. */
  const ResetHeader :=
    "The following user has reported a lost or stolen device and their password has been reset:\n{0}\n\n"
    + "The UUID of the device lost or stolen is: \n{1}\n\n"

  /** The opening lines of format_5's template. */
  const NoResetHeader :=
    "The following user has reported a lost or stolen device and it was decided to not reset their password:\n{0}\n\n"
    + "The UUID of the device lost or stolen is: \n{1}\n\n"

  /** The verbatim text behind each name. format_4's template repeats the
      placeholder {1} after its last line, as written. */
  function Verbatim(t: Text): string {
    match t
    case Format3Template => ResetHeader + "This user is not part of the executive team."
    case Format4Template => ResetHeader + "This user is a member of the executive team.\n{1}"
    case Format5Template =>
      NoResetHeader
      + "This user is a member of the executive team.  Further action must be taken as the password for the user has not be reset."
    case PromptMessage =>
      "The following user has lost his/her device: \n\n{0}\n\nThis user is part of the executive team.  Do you wish to: \n"
      + "1. Reset the user password and file ticket\n2. Take no immediate action and file ticket\n\nPlease response with a 1 or 2."
    case DeviceUuidPath => "filtered-data:filter_1:condition_1:list_mobile_devices:action_result.data.*.uuid"
    case ExecutiveUsernamePath => "filtered-data:filter_3:condition_2:get_user_attributes_1:action_result.parameter.username"
    case Reset1UsernamePath => "reset_password_1:action_result.parameter.username"
    case Reset2UsernamePath => "reset_password_2:action_result.parameter.username"
  }

  /** format_4's template uses the device placeholder {1} twice: once in
      the header it shares with format_3, and again on a line of its own
      after the executive-team line. */
  lemma Format4RepeatsDevicePlaceholder()
    ensures var t, tail := Verbatim(Format4Template), "This user is a member of the executive team.\n{1}";
      && t[..|ResetHeader|] == ResetHeader
      && ResetHeader[|ResetHeader| - 6..|ResetHeader| - 2] == "\n{1}"
      && t[|t| - |tail|..] == tail
  {
    var t, tail := Verbatim(Format4Template), "This user is a member of the executive team.\n{1}";
    EndsWith(ResetHeader, tail, |tail|);
    assert t[..|ResetHeader|] == ResetHeader;
  }

  /** The last `n` elements of `a + b` are those of `b` when `b` has `n`. */
  lemma EndsWith(a: string, b: string, n: nat)
    requires n <= |b|
    ensures (a + b)[|a + b| - n..] == b[|b| - n..]
  {
    assert (a + b)[|a|..] == b;
  }

  // ---- the call each block makes into the platform ----

  function ListDevicesAct(): Event {
    Act("list devices", [ListDevices(500000, "1")], ["mobileiron"], Filter1, ListMobileDevices)
  }

  function LockDeviceAct(rows: seq<Row>): Event {
    Act("lock device", Build(rows, LockDeviceRequest), ["mobileiron"], GetUserAttributes1, LockDevice1)
  }

  function UserAttributesAct(rows: seq<Row>): Event {
    Act("get user attributes", Build(rows, UserAttributesRequest), ["domainctrl1"], Filter3, GetUserAttributes1)
  }

  function ResetPassword1Act(rows: seq<Row>): Event {
    Act("reset password", Build(rows, ResetPasswordRequest), ["domainctrl1"], Format3, ResetPassword1)
  }

  function ResetPassword2Act(rows: seq<Row>): Event {
    Act("reset password", Build(rows, ResetPasswordRequest), ["domainctrl1"], Format4, ResetPassword2)
  }

  function PromptEvent(): Event {
    Prompt("admin", PromptMessage, 30, Prompt1, [ExecutiveUsernamePath], Range(1, 100), Decision2)
  }

  function Format3Event(): Event {
    Format(Format3Template, [Reset1UsernamePath, DeviceUuidPath], Format3)
  }

  function Format4Event(): Event {
    Format(Format4Template, [Reset2UsernamePath, DeviceUuidPath], Format4)
  }

  function Format5Event(): Event {
    Format(Format5Template, [ExecutiveUsernamePath, DeviceUuidPath], Format5)
  }

  /** The format block whose output a ticket block reads as its description. */
  function DescriptionSource(ticket: Block): Block
    requires IsTicket(ticket)
  {
    match ticket
    case CreateTicket3 => Format3
    case CreateTicket2 => Format4
    case CreateTicket1 => Format5
  }

  /** The format request whose output a ticket block reads as its
      description: format_3 for create_ticket_3, format_4 for create_ticket_2,
      format_5 for create_ticket_1. */
  function FormatRequest(ticket: Block): (e: Event)
    requires IsTicket(ticket)
    ensures e.Format? && e.name == DescriptionSource(ticket)
  {
    match ticket
    case CreateTicket3 => Format3Event()
    case CreateTicket2 => Format4Event()
    case CreateTicket1 => Format5Event()
  }

  function TicketAct(ticket: Block): Event
    requires IsTicket(ticket)
  {
    Act("create ticket",
        [CreateTicket(TicketShortDescription, "", "", FormatData(DescriptionSource(ticket)), "")],
        ["servicenow"], JoinSetStatus1, ticket)
  }

  const Closed := SetStatus("closed")

  /** The continuations registered by a run of events, in issue order. */
  function ContinuationsOf(events: seq<Event>): (cs: seq<Continuation>)
    ensures |cs| <= |events|
  {
    if events == [] then []
    else
      (if events[0].Resolves() then [Continuation(events[0].callback, events[0].name)] else [])
      + ContinuationsOf(events[1..])
  }

  /** Registering continuations distributes over consecutive runs of events. */
  lemma {:induction false} ContinuationsOfAppend(a: seq<Event>, b: seq<Event>)
    ensures ContinuationsOf(a + b) == ContinuationsOf(a) + ContinuationsOf(b)
  {
    if a == [] {
      assert a + b == b;
    } else {
      var h := if a[0].Resolves() then [Continuation(a[0].callback, a[0].name)] else [];
      var ta, tb := ContinuationsOf(a[1..]), ContinuationsOf(b);
      assert ContinuationsOf(a + b) == h + ContinuationsOf(a[1..] + b) by {
        assert (a + b)[0] == a[0];
        assert (a + b)[1..] == a[1..] + b;
      }
      ContinuationsOfAppend(a[1..], b);
      assert h + (ta + tb) == (h + ta) + tb;
    }
  }

  /** Events whose callbacks are all registered callbacks register only
      those. */
  lemma {:induction false} ContinuationsAreCallbacks(events: seq<Event>)
    requires forall e :: e in events && e.Resolves() ==> IsCallback(e.callback)
    ensures forall c :: c in ContinuationsOf(events) ==> IsCallback(c.block)
  {
    if events != [] {
      ContinuationsAreCallbacks(events[1..]);
    }
  }
}
