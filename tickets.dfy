/**
  Support tickets (src/models/ticket.py): the status mutators of a live ticket, its urgency
  test, and the `serialize`/`from_dict` pair that stores a ticket as a dictionary.
  Timestamps are opaque integers; their ISO text form is not modelled.
*/
module Tickets {
  import opened Wrappers
  import opened PyData
  import opened Users

  datatype Priority = High | Medium | Low

  datatype Status =
    | New
    | AwaitingInfo
    | InProgress
    | WaitingForSme
    | SmeAssigned
    | Resolved
    | Closed

  function PriorityValue(p: Priority): string {
    match p
    case High => "high"
    case Medium => "medium"
    case Low => "low"
  }

  /** `TicketPriority(s)`: exactly the stored values are accepted. */
  function ParsePriority(s: string): (r: Option<Priority>)
    ensures forall p :: r == Some(p) <==> s == PriorityValue(p)
  {
    if s == "high" then Some(High)
    else if s == "medium" then Some(Medium)
    else if s == "low" then Some(Low)
    else None
  }

  function StatusValue(st: Status): string {
    match st
    case New => "new"
    case AwaitingInfo => "awaiting_info"
    case InProgress => "in_progress"
    case WaitingForSme => "waiting_for_sme"
    case SmeAssigned => "sme_assigned"
    case Resolved => "resolved"
    case Closed => "closed"
  }

  /** `TicketStatus(s)`: exactly the stored values are accepted. */
  function ParseStatus(s: string): (r: Option<Status>)
    ensures forall st :: r == Some(st) <==> s == StatusValue(st)
  {
    if s == "new" then Some(New)
    else if s == "awaiting_info" then Some(AwaitingInfo)
    else if s == "in_progress" then Some(InProgress)
    else if s == "waiting_for_sme" then Some(WaitingForSme)
    else if s == "sme_assigned" then Some(SmeAssigned)
    else if s == "resolved" then Some(Resolved)
    else if s == "closed" then Some(Closed)
    else None
  }

  type Timestamp = int

  /** The fields of a ticket as a value. */
  datatype TicketData = TicketData(
    id: string,
    title: string,
    description: string,
    status: Status,
    priority: Priority,
    user: UserData,
    createdAt: Timestamp,
    updatedAt: Timestamp,
    category: Option<string>,
    tags: seq<string>,
    assignedTo: Option<string>,
    threadTs: Option<string>,
    channelId: Option<string>,
    additionalInfo: Dict)

  class Ticket {
    const id: string
    var title: string
    var description: string
    var status: Status
    var priority: Priority
    const user: User
    var createdAt: Timestamp
    var updatedAt: Timestamp
    var category: Option<string>
    var tags: seq<string>
    var assignedTo: Option<string>
    var threadTs: Option<string>
    var channelId: Option<string>
    var additionalInfo: Dict

    function Data(): TicketData
      reads this, user
    {
      TicketData(id, title, description, status, priority, user.Data(), createdAt, updatedAt,
        category, tags, assignedTo, threadTs, channelId, additionalInfo)
    }

    constructor (id: string, title: string, description: string, status: Status,
                 priority: Priority, user: User, createdAt: Timestamp, updatedAt: Timestamp,
                 category: Option<string>, tags: seq<string>, threadTs: Option<string>,
                 channelId: Option<string>, additionalInfo: Dict)
      ensures this.user == user
      ensures Data() == TicketData(id, title, description, status, priority, user.Data(),
        createdAt, updatedAt, category, tags, None, threadTs, channelId, additionalInfo)
    {
      this.id := id;
      this.title := title;
      this.description := description;
      this.status := status;
      this.priority := priority;
      this.user := user;
      this.createdAt := createdAt;
      this.updatedAt := updatedAt;
      this.category := category;
      this.tags := tags;
      this.assignedTo := None;
      this.threadTs := threadTs;
      this.channelId := channelId;
      this.additionalInfo := additionalInfo;
    }

    /** `update_status`: only the status and the update time change; `now` is the clock. */
    method UpdateStatus(newStatus: Status, now: Timestamp)
      modifies this
      ensures Data() == old(Data()).(status := newStatus, updatedAt := now)
    {
      status := newStatus;
      updatedAt := now;
    }

    /** `assign_to_sme`: records the expert and moves to SME_ASSIGNED. */
    method AssignToSme(smeSlackId: string, now: Timestamp)
      modifies this
      ensures Data() == old(Data()).(assignedTo := Some(smeSlackId), status := SmeAssigned, updatedAt := now)
    {
      assignedTo := Some(smeSlackId);
      UpdateStatus(SmeAssigned, now);
    }

    method MarkWaitingForInfo(now: Timestamp)
      modifies this
      ensures Data() == old(Data()).(status := AwaitingInfo, updatedAt := now)
    {
      UpdateStatus(AwaitingInfo, now);
    }

    method MarkInProgress(now: Timestamp)
      modifies this
      ensures Data() == old(Data()).(status := InProgress, updatedAt := now)
    {
      UpdateStatus(InProgress, now);
    }

    method Resolve(now: Timestamp)
      modifies this
      ensures Data() == old(Data()).(status := Resolved, updatedAt := now)
    {
      UpdateStatus(Resolved, now);
    }

    method Close(now: Timestamp)
      modifies this
      ensures Data() == old(Data()).(status := Closed, updatedAt := now)
    {
      UpdateStatus(Closed, now);
    }

    /** `is_urgent`. */
    function IsUrgent(): (r: bool)
      reads this
      ensures r <==> Data().priority == High
      ensures Data().priority in {Medium, Low} ==> !r
    {
      IsUrgentPriority(priority)
    }
  }

  /** Only HIGH priority is urgent. */
  predicate IsUrgentPriority(p: Priority) {
    p == High
  }

  /** The `user` sub-dictionary written by `serialize`. */
  function SerializeUser(u: UserData): Dict {
    map[
      "slack_id" := PyStr(u.slackId),
      "name" := PyStr(u.name),
      "email" := OptStr(u.email),
      "level" := PyStr(LevelValue(u.level)),
      "tags" := PyList(StrList(u.tags))]
  }

  /** `serialize`: every field under its own key, enums by value, absent options as `None`. */
  function Serialize(t: TicketData): (d: Dict)
    ensures d.Keys == {"id", "title", "description", "status", "priority", "user", "created_at",
      "updated_at", "category", "tags", "assigned_to", "thread_ts", "channel_id", "additional_info"}
  {
    map[
      "id" := PyStr(t.id),
      "title" := PyStr(t.title),
      "description" := PyStr(t.description),
      "status" := PyStr(StatusValue(t.status)),
      "priority" := PyStr(PriorityValue(t.priority)),
      "user" := PyDict(SerializeUser(t.user)),
      "created_at" := PyInt(t.createdAt),
      "updated_at" := PyInt(t.updatedAt),
      "category" := OptStr(t.category),
      "tags" := PyList(StrList(t.tags)),
      "assigned_to" := OptStr(t.assignedTo),
      "thread_ts" := OptStr(t.threadTs),
      "channel_id" := OptStr(t.channelId),
      "additional_info" := PyDict(t.additionalInfo)]
  }

  /** The user part of `from_dict`: `slack_id`, `name` and `level` are required, `email`
      defaults to `None` and `tags` to the empty list. */
  function UserFromDict(d: Dict): (r: Result<UserData, DecodeError>)
    ensures "slack_id" !in d || "name" !in d || "level" !in d ==> r.Err?
    ensures r.Ok? ==> "slack_id" in d && d["slack_id"] == PyStr(r.value.slackId)
    ensures r.Ok? ==> "name" in d && d["name"] == PyStr(r.value.name)
    ensures r.Ok? ==> Get(d, "email", PyNone) == OptStr(r.value.email)
    ensures r.Ok? ==> "level" in d && d["level"] == PyStr(LevelValue(r.value.level))
    ensures r.Ok? ==> Get(d, "tags", PyList([])) == PyList(StrList(r.value.tags))
  {
    var slackId :- RequiredStr(d, "slack_id");
    var name :- RequiredStr(d, "name");
    var email :- OptionalStr(d, "email");
    var levelStr :- RequiredStr(d, "level");
    var level :- match ParseLevel(levelStr)
      case None => Err(InvalidValue("level"))
      case Some(l) => Ok(l);
    var tags :- StrListOr(d, "tags");
    AsStrListInverse(Get(d, "tags", PyList([])).items, tags);
    Ok(UserData(slackId, name, email, level, tags))
  }

  /** The first keys `from_dict` reads: the two timestamps and the requester. */
  function StampsAndUser(d: Dict): Result<(Timestamp, Timestamp, UserData), DecodeError> {
    var createdAt :- RequiredInt(d, "created_at");
    var updatedAt :- RequiredInt(d, "updated_at");
    var user :- if "user" !in d then Err(MissingKey("user"))
      else if !d["user"].PyDict? then Err(InvalidValue("user"))
      else UserFromDict(d["user"].entries);
    Ok((createdAt, updatedAt, user))
  }

  /** The required keys that follow: id, title, description, status and priority. */
  function Heading(d: Dict): Result<(string, string, string, Status, Priority), DecodeError> {
    var id :- RequiredStr(d, "id");
    var title :- RequiredStr(d, "title");
    var description :- RequiredStr(d, "description");
    var statusStr :- RequiredStr(d, "status");
    var status :- match ParseStatus(statusStr)
      case None => Err(InvalidValue("status"))
      case Some(st) => Ok(st);
    var priorityStr :- RequiredStr(d, "priority");
    var priority :- match ParsePriority(priorityStr)
      case None => Err(InvalidValue("priority"))
      case Some(p) => Ok(p);
    Ok((id, title, description, status, priority))
  }

  /** The optional keys, each with its default. */
  function Extras(d: Dict)
    : Result<(Option<string>, seq<string>, Option<string>, Option<string>, Option<string>, Dict), DecodeError>
  {
    var category :- OptionalStr(d, "category");
    var tags :- StrListOr(d, "tags");
    var assignedTo :- OptionalStr(d, "assigned_to");
    var threadTs :- OptionalStr(d, "thread_ts");
    var channelId :- OptionalStr(d, "channel_id");
    var additionalInfo :- DictOr(d, "additional_info");
    Ok((category, tags, assignedTo, threadTs, channelId, additionalInfo))
  }

  /** `from_dict`, reading the keys in the source's order. Only the read order matches: each
      value is checked as it is read, whereas Python reads every required key (raising
      `KeyError` on a missing one) before any type is validated, so when several keys are bad
      the error reported may differ. No contract states which error is reported. */
  function FromDict(d: Dict): (r: Result<TicketData, DecodeError>)
    ensures "created_at" !in d || "updated_at" !in d || "user" !in d ==> r.Err?
    ensures "id" !in d || "title" !in d || "description" !in d ==> r.Err?
    ensures "status" !in d || "priority" !in d ==> r.Err?
    ensures r.Ok? ==> "id" in d && d["id"] == PyStr(r.value.id)
    ensures r.Ok? ==> "title" in d && d["title"] == PyStr(r.value.title)
    ensures r.Ok? ==> "description" in d && d["description"] == PyStr(r.value.description)
    ensures r.Ok? ==> "status" in d && d["status"] == PyStr(StatusValue(r.value.status))
    ensures r.Ok? ==> "priority" in d && d["priority"] == PyStr(PriorityValue(r.value.priority))
    ensures r.Ok? ==> "created_at" in d && d["created_at"] == PyInt(r.value.createdAt)
    ensures r.Ok? ==> "updated_at" in d && d["updated_at"] == PyInt(r.value.updatedAt)
    ensures r.Ok? ==> "user" in d && d["user"].PyDict? && UserFromDict(d["user"].entries) == Ok(r.value.user)
    ensures r.Ok? ==> Get(d, "category", PyNone) == OptStr(r.value.category)
    ensures r.Ok? ==> Get(d, "assigned_to", PyNone) == OptStr(r.value.assignedTo)
    ensures r.Ok? ==> Get(d, "thread_ts", PyNone) == OptStr(r.value.threadTs)
    ensures r.Ok? ==> Get(d, "channel_id", PyNone) == OptStr(r.value.channelId)
    ensures r.Ok? ==> Get(d, "tags", PyList([])) == PyList(StrList(r.value.tags))
    ensures r.Ok? ==> Get(d, "additional_info", PyDict(map[])) == PyDict(r.value.additionalInfo)
  {
    var (createdAt, updatedAt, user) :- StampsAndUser(d);
    var (id, title, description, status, priority) :- Heading(d);
    var (category, tags, assignedTo, threadTs, channelId, additionalInfo) :- Extras(d);
    AsStrListInverse(Get(d, "tags", PyList([])).items, tags);
    Ok(TicketData(id, title, description, status, priority, user, createdAt, updatedAt,
      category, tags, assignedTo, threadTs, channelId, additionalInfo))
  }

  /** Reading back the stored user reproduces the user's fields. */
  lemma {:induction false} UserRoundTrip(u: UserData)
    ensures UserFromDict(SerializeUser(u)) == Ok(u)
  {
    var d := SerializeUser(u);
    AsStrListInverse(StrList(u.tags), u.tags);
    assert RequiredStr(d, "slack_id") == Ok(u.slackId);
    assert RequiredStr(d, "name") == Ok(u.name);
    assert OptionalStr(d, "email") == Ok(u.email);
    assert RequiredStr(d, "level") == Ok(LevelValue(u.level));
    assert ParseLevel(LevelValue(u.level)) == Some(u.level);
    assert StrListOr(d, "tags") == Ok(u.tags);
  }

  lemma StampsAndUserRoundTrip(t: TicketData)
    ensures StampsAndUser(Serialize(t)) == Ok((t.createdAt, t.updatedAt, t.user))
  {
    var d := Serialize(t);
    assert RequiredInt(d, "created_at") == Ok(t.createdAt);
    assert RequiredInt(d, "updated_at") == Ok(t.updatedAt);
    assert "user" in d && d["user"] == PyDict(SerializeUser(t.user));
    UserRoundTrip(t.user);
  }

  lemma HeadingRoundTrip(t: TicketData)
    ensures Heading(Serialize(t)) == Ok((t.id, t.title, t.description, t.status, t.priority))
  {
    var d := Serialize(t);
    assert RequiredStr(d, "id") == Ok(t.id);
    assert RequiredStr(d, "title") == Ok(t.title);
    assert RequiredStr(d, "description") == Ok(t.description);
    assert RequiredStr(d, "status") == Ok(StatusValue(t.status));
    assert ParseStatus(StatusValue(t.status)) == Some(t.status);
    assert RequiredStr(d, "priority") == Ok(PriorityValue(t.priority));
    assert ParsePriority(PriorityValue(t.priority)) == Some(t.priority);
  }

  lemma ExtrasRoundTrip(t: TicketData)
    ensures Extras(Serialize(t)) == Ok((t.category, t.tags, t.assignedTo, t.threadTs, t.channelId, t.additionalInfo))
  {
    var d := Serialize(t);
    AsStrListInverse(StrList(t.tags), t.tags);
    assert OptionalStr(d, "category") == Ok(t.category);
    assert StrListOr(d, "tags") == Ok(t.tags);
    assert OptionalStr(d, "assigned_to") == Ok(t.assignedTo);
    assert OptionalStr(d, "thread_ts") == Ok(t.threadTs);
    assert OptionalStr(d, "channel_id") == Ok(t.channelId);
    assert DictOr(d, "additional_info") == Ok(t.additionalInfo);
  }

  /** Reading back what `serialize` wrote reproduces the ticket, field for field. */
  lemma {:induction false} SerializeRoundTrip(t: TicketData)
    ensures FromDict(Serialize(t)) == Ok(t)
  {
    StampsAndUserRoundTrip(t);
    HeadingRoundTrip(t);
    ExtrasRoundTrip(t);
  }

  /** What `from_dict` puts in place of the optional keys when they are absent. */
  lemma FromDictDefaults(d: Dict)
    requires FromDict(d).Ok?
    ensures "category" !in d ==> FromDict(d).value.category == None
    ensures "tags" !in d ==> FromDict(d).value.tags == []
    ensures "assigned_to" !in d ==> FromDict(d).value.assignedTo == None
    ensures "thread_ts" !in d ==> FromDict(d).value.threadTs == None
    ensures "channel_id" !in d ==> FromDict(d).value.channelId == None
    ensures "additional_info" !in d ==> FromDict(d).value.additionalInfo == map[]
  {
  }

  /** A ticket whose status value is not one of the enum's values is refused. */
  lemma FromDictRejectsUnknownStatus(d: Dict)
    requires "status" in d && d["status"].PyStr? && ParseStatus(d["status"].s).None?
    ensures FromDict(d).Err?
  {
  }

  /** A ticket whose priority value is not one of the enum's values is refused. */
  lemma FromDictRejectsUnknownPriority(d: Dict)
    requires "priority" in d && d["priority"].PyStr? && ParsePriority(d["priority"].s).None?
    ensures FromDict(d).Err?
  {
  }
}
