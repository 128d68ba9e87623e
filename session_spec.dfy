/**
 * The specification of a Doc Scan session to be created, and the builder that
 * assembles one field at a time. The two list fields are mutable lists held by
 * reference: `Build` hands the builder's own lists to the specification.
 */
module SessionSpecs {
  import opened Wrappers

  /** The configuration objects a specification carries; their contents are not part of this model. */
  type NotificationConfig(==)
  type SdkConfig(==)
  type RequestedCheck(==)
  type RequestedTask(==)

  /** A mutable list, shared by whoever holds a reference to it. */
  class ListRef<A> {
    var items: seq<A>

    constructor ()
      ensures items == []
    {
      items := [];
    }

    /** `list.append(x)`. */
    method Append(x: A)
      modifies this
      ensures items == old(items) + [x]
    {
      items := items + [x];
    }
  }

  /** The seven values of a specification or a builder, lists taken by their contents. */
  datatype SpecState = SpecState(
    clientSessionTokenTtl: Option<int>,
    resourcesTtl: Option<int>,
    userTrackingId: Option<string>,
    notifications: Option<NotificationConfig>,
    sdkConfig: Option<SdkConfig>,
    requestedChecks: seq<RequestedCheck>,
    requestedTasks: seq<RequestedTask>)

  /** The value under one key of the dict `SessionSpec.ToJson` returns. */
  datatype JsonField =
    | TtlField(ttl: Option<int>)
    | TrackingIdField(trackingId: Option<string>)
    | NotificationsField(notifications: Option<NotificationConfig>)
    | SdkConfigField(sdkConfig: Option<SdkConfig>)
    | ChecksField(checks: ListRef<RequestedCheck>)
    | TasksField(tasks: ListRef<RequestedTask>)

  /** The keys of the JSON form of a specification. */
  const JsonKeys: set<string> := {
    "client_session_token_ttl", "resources_ttl", "user_tracking_id", "notifications",
    "requested_checks", "requested_tasks", "sdk_config"}

  /** A session specification: every field is set once, by the constructor. */
  class SessionSpec {
    const clientSessionTokenTtl: Option<int>
    const resourcesTtl: Option<int>
    const userTrackingId: Option<string>
    const notifications: Option<NotificationConfig>
    const sdkConfig: Option<SdkConfig>
    const requestedChecks: ListRef<RequestedCheck>
    const requestedTasks: ListRef<RequestedTask>

    /** Missing check or task lists (None) become fresh empty lists; given lists are kept, not copied. */
    constructor (
      clientSessionTokenTtl: Option<int>,
      resourcesTtl: Option<int>,
      userTrackingId: Option<string>,
      notifications: Option<NotificationConfig>,
      sdkConfig: Option<SdkConfig>,
      checks: Option<ListRef<RequestedCheck>>,
      tasks: Option<ListRef<RequestedTask>>)
      ensures this.clientSessionTokenTtl == clientSessionTokenTtl
      ensures this.resourcesTtl == resourcesTtl
      ensures this.userTrackingId == userTrackingId
      ensures this.notifications == notifications
      ensures this.sdkConfig == sdkConfig
      ensures checks.Some? ==> requestedChecks == checks.value
      ensures checks.None? ==> fresh(requestedChecks) && requestedChecks.items == []
      ensures tasks.Some? ==> requestedTasks == tasks.value
      ensures tasks.None? ==> fresh(requestedTasks) && requestedTasks.items == []
      ensures checks.None? && tasks.None? ==> requestedChecks as object != requestedTasks as object
    {
      var checkList: ListRef<RequestedCheck>;
      var taskList: ListRef<RequestedTask>;
      if tasks.None? {
        taskList := new ListRef();
      } else {
        taskList := tasks.value;
      }
      if checks.None? {
        checkList := new ListRef();
      } else {
        checkList := checks.value;
      }
      this.clientSessionTokenTtl := clientSessionTokenTtl;
      this.resourcesTtl := resourcesTtl;
      this.userTrackingId := userTrackingId;
      this.notifications := notifications;
      this.sdkConfig := sdkConfig;
      this.requestedChecks := checkList;
      this.requestedTasks := taskList;
    }

    /** The values the specification currently presents, lists read through their references. */
    function State(): (s: SpecState)
      reads requestedChecks, requestedTasks
    {
      SpecState(clientSessionTokenTtl, resourcesTtl, userTrackingId, notifications, sdkConfig,
        requestedChecks.items, requestedTasks.items)
    }

    /** Exactly the seven keys, each holding its accessor's value; the lists are the spec's own. */
    function ToJson(): (json: map<string, JsonField>)
      ensures json.Keys == JsonKeys && |json| == 7
      ensures json["client_session_token_ttl"] == TtlField(clientSessionTokenTtl)
      ensures json["resources_ttl"] == TtlField(resourcesTtl)
      ensures json["user_tracking_id"] == TrackingIdField(userTrackingId)
      ensures json["notifications"] == NotificationsField(notifications)
      ensures json["requested_checks"] == ChecksField(requestedChecks)
      ensures json["requested_tasks"] == TasksField(requestedTasks)
      ensures json["sdk_config"] == SdkConfigField(sdkConfig)
    {
      map[
        "client_session_token_ttl" := TtlField(clientSessionTokenTtl),
        "resources_ttl" := TtlField(resourcesTtl),
        "user_tracking_id" := TrackingIdField(userTrackingId),
        "notifications" := NotificationsField(notifications),
        "requested_checks" := ChecksField(requestedChecks),
        "requested_tasks" := TasksField(requestedTasks),
        "sdk_config" := SdkConfigField(sdkConfig)]
    }
  }

  /** Builder of a `SessionSpec`: each `With` method updates the builder and returns it. */
  class SessionSpecBuilder {
    var clientSessionTokenTtl: Option<int>
    var resourcesTtl: Option<int>
    var userTrackingId: Option<string>
    var notifications: Option<NotificationConfig>
    var sdkConfig: Option<SdkConfig>
    const requestedChecks: ListRef<RequestedCheck>
    const requestedTasks: ListRef<RequestedTask>

    /** The two lists are distinct objects, so appending to one leaves the other alone. */
    ghost predicate Valid() {
      requestedChecks as object != requestedTasks as object
    }

    /** The values the next `Build` would store. */
    function State(): (s: SpecState)
      reads this, requestedChecks, requestedTasks
    {
      SpecState(clientSessionTokenTtl, resourcesTtl, userTrackingId, notifications, sdkConfig,
        requestedChecks.items, requestedTasks.items)
    }

    /** A fresh builder: no scalar value set, and two new empty lists. */
    constructor ()
      ensures State() == SpecState(None, None, None, None, None, [], [])
      ensures Valid() && fresh(requestedChecks) && fresh(requestedTasks)
    {
      clientSessionTokenTtl := None;
      resourcesTtl := None;
      userTrackingId := None;
      notifications := None;
      sdkConfig := None;
      requestedChecks := new ListRef();
      requestedTasks := new ListRef();
    }

    method WithClientSessionTokenTtl(value: Option<int>) returns (self: SessionSpecBuilder)
      modifies this
      ensures self == this
      ensures State() == old(State()).(clientSessionTokenTtl := value)
    {
      clientSessionTokenTtl := value;
      self := this;
    }

    method WithResourcesTtl(value: Option<int>) returns (self: SessionSpecBuilder)
      modifies this
      ensures self == this
      ensures State() == old(State()).(resourcesTtl := value)
    {
      resourcesTtl := value;
      self := this;
    }

    method WithUserTrackingId(value: Option<string>) returns (self: SessionSpecBuilder)
      modifies this
      ensures self == this
      ensures State() == old(State()).(userTrackingId := value)
    {
      userTrackingId := value;
      self := this;
    }

    method WithNotifications(value: Option<NotificationConfig>) returns (self: SessionSpecBuilder)
      modifies this
      ensures self == this
      ensures State() == old(State()).(notifications := value)
    {
      notifications := value;
      self := this;
    }

    /** Appends the check to the builder's list, the same list any spec built earlier holds. */
    method WithRequestedCheck(check: RequestedCheck) returns (self: SessionSpecBuilder)
      requires Valid()
      modifies requestedChecks
      ensures self == this
      ensures requestedChecks.items == old(requestedChecks.items) + [check]
      ensures State() == old(State()).(requestedChecks := old(requestedChecks.items) + [check])
    {
      requestedChecks.Append(check);
      self := this;
    }

    /** Appends the task to the builder's list, the same list any spec built earlier holds. */
    method WithRequestedTask(task: RequestedTask) returns (self: SessionSpecBuilder)
      requires Valid()
      modifies requestedTasks
      ensures self == this
      ensures requestedTasks.items == old(requestedTasks.items) + [task]
      ensures State() == old(State()).(requestedTasks := old(requestedTasks.items) + [task])
    {
      requestedTasks.Append(task);
      self := this;
    }

    method WithSdkConfig(value: Option<SdkConfig>) returns (self: SessionSpecBuilder)
      modifies this
      ensures self == this
      ensures State() == old(State()).(sdkConfig := value)
    {
      sdkConfig := value;
      self := this;
    }

    /** A new spec holding the builder's current values and sharing its two lists. */
    method Build() returns (spec: SessionSpec)
      ensures fresh(spec)
      ensures spec.State() == State()
      ensures spec.requestedChecks == requestedChecks && spec.requestedTasks == requestedTasks
    {
      spec := new SessionSpec(clientSessionTokenTtl, resourcesTtl, userTrackingId, notifications,
        sdkConfig, Some(requestedChecks), Some(requestedTasks));
    }
  }

  /** A check added after `Build` shows up in the spec already built, through the shared list. */
  method CheckAddedAfterBuildIsShared(check: RequestedCheck) returns (spec: SessionSpec)
    ensures spec.requestedChecks.items == [check]
    ensures spec.requestedTasks.items == []
  {
    var builder := new SessionSpecBuilder();
    spec := builder.Build();
    assert spec.requestedChecks.items == [];
    var _ := builder.WithRequestedCheck(check);
  }

  /** Only the last value written to a field reaches the built spec. */
  method LastWriteWins(first: Option<int>, second: Option<int>) returns (spec: SessionSpec)
    ensures spec.clientSessionTokenTtl == second
    ensures spec.State() == SpecState(second, None, None, None, None, [], [])
  {
    var builder := new SessionSpecBuilder();
    var _ := builder.WithClientSessionTokenTtl(first);
    var _ := builder.WithClientSessionTokenTtl(second);
    spec := builder.Build();
  }
}
