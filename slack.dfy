/**
 * The notification classifier and formatter of aws-notify-slack: given the body of the first
 * SNS record, it recognises an ECS task-state-change event or a CloudWatch alarm and builds the
 * Slack message attachment that describes it, or produces nothing for any other body.
 *
 * The USERNAME and ICON process settings arrive as an `Environment`; the body arrives already
 * parsed; the message is returned as a record rather than as its JSON encoding.
 */
module Slack {
  import opened Wrappers
  import opened Json
  import Strings

  /** One row of the attachment's field table. */
  datatype AttachmentField = AttachmentField(title: string, value: string, short: bool)

  /** The Slack message attachment the formatter builds. */
  datatype MessageAttachments = MessageAttachments(
    color: string,
    pretext: string,
    username: string,
    icon: string,
    fields: seq<AttachmentField>)

  /** The USERNAME and ICON settings as read from the process environment; "" means unset. */
  datatype Environment = Environment(username: string, icon: string)

  /** An SNS delivery; each record's message is a notification body, already parsed. */
  datatype SnsRecord = SnsRecord(message: Json)
  datatype SnsEvent = SnsEvent(records: seq<SnsRecord>)

  const EcsTaskStateChangeType: string := "ECS Task State Change"
  const DefaultUsername: string := "AWS-bot"
  const DefaultIcon: string := ":loudspeaker:"

  /** The severity tokens Slack understands as attachment colours. */
  predicate IsSeverity(color: string) {
    color == "good" || color == "warning" || color == "danger"
  }

  /** A message that keeps every key when serialised with `omitempty`: colour, pretext,
      username, icon and at least one field, each field with a title. */
  predicate Complete(m: MessageAttachments) {
    m.color != "" && m.pretext != "" && m.username != "" && m.icon != "" &&
    |m.fields| > 0 && forall i :: 0 <= i < |m.fields| ==> m.fields[i].title != ""
  }

  /** The titles of a field table, in order. */
  function Titles(fs: seq<AttachmentField>): seq<string> {
    seq(|fs|, i requires 0 <= i < |fs| => fs[i].title)
  }

  // ---------------------------------------------------------------- colours

  /** Colour of an alarm notification, by the alarm's new state: total, with "good" for
      "OK" and for every state it does not know. */
  function MapAlarmColor(status: string): (color: string)
    ensures IsSeverity(color)
    ensures color == "danger" <==> status == "ALARM"
    ensures color == "warning" <==> status == "INSUFFICIENT_DATA"
  {
    if status == "ALARM" then "danger"
    else if status == "INSUFFICIENT_DATA" then "warning"
    else "good"
  }

  /** Colour of a task-state-change notification, by the task's desired status. */
  function MapEcsTaskChangeColor(desiredStatus: string): (color: string)
    ensures IsSeverity(color) && color != "warning"
    ensures color == "danger" <==> desiredStatus == "STOPPED"
  {
    if desiredStatus == "STOPPED" then "danger" else "good"
  }

  // ---------------------------------------------------------------- ARN short names

  /** The short name of a resource ARN: `arn[LastIndex(arn, "/") + 1:]`. It is the longest
      suffix free of '/', i.e. the whole ARN when it has no '/', and otherwise exactly the
      text after the last '/'. */
  function ShortName(arn: string): (name: string)
    ensures |name| <= |arn| && name == arn[|arn| - |name|..]
    ensures '/' !in name
    ensures '/' !in arn ==> name == arn
    ensures '/' in arn ==> |name| < |arn| && arn[|arn| - |name| - 1] == '/'
  {
    arn[Strings.LastIndex(arn, '/') + 1..]
  }

  /** A process setting, or the fallback when the setting is empty. */
  function ConfiguredOr(configured: string, fallback: string): (value: string)
    ensures configured != "" ==> value == configured
    ensures configured == "" ==> value == fallback
  {
    if configured == "" then fallback else configured
  }

  // ---------------------------------------------------------------- task state change

  /** "Task D in C cluster changed state: L" — the task has reached its desired status. */
  function SettledPretext(taskDefinitionName: string, clusterName: string, lastStatus: string): (p: string)
    ensures p != ""
    ensures "Task " + taskDefinitionName + " in " + clusterName + " cluster " <= p
  {
    "Task " + taskDefinitionName + " in " + clusterName + " cluster changed state: " + lastStatus
  }

  /** "Task D in C cluster is changing state: L -> S" — the task is on its way to S. */
  function TransitioningPretext(taskDefinitionName: string, clusterName: string,
                                lastStatus: string, desiredStatus: string): (p: string)
    ensures p != ""
    ensures "Task " + taskDefinitionName + " in " + clusterName + " cluster " <= p
  {
    "Task " + taskDefinitionName + " in " + clusterName + " cluster is changing state: " +
    lastStatus + " -> " + desiredStatus
  }

  /** The members of a task-state-change body's `detail` that the formatter reads. */
  datatype TaskDetail = TaskDetail(
    clusterArn: string,
    desiredStatus: string,
    lastStatus: string,
    stoppedReason: string,
    taskArn: string,
    taskDefinitionArn: string)

  /** Reads the task detail of a body; a missing or non-string member reads as "". */
  function TaskDetailOf(message: Json): (d: TaskDetail)
    ensures d.lastStatus != "" ==> Path(Path(message, "detail"), "lastStatus") == Str(d.lastStatus)
    ensures d.desiredStatus != "" ==> Path(Path(message, "detail"), "desiredStatus") == Str(d.desiredStatus)
    ensures d.stoppedReason != "" ==> Path(Path(message, "detail"), "stoppedReason") == Str(d.stoppedReason)
  {
    var detail := Path(message, "detail");
    TaskDetail(
      StringAt(detail, "clusterArn"),
      StringAt(detail, "desiredStatus"),
      StringAt(detail, "lastStatus"),
      StringAt(detail, "stoppedReason"),
      StringAt(detail, "taskArn"),
      StringAt(detail, "taskDefinitionArn"))
  }

  /** The five fixed rows of a task-state-change attachment, then "Stopped reason" when there is one. */
  function TaskFields(lastStatus: string, desiredStatus: string, clusterName: string,
                      taskDefinitionName: string, taskName: string, stoppedReason: string): (fs: seq<AttachmentField>)
    ensures |fs| == if stoppedReason != "" then 6 else 5
    ensures forall i :: 0 <= i < |fs| ==> fs[i].short && fs[i].title != ""
  {
    [ AttachmentField("Last status", lastStatus, true),
      AttachmentField("Desired status", desiredStatus, true),
      AttachmentField("Cluster", clusterName, true),
      AttachmentField("Task definition", taskDefinitionName, true),
      AttachmentField("Task", taskName, true) ]
    + (if stoppedReason != "" then [AttachmentField("Stopped reason", stoppedReason, true)] else [])
  }

  /** The attachment for an ECS task-state-change body. */
  function EcsTaskStateChange(message: Json, env: Environment): (m: MessageAttachments)
    ensures Complete(m)
    ensures |m.fields| == 5 || |m.fields| == 6
    ensures forall i :: 0 <= i < |m.fields| ==> m.fields[i].short
    ensures IsSeverity(m.color)
    ensures m == FormatTaskStateChange(TaskDetailOf(message), env)
  {
    FormatTaskStateChange(TaskDetailOf(message), env)
  }

  /** The attachment describing one task state change. */
  function FormatTaskStateChange(d: TaskDetail, env: Environment): (m: MessageAttachments)
    ensures Complete(m)
    ensures |m.fields| == 5 || |m.fields| == 6
    ensures forall i :: 0 <= i < |m.fields| ==> m.fields[i].short
    ensures IsSeverity(m.color)
  {
    var clusterName := ShortName(d.clusterArn);
    var taskName := ShortName(d.taskArn);
    var taskDefinitionName := ShortName(d.taskDefinitionArn);

    var fields := TaskFields(d.lastStatus, d.desiredStatus, clusterName, taskDefinitionName, taskName, d.stoppedReason);
    var pretext :=
      if d.lastStatus == d.desiredStatus then SettledPretext(taskDefinitionName, clusterName, d.lastStatus)
      else TransitioningPretext(taskDefinitionName, clusterName, d.lastStatus, d.desiredStatus);

    var username := ConfiguredOr(env.username, DefaultUsername);
    var icon := ConfiguredOr(env.icon, DefaultIcon);
    assert username != "" && icon != "" && pretext != "";
    MessageAttachments(MapEcsTaskChangeColor(d.desiredStatus), pretext, username, icon, fields)
  }

  // ---------------------------------------------------------------- alarm

  /** "S: N in R" — the alarm's new state, its name and its region. */
  function AlarmPretext(newStateValue: string, alarmName: string, region: string): (p: string)
    ensures p != ""
    ensures newStateValue + ": " + alarmName + " in " <= p
  {
    newStateValue + ": " + alarmName + " in " + region
  }

  /** The attachment for a CloudWatch alarm body. */
  function Alarm(message: Json, env: Environment): (m: MessageAttachments)
    ensures Complete(m)
    ensures |m.fields| == 3
    ensures IsSeverity(m.color)
  {
    var newStateValue := StringAt(message, "NewStateValue");
    var newStateReason := StringAt(message, "NewStateReason");
    var alarmName := StringAt(message, "AlarmName");
    var region := StringAt(message, "Region");

    var fields := [
      AttachmentField("Alarm", alarmName, true),
      AttachmentField("Status", newStateValue, true),
      AttachmentField("Reason", newStateReason, false)
    ];

    var username := ConfiguredOr(env.username, DefaultUsername);
    var icon := ConfiguredOr(env.icon, DefaultIcon);
    var pretext := AlarmPretext(newStateValue, alarmName, region);
    assert username != "" && icon != "" && pretext != "";
    MessageAttachments(MapAlarmColor(newStateValue), pretext, username, icon, fields)
  }

  // ---------------------------------------------------------------- dispatch

  /** The body names itself an ECS task state change. */
  predicate IsEcsTaskStateChange(message: Json)
    ensures IsEcsTaskStateChange(message) <==> Path(message, "detail-type") == Str(EcsTaskStateChangeType)
  {
    Exists(message, "detail-type") && StringAt(message, "detail-type") == EcsTaskStateChangeType
  }

  /** The body carries an alarm name. */
  predicate IsAlarm(message: Json)
    ensures message.Obj? ==>
              (IsAlarm(message) <==> "AlarmName" in message.members && !message.members["AlarmName"].Null?)
  {
    Exists(message, "AlarmName")
  }

  /** `detail-type`, when present and non-null, is a string (the source asserts it is). */
  predicate DetailTypeReadable(message: Json) {
    Path(message, "detail-type").Null? || Path(message, "detail-type").Str?
  }

  /** The attachment for the first record of an SNS delivery: a task-state-change message when
      the body says so, else an alarm message when it has an alarm name, else nothing. */
  function CreateSlackMessageAttachment(event: SnsEvent, env: Environment): (r: Option<MessageAttachments>)
    requires |event.records| > 0
    requires DetailTypeReadable(event.records[0].message)
    ensures r.None? <==> !IsEcsTaskStateChange(event.records[0].message) && !IsAlarm(event.records[0].message)
    ensures r.Some? ==> Complete(r.value)
    ensures IsEcsTaskStateChange(event.records[0].message) ==>
              r == Some(EcsTaskStateChange(event.records[0].message, env))
    ensures !IsEcsTaskStateChange(event.records[0].message) && IsAlarm(event.records[0].message) ==>
              r == Some(Alarm(event.records[0].message, env))
    ensures IsEcsTaskStateChange(event.records[0].message) ==> r.Some? && r.value.fields[0].title == "Last status"
    ensures !IsEcsTaskStateChange(event.records[0].message) && IsAlarm(event.records[0].message) ==>
              r.Some? && r.value.fields[0].title == "Alarm"
  {
    var message := event.records[0].message;
    if IsEcsTaskStateChange(message) then Some(EcsTaskStateChange(message, env))
    else if IsAlarm(message) then Some(Alarm(message, env))
    else None
  }
}
