/**
 * The concrete notifications of the repository's tests, with the attachments the tests
 * expect, proved about the model. USERNAME and ICON are unset in all of them.
 */
module SlackExamples {
  import opened Wrappers
  import opened Json
  import opened Slack
  import SlackProperties

  const Unset := Environment("", "")

  const ClusterArn := "arn:aws:ecs:eu-west-1:123456789000:cluster" + "/" + "service"
  const TaskDefinitionArn := "arn:aws:ecs:eu-west-1:123456789000:task-definition" + "/" + "service:2"
  const StoppedByUser := "Task stopped by user"
  const ThresholdReason :=
    "Threshold Crossed: 1 datapoint (7.9053535353535365) was not greater than or equal to the threshold (8.0)."

  function TaskArn(id: string): string {
    "arn:aws:ecs:eu-west-1:123456789000:task/service" + "/" + id
  }

  /** A delivery of one notification body. */
  function Deliver(body: Json): SnsEvent {
    SnsEvent([SnsRecord(body)])
  }

  /** The CloudWatch alarm body of the alarm test, trimmed of members nothing reads. */
  function AlarmBody(): Json {
    Obj(map[
      "AlarmName" := Str("sns-cloudwatch"),
      "AlarmDescription" := Null,
      "NewStateValue" := Str("OK"),
      "NewStateReason" := Str(ThresholdReason),
      "Region" := Str("US - N. Virginia"),
      "Trigger" := Obj(map["Period" := Scalar])])
  }

  /** An ECS task-state-change body as in the task tests: the task's statuses, its id, its
      container's status, and a stopped reason when there is one. The container repeats a
      `lastStatus` and a `taskArn` one level down, which the formatter must not read. */
  function TaskBody(lastStatus: string, desiredStatus: string, taskId: string, containerStatus: string,
                    stoppedReason: Option<string>): Json {
    var detail := map[
      "clusterArn" := Str(ClusterArn),
      "containers" := Arr([Obj(map["lastStatus" := Str(containerStatus), "taskArn" := Str(TaskArn(taskId))])]),
      "desiredStatus" := Str(desiredStatus),
      "lastStatus" := Str(lastStatus),
      "taskArn" := Str(TaskArn(taskId)),
      "taskDefinitionArn" := Str(TaskDefinitionArn)];
    Obj(map[
      "detail-type" := Str("ECS Task State Change"),
      "detail" := Obj(if stoppedReason.Some? then detail["stoppedReason" := Str(stoppedReason.value)] else detail)])
  }

  function Row(title: string, value: string): AttachmentField {
    AttachmentField(title, value, true)
  }

  /** The short names the task fixtures yield. */
  lemma FixtureShortNames(taskId: string)
    requires '/' !in taskId
    ensures ShortName(ClusterArn) == "service"
    ensures ShortName(TaskDefinitionArn) == "service:2"
    ensures ShortName(TaskArn(taskId)) == taskId
  {
    SlackProperties.ShortNameAfterLastSlash("arn:aws:ecs:eu-west-1:123456789000:cluster", "service");
    SlackProperties.ShortNameAfterLastSlash("arn:aws:ecs:eu-west-1:123456789000:task-definition", "service:2");
    SlackProperties.ShortNameAfterLastSlash("arn:aws:ecs:eu-west-1:123456789000:task/service", taskId);
  }

  /** A task body is a readable task state change, and its detail reads back as given. */
  lemma TaskBodyReads(lastStatus: string, desiredStatus: string, taskId: string, containerStatus: string,
                      stoppedReason: Option<string>)
    ensures var body := TaskBody(lastStatus, desiredStatus, taskId, containerStatus, stoppedReason);
      DetailTypeReadable(body) && IsEcsTaskStateChange(body) &&
      TaskDetailOf(body) ==
        TaskDetail(ClusterArn, desiredStatus, lastStatus, if stoppedReason.Some? then stoppedReason.value else "",
                   TaskArn(taskId), TaskDefinitionArn)
  {
  }

  /** The attachment of a task fixture, in terms of the formatter's parts. */
  lemma TaskFixtureMessage(lastStatus: string, desiredStatus: string, taskId: string, containerStatus: string,
                           stoppedReason: Option<string>)
    requires '/' !in taskId
    ensures CreateSlackMessageAttachment(Deliver(TaskBody(lastStatus, desiredStatus, taskId, containerStatus, stoppedReason)), Unset) ==
      Some(MessageAttachments(
        MapEcsTaskChangeColor(desiredStatus),
        if lastStatus == desiredStatus then SettledPretext("service:2", "service", lastStatus)
        else TransitioningPretext("service:2", "service", lastStatus, desiredStatus),
        "AWS-bot", ":loudspeaker:",
        TaskFields(lastStatus, desiredStatus, "service", "service:2", taskId,
                   if stoppedReason.Some? then stoppedReason.value else "")))
  {
    var body := TaskBody(lastStatus, desiredStatus, taskId, containerStatus, stoppedReason);
    TaskBodyReads(lastStatus, desiredStatus, taskId, containerStatus, stoppedReason);
    FixtureShortNames(taskId);
    assert CreateSlackMessageAttachment(Deliver(body), Unset) == Some(EcsTaskStateChange(body, Unset));
  }

  /** A task fixture yields `expected` once `expected` is shown to be the formatter's parts. */
  lemma TaskFixture(lastStatus: string, desiredStatus: string, taskId: string, containerStatus: string,
                    stoppedReason: Option<string>,
                    expected: MessageAttachments)
    requires '/' !in taskId
    requires expected == MessageAttachments(
        MapEcsTaskChangeColor(desiredStatus),
        if lastStatus == desiredStatus then SettledPretext("service:2", "service", lastStatus)
        else TransitioningPretext("service:2", "service", lastStatus, desiredStatus),
        "AWS-bot", ":loudspeaker:",
        TaskFields(lastStatus, desiredStatus, "service", "service:2", taskId,
                   if stoppedReason.Some? then stoppedReason.value else ""))
    ensures CreateSlackMessageAttachment(Deliver(TaskBody(lastStatus, desiredStatus, taskId, containerStatus, stoppedReason)), Unset) ==
            Some(expected)
  {
    TaskFixtureMessage(lastStatus, desiredStatus, taskId, containerStatus, stoppedReason);
  }

  /** The alarm test's pretext sentence. */
  lemma AlarmPretextText()
    ensures AlarmPretext("OK", "sns-cloudwatch", "US - N. Virginia") == "OK: sns-cloudwatch in US - N. Virginia"
  {
  }

  lemma AlarmExample()
    ensures CreateSlackMessageAttachment(Deliver(AlarmBody()), Unset) ==
      Some(MessageAttachments("good", "OK: sns-cloudwatch in US - N. Virginia", "AWS-bot", ":loudspeaker:", [
        AttachmentField("Alarm", "sns-cloudwatch", true),
        AttachmentField("Status", "OK", true),
        AttachmentField("Reason", ThresholdReason, false)]))
  {
    var body := AlarmBody();
    assert !IsEcsTaskStateChange(body) && IsAlarm(body);
    assert StringAt(body, "NewStateValue") == "OK";
    assert StringAt(body, "AlarmName") == "sns-cloudwatch";
    assert StringAt(body, "NewStateReason") == ThresholdReason;
    assert StringAt(body, "Region") == "US - N. Virginia";
    AlarmPretextText();
  }

  lemma DeactivatingStoppedExample()
    ensures CreateSlackMessageAttachment(Deliver(TaskBody("DEACTIVATING", "STOPPED", "12345", "RUNNING", Some(StoppedByUser))), Unset) ==
      Some(MessageAttachments("danger",
        TransitioningPretext("service:2", "service", "DEACTIVATING", "STOPPED"), "AWS-bot", ":loudspeaker:", [
        Row("Last status", "DEACTIVATING"), Row("Desired status", "STOPPED"), Row("Cluster", "service"),
        Row("Task definition", "service:2"), Row("Task", "12345"), Row("Stopped reason", StoppedByUser)]))
  {
    var expected := MessageAttachments("danger",
          TransitioningPretext("service:2", "service", "DEACTIVATING", "STOPPED"), "AWS-bot", ":loudspeaker:", [
          Row("Last status", "DEACTIVATING"), Row("Desired status", "STOPPED"), Row("Cluster", "service"),
          Row("Task definition", "service:2"), Row("Task", "12345"), Row("Stopped reason", StoppedByUser)]);
    TaskFixture("DEACTIVATING", "STOPPED", "12345", "RUNNING", Some(StoppedByUser), expected);
  }

  lemma ProvisioningRunningExample()
    ensures CreateSlackMessageAttachment(Deliver(TaskBody("PROVISIONING", "RUNNING", "123", "PENDING", None)), Unset) ==
      Some(MessageAttachments("good",
        TransitioningPretext("service:2", "service", "PROVISIONING", "RUNNING"), "AWS-bot", ":loudspeaker:", [
        Row("Last status", "PROVISIONING"), Row("Desired status", "RUNNING"), Row("Cluster", "service"),
        Row("Task definition", "service:2"), Row("Task", "123")]))
  {
    var expected := MessageAttachments("good",
          TransitioningPretext("service:2", "service", "PROVISIONING", "RUNNING"), "AWS-bot", ":loudspeaker:", [
          Row("Last status", "PROVISIONING"), Row("Desired status", "RUNNING"), Row("Cluster", "service"),
          Row("Task definition", "service:2"), Row("Task", "123")]);
    TaskFixture("PROVISIONING", "RUNNING", "123", "PENDING", None, expected);
  }

  lemma DeprovisioningStoppedExample()
    ensures CreateSlackMessageAttachment(Deliver(TaskBody("DEPROVISIONING", "STOPPED", "12345", "STOPPED", Some(StoppedByUser))), Unset) ==
      Some(MessageAttachments("danger",
        TransitioningPretext("service:2", "service", "DEPROVISIONING", "STOPPED"), "AWS-bot", ":loudspeaker:", [
        Row("Last status", "DEPROVISIONING"), Row("Desired status", "STOPPED"), Row("Cluster", "service"),
        Row("Task definition", "service:2"), Row("Task", "12345"), Row("Stopped reason", StoppedByUser)]))
  {
    var expected := MessageAttachments("danger",
          TransitioningPretext("service:2", "service", "DEPROVISIONING", "STOPPED"), "AWS-bot", ":loudspeaker:", [
          Row("Last status", "DEPROVISIONING"), Row("Desired status", "STOPPED"), Row("Cluster", "service"),
          Row("Task definition", "service:2"), Row("Task", "12345"), Row("Stopped reason", StoppedByUser)]);
    TaskFixture("DEPROVISIONING", "STOPPED", "12345", "STOPPED", Some(StoppedByUser), expected);
  }

  lemma PendingRunningExample()
    ensures CreateSlackMessageAttachment(Deliver(TaskBody("PENDING", "RUNNING", "123", "PENDING", None)), Unset) ==
      Some(MessageAttachments("good",
        TransitioningPretext("service:2", "service", "PENDING", "RUNNING"), "AWS-bot", ":loudspeaker:", [
        Row("Last status", "PENDING"), Row("Desired status", "RUNNING"), Row("Cluster", "service"),
        Row("Task definition", "service:2"), Row("Task", "123")]))
  {
    var expected := MessageAttachments("good",
          TransitioningPretext("service:2", "service", "PENDING", "RUNNING"), "AWS-bot", ":loudspeaker:", [
          Row("Last status", "PENDING"), Row("Desired status", "RUNNING"), Row("Cluster", "service"),
          Row("Task definition", "service:2"), Row("Task", "123")]);
    TaskFixture("PENDING", "RUNNING", "123", "PENDING", None, expected);
  }

  lemma StoppedExample()
    ensures CreateSlackMessageAttachment(Deliver(TaskBody("STOPPED", "STOPPED", "12345", "STOPPED", Some(StoppedByUser))), Unset) ==
      Some(MessageAttachments("danger",
        SettledPretext("service:2", "service", "STOPPED"), "AWS-bot", ":loudspeaker:", [
        Row("Last status", "STOPPED"), Row("Desired status", "STOPPED"), Row("Cluster", "service"),
        Row("Task definition", "service:2"), Row("Task", "12345"), Row("Stopped reason", StoppedByUser)]))
  {
    var expected := MessageAttachments("danger",
          SettledPretext("service:2", "service", "STOPPED"), "AWS-bot", ":loudspeaker:", [
          Row("Last status", "STOPPED"), Row("Desired status", "STOPPED"), Row("Cluster", "service"),
          Row("Task definition", "service:2"), Row("Task", "12345"), Row("Stopped reason", StoppedByUser)]);
    TaskFixture("STOPPED", "STOPPED", "12345", "STOPPED", Some(StoppedByUser), expected);
  }

  lemma ActivatingRunningExample()
    ensures CreateSlackMessageAttachment(Deliver(TaskBody("ACTIVATING", "RUNNING", "123", "RUNNING", None)), Unset) ==
      Some(MessageAttachments("good",
        TransitioningPretext("service:2", "service", "ACTIVATING", "RUNNING"), "AWS-bot", ":loudspeaker:", [
        Row("Last status", "ACTIVATING"), Row("Desired status", "RUNNING"), Row("Cluster", "service"),
        Row("Task definition", "service:2"), Row("Task", "123")]))
  {
    var expected := MessageAttachments("good",
          TransitioningPretext("service:2", "service", "ACTIVATING", "RUNNING"), "AWS-bot", ":loudspeaker:", [
          Row("Last status", "ACTIVATING"), Row("Desired status", "RUNNING"), Row("Cluster", "service"),
          Row("Task definition", "service:2"), Row("Task", "123")]);
    TaskFixture("ACTIVATING", "RUNNING", "123", "RUNNING", None, expected);
  }

  lemma RunningExample()
    ensures CreateSlackMessageAttachment(Deliver(TaskBody("RUNNING", "RUNNING", "123", "RUNNING", None)), Unset) ==
      Some(MessageAttachments("good",
        SettledPretext("service:2", "service", "RUNNING"), "AWS-bot", ":loudspeaker:", [
        Row("Last status", "RUNNING"), Row("Desired status", "RUNNING"), Row("Cluster", "service"),
        Row("Task definition", "service:2"), Row("Task", "123")]))
  {
    var expected := MessageAttachments("good",
          SettledPretext("service:2", "service", "RUNNING"), "AWS-bot", ":loudspeaker:", [
          Row("Last status", "RUNNING"), Row("Desired status", "RUNNING"), Row("Cluster", "service"),
          Row("Task definition", "service:2"), Row("Task", "123")]);
    TaskFixture("RUNNING", "RUNNING", "123", "RUNNING", None, expected);
  }

  /** A body with neither discriminator, and one whose alarm name is null, produce nothing. */
  lemma UnrecognizedExample()
    ensures CreateSlackMessageAttachment(Deliver(Obj(map["detail-type" := Str("EC2 Instance State-change Notification")])), Unset) == None
    ensures CreateSlackMessageAttachment(Deliver(Obj(map["AlarmName" := Null, "Region" := Str("eu-west-1")])), Unset) == None
  {
    var other := Obj(map["detail-type" := Str("EC2 Instance State-change Notification")]);
    assert !IsEcsTaskStateChange(other) && !IsAlarm(other);
    var nullName := Obj(map["AlarmName" := Null, "Region" := Str("eu-west-1")]);
    assert !IsEcsTaskStateChange(nullName) && !IsAlarm(nullName);
  }
}
