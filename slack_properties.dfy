/**
 * What the formatter promises, stated over all inputs: ARN short names, the field tables of
 * both notification kinds, the settled/transitioning pretext choice, the colours, the
 * username and icon defaults, and the dispatch between the two kinds.
 */
module SlackProperties {
  import opened Wrappers
  import opened Json
  import opened Slack

  // ---------------------------------------------------------------- ARN short names

  /** Whatever precedes the last '/', the short name is exactly the text after it. */
  lemma {:induction false} ShortNameAfterLastSlash(prefix: string, name: string)
    requires '/' !in name
    ensures ShortName(prefix + "/" + name) == name
  {
    var arn := prefix + "/" + name;
    assert arn[|prefix|] == '/';
    assert arn[|arn| - |name|..] == name;
  }

  /** Taking the short name twice changes nothing. */
  lemma ShortNameIdempotent(arn: string)
    ensures ShortName(ShortName(arn)) == ShortName(arn)
  {
  }

  // ---------------------------------------------------------------- task state change

  /** The field table of a task-state-change attachment is the one built from its detail. */
  lemma FormatFields(d: TaskDetail, env: Environment)
    ensures FormatTaskStateChange(d, env).fields ==
              TaskFields(d.lastStatus, d.desiredStatus, ShortName(d.clusterArn), ShortName(d.taskDefinitionArn),
                         ShortName(d.taskArn), d.stoppedReason)
  {
  }

  /** The five fixed titles in their fixed order, then "Stopped reason" exactly when the
      detail carries a stopped reason. */
  lemma TaskFieldTitles(d: TaskDetail, env: Environment)
    ensures Titles(FormatTaskStateChange(d, env).fields) ==
              ["Last status", "Desired status", "Cluster", "Task definition", "Task"] +
              (if d.stoppedReason != "" then ["Stopped reason"] else [])
  {
    FormatFields(d, env);
  }

  /** The five fixed rows show the statuses and the cluster, task-definition and task short names. */
  lemma TaskFieldValues(d: TaskDetail, env: Environment)
    ensures var fs := FormatTaskStateChange(d, env).fields;
      fs[0].value == d.lastStatus && fs[1].value == d.desiredStatus &&
      fs[2].value == ShortName(d.clusterArn) && fs[3].value == ShortName(d.taskDefinitionArn) &&
      fs[4].value == ShortName(d.taskArn)
  {
    FormatFields(d, env);
  }

  /** None of the five fixed rows is titled "Stopped reason"; the optional sixth row is. */
  lemma StoppedReasonOnlyLast(lastStatus: string, desiredStatus: string, clusterName: string,
                              taskDefinitionName: string, taskName: string, stoppedReason: string)
    ensures var fs := TaskFields(lastStatus, desiredStatus, clusterName, taskDefinitionName, taskName, stoppedReason);
      (forall i :: 0 <= i < 5 ==> fs[i].title != "Stopped reason") &&
      (stoppedReason != "" ==> fs[5] == AttachmentField("Stopped reason", stoppedReason, true))
  {
  }

  /** A "Stopped reason" row appears iff the stopped reason is non-empty, and then it is the
      last row and shows that reason. */
  lemma StoppedReasonRowIff(d: TaskDetail, env: Environment)
    ensures var fs := FormatTaskStateChange(d, env).fields;
      (exists i :: 0 <= i < |fs| && fs[i].title == "Stopped reason") <==> d.stoppedReason != ""
    ensures var fs := FormatTaskStateChange(d, env).fields;
      d.stoppedReason != "" ==> fs[|fs| - 1] == AttachmentField("Stopped reason", d.stoppedReason, true)
  {
    FormatFields(d, env);
    StoppedReasonOnlyLast(d.lastStatus, d.desiredStatus, ShortName(d.clusterArn), ShortName(d.taskDefinitionArn),
                          ShortName(d.taskArn), d.stoppedReason);
  }

  /** The colour is "danger" exactly when the desired status is STOPPED, and it always agrees
      with the "Desired status" row. */
  lemma TaskColorFollowsDesiredStatus(d: TaskDetail, env: Environment)
    ensures var m := FormatTaskStateChange(d, env);
      (m.color == "danger" <==> d.desiredStatus == "STOPPED") &&
      (m.color == "good" <==> d.desiredStatus != "STOPPED") &&
      m.color == MapEcsTaskChangeColor(m.fields[1].value)
  {
  }

  /** The settled and the transitioning phrasing never produce the same text for one task
      definition and cluster: they part at "changed" versus "is changing". */
  lemma {:induction false} PretextsDiffer(taskDefinitionName: string, clusterName: string,
                                          lastStatus: string, lastStatus': string, desiredStatus: string)
    ensures SettledPretext(taskDefinitionName, clusterName, lastStatus) !=
            TransitioningPretext(taskDefinitionName, clusterName, lastStatus', desiredStatus)
  {
    var head := "Task " + taskDefinitionName + " in " + clusterName;
    var settled := SettledPretext(taskDefinitionName, clusterName, lastStatus);
    var moving := TransitioningPretext(taskDefinitionName, clusterName, lastStatus', desiredStatus);
    assert settled == head + " cluster changed state: " + lastStatus;
    assert moving == head + " cluster is changing state: " + lastStatus' + " -> " + desiredStatus;
    assert settled[|head| + 9] == 'c';
    assert moving[|head| + 9] == 'i';
  }

  /** The pretext uses the settled phrasing iff the last and desired statuses are equal, and
      the transitioning phrasing otherwise. */
  lemma TaskPretextSettledIff(d: TaskDetail, env: Environment)
    ensures var m := FormatTaskStateChange(d, env);
      var defName := ShortName(d.taskDefinitionArn);
      var clusterName := ShortName(d.clusterArn);
      (m.pretext == SettledPretext(defName, clusterName, d.lastStatus) <==> d.lastStatus == d.desiredStatus) &&
      (m.pretext == TransitioningPretext(defName, clusterName, d.lastStatus, d.desiredStatus) <==>
         d.lastStatus != d.desiredStatus)
  {
    PretextsDiffer(ShortName(d.taskDefinitionArn), ShortName(d.clusterArn), d.lastStatus, d.lastStatus, d.desiredStatus);
  }

  /** Each of the six members is read from the body's `detail`: the string stored there, or ""
      when it is missing or not a string. */
  lemma TaskDetailReadsMembers(message: Json)
    ensures var d := TaskDetailOf(message);
      var detail := Path(message, "detail");
      d.clusterArn == StringAt(detail, "clusterArn") &&
      d.desiredStatus == StringAt(detail, "desiredStatus") &&
      d.lastStatus == StringAt(detail, "lastStatus") &&
      d.stoppedReason == StringAt(detail, "stoppedReason") &&
      d.taskArn == StringAt(detail, "taskArn") &&
      d.taskDefinitionArn == StringAt(detail, "taskDefinitionArn")
  {
  }

  /** A body whose `detail` is missing, null or not an object reads as the all-empty detail:
      extraction falls back to "" and never fails. */
  lemma DetailWithoutObjectReadsEmpty(message: Json)
    requires !Path(message, "detail").Obj?
    ensures TaskDetailOf(message) == TaskDetail("", "", "", "", "", "")
  {
  }

  // ---------------------------------------------------------------- alarm

  /** The three rows: ("Alarm", name, short), ("Status", new state, short), ("Reason", reason,
      not short); the colour agrees with the "Status" row. */
  lemma AlarmFields(message: Json, env: Environment)
    ensures var m := Alarm(message, env);
      Titles(m.fields) == ["Alarm", "Status", "Reason"] &&
      m.fields[0].value == StringAt(message, "AlarmName") &&
      m.fields[1].value == StringAt(message, "NewStateValue") &&
      m.fields[2].value == StringAt(message, "NewStateReason") &&
      m.fields[0].short && m.fields[1].short && !m.fields[2].short &&
      m.color == MapAlarmColor(m.fields[1].value)
  {
  }

  /** The pretext is "<Status row>: <Alarm row> in <region>". */
  lemma AlarmPretextNamesAlarm(message: Json, env: Environment)
    ensures var m := Alarm(message, env);
      m.pretext == m.fields[1].value + ": " + m.fields[0].value + " in " + StringAt(message, "Region")
  {
  }

  // ---------------------------------------------------------------- configuration

  /** Both kinds use the configured username and icon unchanged when set, and "AWS-bot" and
      ":loudspeaker:" otherwise. */
  lemma UsernameAndIconDefaults(message: Json, env: Environment)
    ensures var a := Alarm(message, env);
      var t := EcsTaskStateChange(message, env);
      a.username == t.username == (if env.username == "" then "AWS-bot" else env.username) &&
      a.icon == t.icon == (if env.icon == "" then ":loudspeaker:" else env.icon)
  {
  }

  // ---------------------------------------------------------------- dispatch

  /** A body that is both a task state change and an alarm is formatted as a task state change. */
  lemma TaskStateChangeTakesPrecedence(event: SnsEvent, env: Environment)
    requires |event.records| > 0 && DetailTypeReadable(event.records[0].message)
    requires IsEcsTaskStateChange(event.records[0].message) && IsAlarm(event.records[0].message)
    ensures CreateSlackMessageAttachment(event, env) == Some(EcsTaskStateChange(event.records[0].message, env))
    ensures CreateSlackMessageAttachment(event, env) != Some(Alarm(event.records[0].message, env))
  {
  }

  /** Records after the first are never consulted. */
  lemma OnlyFirstRecordCounts(event: SnsEvent, later: seq<SnsRecord>, env: Environment)
    requires |event.records| > 0 && DetailTypeReadable(event.records[0].message)
    ensures CreateSlackMessageAttachment(SnsEvent(event.records + later), env) ==
            CreateSlackMessageAttachment(event, env)
  {
    assert (event.records + later)[0] == event.records[0];
  }

  /** An alarm name given as JSON null does not make a body an alarm. */
  lemma NullAlarmNameIsAbsent(members: map<string, Json>)
    requires "AlarmName" in members && members["AlarmName"] == Null
    ensures !IsAlarm(Obj(members))
  {
  }
}
