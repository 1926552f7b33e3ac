# aws-notify-slack: notification classifier and formatter

A Dafny model of the formatter in `slack/slack.go` of aws-notify-slack. The formatter reads the
body of the first record of an SNS delivery. If the body is an ECS task-state-change event, it
builds a Slack message attachment describing the task's state change. If the body is a
CloudWatch alarm, it builds an attachment describing the alarm. Any other body produces no
message.

Modules:

- `Json` (`json.dfy`): the parsed body as a JSON tree. It models the gabs v1 lookups the source
  uses:
  - `Path`: a member of an object; on an array, the non-null hits collected from its elements.
  - `Exists`: the lookup is non-null.
  - `StringAt`: Go's `v, _ := ….Data().(string)`, which gives "" for anything that is not a
    string.
- `Strings` (`strings.dfy`): Go's `strings.LastIndex` for a one-character separator.
- `Slack` (`slack.dfy`):
  - the `slackAttachmentField` and `MessageAttachments` records, and the two colour maps;
  - the ARN short name, the task-state-change and alarm formatters, and the dispatcher
    `CreateSlackMessageAttachment`;
  - the USERNAME and ICON settings, passed in as an `Environment` parameter.
- `SlackProperties` (`slack_properties.dfy`): all-inputs properties of the formatter.
- `SlackExamples` (`slack_examples.dfy`): the notifications of `slack/slack_test.go`, each proved
  to give the attachment the test expects.

The source returns the attachment as a JSON string, or `""` for an unrecognised body. The model
returns the `MessageAttachments` record as `Some(m)`, or `None`.

Go strings are byte sequences and the model uses `seq<char>`. The only operation that looks
inside a string is the search for the last '/'. '/' is one ASCII byte, and no other UTF-8 byte
can equal it. So the two views agree.

The model assumes gabs v1 semantics. Gabs is not part of this model, and its semantics are not
checked here:
- `Exists(k)` is `Search(k).Data() != nil`, so a member whose value is JSON `null` counts as
  absent (`SlackProperties.NullAlarmNameIsAbsent`).
- Searching a key in an array collects the non-nil hits of its elements (`Json.Path`).

## Model

| member | source | states |
|---|---|---|
| Slack.MapAlarmColor | slack/slack.go:29-41 | the colour is always a severity token; "danger" iff the new state is "ALARM"; "warning" iff it is "INSUFFICIENT_DATA"; otherwise "good" (total, no error case) |
| Slack.MapEcsTaskChangeColor | slack/slack.go:43-53 | the colour is "good" or "danger", never "warning"; "danger" iff the desired status is "STOPPED" |
| Strings.LastIndex | slack/slack.go:65-67 | the index of the last occurrence of the character: -1 iff it does not occur; otherwise the character is at that index and never after it |
| Slack.ShortName | slack/slack.go:65-67 | the short name is a suffix of the ARN with no '/'; it is the whole ARN when the ARN has no '/' (the "not found" -1 becomes offset 0); otherwise a '/' stands right before it, so it is exactly the text after the last '/' |
| SlackProperties.ShortNameAfterLastSlash | slack/slack.go:65-67 | for any prefix and any '/'-free name, the short name of prefix + "/" + name is name |
| SlackProperties.ShortNameIdempotent | slack/slack.go:65-67 | taking the short name twice gives the same result as taking it once |
| Json.StringAt | slack/slack.go:58-63 | when the value under the key is a string, the result is that string; a missing, null or non-string value reads as "" |
| Json.Path | slack/slack.go:56 | an object lookup returns the member stored under the key, or null when the key is missing; scalars, strings and null have no members; an array lookup is null or a non-empty array of hits |
| Json.Exists | slack/slack.go:197-201 | in an object, a key exists iff it is present with a non-null value; only objects and arrays can hold a key |
| Json.ExistsInArray | slack/slack.go:197-201 | a key exists in an array iff it exists in one of the array's elements |
| Slack.TaskDetailOf | slack/slack.go:56-63 | every non-empty status or stopped reason it reports is exactly the string stored at `detail.<key>` of the body |
| SlackProperties.TaskDetailReadsMembers | slack/slack.go:56-63 | all six members (cluster ARN, desired status, last status, stopped reason, task ARN, task-definition ARN) are read from the body's `detail`: the string stored there, or "" when missing or not a string |
| SlackProperties.DetailWithoutObjectReadsEmpty | slack/slack.go:56-63 | a body whose `detail` is missing, null or not an object gives the all-empty detail without failing |
| Slack.ConfiguredOr | slack/slack.go:111-119 | a non-empty setting is used unchanged; an empty one gives the fallback |
| Slack.TaskFields | slack/slack.go:69-103 | five rows, plus a sixth exactly when the stopped reason is non-empty; every row is short and has a title |
| SlackProperties.TaskFieldTitles | slack/slack.go:69-103 | the titles are "Last status", "Desired status", "Cluster", "Task definition", "Task" in that order, then "Stopped reason" exactly when the reason is non-empty |
| SlackProperties.TaskFieldValues | slack/slack.go:65-95 | the five fixed rows show the last status, the desired status, and the cluster, task-definition and task short names |
| SlackProperties.StoppedReasonRowIff | slack/slack.go:97-103 | a "Stopped reason" row exists iff the stopped reason is non-empty; it is then the last row and shows that reason |
| SlackProperties.TaskColorFollowsDesiredStatus | slack/slack.go:121-122 | the task colour is "danger" iff the desired status is STOPPED and "good" otherwise, and it agrees with the "Desired status" row |
| Slack.SettledPretext | slack/slack.go:108 | the settled sentence is non-empty and begins "Task <task definition> in <cluster> cluster " |
| Slack.TransitioningPretext | slack/slack.go:105 | the transitioning sentence is non-empty and begins "Task <task definition> in <cluster> cluster " |
| SlackProperties.PretextsDiffer | slack/slack.go:105-108 | the settled phrasing and the transitioning phrasing never give the same text |
| SlackProperties.TaskPretextSettledIff | slack/slack.go:105-109 | the pretext uses the "changed state" phrasing iff the last and desired statuses are equal, and the "is changing state: L -> S" phrasing iff they differ |
| Slack.FormatTaskStateChange | slack/slack.go:65-127 | the task attachment is complete (colour, pretext, username, icon, a title on every field), has 5 or 6 fields, all of them short, and a severity colour |
| Slack.EcsTaskStateChange | slack/slack.go:55-135 | the attachment built from a body is the task attachment of the detail read from that body, with the same guarantees |
| SlackProperties.StoppedReasonOnlyLast | slack/slack.go:69-103 | none of the five fixed rows is titled "Stopped reason"; when there is a reason, the sixth row is ("Stopped reason", reason, short) |
| Slack.Alarm | slack/slack.go:137-187 | the alarm attachment is complete, has exactly 3 fields and a severity colour |
| SlackProperties.AlarmFields | slack/slack.go:138-174 | the rows are ("Alarm", AlarmName, short), ("Status", NewStateValue, short), ("Reason", NewStateReason, not short); the colour agrees with the "Status" row |
| Slack.AlarmPretext | slack/slack.go:161 | the alarm sentence is non-empty and begins "<new state>: <alarm name> in " |
| SlackProperties.AlarmPretextNamesAlarm | slack/slack.go:161 | the alarm pretext is "<new state>: <alarm name> in <region>" |
| SlackProperties.UsernameAndIconDefaults | slack/slack.go:111-119 | both kinds of attachment use the configured username and icon when set, and "AWS-bot" and ":loudspeaker:" otherwise |
| Slack.IsEcsTaskStateChange | slack/slack.go:197 | a body is a task state change iff its `detail-type` is the string "ECS Task State Change" |
| Slack.IsAlarm | slack/slack.go:201 | an object body is an alarm iff it has a non-null `AlarmName` |
| Slack.CreateSlackMessageAttachment | slack/slack.go:190-206 | no message iff the body is neither a task state change nor an alarm; any message is complete; a task state change gives exactly the task attachment of that body, even if the body is also an alarm; otherwise an alarm gives exactly the alarm attachment of that body |
| SlackProperties.TaskStateChangeTakesPrecedence | slack/slack.go:197-203 | a body that is both a task state change and an alarm is formatted as a task state change, not as an alarm |
| SlackProperties.OnlyFirstRecordCounts | slack/slack.go:192-195 | appending records after the first never changes the result |
| SlackProperties.NullAlarmNameIsAbsent | slack/slack.go:201 | an AlarmName given as JSON null does not make a body an alarm |
| SlackExamples.AlarmPretextText | slack/slack_test.go:213 | the alarm phrasing of "OK", "sns-cloudwatch" and "US - N. Virginia" is the sentence "OK: sns-cloudwatch in US - N. Virginia" |
| SlackExamples.AlarmExample | slack/slack_test.go:188-217 | the alarm test's notification gives a "good" attachment with pretext "OK: sns-cloudwatch in US - N. Virginia", the default username and icon, and the three expected rows |
| SlackExamples.DeactivatingStoppedExample | slack/slack_test.go:219-263 | DEACTIVATING → STOPPED with a stopped reason gives "danger", the transitioning pretext and six rows ending in the reason; the container's `lastStatus` (RUNNING) is not read |
| SlackExamples.ProvisioningRunningExample | slack/slack_test.go:265-304 | PROVISIONING → RUNNING gives "good", the transitioning pretext and the five rows; the container's `lastStatus` (PENDING) is not read |
| SlackExamples.DeprovisioningStoppedExample | slack/slack_test.go:306-350 | DEPROVISIONING → STOPPED with a stopped reason gives "danger" and six rows |
| SlackExamples.PendingRunningExample | slack/slack_test.go:352-391 | PENDING → RUNNING gives "good" and five rows |
| SlackExamples.StoppedExample | slack/slack_test.go:393-437 | STOPPED = STOPPED with a stopped reason gives "danger", the settled pretext and six rows |
| SlackExamples.ActivatingRunningExample | slack/slack_test.go:439-478 | ACTIVATING → RUNNING gives "good" and five rows |
| SlackExamples.RunningExample | slack/slack_test.go:480-519 | RUNNING = RUNNING gives "good", the settled pretext and five rows |
| SlackExamples.UnrecognizedExample | slack/slack.go:197-205 | a body with another detail-type and no alarm name, and a body whose alarm name is null, both give no message |

## Left out

- Parsing of the SNS message text is not modelled: the body arrives as a parsed JSON tree. The
  source ignores the parse error, so an unparsable message is left out.
- JSON encoding of the attachment is not modelled: `json.Marshal` with `omitempty` and HTML
  escaping, and the `log.Fatal` on a marshal error. `Slack.Complete` states which keys survive
  `omitempty`.
- `log.Println` of the event is not modelled, because it is output only.
- `os.Getenv("USERNAME")` and `os.Getenv("ICON")` are not read: the model takes them as the
  `Environment` parameter, where "" means unset or set empty, as with `os.Getenv`.
- The webhook delivery in `main.go` (gorequest POST, `SLACK_HOOK` and its hard-coded fallback)
  is not part of this model. `main.go` calls `slack.CreateSlackMessagAttachment`, a name that
  `slack/slack.go` does not declare.
- Slack.CreateSlackMessageAttachment requires at least one record and a `detail-type` that is
  absent, null or a string. The source panics in those cases (`records[0]` and the unchecked
  `.(string)` assertion), so these are preconditions rather than error results.
- Gabs v1 is not part of this model. Its `Path`, `Search` and `Exists` are modelled with the
  semantics described above. `Path` splits keys on "."; none of the keys the formatter uses
  contain a dot, so the model looks keys up whole.
- SlackExamples: the seven task examples state the expected pretext through `SettledPretext` and
  `TransitioningPretext` rather than as the literal sentences the tests compare against. Proving
  those longer literal equalities is beyond the verifier's resource limit here. The phrasing
  functions hold the tests' sentence templates word for word. The alarm example states its
  literal sentence.
- SlackExamples: the test bodies are shortened. The task bodies keep the six `detail` members
  the formatter reads, `detail-type`, and one container carrying that test's own `lastStatus`
  and the task's `taskArn`; these two nested members share names with members the formatter
  reads. The alarm body keeps the four members the formatter reads, the null
  `AlarmDescription`, and a shortened `Trigger` object. All other members of the test bodies
  are dropped.
