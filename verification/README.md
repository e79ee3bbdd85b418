# ruote-amqp-pyclient in Dafny

A model of the Python client library through which a worker takes part in a
Ruote workflow over AMQP. It has two parts.

- **The workitem data model** (`RuoteAMQP/workitem.py`). A workitem is a
  decoded JSON message. It carries a flow expression id (fei) that names the
  expression which emitted it, and it carries a `fields` payload. The model
  covers:
  - the fei's storage id, child index and "direct child" test;
  - dotted-path `lookup` and `set_field` over the fields;
  - the `forget`, `is_cancel`, `params`, `result`, `wf_name` and
    `participant_name` accessors;
  - `dup`;
  - the attribute proxy, which answers None for a missing key.
- **The delivery protocol** (`RuoteAMQP/participant.py`). A participant
  subscribes to a queue and handles each delivery in a fixed order:
  1. Decode the body.
  2. Reject the delivery, or run the user's `consume()`.
  3. Attach a description of any failure.
  4. Acknowledge.
  5. Reply to the engine unless the workitem is forgotten.

  The model also covers:
  - the two formatters that turn a Python failure into strings for the Ruby
    engine;
  - `reply_to_engine`;
  - the reuse condition of `_open_channel`;
  - the running flag shared by `run` and `finish`.

Python values become an immutable `Json` datatype (no floats). In-place
mutation becomes functional update. Python's exceptions become the error
side of a `Result`, one constructor per exception class the code can raise.
Truthiness, `in` on strings and lists, Python 2 `int()` parsing and `%d`
rendering are written out explicitly. The AMQP channel is an open flag plus
an append-only log of the actions taken on it. The outcome of `json.loads`
and of the user's `consume()` are inputs to the model.

Modules:
- `Outcomes`: `Option`, `Result` and the Python exception kinds.
- `Strings`: split/join on a separator, reversal, decimal rendering and
  `int()`.
- `JsonValues`: decoded values, truthiness, equality, subscripts and the
  attribute proxy.
- `FlowExpressionIds`: the fei.
- `FieldPaths`: walking and writing dotted paths.
- `Workitems`: the workitem.
- `FailureFormat`: `format_exception` and `format_ruby_backtrace`.
- `Participants`: the channel, the callback, `run` and `finish`.

Where the documentation and the code disagree, the model follows the code:
- `set_field` through an existing value that is not a dict raises
  TypeError. The docstring claims it creates a dotted field instead.
- A body that `json.loads` rejects is re-raised out of the callback. The
  model therefore ends `run()` there, clearing the running flag, rather
  than carrying on with the next delivery.
- `direct_child` reverses the segments of the other fei's expid. So "7_0"
  is not a direct child of "0", and a single-segment expid is its own
  direct child (see Findings).
- `child_id` raises AttributeError on every call (see Findings).
- A decoded body that is not a dict with "fei" is neither acked nor
  rejected, so the broker hands it out again (see Findings). `run()` keeps
  this behaviour. `Participants.WorkitemCallbackCorrected` rejects such a
  body without requeue and is stated beside it.

The consumer thread's exception handler logs the workitem's `wfid` before
it records the failure. If the copied fei has no "wfid", that lookup
raises inside the handler and ends the thread (the threading module prints
its traceback), so the failure is neither attached to the workitem nor sent
to the engine. The model keeps this behaviour (`Participants.Recorded`).

A `forget` entry that holds a dict, even an empty one, counts as forgotten:
the attribute proxy hands back a new proxy object for a dict, and that
object is always true.

## Model

| member | source | states |
|---|---|---|
| `JsonValues.ProxyGet` | RuoteAMQP/workitem.py:32-36 | An attribute read through the proxy fails exactly when the proxied value is not a dict. On a dict it gives the stored value, and None exactly when the key is missing or holds None. |
| `FlowExpressionIds.StorageId` | RuoteAMQP/workitem.py:95-99 | The storage id exists exactly when expid, subid and wfid exist, and sub_wfid too when subid is falsy. It is expid, then subid (or sub_wfid when subid is falsy), then wfid, joined by '!'. |
| `FlowExpressionIds.StorageIdParts` | RuoteAMQP/workitem.py:95-99 | When no part contains '!', splitting the storage id on '!' gives back exactly expid, the sub id and wfid. |
| `FlowExpressionIds.ChildIdAsWritten` | RuoteAMQP/workitem.py:101-110 | `child_id` as written raises AttributeError on every fei, because it reads an attribute of a plain dict. |
| `FlowExpressionIds.ChildId` | RuoteAMQP/workitem.py:101-110 | The documented child index succeeds exactly when expid exists and is a string. It is the last '_' segment read by Python 2 `int()`, or None when that segment is not an integer. |
| `FlowExpressionIds.ChildIdNoneWithoutDigits` | RuoteAMQP/workitem.py:107-110 | When the last '_' segment of a string expid holds no digit, the documented child index is None. |
| `FlowExpressionIds.ChildIdNoneExamples` | RuoteAMQP/workitem.py:107-110 | The expids "abc" and "0_x" have no child index. |
| `Strings.ParseIntNeedsDigit` | RuoteAMQP/workitem.py:108-110 | `int()` raises ValueError, given as None, on any string without a decimal digit. |
| `FlowExpressionIds.ChildIdReadsLastSegment` | RuoteAMQP/workitem.py:101-110 | For any parent expid and integer n, the expid parent + '_' + n has child index n. |
| `FlowExpressionIds.ChildIdExample` | RuoteAMQP/workitem.py:104-105 | The documented example '0_5_7' has child index 7 under the documented reading. The code as written raises instead. |
| `FlowExpressionIds.KeysAgree` | RuoteAMQP/workitem.py:114-117 | The lineage loop finishes with true exactly when every key exists on both feis with equal values under Python `==`. |
| `FlowExpressionIds.DirectChild` | RuoteAMQP/workitem.py:112-122 | The lineage keys are compared in the order sub_wfid, wfid, engine_id. The first key whose values differ gives false. The first key missing on either side, before any difference, raises its KeyError or TypeError. |
| `FlowExpressionIds.DirectChildSegments` | RuoteAMQP/workitem.py:112-122 | With agreeing lineage, `direct_child` holds exactly when own expid segments are the other's expid segments in reverse order. |
| `FlowExpressionIds.DirectChildSymmetric` | RuoteAMQP/workitem.py:118-122 | As written the relation is symmetric, so it cannot tell parent from child. |
| `FlowExpressionIds.DirectChildOfItself` | RuoteAMQP/workitem.py:112-122 | A fei whose expid has a single segment is its own direct child. |
| `FlowExpressionIds.DirectChildExample` | RuoteAMQP/workitem.py:112-122 | With the same lineage, "7_0" is not a direct child of "0", "0" is a direct child of "0", and "0" is not a direct child of "0_1". |
| `FlowExpressionIds.DirectChildCorrected` | RuoteAMQP/workitem.py:112-122 | The corrected test keeps the lineage checks and their errors unchanged. |
| `FlowExpressionIds.DirectChildCorrectedOneLevel` | RuoteAMQP/workitem.py:101-122 | For a non-empty own expid, under the corrected test, the other fei is a direct child exactly when its expid is own expid + '_' + one segment without '_'. |
| `FlowExpressionIds.DirectChildCorrectedIrreflexive` | RuoteAMQP/workitem.py:112-122 | Under the corrected test, no fei with a non-empty expid is its own direct child. |
| `FieldPaths.Walk` | RuoteAMQP/workitem.py:277-281 | The empty path gives the value itself. A dict without the first key gives None without looking further. |
| `FieldPaths.WalkExtends` | RuoteAMQP/workitem.py:277-281 | One more key after a prefix that reached a dict gives that key's value, or None when the key is missing. |
| `FieldPaths.WalkStaysNone` | RuoteAMQP/workitem.py:278-279 | Once a prefix has met a missing key, every longer path gives None. |
| `FieldPaths.WalkStopsAtMissingKey` | RuoteAMQP/workitem.py:277-281 | The first missing key decides: if the keys before it lead to a dict without it, the whole walk gives None. |
| `FieldPaths.Put` | RuoteAMQP/workitem.py:298-305 | The set_field loop succeeds only on a dict and always gives a dict. For a one-key path it assigns just that key. |
| `FieldPaths.PutThenWalk` | RuoteAMQP/workitem.py:276-305 | After a successful write, walking the same path gives the value written. |
| `FieldPaths.PutSucceedsIff` | RuoteAMQP/workitem.py:298-305 | A write succeeds exactly when every proper prefix of the path is either missing or a dict. |
| `FieldPaths.PutLeavesOtherPaths` | RuoteAMQP/workitem.py:276-305 | A write leaves the walk of every diverging path unchanged. |
| `Workitems.FromJson` | RuoteAMQP/workitem.py:133-135 | Construction succeeds exactly for a dict with "fei". A non-dict raises TypeError; a missing "fei" raises KeyError. The result holds the message unchanged, and its `sid` is the storage id of the message's fei. |
| `Workitems.FeiOf` | RuoteAMQP/workitem.py:175-178 | `fei` succeeds exactly when the message has "fei". It is built from the current "fei" entry. |
| `Workitems.Dup` | RuoteAMQP/workitem.py:180-182 | `dup` succeeds exactly when "fei" is present. It copies the message, and the copy's identity is the current "fei" entry. |
| `Workitems.DupOfDecoded` | RuoteAMQP/workitem.py:180-182 | A decoded workitem whose "fei" entry was never replaced duplicates to an equal workitem. |
| `Workitems.Sid` | RuoteAMQP/workitem.py:148-154 | `sid` succeeds exactly when the fei copied at construction holds expid, subid and wfid, and sub_wfid too when subid is falsy. |
| `Workitems.Wfid` | RuoteAMQP/workitem.py:167-173 | `wfid` is the copied fei's "wfid". It raises KeyError when that is missing and TypeError when the fei is not a dict. |
| `Workitems.IsCancel` | RuoteAMQP/workitem.py:141-146 | A workitem is a cancel exactly when its "cancel" entry, read as None when absent, is true. |
| `Workitems.CancelFlagValues` | RuoteAMQP/workitem.py:141-146 | A missing "cancel", or one that is false, 0, "" or None, is not a cancel. True or a non-empty string is. |
| `Workitems.KeyOrNone` | RuoteAMQP/workitem.py:156-194 | `wf_name` and `participant_name` (both defined through it) give their entry when present and None when absent. |
| `Workitems.FieldsProxy` | RuoteAMQP/workitem.py:196-202 | `fields` proxies the "fields" entry, or a fresh empty dict when it is missing. |
| `Workitems.ParamsProxy` | RuoteAMQP/workitem.py:352-366 | `params` proxies `fields.params` when "fields" is a dict holding "params", and a fresh empty dict otherwise. |
| `Workitems.ErrorOf` | RuoteAMQP/workitem.py:315-322 | The `error` getter gives the "error" entry, and raises KeyError when it is unset. |
| `Workitems.ErrorTraceSettersRoundTrip` | RuoteAMQP/workitem.py:315-350 | What the `error` and `trace` setters write, the getters read back, independently of each other, with the rest of the message and the identity unchanged. |
| `Workitems.ResultOf` | RuoteAMQP/workitem.py:212-220 | `result` raises exactly when "fields" exists and is not a dict. With no "fields" it is None. With a dict it is that dict's "__result__" entry, or None when the entry is missing. |
| `Workitems.SetResult` | RuoteAMQP/workitem.py:222-225 | When "fields" is a dict, writing `result` is read back by `result` and changes nothing else. Without "fields" the write is lost. A non-dict "fields" raises TypeError. |
| `Workitems.Forget` | RuoteAMQP/workitem.py:232-240 | `forget` is true exactly when `fields.params` is a dict whose "forget" is truthy or is a dict (a proxied dict is always true). Every other shape, including a missing "fields" or "params", gives false. |
| `Workitems.ForgetEmptyDictCounts` | RuoteAMQP/workitem.py:32-36 | A "forget" holding an empty dict counts as forgotten, although the empty dict itself is false. |
| `Workitems.SetForget` | RuoteAMQP/workitem.py:242-245 | A non-bool fails the assertion. A bool is read back by `forget` when `fields.params` is a dict, and every other entry of the workitem, of `fields` and of `params` is unchanged. It is lost when params is missing, and raises TypeError when params is another value. |
| `Workitems.Lookup` | RuoteAMQP/workitem.py:262-281 | `lookup` raises KeyError without "fields". Otherwise it raises exactly when the walk of the dotted key does. |
| `Workitems.LookupFirstMissingKey` | RuoteAMQP/workitem.py:276-281 | `lookup` gives None as soon as one key of the dotted path is missing from the dict the keys before it lead to. |
| `Workitems.LookupStepsIn` | RuoteAMQP/workitem.py:276-281 | One more key after a path that leads to a dict gives that key's value, or None when it is missing. |
| `Workitems.SetField` | RuoteAMQP/workitem.py:285-305 | `set_field` raises KeyError without "fields". A success keeps the fei and every top-level entry except "fields". |
| `Workitems.SetFieldThenLookup` | RuoteAMQP/workitem.py:262-305 | After `set_field(key, v)` succeeds, `lookup(key)` gives v. |
| `Workitems.SetFieldSucceedsIff` | RuoteAMQP/workitem.py:285-305 | `set_field` succeeds exactly when "fields" exists and every proper prefix of the dotted key is missing or a dict. |
| `Workitems.SetFieldLeavesOtherPaths` | RuoteAMQP/workitem.py:262-305 | `set_field` leaves `lookup` of every diverging dotted key unchanged. |
| `Workitems.SetFieldBuildsLevels` | RuoteAMQP/workitem.py:298-305 | `set_field("a.b.c", 5)` on empty fields creates the two intermediate dicts. |
| `Workitems.SetFieldReplacesSubtree` | RuoteAMQP/workitem.py:298-305 | `set_field("a.b", 9)` replaces the nested dict at "b" wholesale. |
| `Workitems.LookupBelowScalarRaises` | RuoteAMQP/workitem.py:276-281 | `lookup("a.b.c")` raises TypeError once "b" holds an integer. |
| `Workitems.SetFieldThroughScalarFails` | RuoteAMQP/workitem.py:291-305 | Writing below an existing integer raises TypeError instead of creating a dotted field. |
| `Workitems.UpdatesKeepIdentity` | RuoteAMQP/workitem.py:77-78 | No sequence of mutations changes the copied fei, `sid` or `wfid`, not even a rewrite of the "fei" entry. |
| `Workitems.FeiPropertyRebuilds` | RuoteAMQP/workitem.py:175-178 | After the "fei" entry is rewritten, `fei` reflects the new entry while `sid` still reads the copy. |
| `Workitems.DecodedStaysConsistent` | RuoteAMQP/workitem.py:133-135 | The copied fei stays equal to the "fei" entry under every mutation that does not replace it. |
| `FailureFormat.FormatRubyBacktrace` | RuoteAMQP/participant.py:35-39 | The backtrace has one line per frame, in order, each rendered as file:line: in `func text'. |
| `FailureFormat.RubyBacktraceParses` | RuoteAMQP/participant.py:35-39 | Each line reads back as its frame's file and line number, when files have no ':' and lines are non-negative. |
| `FailureFormat.FormatException` | RuoteAMQP/participant.py:41-67 | The description is never empty. |
| `FailureFormat.FormatExceptionDetail` | RuoteAMQP/participant.py:41-67 | The message after the first ": " is, for an HTTP failure, the status and the URL. For an environment failure it is the filename and strerror when the filename is truthy, otherwise strerror when errno and strerror are both truthy, otherwise `str(exc)`, and the error code is shown exactly in the first two cases. For any other failure it is its `msg` attribute when it has one, otherwise `str(exc)`. |
| `FailureFormat.FormatExceptionNamesClass` | RuoteAMQP/participant.py:41-67 | The description starts with "HTTPError" for HTTP failures and with the exception's class name otherwise, in every category. |
| `FailureFormat.HttpStatusParses` | RuoteAMQP/participant.py:43-46 | An HTTP failure's status code reads back from its description. |
| `FailureFormat.ErrnoParses` | RuoteAMQP/participant.py:49-56 | An environment failure's integer errno reads back from the parentheses. This holds when its filename is truthy, or when errno and strerror both are. |
| `Participants.OpenChannel` | RuoteAMQP/participant.py:125-146 | An open channel is reused unchanged. Otherwise a new one is opened and set up with prefetch 1, a durable shared queue and an acknowledged subscription. |
| `Participants.OpenChannelIdempotent` | RuoteAMQP/participant.py:127 | Opening twice sets the queue up once. |
| `Participants.ReplyToEngine` | RuoteAMQP/participant.py:220-238 | Without an open channel the reply raises RuntimeError. Otherwise it publishes the given workitem, or the current one, persistently to exchange '' with routing key 'ruote_workitems'. It fails only when neither workitem exists. |
| `Participants.ReplyDecodesToSent` | RuoteAMQP/participant.py:230-238 | The published body decodes back into the workitem that was sent. |
| `Participants.TraceJson` | RuoteAMQP/participant.py:177 | The stored trace is a list with one string per backtrace line, in order. |
| `Participants.WorkitemCallback` | RuoteAMQP/participant.py:148-185 | A malformed body is rejected without requeue and ValueError is raised. A decoded non-workitem raises with nothing logged. The callback only appends to the channel log. |
| `Participants.CallbackFollowsStateMachine` | RuoteAMQP/participant.py:148-185 | Each delivery produces one of: reject; nothing, with an exception; ack; or ack followed by one persistent publish to the engine's queue. |
| `Participants.DecodedIsAckedOnce` | RuoteAMQP/participant.py:164-185 | A decoded delivery is acked exactly once, first, whatever consume did. A reply follows exactly when the final workitem is not forgotten, and it carries that workitem. |
| `Participants.FailureIsAttached` | RuoteAMQP/participant.py:82-98 | A recorded consume failure sets "error" to its description and "trace" to one line per frame. Every other entry is as consume left it. |
| `Participants.AttachedIffRecorded` | RuoteAMQP/participant.py:166-177 | The final workitem is the one consume left exactly when no failure was recorded (or attaching it changes nothing). |
| `Participants.CancelSkipsConsume` | RuoteAMQP/participant.py:166-185 | For a cancel workitem, the result does not depend on consume, and the workitem goes back as received. |
| `Participants.NotAWorkitemLeftUnsettled` | RuoteAMQP/participant.py:152-162 | As written, a decoded body that is not a dict with "fei" raises before the delivery is acked or rejected, so it is left unsettled. |
| `Participants.CorrectedSettlesEveryDelivery` | RuoteAMQP/participant.py:152-185 | With the corrected callback every delivery is settled once. It is rejected without requeue, with nothing else done, exactly when its body is not a workitem. Otherwise it is acked first, with only replies after the ack. |
| `Participants.FailedConsumeStillReplies` | RuoteAMQP/participant.py:170-185 | After a recorded failure on an unforgotten workitem, the callback acks and then replies. The reply carries a non-empty "error" and a "trace" with one entry per frame. |
| `Participants.Finish` | RuoteAMQP/participant.py:210-217 | `finish` always clears the running flag. It cancels the consumer exactly when the channel is open. |
| `Participants.Loop` | RuoteAMQP/participant.py:204-205 | The wait loop exits only with the running flag cleared, and keeps the channel. |
| `Participants.Run` | RuoteAMQP/participant.py:194-208 | A second start raises RuntimeError and changes nothing. Otherwise the flag stays set only while waiting, and on any exit after the connection opens the channel is closed. |
| `Participants.RunSetsUpBeforeDeliveries` | RuoteAMQP/participant.py:200-205 | A fresh channel is set up before any delivery is handled. |
| `Participants.MalformedDeliveryEndsRun` | RuoteAMQP/participant.py:153-162 | A malformed body is rejected without requeue. The re-raised ValueError then ends `run` with the flag cleared. |
| `Participants.FinishEndsRun` | RuoteAMQP/participant.py:198-217 | `finish` during `run` cancels the consumer, and `run` returns with the channel closed. A new `run` may then start. |

## Left out

- AMQP I/O: the connection, its parameters, the blocking `wait()` and the broker's behaviour. The channel is an open flag plus a log of actions. Connecting and opening are one input that may raise.
- Threads: the consumer thread is started and joined at once, so `consume()` is one synchronous input outcome.
- `consume()` replacing `self.workitem` with something that is not a workitem, and `consume()` calling `reply_to_engine` or `finish` itself: the outcome always carries a workitem, and its channel actions are not modelled.
- JSON text: `json.loads` is an input that is either malformed or a decoded value, and `json.dumps` is the identity on decoded values. Floats and non-ASCII text are not modelled.
- Logging and `format_block`: cosmetic. The one effect logging has on behaviour, the `wfid` lookup in the consumer thread's handler, is modelled.
- `Workitem.__eq__`, `__ne__` and `hash`: broken as written and used by nothing in the core.
- `dispatched_at`, `timed_out`, `dump`, the `fields` setter as a separate member (it is a top-level write), and the proxy's `__iter__`, `__next__`, `__setattr__` and `as_dict`: not part of the core operations.
- `RuoteAMQP/launcher.py`, the example scripts and `setup.py`: connection glue, demos and packaging.
- `FailureFormat.FormatException`: list and dict values inside a description are shown as placeholders rather than their Python repr. An HTTP status code is assumed to be an integer, though `%d` would raise on a non-integer. The contract therefore says only that the description is non-empty. The lemmas about it state the class name in front, the HTTP status, an integer errno, and the message each category carries. They do not state how a placeholder is rendered.
- `FlowExpressionIds.StorageId`: list and dict parts of a storage id are shown as the placeholders "[...]" and "{...}" rather than their Python repr.
- Shared sub-values: a value model cannot hold one dict object in two places, which `consume()` could create by storing the same dict under two keys. `FieldPaths.PutLeavesOtherPaths` and `Workitems.SetFieldLeavesOtherPaths` hold for trees without such sharing, which every decoded message is.
- `Participants.Loop`: `finish()` called from elsewhere is modelled as taking effect between two waits, not while `wait()` blocks.
- `Participants.Run`: a session is a finite script. A run still waiting when it ends is reported as waiting rather than followed further.

## Findings

| source | as written | input that shows it | evidently intended | confidence | as-written member | corrected member |
|---|---|---|---|---|---|---|
| RuoteAMQP/workitem.py:108 | reads `self._h.expid`, an attribute of a plain dict, so AttributeError escapes the `except ValueError` | any fei, e.g. expid '0_5_7' | the last '_' segment of expid as an integer, 7 here | high; not executed | `FlowExpressionIds.ChildIdAsWritten` | `FlowExpressionIds.ChildId` |
| RuoteAMQP/workitem.py:118-121 | compares own expid with the other's expid segments reversed | expid '0' against expid '0' is true; '0' against '0_1' is false | the other fei is one level below this one ('0_1' is a direct child of '0'; no fei with a non-empty expid is its own direct child) | medium; not executed | `FlowExpressionIds.DirectChildOfItself` | `FlowExpressionIds.DirectChildCorrectedOneLevel` |
| RuoteAMQP/participant.py:154-162 | catches only the ValueError of `json.loads`. The KeyError or TypeError that the Workitem constructor raises (workitem.py:135) escapes before the delivery is acked or rejected. | a body that decodes to `{}` | reject without requeue, as for a malformed body, so a poison message is not handed out again on every run | medium; not executed | `Participants.NotAWorkitemLeftUnsettled` | `Participants.CorrectedSettlesEveryDelivery` |
