# The tuner reservation server, modelled and proved

The server of the RDK Tuner Reservation Manager hands out N tuners to Live and Record reservations.
Requests, timers, answers to conflicts, updates and lost connections drive it. This project is a
Dafny model of that server and a set of theorems about it.

There are two layers.

* **Specification.** The manager's state is a value (`Registry.Book`, `Protocol.State`), each
  operation a function on it, the whole server a state machine (`Runs.Step`). The theorems are about
  this layer: which tuner a request gets, in terms of what the tuners hold and not of how they are
  searched; exactly what each answer, timeout and re-evaluation does; and what holds over every run.
* **Program.** The classes `Tuner`, `Manager`, `Server`, `QtTimer`, `Timer` and `Connection` and the
  executor methods have the source's own shape: fields updated in place, erase loops, staged searches,
  a loop over a list that grows while it is walked. Each method is proved to compute its
  specification. `Engine.Drive` puts them together: after any admissible sequence of events the
  objects stand for exactly the state the run reaches.

Two further parts stand on their own: `Framing` with `Codec` (bytes to frames to messages and back)
and `Timers` with `Times` (deadlines, early deliveries, 64-bit arithmetic).

| file | source |
|---|---|
| Tuner.dfy | Tuner.cpp, TunerState.cpp |
| Registry.dfy, Invariants.dfy, Manager.dfy | Manager.cpp, Filter.cpp |
| LivePlacement.dfy, LiveRequests.dfy, LiveExecutor.dfy, LivePreference.dfy, LiveAnswers.dfy | Executors.cpp: reserveLive |
| RecordPlacement.dfy, RecordRequests.dfy, RecordExecutor.dfy, RecordPreference.dfy, RecordAnswers.dfy | Executors.cpp: reserveRecord, renewRecord |
| Lifecycle.dfy, Starts.dfy | ReservationTimerTask.cpp, Manager.cpp: syncHybrid |
| Protocol.dfy, ProtocolInvariants.dfy, ProtocolSteps.dfy, Reevaluation.dfy, ReserveSteps.dfy, RequestExecutor.dfy, UpdateExecutor.dfy, Timeouts.dfy, Updates.dfy, RequestEffects.dfy, Promises.dfy, Deadlines.dfy | Manager.cpp: pending requests; Executors.cpp: Execute |
| Disconnection.dfy, Server.dfy, Runs.dfy, Retention.dfy, Engine.dfy | Server.cpp, and the event loop |
| Contention.dfy, Scenes.dfy, Failures.dfy | runs in which a property holds or fails, for the searches above |
| Timers.dfy, Times.dfy | QtTimer.h, Timer.cpp, TunerReservation.cpp |
| Framing.dfy, Codec.dfy | Header.cpp, JsonEncoder.h, Connection.cpp, JanssonParser.cpp |
| Ordering.dfy, Plain.dfy, Domain.dfy | the order of std::map keys; a tuner read off its holdings; shared types |

## What the theorems rely on

The theorems about runs hold for runs whose events are admissible (`Runs.Admissible`). The conditions
are ones the code itself relies on, stated about the state just before the event.

* Request ids are new. A token asked back by a resurrecting client is held by nobody and is not one
  GenerateUUID has yet to hand out. GenerateUUID never repeats an id.
* When a reserve request arrives, every Live granted earlier has been started.
* A Live request's message and reservation name the same device, and the locator is not empty. The
  host has a device id.
* When a Record starts, the ACTIVE Records on its tuner are on its locator. `Lifecycle.StartTunedIff`
  shows exactly what the code needs this for.
* Where a reservation is about to be added, the tuner clashes with it or has at most two ACTIVE
  reservations, so that adding fails before it inserts or not at all. `Registry.InsertKeepsKeysIff`
  shows exactly what the code needs this for. A tuner may have any number of ACTIVE reservations
  otherwise.
* A timer goes off only while it runs. It may go off early or late: that no task runs before its time
  is a result (`StartsExactly`, `ExpiresExactly`), not a condition. The clock never goes backwards.
* An answer to CancelLive or CancelRecording names an entry of its own kind.

Within one event the clock is read once. Exceptions and assertion failures are result values. Sending
a message is a step that raises when the client is not connected. Times are unbounded naturals in the
book; `Times` shows when the 64-bit arithmetic is exact. A tuner id, token or locator is a string, and
maps are walked in lexicographic order.

## Where the code does not do what it seems to promise

* A remote device that watches on a Live tuner of its own can be refused a channel change. It happens
  exactly when the reserved tuner records the new channel and no other tuner is Free or recording
  (`RemoteChannelChangeRefusedIff`); `ChannelChangeRefused` is such a run.
* getEndTime stops at the first reservation of another activity. The first stage of the Record search
  can therefore accept an overlapping Record (`BackToBackCanOverlap`). It is safe exactly when the tuner
  has no IDLE Record or the scan saw the last end (`BackToBackClearIff`).
* A renewal releases before it inserts, so a clashing new window loses the reservation
  (`RenewEffect`); `RenewalLost` is such a run. Only the first reservation matched by device and
  locator can be renewed.
* The filter "not in conflict" compares Live tokens with the temporary tokens of pending Records, not
  with the Lives those conflicts name. It excludes nothing (`FilterExcludesNothing`), unless a client
  asks a temporary token back (`StepUnheldIff`), so one Live can be named by several conflicts
  (`TwoConflictsOneLive`).
* Rescheduling an early timer hands a 64-bit interval to a 32-bit parameter without the clamp that
  scheduling applies. A deadline 2^31 - 1 ms or more ahead can be lost (`FarDeadlineLost`), a nearer
  one never is (`NeverLostIff`).
* A bad header loses its sixteen bytes as soon as anything more arrives (`BadHeaderLost`); nothing is
  ever lost exactly when no header is bad (`BytesKeptIff`).
* A JSON null given as custom attributes, or a NUL inside a string, does not survive the codec
  (`BookingRoundTripIff`).

## Model

| member | source | states |
|---|---|---|
| `Tuners.FoldIsState` | common/src/Tuner.cpp:117-153 | The tuner state, a fold of the join over the reservation map, is the same for every visiting order and equals "has an ACTIVE Live" times "has an ACTIVE Record" |
| `Tuners.StateDecidesLookups` | qtapp/srv/Executors.cpp:428-455 | The state decides the ACTIVE lookups both ways, so a Record tuner always yields an ACTIVE Record and the defensive assertions of the searches cannot fail |
| `Tuners.Tuner.GetReservationTokens` | common/src/Tuner.cpp:57-66 | Appends exactly the tuner's tokens, in map order |
| `Tuners.Tuner.GetReservation` | common/src/Tuner.cpp:92-114 | The loop returns the first reservation of an activity, phase and, unless empty, locator |
| `Tuners.Tuner.GetState` | common/src/Tuner.cpp:117-153 | The accumulating loop computes the order-free state |
| `Tuners.Tuner.GetServiceLocator` | common/src/Tuner.cpp:160-194 | The two loops give the locator of the first ACTIVE reservation, else, when asked, of the one starting soonest |
| `Tuners.SoonestGives` | common/src/Tuner.cpp:160-194 | With nothing ACTIVE the locator is that of the reservation that starts soonest, the first one in map order among equals |
| `Tuners.Tuner.GetEndTime` | common/src/Tuner.cpp:196-213 | The latest end among the leading reservations of the activity: the scan stops at the first other one |
| `Tuners.OverlapIff` | common/src/Tuner.cpp:41-49 | Two windows overlap if and only if they share a moment, or one is a point strictly within the other |
| `Tuners.OverlapSymmetric` | common/src/Tuner.cpp:41-49 | Overlapping is symmetric, and for windows of positive duration means sharing a moment |
| `Tuners.AdmissionIff` | common/src/Tuner.cpp:219-299 | A tuner refuses a reservation if and only if something runs there and a reservation of the same activity on another locator shares a moment with it; otherwise it takes it in, and complains if and only if more than two run then |
| `Tuners.Tuner.AddReservation` | common/src/Tuner.cpp:219-299 | On a tuner in use, refused exactly when an overlapping reservation of the same activity has another locator; otherwise inserted, and reported torn exactly when more than two reservations are ACTIVE afterwards |
| `Tuners.Tuner.ReleaseReservation` | common/src/Tuner.cpp:301-345 | Removes exactly the token and leaves every other reservation alone; raises, changing nothing, exactly when the reservation stored under the token has another name |
| `Registry.InsertKeepsKeysIff` | qtapp/srv/Manager.cpp:93-129 | Adding a reservation leaves tuners, the three timer maps and the attributes with one key set if and only if the tuner refuses it or has at most two ACTIVE reservations |
| `Registry.PutCoherent` | qtapp/srv/Manager.cpp:93-141 | A completed insertion keeps the five maps in agreement, one home per token, and every token under its own name |
| `Registry.PutClocks` | qtapp/srv/Manager.cpp:441-528 | A granted reservation has three running clocks: a quarter of a second before the window, at its start, and at its end or at once if it is over |
| `Registry.DropCoherent` | qtapp/srv/Manager.cpp:155-192 | A release keeps the five maps in agreement |
| `Registry.DropHolds` | qtapp/srv/Manager.cpp:155-192 | A release removes one token from where it is held and nothing else |
| `Management.Manager.constructor` | qtapp/srv/Manager.cpp:422-439 | The tuners named TunerId-0 and on, all empty, the first one reserved; the parallel maps agree |
| `Management.Manager.GetTunerIds` | qtapp/srv/Manager.cpp:48-57 | All ids, in map order |
| `Management.Manager.GetClientTokens` | qtapp/srv/Manager.cpp:60-70 | A token is listed if and only if the attributes give it to the client |
| `Management.Manager.GetReservationTokens` | qtapp/srv/Manager.cpp:82-91 | The tokens of the listed tuners, tuner by tuner |
| `Management.Manager.GetParent` | qtapp/srv/Manager.cpp:214-229 | Finds the first tuner that holds a token, if and only if it is held, in any state |
| `Management.Manager.GetReservation` | qtapp/srv/Manager.cpp:194-212 | Finds the reservation of a token, if and only if it is held, in any state |
| `Management.Manager.FilterTuners` | qtapp/srv/Filter.cpp:119-203 | The in-place erase loops keep exactly the tuners that pass, in order |
| `Management.Manager.FilterTokens` | qtapp/srv/Filter.cpp:205-351 | The in-place erase loops keep exactly the tokens whose reservation passes, in order |
| `Management.Manager.EndsBefore` | qtapp/srv/Filter.cpp:171-203 | True if and only if every Record of the tuner ends by the given time |
| `Management.Manager.FirstTuner` | qtapp/srv/Executors.cpp:428-457 | The search loops with a break return the first tuner that meets their criterion |
| `Management.Manager.LastTuner` | qtapp/srv/Executors.cpp:928-960 | The search loop without a break returns the last tuner that meets its criterion |
| `Management.Manager.AddReservation` | qtapp/srv/Manager.cpp:93-141 | The whole new state of the object, in all three outcomes |
| `Management.Manager.ReleaseReservation` | qtapp/srv/Manager.cpp:155-192 | A held token is released completely: once it is found nothing can fail half-way; an unknown one changes nothing |
| `Management.Manager.SyncHybrid` | qtapp/srv/Manager.cpp:612-672 | Puts the ACTIVE Lives of a Hybrid tuner on the locator of its first ACTIVE Record. The message that follows each change may raise: who is told depends on the connections, exactly; the result does not. Raises exactly when the Record locator is empty |
| `Management.Manager.RunStartTask` | qtapp/srv/ReservationTimerTask.cpp:92-130 | The start timer's task as a function of the state: activation, synchronisation with its messages, and the expiration timer set again; the same whoever is connected |
| `Management.Manager.OnStartTimer` | qtapp/srv/QtTimer.h:86-107 | A start clock going off, early or late: the task runs only at or after the deadline, before it the clock is set again |
| `Management.Manager.OnExpireTimer` | qtapp/srv/QtTimer.h:86-107 | The same for an expiration clock |
| `Management.Manager.RunExpirationTask` | qtapp/srv/ReservationTimerTask.cpp:48-79 | Marking EXPIRED and releasing leaves the state of a plain release: EXPIRED is never left behind |
| `Management.Manager.SetLocalTuner` | qtapp/srv/Manager.cpp:757-760 | Only the reserved tuner changes |
| `Management.Manager.AddPendingRequest` | qtapp/srv/Manager.cpp:243-271 | Appends the entry and sets its timer unless one is running under the id |
| `Management.Manager.IsPendingConflict` | qtapp/srv/Manager.cpp:273-293 | The nested loops decide membership among the temporary tokens of the pending conflicts |
| `Management.Manager.GetPendingRequest` | qtapp/srv/Manager.cpp:308-324 | The first entry with the id |
| `Management.Manager.RemovePendingRequest` | qtapp/srv/Manager.cpp:326-344 | Erases the first entry with the id and its timer, and nothing else |
| `LivePlacement.LiveChoiceSound` | qtapp/srv/Executors.cpp:401-748 | The tuner chosen for a Live has no other Live; the reserved tuner carries no Live of another device afterwards; a remote requester never gets the reserved tuner; a refusal leaves the reservation of a tuner where it was |
| `LivePlacement.LiveGrantedIff` | qtapp/srv/Executors.cpp:401-748 | The staged search grants a well-formed Live if and only if the device is already on the locator, or a tuner can be taken, or the device has a Live tuner of its own and no recording shares the locator |
| `LivePlacement.HostRefusedIff` | qtapp/srv/Executors.cpp:401-656 | For the host: refused if and only if no tuner is Free, no Record tuner's first ACTIVE recording has the locator, and its own Live is absent or on a Hybrid tuner with another locator |
| `LivePlacement.RemoteGrantedByFree` | qtapp/srv/Executors.cpp:500-656 | A remote Live is always granted when some Free tuner is not the reserved one |
| `LivePlacement.RemoteChannelChangeRefusedIff` | qtapp/srv/Executors.cpp:593-748 | Exactly when a remote device with a Live tuner of its own is refused a channel change |
| `LivePreference.LivePreferenceIff` | qtapp/srv/Executors.cpp:401-748 | A Live gets a tuner if and only if it is the preferred one, in terms of what the tuners hold: the device's own on the locator; the first recording the locator with nobody watching; the device's own whose next recording is on the locator; the first idle one whose next recording is; the first empty one; the device's own; the first idle one with any recording to come. A remote device gets the reserved tuner only if another can be reserved, and one that already watches never takes the last Free tuner from the host |
| `LivePreference.ReservedNext` | qtapp/srv/Executors.cpp:593-748 | Which tuner is reserved for the host after every choice, exactly |
| `LiveRequests.OwnLivesAre` | qtapp/srv/Executors.cpp:355-383 | The filter chain finds the device's Live and at most one of it |
| `LiveRequests.LiveConflictsExact` | qtapp/srv/Executors.cpp:87-155 | A refused Live reports each ACTIVE Record on Record tuners and on the requester's own tuner, once, and nothing else |
| `LiveRequests.LiveRequestEffect` | qtapp/srv/Executors.cpp:308-799 | Conservation: which reply is given, exactly; anything but a grant leaves the whole book unchanged; a grant adds one reservation, under the device's old token if it had one, and leaves every other token alone |
| `LiveRequests.GrantLiveSound` | qtapp/srv/Executors.cpp:750-782 | A grant keeps every invariant of the book |
| `LiveAnswers.LiveAnswerIs` | qtapp/srv/Executors.cpp:308-799 | Which answer a well-formed Live request gets, exactly: invalid token, grant, or a refusal that lists each recording in the way once |
| `LiveAnswers.LiveGrantIs` | qtapp/srv/Executors.cpp:750-782 | A granted Live is on the preferred tuner, as asked but for its token (the old one, the lost one asked back, or a new one), its start (never later than a moment ago) and its channel (that of whatever runs there) |
| `LiveAnswers.LiveNotStarted` | qtapp/srv/Executors.cpp:355-399 | A device is told that its Live has not started if and only if it holds one that has not; then nothing changes |
| `LiveExecutor.SearchLive` | qtapp/srv/Executors.cpp:401-591 | The stages of the search, tried one after the other, give the specified target and fallback |
| `LiveExecutor.GuardReserved` | qtapp/srv/Executors.cpp:593-623 | What happens when a remote requester is about to take the last Free tuner while it is the reserved one |
| `LiveExecutor.SettleLocal` | qtapp/srv/Executors.cpp:658-748 | The relocation of the reserved tuner, or the refusal when it has nowhere to go |
| `LiveExecutor.ChooseTuner` | qtapp/srv/Executors.cpp:401-748 | Search, guard, fallbacks and relocation together make the specified choice and change nothing but the reserved tuner |
| `LiveExecutor.Grant` | qtapp/srv/Executors.cpp:750-782 | Release of the old reservation and insertion of the new one, in every outcome |
| `LiveExecutor.FindConflicts` | qtapp/srv/Executors.cpp:87-155 | The conflict list of a refusal, list by list |
| `LiveExecutor.RefusalKeepsLocal` | qtapp/srv/Executors.cpp:593-748 | No refused request moves the reserved tuner |
| `LiveExecutor.Reserve` | qtapp/srv/Executors.cpp:308-799 | reserveLive as a whole: the new book and the reply, for every request |
| `RecordPlacement.LaterStagesClear` | qtapp/srv/Executors.cpp:962-1116 | A Record placed by the Hybrid, Live, Record or Free stages overlaps no Record on its tuner |
| `RecordPlacement.BackToBackClearIff` | qtapp/srv/Executors.cpp:928-960 | Every request the first stage accepts on a tuner is clear of its Records if and only if the tuner has no IDLE Record or getEndTime's scan saw the last end |
| `RecordPlacement.OnlyRecordsAgree` | common/src/Tuner.cpp:196-213 | On a tuner that holds only Records, getEndTime agrees with the end-before filter |
| `RecordPlacement.BackToBackCanOverlap` | qtapp/srv/Executors.cpp:928-960 | Where a Live sorts first the first stage does accept an overlapping Record |
| `RecordPreference.RecordPlacedIff` | qtapp/srv/Executors.cpp:928-1116 | A Record finds no tuner if and only if none suits, in terms of what the tuners hold; the search gives up if and only if two Hybrid tuners suit; otherwise it finds exactly the preferred one: a recording of the locator to come there, a Hybrid tuner on the locator, a lone viewer of it, a recording tuner on the locator, any recording tuner, an empty one |
| `RecordRequests.RecordConflictExact` | qtapp/srv/Executors.cpp:157-277 | A refused Record raises an assertion or reports one held Live; when it reports, which one, and when it prefers the asking device's own |
| `RecordRequests.RecordPlacedEffect` | qtapp/srv/Executors.cpp:865-1187 | A Record for which a tuner is found is granted there and nothing else changes; it is turned away exactly on a clash, and then nothing changes |
| `RecordRequests.RecordUnplacedEffect` | qtapp/srv/Executors.cpp:1148-1187 | Otherwise nothing changes, and a conflict names a held Live with its tuner |
| `RecordRequests.RenewEffect` | qtapp/srv/Executors.cpp:801-863 | A renewal as the request is served: unknown exactly when no held Record has its device and locator; it succeeds only for the first of them; release comes first, so the reservation is lost exactly on a clash |
| `RecordAnswers.RecordConflictIs` | qtapp/srv/Executors.cpp:157-277 | Exactly which Live a refused Record names: the first listed of the asking device's own that can give way, then the first listed of anybody's, then the one on the first Hybrid tuner with a Record that is over in time |
| `RecordAnswers.RecordAnswerIs` | qtapp/srv/Executors.cpp:865-1187 | What a fresh Record request comes to, exactly: granted as asked on the preferred tuner unless that refuses it, in conflict with the named Live if no tuner suits, an assertion otherwise; and which tuner is reserved then |
| `RecordAnswers.RenewsFirst` | qtapp/srv/Executors.cpp:801-863 | Of several Records of the device and locator a renewal goes by the first one listed, tuner by tuner |
| `RecordAnswers.RenewalAnswerIs` | qtapp/srv/Executors.cpp:801-863 | A renewal is done or lost if and only if it names that first Record; it is lost if and only if the tuner refuses the new window |
| `RecordExecutor.SearchTuner` | qtapp/srv/Executors.cpp:928-1116 | The stages of the Record search |
| `RecordExecutor.MoveLocal` | qtapp/srv/Executors.cpp:1118-1146 | A Free reserved tuner about to be recorded on passes its role on, if another tuner is Free |
| `RecordExecutor.FindConflict` | qtapp/srv/Executors.cpp:157-277 | The conflicting Live, through the erase loops |
| `RecordExecutor.FilterInConflict` | qtapp/srv/Filter.cpp:295-318 | The erase loop over pending conflicts |
| `RecordExecutor.SkipTokens` | qtapp/srv/Executors.cpp:179-235 | The erase loop over Lives whose tuner has a Record |
| `RecordExecutor.Renew` | qtapp/srv/Executors.cpp:801-863 | renewRecord as a whole |
| `RecordExecutor.Reserve` | qtapp/srv/Executors.cpp:865-1187 | reserveRecord as a whole: the new book and the reply, for every request |
| `Lifecycle.LocatorIsOrderFree` | common/src/Tuner.cpp:160-177 | Once all ACTIVE reservations of a tuner share a locator, the locator read does not depend on token order |
| `Lifecycle.StartTunedIff` | qtapp/srv/ReservationTimerTask.cpp:92-130 | A start leaves its tuner on one locator if and only if a starting Record finds the ACTIVE Records on its own locator |
| `Lifecycle.StartSound` | qtapp/srv/ReservationTimerTask.cpp:92-130 | A start keeps every invariant of the book |
| `Starts.StartExact` | qtapp/srv/ReservationTimerTask.cpp:92-130 | A start changes one tuner: the reservation runs, and while something is recorded each running Live is on the channel of the first running Record; nothing else changes |
| `Invariants.InsertSound` | qtapp/srv/Manager.cpp:93-141 | An insertion keeps every invariant of the book, and is refused exactly on a clash |
| `Invariants.DropSound` | qtapp/srv/Manager.cpp:155-192 | A release keeps every invariant of the book |
| `RequestExecutor.Execute` | qtapp/srv/Executors.cpp:1197-1293 | A reserve request, Live or Record, on the whole state, including the pending conflict it may open |
| `RequestExecutor.GrantOn` | qtapp/srv/Executors.cpp:1650-1737 | The unconditional grant of a Record |
| `RequestExecutor.ConflictTimedOut` | qtapp/srv/Manager.cpp:781-908 | The timeout of a conflict, case by case |
| `RequestExecutor.RunPendingTask` | qtapp/srv/ReservationTimerTask.cpp:181-198 | The pending timer's task: the entry goes away only if its timeout completes |
| `RequestExecutor.OnPendingTimer` | qtapp/srv/QtTimer.h:86-107 | A pending clock going off, early or late |
| `RequestExecutor.ExecuteCancelLiveResponse` | qtapp/srv/Executors.cpp:1808-1820 | An answer to CancelLive grants the waiting Record |
| `RequestExecutor.ExecuteCancelRecording` | qtapp/srv/Executors.cpp:1355-1459 | A cancellation withdraws a pending conflict or opens a pending cancellation |
| `RequestExecutor.ExecuteCancelRecordingResponse` | qtapp/srv/Executors.cpp:1461-1522 | The recorder's answer releases the reservation once it can be passed on |
| `UpdateExecutor.OnReservationUpdated` | qtapp/srv/Manager.cpp:352-415 | In any state: the loop over a list that grows while it is walked, and the removal loop, compute the specified re-evaluation; the loop terminates |
| `ProtocolInvariants.OpeningAssertsHold` | qtapp/srv/Manager.cpp:785-792 | The assertions that open a conflict's timeout hold for every pending conflict |
| `Timeouts.GrantExact` | qtapp/srv/Executors.cpp:1650-1737 | A waiting Record is granted to the recorder if and only if its tuner does not refuse it: from now if it is already due, from a moment ago if the tuner records nothing, and to the end asked for |
| `Timeouts.ConflictTimeoutExact` | qtapp/srv/Manager.cpp:781-908 | What the timeout of a conflict does, exactly, by what its tuner holds: nothing, a grant; one Live, one question through the recorder with ten seconds to answer, or nothing if the recorder is not there; an emergency channel, the end of the request once the recorder can be told; a Live and a recording, a grant unless refused; anything else, nothing |
| `Timeouts.TimeoutExact` | qtapp/srv/ReservationTimerTask.cpp:181-198 | What a pending timer's task does, exactly, for each kind of entry; the entry goes if and only if that is done |
| `Timeouts.CancelLiveAnswerExact` | qtapp/srv/Executors.cpp:1808-1820 | An answer to CancelLive gives way at once, or does nothing if no such question is open |
| `Timeouts.WithdrawalExact` | qtapp/srv/Executors.cpp:1355-1404 | A user's cancellation of a waiting Record withdraws exactly that one, for good, if and only if the client that asked for it can be told |
| `Timeouts.QuestionExact` | qtapp/srv/Executors.cpp:1405-1459 | A cancellation of a granted Record opens one question to the recorder with fifteen seconds to answer; of anything else it does nothing |
| `Timeouts.CancelAnswerExact` | qtapp/srv/Executors.cpp:1461-1522 | The recorder's answer closes the question it names, and releases the Record if and only if the asking client can be told |
| `Reevaluation.WalkEffect` | qtapp/srv/Manager.cpp:352-404 | The walk ends although its body appends: a conflict appends at most one entry, which appends none |
| `Reevaluation.ReevaluateEffect` | qtapp/srv/Manager.cpp:352-415 | The loop keeps the invariant; it removes conflicts only and adds CancelLive entries only |
| `Updates.ReevaluationIs` | qtapp/srv/Manager.cpp:352-415 | The loop over the growing list does what a plain pass over the original list does: each conflict that is over times out, in order, and those whose timeout completes go |
| `Updates.ReevaluationExact` | qtapp/srv/Manager.cpp:370-403 | A conflict whose Live is held on another channel than the recording's stays, without grant or question. One whose Live is gone or on that channel times out in the state the earlier ones left; it goes if and only if the timeout completes, and its request has exactly the grant or the question the timeout makes |
| `ProtocolSteps.PendingDueInv` | qtapp/srv/ReservationTimerTask.cpp:181-198 | A pending timer's task keeps the invariant |
| `ProtocolSteps.PendingClockInv` | qtapp/srv/QtTimer.h:86-107 | A pending clock going off at any time keeps the invariant |
| `ProtocolSteps.CancelLiveReplyInv` | qtapp/srv/Manager.cpp:741-750 | An answer to CancelLive keeps the invariant |
| `ProtocolSteps.CancelRecordingInv` | qtapp/srv/Executors.cpp:1355-1459 | A cancellation keeps the invariant |
| `ProtocolSteps.CancelRecordingReplyInv` | qtapp/srv/Executors.cpp:1461-1522 | The recorder's answer keeps the invariant |
| `ReserveSteps.ReserveInv` | qtapp/srv/Executors.cpp:1197-1293 | A reserve request keeps the invariant |
| `RequestEffects.RecordRequestExact` | qtapp/srv/Executors.cpp:1197-1293 | What a fresh Record request does to the whole state, exactly: a grant, or one conflict entry for the client, the request, one Live and its tuner, with 53.5 seconds; or nothing |
| `RequestEffects.LiveRequestExact` | qtapp/srv/Executors.cpp:1197-1293 | What a Live request does to the whole state, exactly |
| `Serving.ReleaseTokens` | qtapp/srv/Server.cpp:95-105 | The inner loop releases exactly the listed tokens |
| `Serving.Server.OnDisconnected` | qtapp/srv/Server.cpp:85-119 | The nested loops forget exactly the connection's clients with everything they own, whatever order they come in |
| `Serving.Server.OnEmptyMessage` | qtapp/srv/Server.cpp:155-184 | A message without payload ends its client's session if the client is on that connection |
| `Serving.Server.Introduce` | qtapp/srv/Server.cpp:142-146 | A client is tied to the connection of its first message |
| `Disconnection.ReleaseClientsEffect` | qtapp/srv/Server.cpp:85-119 | Releasing what some clients own leaves none of it, keeps the book sound and leaves every other token alone |
| `Runs.DisconnectEffect` | qtapp/srv/Server.cpp:85-119 | After a connection drops no reservation of its clients remains, none of its clients is mapped, and all other reservations, mappings and timers, those of pending requests included, are unchanged |
| `RequestEffects.EmptyMessageExact` | qtapp/srv/Server.cpp:155-184 | A message without payload releases exactly what its client owns and forgets it, if the client belongs to that connection; otherwise it does nothing |
| `RequestEffects.HeardExact` | qtapp/srv/Server.cpp:142-146 | A client stays with the connection of its first message |
| `Runs.StepInv` | qtapp/srv/Manager.cpp:93-415 | Every event keeps the invariant |
| `Runs.RunInv` | qtapp/srv/Manager.cpp:93-415 | Every state of every admissible run satisfies the invariant |
| `Runs.RunSafety` | common/include/trm/TunerState.h:100-103 | In every run: the reserved tuner carries no Live of another device; all ACTIVE reservations of a tuner are on one locator; no device and no tuner has two Lives; the five maps agree and each token has one home; EXPIRED is never seen, nothing is ACTIVE before its start, each grant is started at most once |
| `Runs.RunGrantsOnce` | qtapp/srv/Manager.cpp:352-415 | In every run a request has at most one pending claim or one granted reservation, never both; a cancelled one has neither; pending ids are distinct and are the keys of the pending timers |
| `Runs.CancelledNeverGranted` | qtapp/srv/Executors.cpp:1355-1404 | A request cancelled by the user at some point of a run is never granted later |
| `Promises.ClaimKeptIff` | qtapp/srv/Manager.cpp:781-908 | A request that waits or was granted does so after every event, except exactly: the user's cancellation while it waits, and a timeout that meets an emergency channel with the recorder there or a viewer with no recorder to ask through |
| `Promises.LostOnlyIfGivenUp` | qtapp/srv/Manager.cpp:352-415 | Over whole runs: a request that waits at some point, and at the end neither waits nor was granted, was given up by such an event in between |
| `Deadlines.StepCarries` | qtapp/srv/Manager.cpp:243-271 | Every event leaves the clocks of the entries that stay, and sets that of an entry it opens; only a clock going off at or after its time is spent |
| `Deadlines.DeadlineIs` | qtapp/srv/Manager.cpp:243-271 | In every run a pending clock that runs is set for the moment its entry was opened plus 53.5, 10 or 15 seconds, by its kind |
| `Runs.FirstLiveGranted` | qtapp/srv/Executors.cpp:308-799 | The conditions on runs can be met: at the start every well-formed Live request is admissible and granted, if it is the host's or there is a second tuner |
| `Retention.ResolvingOnlyAdds` | qtapp/srv/Manager.cpp:352-415 | A timeout, an answer to CancelLive and a re-evaluation leave every reservation and its owner as they are; what they add are IDLE Records for the recorder |
| `Retention.NothingElseIsLost` | qtapp/srv/Manager.cpp:155-192 | No event removes a reservation except its own release or renewal, its expiration clock once the window is over, the answer to its cancellation, or the end of its owner's session |
| `Retention.LostOnlyIfTaken` | qtapp/srv/Manager.cpp:155-192 | Over whole runs: a reservation held at some point and gone at the end was taken by such an event in between |
| `Runs.StartsExactly` | qtapp/srv/ReservationTimerTask.cpp:92-130 | A start clock going off, at whatever time, makes an IDLE reservation ACTIVE if and only if its window has started; then the expiration clock runs, set for the end of the window |
| `Runs.ExpiresExactly` | qtapp/srv/ReservationTimerTask.cpp:48-79 | An expiration clock going off, at whatever time, releases its reservation if and only if the window is over |
| `Contention.StepUnheldIff` | qtapp/srv/Filter.cpp:295-318 | Every event leaves the temporary tokens of pending Records held by nobody, except a Live request that asks one of them back and is granted |
| `Contention.FilterExcludesNothing` | qtapp/srv/Executors.cpp:157-277 | In every run without such a request the filter "not in conflict" makes no difference: each Record is put in conflict with the Live it would get if no conflict were pending |
| `Scenes.TwoConflictsOneLive` | qtapp/srv/Executors.cpp:1148-1187 | A run on one tuner after which two pending conflicts name the same Live |
| `Failures.ChannelChangeRefused` | qtapp/srv/Executors.cpp:593-748 | A run on two tuners in which a remote viewer's channel change is refused |
| `Failures.RenewalLost` | qtapp/srv/Executors.cpp:801-863 | A run on one tuner in which a renewal loses its reservation |
| `Engine.Handle` | qtapp/srv/ServerMessageProcessor.cpp:40-99 | The objects take every admissible event as the state machine does, and keep the invariant |
| `Engine.Drive` | qtapp/srv/ServerMessageProcessor.cpp:40-99 | Refinement over whole runs: after any admissible sequence of events the objects stand for the state the run reaches |
| `Engine.Boot` | qtapp/srv/main.cpp:44-93 | A server as started stands for an initial state |
| `Timers.QtTimer.Schedule` | qtapp/srv/QtTimer.h:65-75 | Deadline, task and the interval clamped to 31 bits |
| `Timers.QtTimer.OnExpiration` | qtapp/srv/QtTimer.h:86-107 | Runs the task at or after the deadline, starts the clock again before it |
| `Timers.Timer.Schedule` | qtapp/srv/Timer.cpp:48-63 | Relative and absolute deadlines |
| `Timers.RunsExactly` | qtapp/srv/QtTimer.h:65-107 | Over any sequence of schedules, cancels and deliveries, early or late: a task runs if and only if the clock goes off at or after the deadline of the schedule in force |
| `Timers.RunsOnce` | qtapp/srv/QtTimer.h:86-107 | Between two runs there is a schedule |
| `Timers.RunningAfterEarly` | qtapp/srv/QtTimer.h:97-107 | When an early delivery starts the clock again, exactly |
| `Timers.NeverLostIff` | qtapp/srv/QtTimer.h:65-107 | With a clock that never goes back: no sequence of early deliveries loses a schedule if and only if its interval is below 2^31 - 1 ms |
| `Timers.FarDeadlineLost` | qtapp/srv/QtTimer.h:97-107 | Any longer interval is lost by one delivery 2^31 - 1 ms before the deadline |
| `Times.AdjustedEnd` | qtapp/srv/Executors.cpp:1680-1712 | An unconditionally granted Record keeps its end, or ends at its adjusted start if it was already over |
| `Times.RemainingExactIff` | common/src/TunerReservation.cpp:195-206 | The remaining time is right if and only if it fits a signed 64-bit integer |
| `Times.ExpiryIsEnd` | qtapp/srv/Manager.cpp:441-469 | The remaining time in 64-bit arithmetic sets the expiration clock for the end of the window, or for now if it is over |
| `Times.DefaultLiveFits` | common/src/JanssonParser.cpp:286-293 | The default duration of a Live overflows nowhere when the window starts at most twice the clock |
| `Times.DefaultLiveDeadlineIff` | qtapp/srv/Timer.cpp:48-63 | When the deadline of a default Live fits, exactly |
| `Framing.HeaderLayout` | common/src/Header.cpp:41-104 | The header byte by byte: TRMS and three words, the most significant byte first |
| `Framing.HeaderRoundTrip` | common/src/Header.cpp:41-104 | Every header is read back as written |
| `Framing.ParsedIsWritten` | common/src/Header.cpp:67-104 | A header is accepted only in the form it is written in |
| `Framing.Serialize` | common/src/Header.cpp:41-65 | The in-place byte writes produce the header |
| `Framing.Deserialize` | common/src/Header.cpp:67-104 | The header, or none where the source raises an assertion |
| `Framing.SerializeMessage` | common/include/trm/JsonEncoder.h:84-99 | The frame of a message |
| `Framing.FrameRoundTrip` | common/include/trm/JsonEncoder.h:84-99 | Every message is recovered from its frame; the length field is right if and only if the payload is below 4 GiB |
| `Framing.Connection.OnReadyRead` | qtapp/common/Connection.cpp:159-203 | The self-triggering slot, one read after another, computes the specified reader; it terminates |
| `Framing.ReadyReadDelivers` | qtapp/common/Connection.cpp:159-273 | One activation delivers exactly the complete frames at hand and keeps the rest |
| `Framing.FeedDelivers` | qtapp/common/Connection.cpp:159-273 | However the bytes are cut into chunks, the frames delivered are the complete frames of the whole, in order |
| `Framing.StreamDelivered` | qtapp/common/Connection.cpp:159-273 | For any stream of frames cut off anywhere: exactly the frames that arrived complete are delivered, and delivered bytes plus held bytes are the bytes received |
| `Framing.EndToEnd` | common/include/trm/JsonEncoder.h:84-99 | Serialised messages come out of any chunking whole, in order, with type, client and payload |
| `Framing.BytesKeptIff` | qtapp/common/Connection.cpp:159-273 | Delivered bytes plus held bytes are the bytes received, for every way of cutting a stream into chunks, if and only if the stream has no bad header |
| `Framing.BadHeaderLost` | qtapp/common/Connection.cpp:159-203 | After a stream with a bad header, the next chunk costs sixteen bytes, whatever it is |
| `Codec.DetailsRoundTripIff` | common/src/JanssonParser.cpp:125-203 | A detail map survives encoding and decoding if and only if no string holds a NUL |
| `Codec.BookingRoundTripIff` | common/src/JanssonParser.cpp:217-308 | A reservation survives, arriving IDLE, if and only if its strings hold no NUL, its times fit 64 bits and its custom attributes are not a JSON null |
| `Codec.RequestRoundTripIff` | common/src/JanssonParser.cpp:434-506 | The same for a whole reserve request |
| `Codec.MissingFieldRead` | common/src/JanssonParser.cpp:247-308 | What a reservation with any one field left out is read as: which have defaults, and the default duration of a Live |
| `Codec.MissingInRequest` | common/src/JanssonParser.cpp:463-506 | The same for a reserve request |
| `Codec.OneMessagePerTree` | common/src/JanssonParser.cpp:463-506 | An empty tree is ignored, a second member makes decoding fail |
| `Codec.ResponseRoundTripIff` | common/src/JanssonParser.cpp:518-633 | The same for a response with its conflict list in order; a reservation without a token survives only if it is empty |
| `Codec.EncodeDetails` | common/src/JanssonParser.cpp:137-160 | The loop over the detail map |
| `Codec.EncodeBooking` | common/src/JanssonParser.cpp:217-245 | The tree built by in-place sets |
| `Codec.EncodeRequest` | common/src/JanssonParser.cpp:434-461 | The tree of a request |
| `Codec.EncodeResponse` | common/src/JanssonParser.cpp:518-569 | The tree of a response, with the loop over conflicts |
| `Codec.DecodeDetails` | common/src/JanssonParser.cpp:175-187 | The loop over the members of the details object |
| `Codec.DecodeConflicts` | common/src/JanssonParser.cpp:616-628 | The loop over the conflict array |

## Left out

- Sockets, signals, threads, TLS and web sockets: what they deliver are the events and byte chunks of the model.
- Notifications to clients, status texts and logging: they change no state. Of them only the messages a start sends are modelled, because one of them may raise in the middle of it. The ids drawn for them are not counted against the id supply.
- The emission of the update signal after each change: the re-evaluation is an event that may happen at any time, which includes every time the source schedules it.
- The pre-start timer's task: it sends a CancelLive and changes no state. Its clock is set with the others; its going off is not an event.
- Timer objects inside the manager: it keeps each timer's state as a value, which the same functions advance that specify the timer class.
- Liveness after a lost connection: a pending entry whose timeout raises stays in the list; only safety is claimed.
- Validate, GetAll, GetVersion, UpdateTunerActivityStatus and plain CancelLive forwarding: they read or forward, and would only add easy members.
- JSON text and the remaining message codecs: trees are parsed and printed by a library; the other codecs repeat the same patterns.
- The test hook that marks Live activities as emergency alerts when a file exists.
- Custom-attribute ownership and raw pointer lifetimes.
- Engine.Boot: the number of tuners is a parameter, and the device id is known when the server starts.
- Times.AdjustedEnd: the clock may be read up to three times; elsewhere one reading stands for all of an event.
