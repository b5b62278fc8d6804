# Kollector: the pod index, the report pipeline and the scan candidates

Kollector watches a Kubernetes cluster. One goroutine per resource kind turns watch events into changes of an
in-memory index and into report entries; one listener goroutine turns pending entries into JSON reports and hands
them to a websocket. This project models that core and proves what its parts promise together: which pods are
tracked after any stream of events, that the reports add up to what is tracked, that no entry is lost, duplicated
or left behind in any interleaving, and where the code does not keep these promises.

## How it is organised

| file | content |
|---|---|
| `Types.dfy` | pods, owners, tracked records, report entries, the 18 report lists |
| `Ids.dfy` | the id database |
| `PodStatus.dfy` | the status text of a pod |
| `Candidates.dfy` | the scan-candidate list and its notification rule |
| `Json.dfy` | JSON values, their text, and reading the text back |
| `Report.dfy` | a report as a value, its JSON document, the empty-first-report test |
| `ReportText.dfy` | what a receiver reads in the texts of reports |
| `JsonFormat.dfy` | the live report: a record of pointers to lists, shared by its copies |
| `Pipeline.dfy` | the listener and any number of watchers as a step system |
| `Entries.dfy` | counting the entries about one pod name or one spec id |
| `PodIndex.dfy` | the pod index and the scans over it |
| `PodWatch.dfy` | one event of the pod watch, and the invariant every event keeps |
| `PodHistory.dfy`, `PodBalance.dfy`, `PodServices.dfy` | whole streams of pod events |
| `PodRemoval.dfy` | the answer of a removal, whatever names the index holds how often |
| `PodCollisions.dfy`, `PodSessions.dfy` | streams on which the view goes wrong; restarted watch sessions |
| `PodReports.dfy` | which pods share a microservice, and what each entry about a pod says |
| `CronJobs.dfy` | the cron job watch, within a session and over many |
| `ResourceMap.dfy`, `Secrets.dfy`, `SecretIndex.dfy` | the secret index and the keyed map it refines |
| `System.dfy` | pod watcher and pipeline together |
| `Turns.dfy` | whole turns of the pod and cron job loops as functions of values |
| `CandidateCounts.dfy` | the scan candidates against the pod index, over whole streams |
| `Notifications.dfy` | exactly which images are notified |
| `Handler.dfy` | the watch handler as an object; its methods are proved against the functions above |

The classes (`IdDataBase`, `ScanNewImageData`, `CandidateList`, `ObjectData`, `JsonFormat`, `ResourceMap`,
`SecretObject`, `SecretWatcher`, `WatchHandler`) hold the fields that the program updates in place. Each method is
proved against a function on values, and the theorems are about those functions.

## Assumptions

- Atomicity. The program takes no lock around the live report or the pod index. An append to the report, the
  preparation of a report, the test of the guard in `informNewDataArrive` and each hand-over on a channel is one
  atomic step. A pod event changes the index at its start; its appends, its guard and its rendezvous are separate
  steps that interleave with all others.
- Map iteration. A loop over a Go map visits the keys in an arbitrary order: an `order` argument, or the result of
  `GetIDs`. Theorems hold for every order.
- Foreign answers are inputs: the owner of a pod (none if the lookup failed), which owners no longer exist (a set,
  fixed during one event), the clock, whether marshalling succeeds, the JSON value of an entry.
- `reflect.DeepEqual` on owner specs is equality of a canonical text. A spec, when an owner has one, is not null.
- JSON. A string is given by the characters between its quotes, escapes included, and a number, `true`, `false` or
  `null` by its text. Results about reading a report's text back ask for what `json.Marshal` guarantees: every quote
  inside a string is escaped, and no number or literal is empty or contains a delimiter.
- A list element that was removed has no next one, so the scan of a bucket ends at its first removal.
- Streams. A stream of pod events contains no panic; nothing else is assumed of it. Where a row speaks of streams or
  events "without a clash", no tracked pod carries the generated name of a pod that is being deleted.
- Ids and counters are unbounded integers. One character of report text stands for one byte.
- The six report pointers are one field, a map from kind to list object; a missing key is a nil pointer.
- In the pipeline an entry stands for itself, whatever its payload shows when it is sent. That a stored secret and
  its pending CREATED entry are one object is in `Secrets.dfy`.

## Findings

The proofs found these places where the program does less than one might expect. Each is a theorem below.

- Handlers of nodes, services, secrets and namespaces inform before they append. The listener can then wait with
  their entry pending and nobody left to wake it (`Pipeline.StrandedDelta`). The pod and cron job handlers append
  first and never strand an entry; `Pipeline.NoStrandedDeltas` says which kinds are safe, in both directions.
- Pods are found by name alone, and by the generated name of the deleted pod as well. With one name in two
  namespaces, deleting one pod makes the collector forget both and report one deletion
  (`PodCollisions.SameNameInTwoNamespaces`). `PodBalance.BalanceIsTrackingExactly` gives the condition on each event
  under which the entries of a name tell whether it is tracked, and `PodBalance.IndexIsASetOfNames` the one under
  which the tracked names are the replay of additions and deletions.
- When a deletion takes pods from several buckets, and one of these leaves with its owner, the microservice reported
  deleted can be one that stays (`PodCollisions.WrongServiceRun`), and one that left goes unreported.
  `PodRemoval.ReportedServiceLeftExactly` and `PodRemoval.ServicesReportedExactly` say exactly when.
- An addition counts a scan candidate only if the pod is newer than the collector, a deletion always discounts one.
  Deleting an older pod makes the collector forget a newer one of the same owner
  (`CandidateCounts.NewerPodForgotten`; exactly when, `CandidateCounts.CountsNewerPodsExactly`), whose new images are
  then not notified until another newer pod of the owner is added (`CandidateCounts.ForgottenUntilAdded`).
- A modified event of a terminating pod moves the watermark in the middle of a session. A pod created earlier that
  is delivered later is never reported, in that session or another (`PodSessions.TerminationHidesForGood`).
- A bucket that loses its last pod while its owner still exists stays in the index forever
  (`PodServices.AbandonedForever`).
- A removal matches the generated name of the deleted pod as well. If a pod of that name comes first in the bucket,
  it is taken out and the deleted one stays (`PodIndex.RemovalIsCompleteExactly` for every bucket,
  `PodCollisions.WrongPodLost` as a run), and if it was the last pod of a vanished owner the removal panics
  (`PodIndex.RemoveScanPanics` exactly when, `PodCollisions.PanicIsReachable` as a run). For secrets, see
  `SecretIndex.EventRefinesExactly`.
- A secret that is changed while its CREATED entry is pending shows the changed content there, because index and
  report share the object (`Secrets.SecretWatcher.UpdateReachesReport`).
- The deletion of a cron job is always reported under spec id 0, because the id is forgotten before it is read
  (`CronJobs.CronJobNumbering`). So it names another microservice as soon as any id was issued before the session
  (`CronJobs.DeletionNamesAnotherService`).
- The test that a candidate's stored pod is "the new one" compares a time with itself and is always true
  (`Candidates.IsPodIsTheNewOne`).

## Model

| member | source | states |
|---|---|---|
| `Ids.IdDataBase.IDCreator` | watch/idmanagment.go:17-21 | Hands out the counter and moves it by one. |
| `Ids.IdDataBase.CreateID` | watch/idmanagment.go:23-44 | The new id is the least unlisted number from the counter on and goes to the end of the list; on a sound database it is the counter itself and the database stays sound. |
| `Ids.IdDataBase.DeleteID` | watch/idmanagment.go:46-56 | The first occurrence of the id leaves the list; an unlisted id changes nothing. |
| `Ids.RemoveFirstIncreasing` | watch/idmanagment.go:46-56 | A deletion keeps the list strictly increasing and removes that id and no other. |
| `Ids.IdsAreNeverReissued` | watch/idmanagment.go:17-56 | Over any mix of creations and deletions the live list stays strictly increasing below the counter and the issued ids are consecutive numbers: none is issued twice, not even a deleted one. |
| `Ids.LiveIdsWereIssued` | watch/idmanagment.go:17-56 | Every live id was live at the start or was issued during the run. |
| `PodStatus.GetPodStatus` | watch/podwatch.go:784-806 | The loop computes a closed form: the non-empty reason of the last waiting or terminated container (waiting wins within one); else "Running" if a container from there on runs; else the phase. |
| `PodStatus.SummaryStep` | watch/podwatch.go:788-800 | How one more container changes that closed form, for every list of containers. |
| `PodStatus.StatusIsReason` | watch/podwatch.go:784-806 | The last container that waits or has terminated decides, waiting before terminated; if its reason is empty, "Running" if a container from there on runs, else the phase. |
| `PodStatus.StatusWithoutReason` | watch/podwatch.go:784-806 | If no container waits or has terminated: "Running" if one runs, else the phase. |
| `Candidates.IsContainersIDSChanged` | watch/podwatch.go:126-138 | False exactly when the new image ids are a prefix of the old ones. |
| `Candidates.IsPodIsTheNewOne` | watch/podwatch.go:140-142 | Always true. |
| `Candidates.CandidateList.IsPodAlreadyExist` | watch/podwatch.go:92-100 | Finds the first entry of the key (namespace, owner name, owner kind), or -1 exactly if there is none. |
| `Candidates.CandidateList.AddPod` | watch/podwatch.go:102-110 | The list afterwards, entry by entry: one more at the listed key, or a new entry with count one at the end; keys stay distinct and counts positive. |
| `Candidates.CandidateList.RemovePod` | watch/podwatch.go:112-124 | The list afterwards: one less at the key, the entry gone exactly at zero; the loop goes on after a decrement and stops after a removal without leaving the bounds. |
| `Candidates.CandidateList.CheckNotification` | watch/podwatch.go:144-159 | Notifies exactly for a running pod of a listed owner whose images are not a prefix of those remembered, and then remembers its pod. |
| `Candidates.ApplyCount` | watch/podwatch.go:102-124 | An operation changes the count of its own key only: up by one, down by one but not below zero, or not at all. |
| `Candidates.CandidateListIsCountedMultiset` | watch/podwatch.go:92-124 | Over any operations, keys stay pairwise distinct, counts at least one, and each count is the key's own additions and saturating removals replayed. |
| `Candidates.NotificationsAreNew` | watch/podwatch.go:126-159 | While an owner stays listed, no notified image list is a prefix of the one notified before it, and the remembered images are the last notified. |
| `Candidates.SameImagesNotifyOnce` | watch/podwatch.go:144-159 | If all running pods of a listed owner show the same images, at most one notification is made, and none if those are a prefix of the remembered ones. |
| `Notifications.MemoryStep` | watch/podwatch.go:102-159 | Each list operation does to what is remembered of every owner (its count and last images) what it does to that owner alone. |
| `Notifications.NotifiedExactlyWhenDue` | watch/podwatch.go:126-159 | Over any operations, listed or not, an owner's notified image lists are those of an independent replay: a running pod of a listed owner shows more images than remembered, or another one at some position. |
| `Notifications.TurnNotifiesExactly` | watch/podwatch.go:257-262 | A whole turn triggers a scan exactly for a modified event of a running pod, in a watched namespace and with a known owner, some candidate of whose namespace, owner name and kind remembers fewer images or another one at some position. |
| `Notifications.TriggeredExactlyWhenDue` | watch/podwatch.go:254-285 | Over any stream of turns the scans triggered for an owner are exactly those due in that replay. |
| `Json.TextIsReadBack` | watch/jsonformat.go:152 | A separate parser reads the text of every JSON value back as that value, at any nesting. |
| `ReportText.ListsReadBack` | watch/jsonformat.go:37-54 | For every report and each of the 18 lists: under the list's two keys the text holds exactly the list's entries in order, and the keys are missing exactly when it is empty. |
| `ReportText.KindsReadBack` | watch/jsonformat.go:43-54 | A kind's key is missing exactly when its three lists are empty. |
| `ReportText.ScalarsReadBack` | watch/jsonformat.go:43-54 | Version, vendor, installation data and first-report flag are read back under their own keys, or missing when there is none. |
| `ReportText.ReceiverReadsEverything` | watch/websocket.go:142-156 | When the listener waits and nobody informs about pods or microservices, reading the texts alone, one after the other, gives every entry ever appended to their lists, each once, in order. |
| `Report.LengthTestIsExact` | watch/jsonformat.go:32-54 | For every report value and every text of its entries, the length test recognises exactly the reports that say first report and nothing else. |
| `Report.SkippedReportsAreBare` | watch/jsonformat.go:164-171 | A report that is skipped has no entry in any of the 18 lists. |
| `JsonFormat.ObjectData.AddToJsonFormatByState` | watch/jsonformat.go:56-65 | The entry goes to the end of the list of its change; the other two lists keep theirs. |
| `JsonFormat.ObjectData.Len` | watch/jsonformat.go:67-82 | The number of entries in the three lists, zero for a nil pointer; zero exactly if there is nothing to report. |
| `JsonFormat.JsonFormat.AddToJsonFormat` | watch/jsonformat.go:84-118 | Of the 18 lists exactly one grows, by this entry at its end; a missing list object is made, and different kinds never share one. |
| `JsonFormat.JsonFormat.Trim` | watch/jsonformat.go:134-151 | Pointers of kinds without entries become nil in the copy; the shared lists and the report they stand for stay the same. |
| `JsonFormat.JsonFormat.MarshalTrimmed` | watch/jsonformat.go:152 | A trimmed record of pointers is written as the text of the report value it stands for. |
| `JsonFormat.JsonFormat.DeleteJsonData` | watch/jsonformat.go:185-228 | Empties all 18 lists through the pointers. |
| `Handler.WatchHandler.FilledCopy` | watch/jsonformat.go:121-133 | The struct copy shares the lists and carries version, vendor and installation data exactly while the aggregate flag is up. |
| `Handler.WatchHandler.PrepareDataToSend` | watch/jsonformat.go:120-162 | Although copy and live report share their lists, the text is that of the lists before they are cleared; the lists are empty afterwards and the flag falls with the first report that is not empty; on failure nothing changes. |
| `Handler.WatchHandler.ListenerTurn` | watch/websocket.go:142-153 | An undisturbed pass hands over the text of the snapshot or starts over, and lowers the first-report flag only after a hand-over. |
| `Handler.WatchHandler.SetFirstReportFlag` | watch/watchhandler.go:178-194 | Raising a lowered flag empties all six indexes and signals every registered watcher once, in order; lowering or repeating it touches no index and signals nobody. |
| `Pipeline.ListenerPassIsSteps` | watch/websocket.go:142-156 | That pass is the listener's three steps of the step system taken without interruption. |
| `Pipeline.NextConserved` | watch/jsonformat.go:84-162 | Each step of any goroutine keeps every list's delivered, in-flight and pending entries equal to all it was ever given. |
| `Pipeline.NothingLostDuplicatedOrReordered` | watch/websocket.go:142-149 | At every point of every run, each of the 18 lists read over all reports handed over, the report in flight and the pending list is the exact sequence ever appended to it. |
| `Pipeline.RunFirstReport` | watch/jsonformat.go:157-161 | The aggregate flag is up exactly until the first report is prepared and never rises again. |
| `Pipeline.FirstReportIsOneShot` | watch/websocket.go:141-153 | In every run exactly the first report handed over says first report and carries version and installation data, later ones carry none nor a vendor; a failing guard means the listener never waited yet. |
| `Pipeline.PreparedReport` | watch/jsonformat.go:120-162 | A preparation comes to nothing without a version or if marshalling fails; otherwise it takes all pending entries and hands them over, unless the report would say first report and nothing else; version, vendor and installation data go with it exactly while the aggregate flag is up. |
| `Pipeline.FirstReportSays` | watch/jsonformat.go:125-133 | In every run the first report carries the version and the vendor last learned before its preparation, the installation data, and every entry appended before it. |
| `Pipeline.GuardIsVersionKnown` | watch/jsonformat.go:179-183 | In every reachable state a handler passes the guard exactly if the version is known, and none is blocked on the channel before. |
| `Pipeline.NoStrandedDeltas` | watch/websocket.go:142-156 | Over all interleavings: no entry of a kind is pending behind a waiting listener without an unfinished inform, if and only if the kind's handlers append before they inform. |
| `Pipeline.StrandedDelta` | watch/secretwatch.go:79-80 | For every kind whose handler informs first, a reachable state with the listener waiting, the entry pending and every watcher idle. |
| `Pipeline.QuietMeansDelivered` | watch/jsonformat.go:173-183 | When the listener waits and nobody informs about pods or microservices, all their entries have been handed over, in order. |
| `PodIndex.FindSpecIsLookup` | watch/podwatch.go:428-443 | Under every visiting order the scan finds exactly the one bucket with pods of this namespace and owner spec. |
| `PodIndex.FindOwnerIsLookup` | watch/podwatch.go:538-553 | If one bucket holds the name, every visiting order finds its owner. |
| `PodIndex.FindRecordIsLookup` | watch/podwatch.go:654-685 | If one bucket holds the name, every visiting order finds its record of that name. |
| `PodIndex.RemoveScanPanics` | watch/podwatch.go:765-777 | Removal panics exactly if it empties a bucket through a match on the generated name. |
| `PodIndex.RemoveScanByBucket` | watch/podwatch.go:742-783 | Without a panic every bucket ends as if scanned alone, in any order. |
| `PodIndex.RemoveScanEachBucket` | watch/podwatch.go:742-783 | With or without a panic, every bucket is left as it was or as its own scan leaves it. |
| `PodIndex.RemovalIsComplete` | watch/podwatch.go:746-781 | Without a clash on the generated name, no record of the name is left in a bucket and all others keep their order, although the scan stops at its first removal; the bucket goes exactly if its last pod went and its owner is gone. |
| `PodIndex.RemovalIsCompleteExactly` | watch/podwatch.go:746-781 | In general, for every bucket and every name: a bucket loses exactly the first pod that carries either of the event's two names, so a pod of the generated name that comes first is lost and the event's pod stays. |
| `PodIndex.HoldersAfterAnyRemoval` | watch/podwatch.go:742-783 | The same for the whole index: which buckets hold any name after any removal. |
| `PodIndex.HoldersAfterRemoval` | watch/podwatch.go:742-783 | Without a clash, no bucket anywhere holds the removed name afterwards, and every other name is held by the same buckets. |
| `PodIndex.RemovalIsOrderFree` | watch/podwatch.go:742-783 | Whether a removal panics does not depend on the visiting order, nor does the index it leaves when it does not. |
| `PodRemoval.RemoveScanAnswer` | watch/podwatch.go:743-782 | Of any removal that cannot panic: the answer names the last visited bucket that lost a pod, with its owner, or -1 if none did; it says rightly that this bucket left if it did; otherwise what it says may come from an earlier bucket. |
| `PodRemoval.WrongServiceReported` | watch/podwatch.go:752-777 | With a bucket that leaves visited next to last, and last one that loses a pod by its generated name or has more pods, the removal of the last one is answered. |
| `PodRemoval.ReportedServiceLeftExactly` | watch/podwatch.go:752-777 | Of any removal that cannot panic: under all visiting orders the microservice answered as removed is one whose bucket left, if and only if no bucket leaves while another loses a pod by its generated name or out of several. |
| `PodRemoval.ServicesReportedExactly` | watch/podwatch.go:372-385 | Of any removal that cannot panic: under all visiting orders exactly the microservices whose buckets left are reported, if and only if no bucket leaves while any other loses a pod. |
| `PodWatch.IsNamespaceWatched` | watch/watchhandler.go:201-208 | Whether some configured namespace is this one or empty. |
| `PodWatch.HandleInv` | watch/podwatch.go:161-299 | After every pod or cron job event, also one that panics half-way: each bucket is empty or a header with its own id followed by differently named pods, no two buckets with pods share namespace and owner spec, and the next id is unused. |
| `PodHistory.AddedIndex` | watch/podwatch.go:204-249 | An added pod joins its microservice's bucket or opens one under a fresh id, or changes nothing. |
| `PodHistory.HoldersStep` | watch/podwatch.go:203-289 | What any event without a panic does to the buckets that hold any name: an added pod joins one, a deletion takes the name out of those where it is the first of the two names it looks for. |
| `PodHistory.KeptWithoutClash` | watch/podwatch.go:746-781 | Without a clash a deletion takes out exactly the deleted name, wherever it is held. |
| `PodBalance.TrackedStepExactly` | watch/podwatch.go:204-289 | The tracked names after an event are those of the replay exactly if a deletion loses the name of the deleted pod and no other. |
| `PodBalance.IndexIsASetOfNames` | watch/podwatch.go:204-289 | At every point of any stream the tracked names are the replay of accepted additions and deletions, if and only if every deletion loses the name of the deleted pod and no other. |
| `PodBalance.NamesFollowWithoutClash` | watch/podwatch.go:742-783 | Which every deletion without a clash does. |
| `PodBalance.UniqueExactly` | watch/podwatch.go:209-249 | Each name stays in one bucket, over any event without a panic, exactly as long as no pod is added whose name is tracked elsewhere. |
| `PodBalance.PodBalance` | watch/podwatch.go:237-253 | Over any stream, CREATED minus DELETED entries of a name is the change in the number of buckets holding it plus the surplus of its deletions: buckets that lost it, less the entries reported. |
| `PodBalance.ToldExactly` | watch/podwatch.go:370-386 | The entries of an event tell what it does to a name exactly if an addition finds it untracked, a deletion of the name that takes any pod loses it everywhere, and any other deletion leaves it somewhere. |
| `PodBalance.PodBalanceIsTracking` | watch/podwatch.go:370-386 | At the end of a stream of such events, CREATED minus DELETED entries of the name are one if it is tracked and zero if not. |
| `PodBalance.FreshExactly` | watch/podwatch.go:209-249 | On any stream, a name is at no point in two buckets exactly if no pod is added under it while it is tracked. |
| `PodBalance.BalanceIsTrackingExactly` | watch/podwatch.go:370-386 | At every point of any stream a name's CREATED minus DELETED entries tell whether it is tracked, if and only if the entries of every event tell what it does to the name. |
| `PodBalance.ToldWithoutClash` | watch/podwatch.go:204-253 | Without a clash that is the case exactly if no pod is added under the name while it is tracked. |
| `PodServices.ServiceStep` | watch/podwatch.go:210-218 | Over any event without a panic a spec id is reported created exactly if its bucket is opened, and its entries tell what happens to its header exactly if a deletion reports it when, and only when, its bucket leaves. |
| `PodServices.ServiceBalanceExactly` | watch/podwatch.go:756-762 | At every point of any stream the pod watcher's entries tell whether a microservice is in the index, if and only if every deletion reports it when, and only when, its bucket leaves. |
| `PodServices.AloneIsTold` | watch/podwatch.go:372-385 | Which every deletion does that takes no pod from one bucket while another leaves. |
| `PodServices.UniqueIsTold` | watch/podwatch.go:372-385 | And every deletion without a clash from an index that holds each name once. |
| `PodServices.CreatedAtMostOnce` | watch/podwatch.go:210-218 | Over any stream a spec id is reported created at most once, and never if it was issued before. |
| `PodServices.ServicesAreReportedOnce` | watch/podwatch.go:756-762 | On streams whose deletions report a microservice when, and only when, its bucket leaves: it is created at most once, deleted at most once and only then, and is in the index exactly in between. |
| `PodServices.AbandonedForever` | watch/podwatch.go:430-433 | A bucket without pods, of a cron job or abandoned, never changes nor leaves again. |
| `PodReports.BucketsDisagree` | watch/podwatch.go:410-443 | In every reachable state two buckets with pods differ in namespace, or their owners disagree: only one has a spec, the specs differ, or the objects without one differ. |
| `PodReports.AddedJoins` | watch/podwatch.go:204-253 | An added pod past the watermark joins the bucket with pods whose header has its namespace and an owner that agrees, under every order: appended there and reported once, or, if its name is there, not reported while the watermark moves. |
| `PodReports.AddedOpens` | watch/podwatch.go:208-253 | If no bucket fits, one opens under the next id with a header and the pod, and the microservice and the pod are reported, with the pod's own data, owner and status. |
| `PodReports.AddedTooOld` | watch/podwatch.go:205-207 | A pod created before the watermark changes nothing. |
| `PodReports.ModifiedReport` | watch/podwatch.go:266-283 | A modified pod leaves the index; a terminating one moves the watermark and is not reported; any other is reported in one UPDATED entry if and only if its name is tracked, with its present data and status and the owner of a tracked record of that name. |
| `PodReports.UpdatesAreReported` | watch/podwatch.go:257-283 | Over any stream a name has as many UPDATED entries as there are such events, and no microservice has any. |
| `PodReports.DeletedReport` | watch/podwatch.go:370-387 | A deletion reports nothing exactly if no bucket has a pod of its name or generated name; otherwise the pod as terminating with its deletion time and the owner in the header of one that has, followed by at most that bucket's microservice. |
| `PodReports.OtherEventsAreIgnored` | watch/podwatch.go:183-290 | Pods of unwatched namespaces, bookmarks and other objects change nothing. |
| `PodReports.SessionsEnd` | watch/podwatch.go:166-202 | The end of a session and a failed owner lookup move the watermark to the present and do nothing else. |
| `PodCollisions.SameNameInTwoNamespaces` | watch/podwatch.go:752-764 | For any two pods of one name in two watched namespaces, a run after which the second is forgotten but still counted as created. |
| `PodCollisions.WrongServiceRun` | watch/podwatch.go:752-764 | With a second pod beside the second one: after the first is deleted and its owner is gone, its microservice has left without an entry, and the other namespace's is reported deleted and still there. |
| `PodCollisions.PanicIsReachable` | watch/podwatch.go:765-777 | For any pod and any second one whose generated name is the first one's name: add the first, lose its owner, delete the second, and the removal panics. |
| `PodCollisions.WrongPodLost` | watch/podwatch.go:765-777 | For any two such pods of one microservice: after adding both and deleting the second, the second is still tracked and the first is lost, without an entry about it. |
| `PodCollisions.TerminationHidesEarlierPods` | watch/podwatch.go:266-268 | After a terminating pod's event, an untracked pod added next is reported exactly if it was created no earlier than that event. |
| `PodSessions.TerminationHidesForGood` | watch/podwatch.go:266-268 | After it, a pod created earlier is never reported, over any rest of the session and all later ones. |
| `PodSessions.ReportedAtMostOnce` | watch/podwatch.go:82-90 | Over any number of sessions that each deliver a pod as added at most once, with an advancing clock, the pod is reported created at most once. |
| `PodSessions.NotReportedAgain` | watch/podwatch.go:165-207 | From any state in which the pod was reported, and delivered or passed by the watermark, it is never reported again. |
| `System.RunSound` | watch/podwatch.go:249-253 | In every interleaving of listener, pod watcher and others: the index is that of the events handled, and exactly what they report is appended or about to be. |
| `System.ReportsCount` | watch/jsonformat.go:84-162 | With the pod watcher between events, the reports sent, in flight and pending contain each pod name, and each spec id that only the pod watcher uses, exactly as often as the events handled report it. |
| `System.ReportsBalance` | watch/podwatch.go:370-386 | So the CREATED minus DELETED entries of a name, sent and on their way, are the number of buckets holding it plus the surplus of its deletions; and one or zero as it is tracked or not, if the entries of every event told. |
| `System.ReceiverCounts` | watch/websocket.go:142-156 | If moreover the listener waits and nobody is informing about the kind, the reports already handed over contain them that often. |
| `System.ReceiverKnowsTrackedPods` | watch/websocket.go:142-156 | In every interleaving, with the listener waiting and the pod watcher between events, the reports handed over tell in how many buckets a name is held, up to the surplus; and whether it is tracked, if the entries of every event told. |
| `System.ReceiverKnowsServices` | watch/websocket.go:142-156 | The same for a spec id that only the pod watcher uses: received as created at most once; and the reports handed over tell whether its microservice is in the index, if every deletion reported it when, and only when, its bucket left. |
| `System.ReceiverKnowsUpdates` | watch/websocket.go:142-156 | Likewise the reports handed over contain exactly one UPDATED entry of a name for each modified event of a pod tracked under it that was not terminating. |
| `CandidateCounts.AgreesExactly` | watch/podwatch.go:254-285 | A turn keeps an owner's count equal to the number of its tracked pods newer than the collector, exactly if a deletion loses as many of these as it discounts. |
| `CandidateCounts.CountsNewerPodsExactly` | watch/podwatch.go:92-124 | At every point of any stream of turns count and number are equal, if and only if every deletion is of that kind. |
| `CandidateCounts.NewerPodForgotten` | watch/podwatch.go:284-285 | For any older and any newer pod of one owner: after both are added and the older is deleted, the newer is still tracked and the owner is no candidate. |
| `CandidateCounts.ForgottenUntilAdded` | watch/podwatch.go:144-159 | Over any stream that adds no newer pod of an owner that is no candidate, no images of its pods are notified. |
| `CronJobs.CronJobInv` | watch/cronjobwatch.go:70-107 | Every cron job event keeps the invariant of the pod index. |
| `CronJobs.CronReport` | watch/cronjobwatch.go:61-114 | A watched cron job is reported in one entry with its template and itself as owner when modified, deleted, or added and not too old; only the addition touches the index: the next id, with an empty bucket. |
| `CronJobs.CronJobCreatedAtMostOnce` | watch/cronjobwatch.go:34-75 | Over any number of sessions that each deliver a cron job as added at most once, it is reported created at most once. |
| `CronJobs.CronJobNumbering` | watch/cronjobwatch.go:70-107 | Over a session, an UPDATED entry carries the id of the cron job's CREATED entry in it, or 0 if it has none; a DELETED entry always carries 0. |
| `CronJobs.KnownIdsAreNew` | watch/cronjobwatch.go:70-86 | The ids under which a session's reports know cron jobs were all issued in it. |
| `CronJobs.DeletionNamesAnotherService` | watch/cronjobwatch.go:97-107 | If any id was issued before the session, no DELETED entry names the microservice its cron job was created as. |
| `ResourceMap.ResourceMap.GetIDs` | watch/watchhandler.go:44-52 | All keys, each exactly once, in an order the caller cannot know. |
| `Secrets.SecretWatcher.FindSecret` | watch/secretwatch.go:102-122 | The search ends at the first secret, in the order the ids happened to come, that has the namespace and carries the name as its name or generated name. |
| `Secrets.SecretWatcher.UpdateSecret` | watch/secretwatch.go:101-123 | The object of that secret is overwritten in place, for all that point to it; every other object keeps its content. |
| `Secrets.SecretWatcher.UpdateReachesReport` | watch/secretwatch.go:75-80 | A secret added and then updated: the object its CREATED entry points to shows the updated content. |
| `Secrets.SecretWatcher.RemoveSecret` | watch/secretwatch.go:126-151 | The first secret hit leaves the index; its stored name is returned. |
| `Secrets.SecretWatcher.SecretEventHandler` | watch/secretwatch.go:63-98 | What an event does to the index, that its report entry follows the inform, and that a CREATED entry shares its object with the index. What is reported is in `SecretIndex.SecretReport`. |
| `SecretIndex.FirstHitIsLookup` | watch/secretwatch.go:102-121 | Without a clash on generated names, every order finds the secret of this namespace and name exactly if it is tracked. |
| `SecretIndex.EventRefinesExactly` | watch/secretwatch.go:70-91 | An event keeps the index a one-secret-per-bucket copy of the last-write-wins map under every order, if and only if it adds no tracked key and hits no other secret's generated name. |
| `SecretIndex.ClashBreaks` | watch/secretwatch.go:118-121 | For every clash, a visiting order in which another secret is overwritten or removed. |
| `SecretIndex.SecretIndexIsAMap` | watch/secretwatch.go:63-151 | Over every stream of such events and all visiting orders, the index is the replayed map. |
| `SecretIndex.SecretReport` | watch/secretwatch.go:63-98 | Which events are reported: one SECRETS entry under the change of the event, showing the event's secret without its data and two annotations and otherwise unchanged, tracked or not. |
| `SecretIndex.EntriesReplayTheMap` | watch/secretwatch.go:70-91 | Over every stream, safe or not, and every order: replaying the entries alone (created puts, updated overwrites what is there, deleted drops) gives the last-write-wins map. |
| `SecretIndex.ReceiverHasTheIndex` | watch/secretwatch.go:63-151 | Over every stream of safe events the map so replayed from the entries is what the index holds. |
| `SecretIndex.SecretDataStaysInTheCluster` | watch/secretwatch.go:152-158 | Over any stream, no secret that is stored or reported carries its data or the annotations that repeat it. |
| `Handler.WatchHandler.IsPodSpecAlreadyExist` | watch/podwatch.go:428-443 | Under every order: the id and length of a bucket with pods whose header has this namespace and an owner that agrees (equal specs, or equal objects without one, or neither fetched), or, exactly if there is none, a fresh id and zero. |
| `Handler.WatchHandler.GetAncestorFromLocalPodsList` | watch/podwatch.go:538-553 | The owner in the first visited bucket that holds the pod; no type assertion can fail. |
| `Handler.WatchHandler.UpdatePod` | watch/podwatch.go:654-685 | The entry for a modified pod, which exists exactly if some bucket lists its name: present data and status of the pod, owner of the last visited record of its name. |
| `Handler.WatchHandler.RemoveElement` | watch/podwatch.go:752-777 | What both matching branches do to an element of either name, including the panic on an emptied list. |
| `Handler.WatchHandler.RemoveFromBucket` | watch/podwatch.go:747-779 | The element loop does what one visit of the specification does. |
| `Handler.WatchHandler.RemovePod` | watch/podwatch.go:742-783 | Index and answers of the whole scan, for every visiting order. |
| `Handler.WatchHandler.FindBucket` | watch/podwatch.go:208-231 | Either the bucket found and whether the name is new to it, or a new bucket with a header, a fresh id and one CREATED microservice entry. |
| `Handler.WatchHandler.HandleAddedPod` | watch/podwatch.go:204-253 | Index, watermark, entries and wake-up for an added pod. |
| `Handler.WatchHandler.HandleModifiedPod` | watch/podwatch.go:266-283 | Watermark, entry and wake-up for a modified pod; the index is unchanged. What the entry says is in `PodReports.ModifiedReport`. |
| `Handler.WatchHandler.DeletePod` | watch/podwatch.go:370-387 | Index and entries for a deleted pod; an untracked pod is not reported. |
| `Handler.WatchHandler.CandidateTurn` | watch/podwatch.go:254-285 | What an event does to the scan candidates, and when a scan of new images is triggered. |
| `Handler.WatchHandler.HandlePodEvent` | watch/podwatch.go:161-299 | A whole turn of the loop: index, watermark, report, candidates, wake-up, notification, panic and end of session, for every event and every visiting order; a sound state stays sound. |
| `Handler.WatchHandler.HandleCronJobEvent` | watch/cronjobwatch.go:45-120 | A whole turn of the cron job loop on the same index, ids and report; a sound state stays sound. |

## Left out

- Kubernetes API calls, owner lookup through the API, the test whether an owner is gone, the HTTP notifier: their
  answers are inputs.
- Websocket dialing, ping and pong, process exit, retries: a report counts as delivered when it is handed to the
  socket's channel.
- Panic recovery and restart of goroutines: a stream of pod events ends at a panic, after which the pod watcher
  starts over with no watermark, on the index that `PodWatch.HandleInv` describes. A reset starts a new stream from
  an empty index; what the watchers do with its signal is the end of a session.
- The UPDATED microservice entry of `updatePod`: it needs a JSON decode into a value that is not a pointer, which
  always fails; for the same reason the tracked records keep their old data.
- `IsPodExist`: it walks the list of ids instead of the bucket and is not part of this model.
- Node, service and namespace indexes: like the secret index, with less in them. Their handlers appear in the
  pipeline as handlers that inform first.
- Scalars that only travel through: node metadata, labels, container details, the contents of cloud metadata.
- The fields of the JSON objects that stand for single entries, and the escaping of characters in strings: the JSON
  value of an entry is an arbitrary function of the entry.
- Mutexes of the id database and of the resource map: their methods run as atomic steps.
- System.ReceiverKnowsServices: says nothing about spec ids under which cron job watchers report, among them 0 once
  a cron job is deleted.
- PodServices.ServicesAreReportedOnce: counts the entries of the pod watcher only, because the DELETED entries of
  cron jobs carry spec id 0 whatever their microservice.
- Handler.WatchHandler.ListenerTurn: one pass without interruption; interleavings with other goroutines are in the
  pipeline's step system.
- Fixed width of Go's int and wrap-around of the id counter.
