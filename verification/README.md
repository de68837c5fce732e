# csar-notify: a verified model of notification delivery

csar-notify takes notifications over HTTP, buffers them, publishes them to a broker queue,
consumes them in batches and sends each to its recipients' channels: the site inbox with live
updates over server-sent events, and web push. This project models that path in Dafny and
proves what it keeps.

## What is modelled

Code that works on state in place is modelled as methods over classes (`NotificationRecord`,
`Queue`, `Hub`, `Postgres`, `PushStore`, `AuthHeaderCache`, `Verdict`) and loops, each proved
against a specification function. What happens concurrently is modelled as step machines whose
runs are all sequences of enabled steps: the buffer with its workers, the broker with its
consumer sessions, the hub, the header cache, and, putting the path together, the service.

- `Strings`, `Wrappers`: trimming, prefixes, the order of texts, an option type.
- `GoErrors`: error trees built by `errors.Join` and `%w`, and the walk over their leaves.
- `Domain`, `Preferences`: normalisation, validation, topic filters, preferences, channels.
- `WebPush`, `Dispatch`, `Acknowledge`: one dispatch as a method, the leaves of its error, and
  the decision to acknowledge.
- `VapidCache`: the cache of signed web push headers under interleaved callers.
- `Targets`, `Routing`, `Hub`: site targets, Redis channel prefixes, connected clients.
- `Inbox`, `ExactlyOnce`: the tables, and what logs of repeated statements leave in them.
- `Buffer`, `Ingest`, `Consumer`, `Broker`: the queue from submission to settlement.
- `Job`, `Refinement`: a dispatch in steps, and that it is the dispatch method.
- `Rows`, `Service`: why a row is in an inbox, and the whole service as one machine.
- `Progress`: what that machine can still do from wherever it is.

The main results about the service as a whole are in `Service`: what was acknowledged is in the
inbox of everyone it was due to (`AcknowledgedIsInTheInbox`) and was sent on every channel due
(`AcknowledgedWasSent`), what was counted as published is never lost once the queue exists
(`PublishedIsNeverLost`), nobody finds what was not accepted for them (`RowsWereAccepted`), and
the inbox is that of a run without repeated statements (`InboxIsExactlyOnce`). They hold for every
interleaving of submitters, publishing workers, duplicated publishes, deliveries, lost
connections, crashes of the process, failing storage and providers, and users who read and
dismiss. What the machine can still do from wherever it is, is in `Progress`.

Five things that one might expect are false of the code. For each there is an input that shows
it and the exact condition under which the code does meet it.

- Not every message can be settled. A notification whose `site_target` names a target that is not
  configured passes ingest, and its site send then fails on every dispatch, so that under any limit
  but one redelivery the message goes back and forth for good (`Progress.UnknownTargetStays`). An
  unsettled copy can still be settled if and only if the limit is one, or it cannot be decoded, or
  neither storage nor a provider refuses it on every attempt (`Progress.CanBeSettledIff`);
  `Progress.CanBeAcknowledgedIff` and `Progress.CanBeDeadLetteredIff` say which way.
- A message that keeps failing need not end up in the dead-letter queue, although README.md of
  the repository says failed deliveries can be routed there: going back to the queue adds no
  `x-death` header, so the count the consumer sees stays at 1
  (`Broker.FailureNeverDeadLetters`). A message that can be decoded can be dead-lettered if and
  only if the limit is one redelivery (`Broker.DeadLettersIff`), and then without even one failed
  dispatch (`Broker.DeadLettersUntriedIff`).
- One publish is not one broadcast when a configured prefix is the beginning of another, as in
  config.yaml (`Routing.NestedPrefixesMatchTwice`). Every publish of the site provider gives one
  message if and only if no prefix is the beginning of a different one (`Routing.OneMessageIff`).
- A notification counted as published need not be in the queue: only the consumer declares the
  queue, and publishing does not ask for the return of what cannot be routed, so what a worker
  publishes before is confirmed and dropped (`Service.PublishedIntoNothing`). A confirmed
  publish puts the notification into the queue if and only if the queue has been declared by
  then (`Service.PublishedIffDeclared`).
- One copy of a message need not leave at most one row in an inbox: a notification without an id
  gets a new one in every dispatch (`Progress.TwoRows`). It does if and only if the notification
  has an id, or the limit is one redelivery, or nobody's row can be written
  (`Progress.OneRowIff`).

More properties hold only under a condition, and the condition is proved exact: routing back from
a channel name (`Routing.RoundTripIff`), independence from Go's map order
(`Targets.OneResultIff`), agreement of the shown preferences with delivery
(`Preferences.ShownIsDelivered`), normalised topic filters
(`Preferences.NormalizeTopicsKeepsMeaning`), and what a cache key of the web push headers
determines (`VapidCache.KeyDeterminesIff`; in the cache of one client it always suffices,
`VapidCache.ClientGetsItsHeader`).

## Assumptions

- Identifiers are in the canonical text form of section 4 of RFC 9562; two texts of one UUID are
  two identifiers.
- For the service as a whole, stored preferences, subscribers, targets and providers stay fixed
  during a run, a notification id chosen by a client always comes with the same content, and ids that the
  service generates are new and chosen by no client. `Progress` also takes it that there is
  always another such id.
- PostgreSQL stores no NUL character in TEXT or JSONB, so a notification with one is refused on
  every attempt. A provider other than the site refuses the same calls on every attempt
  (`Job.Env.refuses`: no chat id, a payload too large, and the like); any other call can succeed.
- Only the web push provider returns `SendError`s; errors of storage and of the site provider
  contain none.
- A message body decodes to the notification that was encoded. Bodies put into the queue by
  others decode to nothing.
- The broker adds `x-death` only when it dead-letters, and a message going back to the queue is
  marked as redelivered.
- Redis prefixes contain no pattern characters.
- A queue once declared stays, and the broker confirms a message only after it stored or dropped it.

## Model

| member | source | states |
|---|---|---|
| Service.AcknowledgedIsInTheInbox | internal/consumer/runner.go:112-149 | in every reachable state, each acknowledged copy held an accepted notification that is stored with its content (under the client's id if it had one, else under an id no client chose) and every recipient due it on the site has the inbox row; an acknowledged copy of a notification without an id shares its stored id with no other acknowledged copy |
| Service.AcknowledgedRowShows | internal/store/postgres.go:118-135 | the stored row of an acknowledged copy holds, column by column, the fields of the notification in the copy |
| Service.AcknowledgedLineShows | internal/store/postgres.go:256-264 | every recipient due it has a line in the inbox that shows those fields, until it is dismissed |
| Service.AcknowledgedWasSent | internal/dispatch/dispatcher.go:59-83 | in every reachable state, the dispatch acknowledged for a copy had made exactly the sends due, in order, on every channel, and each succeeded or failed by permanent web push refusals alone |
| Service.PublishedIsNeverLost | internal/pipeline/buffer.go:88-124 | in every reachable state, a notification has at least as many broker copies as it was counted as published while the queue existed, by this process and crashed ones, and each copy is ready or unsettled with the notification in it, acknowledged and delivered, or, only with a limit of one redelivery, dead-lettered with the notification in it after a redelivery |
| Service.PublishedIffDeclared | internal/rmq/publisher.go:36-61 | from every reachable state, a confirmed publish is counted as one publication and, iff the queue has been declared by then, adds a ready copy that carries the notification; otherwise the broker still has no copy of anything |
| Service.PublishedIffRoutable | internal/pipeline/buffer.go:88-124 | in every reachable state, the copies of a notification are exactly those its publish attempts made, in this process and crashed ones, and each counted publication made one or not as its confirming attempt found the queue |
| Service.PublishedIntoNothing | cmd/csar-notify/main.go:121-164 | for every admissible notification there is a run that accepts it and counts it as published while the broker has no copy of anything, as the queue is not declared yet |
| Service.StepCounted | internal/pipeline/buffer.go:88-124 | every step of the service keeps the number of copies of each notification equal to the copies its workers account for |
| Service.RowsWereAccepted | internal/dispatch/dispatcher.go:42-84 | in every reachable state, each inbox row has an accepted notification, carried by a copy in the broker, with the row's content that is addressed to the recipient and resolves, by the recipient's preferences and its own metadata, to a target of the site |
| Service.InboxIsExactlyOnce | internal/store/postgres.go:113-176 | in every reachable state the tables are those of the statements so far without the repeated ones, and no delivery lacks its notification |
| Service.InboxIsExplained | internal/store/postgres.go:296-325 | in every reachable state each row was created by its first insert, and read and dismissed exactly by the user actions after it, at the time of the first reading |
| Service.CopiesAreConserved | internal/rmq/publisher.go:36-61 | in every reachable state, each copy is in exactly one place, and while it is ready, unsettled or dead-lettered its body is what was published under its number: garbage or an accepted notification |
| Service.SettlementReachesBroker | internal/consumer/runner.go:108-149 | in every reachable state with a live connection, the end of a dispatch acknowledges its copy iff there was no error or one whose leaves are all permanent web push failures, at least one, and else returns it marked; on a lost connection the broker's state stays as it is |
| Service.StepKeepsInv | internal/consumer/runner.go:76-145 | every step of the service keeps the joint invariant of buffer, broker, dispatch, tables and acknowledgements |
| Progress.CanBeAcknowledgedIff | internal/consumer/runner.go:112-149 | from every reachable state an unsettled copy can still be acknowledged iff it decodes and neither storage nor a provider refuses its notification on every attempt; under a limit of one redelivery, of copies that wait unmarked |
| Progress.CanBeDeadLetteredIff | internal/consumer/runner.go:157-203 | from every reachable state an unsettled copy can still be dead-lettered iff it does not decode or the limit is one redelivery |
| Progress.CanBeSettledIff | internal/consumer/runner.go:94-140 | from every reachable state an unsettled copy can still be settled in one way or the other iff the limit is one redelivery, or it does not decode, or nothing refuses its notification on every attempt |
| Progress.RefusedForGood | internal/consumer/runner.go:132-140 | under any other limit a copy that decodes but is refused on every attempt is unsettled in every state that follows |
| Progress.UnknownTargetStays | internal/provider/site/site.go:92-117 | every admissible notification that is due on the site and asks for a target not configured can be published, and is then never settled under any limit but one |
| Progress.ToFinished | internal/dispatch/dispatcher.go:42-84 | a dispatch of a notification that storage accepts can be brought to its end with the row of everyone whose site send is not refused, and without an error if no send is refused |
| Progress.TwoRows | internal/store/postgres.go:118-137 | for every admissible notification without an id and every recipient whose row can be written, under any limit but one, a run with a single copy leaves two rows in the recipient's inbox |
| Progress.OneRowIff | internal/store/postgres.go:118-159 | one copy leaves at most one row in each inbox in every run iff its notification has an id, or the limit is one redelivery, or nobody's row can be written |
| Refinement.InterleavedDispatch | internal/dispatch/dispatcher.go:42-84 | a dispatch interleaved with any other changes to the tables ends with the error of the uninterrupted dispatch and has made its sends, in its order |
| Refinement.DispatchFinishes | internal/dispatch/dispatcher.go:42-84 | from wherever a dispatch stands, the world's answers take it to its end |
| Job.StepKeepsJob | internal/provider/site/site.go:52-74 | every step of a dispatch keeps the tables a replay of their log, and keeps each due site recipient served, still to be served, or ruled out by an error that forbids acknowledgement |
| Job.DoKeepsDatabase | internal/store/postgres.go:113-176 | a statement that fits keeps one content per id and deliveries after their notification, and removes no row |
| Job.JobStays | internal/store/postgres.go:296-325 | whatever users and others do to the tables spoils no dispatch underway |
| Rows.StepKeepsRows | internal/provider/site/site.go:52-74 | a step of a dispatch writes only rows that an accepted notification justifies, and takes none away |
| Rows.DoKeepsContents | internal/store/postgres.go:118-137 | a statement that fits removes no stored notification and changes no content |
| Rows.EndedEarly | internal/dispatch/dispatcher.go:43-58 | a dispatch in steps that ends before its sends is never acknowledged |
| Refinement.StepKeepsSent | internal/dispatch/dispatcher.go:59-83 | every step keeps: while the error allows an acknowledgement, no answer so far forbids it, and the sends made and those ahead are exactly those due |
| Refinement.DueCallsMeaning | internal/dispatch/dispatcher.go:60-135 | under the tables' unique keys the sends due are each recipient's resolved channels with a provider, each once |
| Broker.EveryCopyInOnePlace | internal/rmq/consumer.go:90-122 | in every run each published copy is in exactly one of ready, unsettled, acknowledged and dead-lettered |
| Broker.LimitsHold | internal/rmq/consumer.go:43-47 | in every run no more deliveries are unsettled than the prefetch limit allows, and no batch is longer than the batch size |
| Broker.CompleteBatchesAreSettled | internal/consumer/runner.go:94-140 | in every run no delivery is settled twice, and once the session collects again every delivery of a complete batch has been settled unless a crash cut it off |
| Broker.OnlyLimitOneDeadLetters | internal/consumer/runner.go:157-203 | in every run the death count is 0 or 1, and with any limit but 1 a delivery is poison, and a copy dead-lettered, only if it cannot be decoded |
| Broker.DeadLettersIff | internal/consumer/runner.go:157-203 | some run dead-letters a copy of a given notification iff the limit is one redelivery |
| Broker.DeadLettersUntriedIff | internal/consumer/runner.go:157-203 | some run dead-letters a copy that was never dispatched iff the limit is one redelivery |
| Broker.DispatchedAtMostOnce | internal/consumer/runner.go:157-164 | with a limit of one redelivery no copy is dispatched twice in any run |
| Broker.FailureNeverDeadLetters | internal/consumer/runner.go:182-203 | with any limit but 1 there is, for every number of times, a run in which one message fails that often and is back in the queue, none dead-lettered |
| Broker.StepKeepsInv | internal/consumer/runner.go:55-145 | every step keeps the four places disjoint, consumer and broker in agreement, and tags settled at most once |
| Consumer.CollectBatch | internal/rmq/consumer.go:75-123 | the batch is what arrived, in order, at most the limit; without error it is non-empty and full, unwaited for or timed out; an error is cancellation or a closed channel |
| Consumer.DecodeBatch | internal/consumer/runner.go:151-180 | good and poison are the selections of the batch, and each notification is the decoding of its good delivery |
| Consumer.SelectMembers | internal/consumer/runner.go:151-180 | a delivery is selected iff it is in the batch and is poison, or is not, as asked |
| Consumer.SelectSplits | internal/consumer/runner.go:151-180 | good and poison together have the batch's length |
| Consumer.SelectKeepsOrder | internal/consumer/runner.go:151-180 | selected deliveries keep the order of the batch |
| Consumer.RunBatch | internal/consumer/runner.go:94-140 | the loop makes exactly the attempts that `AttemptsMeaning` spells out |
| Consumer.AttemptsMeaning | internal/consumer/runner.go:94-149 | poison first, each to the dead-letter queue, then each good delivery in order: acknowledged iff its own dispatch returned no error or only permanent web push failures, else put back |
| Consumer.SettlementIff | internal/consumer/runner.go:112-149 | an error leads to an acknowledgement iff it is nil or has leaves and all of them are permanent `SendError`s of web push, and never to the dead-letter queue |
| Consumer.AcknowledgedIff | internal/consumer/runner.go:108-149 | with web push behind its calls, a dispatch is acknowledged iff it reached its sends and everything at every recipient, channel and subscription was served, gone or refused for good; else it is put back |
| Consumer.PoisonIff | internal/consumer/runner.go:157-203 | a delivery is poison iff it does not decode, or a positive limit is at most the count of its first `x-death` entry, or the limit is one and it comes back without such a header |
| Consumer.EachSettledOnce | internal/consumer/runner.go:94-140 | each delivery of a batch gets exactly one attempt, poison to the dead-letter queue, any other by the error of its own dispatch, and nothing else gets one |
| GoErrors.LeavesOfJoin | internal/provider/errors.go:70-98 | the leaves of a join are those of its parts, in order |
| GoErrors.LeavesOfJoinAll | internal/provider/errors.go:70-98 | accumulating errors one by one loses and adds no leaf |
| GoErrors.AsAtLeaf | internal/provider/errors.go:43-60 | the search for a `SendError` from a leaf finds one iff the leaf is one |
| GoErrors.WalkLeafErrors | internal/provider/errors.go:70-98 | the recursive walk visits exactly the leaves, each once and in order, and the flags stay the verdict on what was visited |
| GoErrors.Verdict.Visit | internal/provider/errors.go:50-57 | one visit extends the list of visited errors by one, and the flags stay the verdict on that list |
| GoErrors.IsPermanentChannelOnly | internal/provider/errors.go:43-60 | true iff there is a leaf and every leaf is a permanent `SendError` of the channel |
| Acknowledge.DispatchLeaves | internal/dispatch/dispatcher.go:59-83 | the leaves of a dispatch's error are those of every failed preference read and send, in order |
| Acknowledge.WebPushLeavesInDispatch | internal/provider/webpush/webpush.go:92-137 | a web push send contributes its failed subscriptions, one leaf each, in order |
| Acknowledge.AckAfterErrorIff | internal/consumer/runner.go:147-149 | `shouldAckAfterDispatchError` accepts a dispatch's error iff something failed, all preferences loaded and every send's failures are permanent web push ones |
| Acknowledge.AckDownToSubscriptions | internal/provider/webpush/webpush.go:92-159 | with web push behind its calls, it accepts the error iff some subscription was refused for good and nothing else went wrong at any recipient, channel or subscription |
| Acknowledge.CallsInOrder | internal/dispatch/dispatcher.go:59-83 | a dispatch serves its recipients one after the other, in their order |
| Acknowledge.RecipientsReached | internal/dispatch/dispatcher.go:86-95 | a dispatch reaches each trimmed recipient the notification names, or, if it names only blanks or none, the topic's subscribers, each once; it stops at the listing iff it needs it and it fails |
| Acknowledge.StoppedIsNotAcknowledged | internal/dispatch/dispatcher.go:43-58 | a dispatch that stops before its sends is never acknowledged |
| Acknowledge.AcknowledgedMeansDelivered | internal/consumer/runner.go:108-140 | if acknowledged, every recipient's preferences loaded and every send succeeded but for permanent web push refusals |
| Acknowledge.ExactAttempts | internal/dispatch/dispatcher.go:60-135 | the sends are exactly the due (recipient, channel) pairs, each once, whatever failed elsewhere |
| Dispatch.Dispatch | internal/dispatch/dispatcher.go:42-84 | error and sends in order are those of the specification, and the record is normalised and has the id it was stored under, however the dispatch ends |
| Dispatch.SendAll | internal/dispatch/dispatcher.go:59-83 | the loop over recipients accumulates all failures and sends, in order |
| Dispatch.SendTo | internal/dispatch/dispatcher.go:60-82 | the turn for one recipient adds its sends and its failures to what was there |
| WebPush.Send | internal/provider/webpush/webpush.go:54-138 | every subscription contributes its outcome to the error, and exactly the expired ones that could be deleted are gone from the table |
| WebPush.SendOne | internal/provider/webpush/webpush.go:93-136 | one turn joins the subscription's outcome and removes it if it expired |
| WebPush.PushLeaves | internal/provider/webpush/webpush.go:92-137 | the leaves of a send's error are its failed subscriptions, in order |
| WebPush.OutcomeTable | internal/provider/webpush/webpush.go:93-159 | each answer of a push service, by status and reason, is a success, a temporary failure or a permanent one |
| WebPush.PushPermanentOnly | internal/provider/webpush/webpush.go:118-159 | a send's error counts as permanent iff something failed and whatever failed was refused for good |
| WebPush.ListedIffSubscribedLast | internal/store/postgres.go:435-481 | after any sequence of subscribing and unsubscribing by anybody, a subject has exactly the endpoints whose own last change was a subscription, with the keys of that one |
| WebPush.PushStore.ListForSubject | internal/store/postgres.go:461-481 | exactly the subject's endpoints, each once, in some order |
| VapidCache.AuthHeaderCache.AuthorizationHeader | internal/provider/webpush/auth.go:73-104 | with one caller at a time: a fresh cached header, else a newly signed one that is stored, else an error and no change |
| VapidCache.AloneIsTheMachine | internal/provider/webpush/auth.go:73-104 | the interleaved steps of one thread, taken together, are the one-caller operation |
| VapidCache.ReturnedHeader | internal/provider/webpush/auth.go:73-129 | in every interleaving a returned header was signed under the caller's key, expires more than the refresh skew after the time the caller read and at most twelve hours after its return, so within section 2 of RFC 8292 |
| VapidCache.SignedIsReused | internal/provider/webpush/auth.go:81-101 | a signed and stored header expires twelve hours after the time its caller read, and every caller with its key gets it who reads a time more than fifteen minutes before that, and no later one |
| VapidCache.OnlyStoresChange | internal/provider/webpush/auth.go:95-101 | no step but a store under its key touches a cached header |
| VapidCache.AloneReuses | internal/provider/webpush/auth.go:73-104 | one caller after the other: the second gets the first one's header back until fifteen minutes before it expires, and then a new one or an error |
| VapidCache.ClientGetsItsHeader | internal/provider/webpush/auth.go:44-104 | in the cache of one client, in every interleaving, a returned header was signed for exactly the caller's request |
| VapidCache.ReturnedHeaderIsTheCallers | internal/provider/webpush/auth.go:73-104 | the same for any requests without newlines in audience and subscriber and with one private key per public key |
| VapidCache.CacheKeyInjective | internal/provider/webpush/auth.go:79 | such requests share a cache key only if they are alike |
| VapidCache.KeyIsAudience | internal/provider/webpush/auth.go:79 | requests of one client share a key iff they have one audience |
| VapidCache.KeyDeterminesIff | internal/provider/webpush/auth.go:79 | a request's key determines its audience, subscriber and public key iff none of them contains a newline |
| Targets.EffectiveTargets | internal/config/config.go:263-309 | the loops compute the specified resolution for the iteration order taken |
| Targets.FillPrefixes | internal/config/config.go:297-306 | every missing prefix is derived, the others stay |
| Targets.AcceptedMeaning | internal/config/config.go:263-309 | refusal, names, default and the origin of each prefix, without mention of an order |
| Targets.PrefixOfTarget | internal/config/config.go:297-306 | a target keeps its configured prefix, trimmed; without one a sole target gets the base and one of several the base, its name and a colon |
| Targets.NoTargets | internal/config/config.go:276-283 | without targets there is one, with the base as prefix, under the default's name or `default` |
| Targets.RefusedIff | internal/config/config.go:268-295 | a configuration is refused iff a name is blank, or several targets have no default, or the default names none of them |
| Targets.OneResultIff | internal/config/config.go:263-309 | all iteration orders agree iff the configuration is refused or names that trim alike have one prefix |
| Targets.DistinctNamesNeverClash | internal/config/config.go:268-275 | names that stay distinct when trimmed meet that condition |
| Targets.ResolutionIsUsable | internal/config/config.go:284-308 | the default is a target, names are non-empty and trimmed, prefixes non-empty for a non-empty base |
| Targets.ResolutionIsFixpoint | cmd/csar-notify/main.go:141-150 | resolving a resolution again, in any order, gives the same targets and default for a trimmed base |
| Targets.ResolveTarget | internal/provider/site/site.go:92-117 | metadata before preference before default, an error iff the preference cannot be decoded or the target found is not configured |
| Routing.ResolveChannel | internal/sse/hub.go:185-198 | in any iteration order a longest matching prefix, or none when only empty ones match |
| Routing.RouteIsUnique | internal/sse/hub.go:185-198 | with distinct prefixes every order gives the same route |
| Routing.RoundTripIff | internal/sse/hub.go:185-198 | publishing for (target, recipient) routes back to it for all targets and canonical recipients iff the prefixes are well separated |
| Routing.ColonsSeparate | internal/config/config.go:297-306 | distinct prefixes that end in ':' are well separated |
| Routing.DerivedPrefixesSeparate | internal/config/config.go:297-306 | two or more targets with derived prefixes are well separated for every base and order |
| Routing.ClientKeyInjective | internal/sse/hub.go:142-144 | different (target, subject) pairs have different client keys |
| Routing.OneMessageIff | internal/sse/hub.go:56-82 | every publish of the site provider matches exactly one pattern iff no configured prefix is the beginning of a different one |
| Routing.NestedPrefixesMatchTwice | config.yaml:39-43 | the reference configuration's inner target gets each message twice |
| Hub.Hub.Register | internal/sse/hub.go:146-156 | the channel joins its key's set and the gauge counts it |
| Hub.Hub.Unregister | internal/sse/hub.go:158-171 | the channel leaves, an empty set goes with it, the channel is closed and the gauge follows |
| Hub.Hub.Broadcast | internal/sse/hub.go:173-183 | every registered channel of the key with fewer than 16 payloads waiting has the payload at the end of its queue, each full one counts one more dropped, and nothing else changes |
| Hub.BroadcastDelivers | internal/sse/hub.go:173-183 | in every reachable state a broadcast is queued for exactly the open channels of its key that have room, and missed by the full ones |
| Hub.NeverFullMissesNothing | internal/sse/hub.go:112-183 | in every run a client for whom 16 payloads never waited at once has received, or still has waiting, in order, exactly what was broadcast to its key while it was connected |
| Hub.PayloadsToMeaning | internal/sse/hub.go:173-183 | what was broadcast to a key grows by a payload exactly with a broadcast to that key |
| Hub.Hub.Take | internal/sse/hub.go:128-139 | the client receives the oldest payload of its channel |
| Hub.Hub.Receive | internal/sse/hub.go:77-82 | a message is broadcast to the key of its route, or ignored when it has none |
| Hub.Hub.Published | internal/sse/hub.go:56-82 | one publish broadcasts as often as there are distinct matching prefixes, each time to the key of a route of the channel, or not at all when it has none; with distinct prefixes always to the same key |
| Hub.FansOutToOneKey | internal/sse/hub.go:185-198 | with distinct prefixes any fan-out of a channel is that many broadcasts to its one route's key |
| Hub.StepKeepsInv | internal/sse/hub.go:112-183 | every step keeps the registry exact, without closed channels or empty sets, the gauge right, and each client's received and queued payloads an in-order part of what was broadcast to it, with received, queued and dropped adding up |
| Hub.RunKeepsInv | internal/sse/hub.go:112-183 | that holds after every run |
| Hub.NeverSendsOnClosed | internal/sse/hub.go:173-183 | in every run no registered channel is closed |
| Hub.PublishReachesExactly | internal/provider/site/site.go:69-72 | a site publish for (target, recipient) is queued for exactly the open channels of that target and subject with fewer than 16 payloads waiting; a full one of theirs misses it, others do not change |
| Inbox.Postgres.UpsertNotification | internal/store/postgres.go:113-147 | whatever row was there, each column holds the record's field of its name, `broadcast` that no recipient is named; the creation time is kept, the record has the stored id, and no other row changes |
| Inbox.Postgres.InsertSiteDelivery | internal/store/postgres.go:149-176 | one row per (notification, recipient), unchanged if it was there, refused without the notification |
| Inbox.Postgres.MarkRead | internal/store/postgres.go:296-310 | read, with the time of the first reading, nothing else changed; not found iff there is no row |
| Inbox.Postgres.Dismiss | internal/store/postgres.go:312-325 | dismissed, nothing else changed; not found iff there is no row |
| Inbox.PagesCoverInbox | internal/store/postgres.go:249-282 | paging to the end with any limit from 1 to 100 shows every undismissed row once, with its columns, newest creation time first and ties by descending id |
| Inbox.PageIsSlice | internal/store/postgres.go:249-264 | a page is the slice of that list from the offset, 0 if negative, of the limit's length, 50 if outside 1 to 100 |
| Strings.LexLessMeaning | internal/store/postgres.go:262 | the order of ids is decided by the first character that differs, or by the end of the shorter one |
| Inbox.OrderIsUnique | internal/store/postgres.go:249-282 | ids listed in that order are listed in the only possible one |
| Inbox.CountUnreadMatchesInbox | internal/store/postgres.go:284-294 | the unread count is the number of unread rows in the inbox, which is the number of undismissed, unread deliveries of the recipient |
| ExactlyOnce.ReplayIsExplained | internal/store/postgres.go:118-159 | for any log with one content per id and no delivery before its notification is stored, the tables are what first statements and the user actions after them say |
| ExactlyOnce.RepeatChangesNothing | internal/store/postgres.go:118-159 | in such a log a repeated upsert or delivery changes no row |
| ExactlyOnce.RepeatShowsNothing | internal/store/postgres.go:249-294 | nor, in such a log, any inbox page or unread count |
| ExactlyOnce.ExactlyOnceTables | internal/store/postgres.go:118-159 | such a log and its version without repeats leave the same tables |
| ExactlyOnce.DistilledHasNoRepeats | internal/store/postgres.go:118-159 | the version without repeats has none |
| ExactlyOnce.ReplayKeepsForeignKeys | internal/store/postgres.go:149-176 | no delivery is without its notification after any log |
| Buffer.PublishWithRetry | internal/pipeline/buffer.go:88-124 | up to 4 attempts, ending with the first that succeeds, sleeping 100, 200 and 400 ms in between; every attempt that stored counts one copy, and a success has one iff the queue existed at the last attempt |
| Buffer.StepMakesCopies | internal/rmq/publisher.go:36-61 | every step of submitters and workers accounts for exactly the copy it puts into the queue |
| Buffer.RetrySucceedsIff | internal/pipeline/buffer.go:88-124 | the progress after k attempts succeeded iff one of them did |
| Buffer.Queue.Submit | internal/pipeline/buffer.go:65-79 | appended below capacity, refused unchanged at capacity or for nil |
| Buffer.AcceptedAreAccountedFor | internal/pipeline/buffer.go:65-129 | in every interleaving what was accepted is what is queued, held, published, unencodable or given up, counted per notification; the published have copies iff the queue existed; workers take in order, depth stays within capacity, attempts and sleep within bounds |
| Buffer.ShapeStays | internal/pipeline/buffer.go:33-79 | in every interleaving the capacity and the workers are as configured, at least one, and a notification is accepted, at the end, iff there is room |
| Buffer.CloseDrains | internal/pipeline/buffer.go:81-129 | once `Close` has returned nothing is queued or held and every accepted notification is published or counted as dropped |
| Ingest.Ingest | internal/ingest/http.go:54-80 | nothing is submitted unless all are valid; then exactly the longest prefix with room is appended, normalised, in order, and the reply says which case it was |
| Ingest.ValidateAll | internal/ingest/http.go:59-64 | no error iff all are valid, and then all are normalised |
| Ingest.SubmitAll | internal/ingest/http.go:66-72 | a prefix is appended, a proper one only when the buffer is full |
| Domain.UniqueStrings | internal/domain/types.go:158-202 | the loop computes the specified list |
| Domain.UniqueMembers | internal/domain/types.go:158-202 | that list holds exactly the non-empty trimmed values |
| Domain.UniqueIsClean | internal/domain/types.go:158-202 | without duplicates, blanks or untrimmed values |
| Domain.UniqueKeepsOrder | internal/domain/types.go:158-202 | in the order of first occurrences |
| Domain.NotificationRecord.Normalize | internal/domain/types.go:73-87 | the record becomes its normal form |
| Domain.NormalizedFields | internal/domain/types.go:73-87 | texts trimmed, recipients and channels the non-blank trimmed values, an absent priority `normal`, id and metadata untouched |
| Strings.SpacesInASCII | internal/domain/types.go:73-87 | of the ASCII characters, trimming takes off the space and the five white-space controls |
| Domain.NormalizeIdempotent | internal/domain/types.go:73-87 | a normal form is its own normal form |
| Domain.ValidateNotification | internal/domain/types.go:89-119 | nil is refused; else the record is normalised and the error is the first rule broken |
| Domain.ViolationFindsAll | internal/domain/types.go:89-137 | no error iff the id is absent or a UUID, topic and title are not empty, priority and channels are among the known ones and every recipient is a UUID |
| Domain.ValidationStable | internal/dispatch/dispatcher.go:43 | what ingest accepted passes again at dispatch, unchanged |
| Preferences.TopicMatches | internal/domain/types.go:139-156 | the loop answers whether the filters select the topic, as the four rows that follow spell out |
| Preferences.StarSelects | internal/domain/types.go:139-156 | a filter ending in `*` selects exactly the topics that begin with what comes before it |
| Preferences.PlainSelects | internal/domain/types.go:139-156 | a trimmed filter that does not end in `*` selects its own topic alone |
| Preferences.SpacedSelects | internal/domain/types.go:139-156 | spaces around a filter do not matter, and a blank one selects nothing |
| Preferences.ListSelects | internal/domain/types.go:139-156 | no filters select every topic, several what any of them selects |
| Preferences.NormalizeTopicsKeepsMeaning | internal/preferences/handler.go:85-103 | normalised filters select the same topics iff there are none or one is not blank |
| Preferences.MergeDefaults | internal/store/postgres.go:344-359 | the loop computes the stored preferences laid over the defaults |
| Preferences.MergedMeaning | internal/store/postgres.go:344-359 | one entry per channel: the stored preference where there is one, else the default |
| Preferences.MergedEntries | internal/store/postgres.go:327-359 | the list holds the stored preferences, and site (on) and web push (off) where none is stored for them, and nothing else |
| Preferences.MergedOrder | internal/store/postgres.go:327-359 | site first, web push second, the other stored channels in their order |
| Preferences.ResolveChannels | internal/dispatch/dispatcher.go:97-135 | the loops compute the specified channels |
| Preferences.ResolvedMeaning | internal/dispatch/dispatcher.go:97-135 | exactly the channels that should be used, each once |
| Preferences.ResolvedChannels | internal/dispatch/dispatcher.go:97-135 | the requested channels not switched off, each with its stored configuration; else the site if nothing is stored; else what is on and selects the topic |
| Preferences.ResolvedOrder | internal/dispatch/dispatcher.go:97-135 | in the order of the notification's channels, or of the stored preferences |
| Preferences.ShownIsDelivered | internal/store/postgres.go:327-359 | the shown and the used channels agree on every topic iff nothing or a site preference is stored |

## Left out

- RabbitMQ, Redis, PostgreSQL and HTTP clients, TLS, tracing, metrics and logging: only their outcomes are modelled, as parameters or steps; the gauge of connected clients is kept.
- Signing, key decoding, `vapidSubject` and `pushServiceAudience`: a header is a record of what it was signed for and when it expires; web push encryption is one error.
- JSON and YAML, `uuid.Parse`, `url.Parse` and `mail.ParseAddress`: decoding is a parameter, canonical UUIDs a predicate.
- Telegram, `EffectiveBots` (the same code as `EffectiveTargets` for another record), and HTTP handlers other than ingest: they would add only easy members.
- `Run`: its reconnect loop and backoff are modelled only as "a session may end at any time and another may open".
- Liveness: nothing says that the broker delivers or that a connection stays up, only what holds of every run and what some continuation can always reach (`Progress`).
- Texts are sequences of characters: invalid UTF-8 and the exact quoting in error messages are not modelled.
- `updated_at` columns, and the order in which the database lists subscribers and preferences: the order is whatever the parameter says.
- Delivery tags are numbered across sessions, and the queue has no order: a requeued copy may come back at any position.
- One consumer process. A crash loses what is still in the buffer, and nothing is claimed for that; a clean stop closes the buffer first, which drains it (`Buffer.CloseDrains`).
- Concurrent requests to ingest: one request is modelled alone at the buffer, and the buffer with any interleaving of submissions.
- The broker as a class: broker and consumer sessions are values in a step machine, because several parties change them in turn; the consumer's own loops are methods.
- Buffer.Queue: the channel as one party sees it; waiting receivers are in the step machine of the same module.
- Consumer.RunBatch: a dispatch is a function of its position and notification here; that the sends of a batch change the tables in between is in `Service`.
- Hub.Hub.Unregister: requires the channel to be registered, as `ServeHTTP` unregisters each channel once.
- The broker itself losing its queue, or a queue deleted by hand after it was declared.
