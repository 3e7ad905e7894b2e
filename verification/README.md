# Verification of the booking service

A Dafny model of the service that keeps chats, tokenized meeting links, notifications and reminders
in step with cal.com bookings. The service owns no database: everything it does is a sequence of
calls on four external stores (cal.com rows, GetStream channels, the link shortener, the event
receiver), any of which may fail, and every inbound message may be delivered again. What matters is
therefore what crashes, replays and interleavings can leave behind.

## How the model is built

- `Domain`, `Machine`: the stores as values, the atomic steps on them, and an attempt at a plan under
  a list of fates (crash before the step, or go on, with the shortener fine, refusing, or losing its
  reply). Past the last fate all goes well.
- `Handlers`: the four handlers and the rejection flow as plans. `Adapters`, `Controllers`: the same
  in the form of the source, classes whose methods change the stores call by call, branch and loop
  over recipients; each is proved to do exactly what an attempt at its plan does under the same fates.
- `Milestones`, `Tracking`, `Convergence`, `Crossing`, `Chain`: idempotent resume. Milestones describe
  what each handler is to achieve independently of its steps.
- `Dedupe`, `Events`, `SameEvents`, `Announcements`: event ids, repeated events, and what a delivery
  announces.
- `Causality`: what has been done by the time a message tells of it.
- `MeetingLinks`: which room the links and URLs of a delivery open, and for whom.
- `System`, `RoleSafety`, `RoleExactness`, `Welcome`: all deliveries at once, step by step in any
  interleaving, with crashes, participants writing in chats and an unreliable shortener.
- `Posts`, `WelcomeOutcome`: one booking's attempts with participants writing at any time, and which of
  the two welcome messages its chat ends up with.
- `Constraints`, `ConstraintGate`, `Email`: the analyzer, what it enforces over time, and the two
  address forms this rests on.
- `Reminders`, `Scheduler`: one tick and all runs as functions, and the polling loop as a class.
- `Blacklist`, `CacheRaces`: the cache as a class and over all call sequences, and with checks that
  interleave at the fetch.

`dafny verify dfyconfig.toml` checks the whole project.

## What is assumed of the outside

- Short links are keyed by external id. Creating is an upsert that keeps a known id's ident. Updating
  moves the entry and keeps its ident; it fails when the entry is absent. Whether it may replace
  another entry under the new id is left open (`Table.overwrites`): every theorem holds for both
  answers unless it says otherwise.
- A channel is absent, live or soft-deleted. Creating a live one is a no-op, creating a soft-deleted
  one raises, deleting a missing one succeeds, hard deletion makes it absent, and only a live one can
  be read or written.
- UUIDv5 is injective on dedupe keys; an event without a key has a random id. Tokens are records of
  their claims without the issue time, so a replay makes the same page.
- A single store call is atomic. A crash after a call's effect is a crash before the next call.
- Time is in whole microseconds. Clocks, rows read, failures and server answers are parameters. The
  calendar is any pair of year and month functions.
- For reminders: booking uids are unique in a table, and nobody but the service sets or clears the
  marker.

## Where the code and its documentation part

- The header of `event_booking/controllers/booking.py` (lines 3-9) promises that a replay resumes
  exactly where the flow stopped. For the welcome messages it does not: they are skipped when the
  channel has messages, anyone's. After a crash between the two, the second is never sent; and once a
  participant has written before the first attempt that gets to send has asked, neither is.
  `WelcomeOutcome.WelcomeOutcomeIsExact` and `OutcomeAtFirstSender` give the exact outcome for all
  crashes and posts. A reassignment that goes through sends both, unless somebody writes between its
  creating the chat and its asking (`WelcomeOutcome.ReassignOutcomeIsExact`).
- Resuming a reschedule is exact unless the two uids cross, that is, one is `client_` followed by the
  other; then a replay may give a link another ident or bring back one that was moved away.
  `Crossing.ResumeIsExactIffResumable` gives the exact condition for an overwriting and for a refusing
  shortener. A crossing of uids also decides whether roles can mix (`RoleExactness.VideosSafeIffSeparable`).
- Deterministic event ids need an inbound id: with an empty one a redelivery publishes every event anew
  (`Events.RepeatAddsNothingIffNamed`).
- The scheduler's comment says every booking is seen twice because a 10-minute window is polled every
  5 minutes. The gap between ticks is the sleep plus the time the tick takes;
  `Reminders.CoverageIsExact` gives the exact bound: `k` sightings of every booking are guaranteed if
  and only if `k` gaps are at most the window plus one microsecond.
- The client's bookings are looked up by comparing a Python normal form with a SQL one.
  `Email.FormsAgreeExactly` says when the two agree, and `ConstraintGate.LimitsHoldIffFormsAgree` that
  a client's limits are enforced over a set of addresses exactly when they agree on each of the client's.
- `docs/API_CONTRACTS.md` lists `active_booking` as a rejection type; the analyzer leaves the type
  empty in that case, and so does the model.

## Model

| member | source | states |
|---|---|---|
| Convergence.CrashReplayConverges | event_booking/controllers/booking.py:3-9 | Main theorem on idempotent resume: for every handler, booking, decision and store, any number of attempts cut off after any step and then one that is not leave the same short-link table with its idents, chat status, video URLs and rejections as one uninterrupted run, and go through if and only if that run does; provided the delivery is resumable, which `Crossing.ResumeIsExactIffResumable` shows to be the exact condition |
| Convergence.UninterruptedReachesGoals | event_booking/controllers/booking.py:106-205 | An uninterrupted run ends where the handler's list of milestones leads, and fails exactly when the channel id is soft-deleted |
| Convergence.OneGoodRunHeals | event_booking/controllers/booking.py:3-9 | Even after attempts in which the shortener failed silently, from any store one uninterrupted run that goes through leaves the chat live, under each participant's id a link that opens the booking's own room for that participant, from 5 minutes before until 5 minutes after the meeting, and the client's short URL stored |
| Milestones.GoalsAbsorb | event_booking/controllers/booking.py:106-205 | Starting a handler's milestones over from any of them ends where going straight through ends |
| Milestones.AllHold | event_booking/controllers/booking.py:3-9 | After an unblocked pass through compatible milestones each still holds, so none is undone by a later one |
| Tracking.PlanTracksGoals | event_booking/controllers/booking.py:106-205 | Whatever step a handler is cut off after, what can be observed is that of some prefix of its milestones, and a handler that sets links up holds their final idents at the end |
| Tracking.OrganizerLinkSurvives | event_booking/controllers/booking.py:235-255 | Resolving the client's link leaves the organizer's link as it is |
| Crossing.ResumeIsExactIffResumable | event_booking/controllers/meeting.py:103-137 | For every handler, booking and store whose idents were issued: replays converge after all crashes if and only if the two uids of a reschedule do not cross, or the shortener refuses to move a link onto another one and the client's link does not leave the very id the organizer's goes to, or a soft-deleted chat stops the delivery before the links |
| Chain.OneBookingRemains | event_booking/controllers/booking.py:125-136 | After creation and any chain of reschedules to new uids, each with any crashed attempts, and each naming the earlier uid in its payload or, when the payload has none or an empty one, only in its row: exactly one organizer link and one client link remain, under the last uid, opening its meeting and with the original idents, the client's one is the stored video URL, and only the last uid's chat is live |
| Chain.CancelLeavesNothing | event_booking/controllers/booking.py:189-205 | A final cancellation of such a chain, with any crashed attempts, leaves no link of the booking and no live chat of any of its uids |
| Handlers.PayloadFallsBackToRow | event_booking/controllers/booking.py:125-136 | A reschedule whose payload names no earlier uid, or an empty one, takes exactly the steps of one whose payload names the row's |
| Machine.AttemptSplit | event_booking/controllers/booking.py:106-109 | Attempting one plan after another is attempting the first and going on with what it leaves of store, locals and fates |
| Machine.CutIsPrefix | event_booking/controllers/booking.py:7-9 | An attempt under crashes alone leaves the store of an uninterrupted prefix of its steps |
| Events.AcceptedIdsConverge | event_booking/controllers/booking.py:71-205 | With a non-empty inbound id, over any attempts, with crashes and shortener failures anywhere, the accepted ids stay among those of the handler's plan, and an attempt that goes through completes exactly that set |
| Events.RepeatAddsNothingIffNamed | event_booking/adapters/events.py:37-40 | A redelivery after a delivery that went through adds no event the receiver can tell apart if and only if there is an inbound id or nothing is published; without one it adds each published step once more |
| Events.UnnamedEventsPileUp | event_booking/controllers/booking.py:44-48 | Without an inbound id, over any attempts, events with random ids are only added, and an attempt that goes through adds one per published step |
| Events.KeysOfAnAttemptAreDistinct | event_booking/controllers/booking.py:44-48 | With a colon-free inbound id no two events of one attempt share a key |
| SameEvents.ReplaysRepeatEvents | event_booking/adapters/events.py:7-9 | With a non-empty inbound id and while the shortener works, crashed attempts only accept events of the uninterrupted run, meeting URL included, and one uninterrupted replay accepts exactly that run's set |
| SameEvents.UninterruptedPublishesExpected | event_booking/controllers/booking.py:106-205 | An uninterrupted run accepts exactly the events of its plan with each role's URL as found in the final short-link table |
| Announcements.DeliveryAnnounces | event_booking/controllers/booking.py:71-205 | Main theorem on what the world is told, with a non-empty inbound id: over any crashed attempts and then one that is not, the events accepted are exactly those listed per participant: for a set-up one URL event and one notification each, with the handler's own trigger and the participant's own short URL in the final table, and the chats created and given up; for a cancellation the deletions and notifications without URL; for a rejection the client's notification and booking.rejected |
| Causality.SetUpBeforeNotified | event_booking/controllers/booking.py:106-109 | Whatever crashes and however the shortener fails, once anybody is notified of a creation, reschedule or reassignment the chat of both participants is live, the client's URL is stored, and the URL sent to the client is that one |
| Causality.ToldBeforeDeleted | event_booking/controllers/booking.py:189-205 | No attempt at a cancellation takes a link or a chat away before each participant was notified |
| Causality.RejectedBeforeTold | event_booking/controllers/booking.py:318-368 | Nothing is said of a rejection before the row is rejected with the reason, and booking.rejected only after the client's notification |
| Dedupe.KeyRoundTrip | event_booking/controllers/booking.py:44-48 | For colon-free inbound ids and names, every key parses back to the inbound id, the step kind and its arguments, even when the uid contains colons |
| Dedupe.KeysAreInjective | event_booking/controllers/booking.py:44-48 | Equal keys come from the same inbound event and the same step |
| Dedupe.ColonInInboundIdCollides | event_booking/controllers/booking.py:44-48 | The hypothesis is needed: for every inbound id there is another one, with a colon, and two different steps that share a key |
| Dedupe.SchedulerKeysAreSeparate | event_booking/scheduler.py:96-106 | Both kinds of scheduler keys are injective in the uid, differ from each other, and differ from every handler key unless the inbound id is `reminder` or `reminder_sent` |
| Dedupe.ChatKeysSpelledOut | event_booking/controllers/booking.py:44-48 | The keys of the two chat events, written out |
| Dedupe.UrlKeysSpelledOut | event_booking/controllers/booking.py:223-257 | The keys of the two URL events, written out |
| Dedupe.NotifyKeysSpelledOut | event_booking/controllers/booking.py:271-368 | The keys of a notification and of booking.rejected, written out |
| Domain.TokenCoversMeeting | event_booking/controllers/meeting.py:53-57 | Truncated to whole seconds, the token's validity covers every instant of the meeting and none more than 301 seconds outside it |
| MeetingLinks.EveryUrlOpensMeeting | event_booking/controllers/meeting.py:59-182 | Main theorem: whatever crashes and however the shortener fails, every link any handler makes or moves, every URL it stores and every long URL it announces or sends opens the booking's own room for the participant it belongs to, so both participants meet |
| System.AttemptIsTrace | event_booking/controllers/booking.py:3-9 | Every attempt is a run of the interleaved system in which one delivery takes its steps, so what holds of all runs holds of all attempts |
| RoleSafety.KeysInjectiveIffSeparable | event_booking/controllers/meeting.py:153-159 | External ids are injective in role and uid if and only if no uid in use is another one behind the client prefix |
| RoleSafety.NoPrefixIsSeparable | event_booking/controllers/booking.py:29-29 | That is so when no uid starts with the prefix |
| RoleSafety.RolesNeverMix | event_booking/controllers/meeting.py:103-167 | In every run of interleaved deliveries, with crashes and shortener failures anywhere, every link holds a page of its own role under an id of that role, every announced or delivered URL is of its recipient's role, every stored video URL is of the client's role, and an ident never changes its role |
| RoleSafety.StartsOk | event_booking/controllers/meeting.py:103-167 | The invariant holds of empty stores |
| RoleSafety.DeliveredLinkStaysOwnRole | event_booking/controllers/booking.py:280-301 | Wherever a delivered short URL leads at any later time, it is a page of its recipient's role, with moderator rights exactly for the organizer |
| RoleSafety.VideoLinkIsNeverModerator | event_booking/controllers/booking.py:259-269 | The stored videoCallUrl is a client's page without moderator rights when it is long, and leads to one when it is short, wherever its entry is by then |
| RoleExactness.CrossingUidsMixRoles | event_booking/controllers/meeting.py:153-167 | Two created bookings whose uids differ by the prefix make a stored video URL lead to an organizer page |
| RoleExactness.VideosSafeIffSeparable | event_booking/controllers/booking.py:259-269 | Over a set of uids, every run keeps video URLs on client pages if and only if no uid is another one behind the prefix |
| Welcome.WelcomesNeverRepeat | event_booking/controllers/booking.py:207-221 | With one uid's deliveries handled one at a time, in every run and every live channel the service's messages are a prefix of the two welcomes |
| WelcomeOutcome.WelcomeOutcomeIsExact | event_booking/controllers/booking.py:207-221 | Main theorem: on a channel without messages, over any attempts at booking.created or booking.rescheduled, crashing anywhere and with participants writing anywhere, the service's messages are exactly the outcome computed from crashes and posts alone |
| WelcomeOutcome.OutcomeAtFirstSender | event_booking/controllers/booking.py:218-221 | That outcome, in terms of the first attempt that gets to send: nothing if and only if somebody wrote in the live chat before that attempt asked for messages; the first welcome alone if and only if nobody did and that attempt crashed between the two; both otherwise |
| WelcomeOutcome.PostInTheGap | event_booking/controllers/booking.py:218-219 | A post between a crash before the first welcome and the redelivery: neither welcome is ever sent |
| WelcomeOutcome.WelcomeGapIsExact | event_booking/controllers/booking.py:218-221 | When nobody writes, any attempts followed by one that goes through leave exactly both welcomes in the channel, unless the first attempt to get as far as sending crashed between them; then exactly the first |
| WelcomeOutcome.ReassignOutcomeIsExact | event_booking/controllers/booking.py:156-163 | A reassignment that goes through, from any store, leaves both welcomes, unless somebody wrote between its creating the chat and its asking for messages; then it leaves none |
| WelcomeOutcome.ReassignRestoresWelcomes | event_booking/controllers/booking.py:156-163 | A reassignment that goes through while nobody writes leaves exactly both welcomes, whatever the channel was before |
| WelcomeOutcome.AmidBlank | event_booking/controllers/booking.py:207-221 | What one attempt leaves of a channel without messages, for every place it may crash at and everything written meanwhile |
| Posts.AmidIsTrace | event_booking/controllers/booking.py:207-221 | An attempt during which participants write is a run of the interleaved system with that one delivery |
| Posts.WithoutPosts | event_booking/controllers/booking.py:207-221 | Without posts it is an attempt |
| Constraints.AnalyzerMeetsSpec | event_booking/controllers/constraints.py:30-76 | The result is allowed if and only if no other accepted, pending or awaiting_host booking is after now, fewer than 2 such are in the month, fewer than 10 in the year, and the start is at least 7 days behind the latest of them; the type names the first of the last three that fails, and is empty when the first one does |
| Constraints.StatusesThatReject | event_booking/controllers/constraints.py:9-43 | A future booking rejects if and only if it is another one and its status is accepted, pending or awaiting_host; rows of other statuses alone never reject |
| Constraints.ActiveStartIsFuture | event_booking/controllers/constraints.py:35-43 | The reported start is that of the first row, in the order given, of another active booking after now |
| Constraints.AvailableFromIsExact | event_booking/controllers/constraints.py:66-76 | On an interval rejection available_from is after the requested start and is the least start that passes the interval rule, despite floor division to days |
| Constraints.PermutationInvariant | event_booking/controllers/constraints.py:32-76 | Permuting the history changes neither verdict, rejection type nor available_from |
| Constraints.ReportedStartDependsOnOrder | event_booking/controllers/constraints.py:41-41 | Which future booking is reported does depend on the order of the rows |
| Constraints.IrrelevantRows | event_booking/controllers/constraints.py:32-33 | The booking's own row and inactive rows, wherever they stand, never affect the result |
| Constraints.AddingNeverAllows | event_booking/controllers/constraints.py:32-76 | More rows, wherever they stand, never turn a rejection into an allowance |
| ConstraintGate.LimitsHoldAlways | event_booking/controllers/booking.py:96-104 | For a client whose own addresses the query finds, whatever addresses others have, over every run of inserted rows, deliveries and redeliveries, cancellations and clock ticks: the client's validated active bookings are pairwise at least 7 days apart, at most 2 in a month, at most 10 in a year, and at most one starts after now |
| ConstraintGate.DifferentFormsSlipThrough | event_booking/adapters/db.py:83-96 | For every address whose two forms differ there is a run of four actions that breaks the limits |
| ConstraintGate.LimitsHoldIffFindable | event_booking/adapters/db.py:211-216 | Whatever the two normal forms are, over any set of addresses, no run breaks a client's limits if and only if the query's form of each of the client's addresses in the set is the client's |
| ConstraintGate.LimitsHoldIffFormsAgree | event_booking/controllers/booking.py:96-104 | The same for the service's two forms: no run over a set of addresses breaks a client's limits if and only if each of the client's addresses in it is trimmed, has an `@`, and has no tag or one both forms take off |
| ConstraintGate.EmptyTagSlipsThrough | event_booking/adapters/db.py:94-94 | For every ordinary address, adding the same address with an empty tag to the set is enough for a run that breaks the limits |
| Email.PythonFormIsIdempotent | event_booking/adapters/db.py:149-154 | The adapter's form is trimmed, lower-case, with an `@` and no `+` before it, and a fixed point of itself |
| Email.FormsAgreeExactly | event_booking/adapters/db.py:94-94 | For every address, the SQL form equals the adapter's if and only if it has no space around, has an `@`, and either a non-empty tag before the first `@`, or no `+` there and nothing the query takes for a tag behind it |
| Email.EmptyTagIsAnotherAddress | event_booking/adapters/db.py:149-154 | With an empty tag added, an ordinary address keeps the adapter's form and loses the query's |
| Email.OrdinaryAddressesAgree | event_booking/adapters/db.py:149-154 | In particular the forms agree on every trimmed address without `+` behind the first `@` and without an empty tag |
| Email.LoweringIsCaseless | event_booking/adapters/db.py:150-150 | Two strings have one lower-cased form if and only if they have one length and at each place the same character or one letter in its two cases; strings without capitals stay as they are |
| Email.StrippingIsCore | event_booking/adapters/db.py:150-150 | Stripping takes off exactly the space in front and behind |
| Email.SameAddressByForms | event_booking/adapters/blacklist.py:54-64 | A listed entry is matched after lower-casing it, and stripping and lower-casing the email, if and only if it differs from the email at most in case and in the space around the email |
| Email.PythonFormIgnoresCaseAndSpace | event_booking/adapters/db.py:149-154 | Addresses that differ only in case and surrounding space have one form |
| Email.PythonFormIgnoresTag | event_booking/adapters/db.py:149-154 | An address has the form it has without its tag |
| Email.PlainAddressIsItsForm | event_booking/adapters/db.py:149-154 | A trimmed lower-case address without tag is its own form |
| Reminders.FailingTickMarksPrefix | event_booking/scheduler.py:61-65 | A tick marks exactly the bookings before the one it fails at, and that one too only when the reply to its marking is what got lost; the count is their number |
| Reminders.QueryKeepsOrder | event_booking/adapters/db.py:76-80 | The rows found in one table followed by another are those found in the first followed by those found in the second |
| Reminders.TickReminds | event_booking/scheduler.py:60-107 | All a tick adds is about due rows, each command addressed to exactly the organizer and the client its row has, each event to its client; one that goes through leaves such a command for every due row, and the event when there is a client |
| Reminders.RunReminds | event_booking/scheduler.py:109-121 | Over all runs, with failures and lost replies anywhere, all that is added is about due rows in this way |
| Reminders.ExactlyItsParticipants | event_booking/scheduler.py:71-107 | While a uid's rows have one organizer and one client, its commands in such a log go to these and nobody else, and its event to the client if and only if there is one |
| Reminders.TickIsSafe | event_booking/scheduler.py:45-69 | A tick keeps the log safe and the markers true, and one that goes through leaves every accepted booking in its window marked |
| Reminders.RemindersAreSafe | event_booking/scheduler.py:46-54 | Over all runs with failures and lost replies anywhere: a marked booking's command was accepted before, all commands of one uid carry one id, and nothing is sent for a uid after its mark |
| Reminders.SeenByKTicks | event_booking/scheduler.py:55-59 | If consecutive ticks are at most g apart and k gaps fit into the window, every booking whose window lies within the run is seen by k consecutive ticks |
| Reminders.CoverageIsExact | event_booking/scheduler.py:49-51 | In whole microseconds, gaps of at most g guarantee k sightings of every booking if and only if k * g is at most the window plus one |
| Reminders.SeenAndDone | event_booking/scheduler.py:59-63 | One tick that sees an accepted booking and goes through is enough for it to end up marked |
| Reminders.ReminderGuaranteed | event_booking/scheduler.py:45-69 | With k gaps in the window, a booking that is accepted at its start time in the ticks that see it is commanded and marked, unless k ticks in a row all fail; unless it was marked before, its row's own organizer and client are addressed |
| Reminders.ReminderReachesBoth | event_booking/scheduler.py:45-107 | If then its organizer and client stay the same, every command of it is addressed to the organizer if and only if there is one, to the client if and only if there is one, and to nobody else, and the event to the client is there if and only if there is a client |
| Scheduler.ReminderScheduler.SendReminder | event_booking/scheduler.py:71-107 | Publishing the command to organizer and client, as far as they are known, and, with a client, the event, is the specified step for all replies |
| Scheduler.ReminderScheduler.SendAndMark | event_booking/scheduler.py:61-63 | Sending and then marking one booking is the specified step, also when either fails |
| Scheduler.ReminderScheduler.SendEach | event_booking/scheduler.py:60-65 | The loop over the bookings ends as the specified one does, with the number of bookings done |
| Scheduler.ReminderScheduler.SendReminders | event_booking/scheduler.py:45-69 | The loop over the queried bookings leaves rows, log, remaining replies and count as the specified tick does, also when it fails |
| Scheduler.ReminderScheduler.SleepAndSend | event_booking/scheduler.py:113-117 | One round of the loop, a failing tick included, is one round of the specified run |
| Scheduler.ReminderScheduler.RunForever | event_booking/scheduler.py:109-121 | The loop runs the rounds up to and including the first during whose sleep it was stopped |
| Scheduler.ServedUpToStop | event_booking/scheduler.py:109-121 | The rounds served are those up to the first during whose sleep the loop is stopped, or all |
| Scheduler.Surroundings.GetBookings | event_booking/adapters/db.py:49-81 | The accepted, unmarked bookings in the closed window, in order of ids, or a failure |
| Scheduler.Surroundings.MarkReminderSent | event_booking/adapters/db.py:105-110 | Sets the marker of the uid's rows and of no other |
| Blacklist.AnswersAreLastFetch | event_booking/adapters/blacklist.py:54-90 | For all sequences of calls, clock readings and fetch outcomes, an enabled client answers whether the last successful fetch lists the email up to case and the space around it, false before there is one, raises exactly when its fetch raises something uncaught, and asks exactly when the last successful fetch started at least a TTL ago or never |
| Blacklist.FetchesAreSpaced | event_booking/adapters/blacklist.py:68-90 | With a positive TTL and a monotone clock successful fetches start at least a TTL apart, and an answer without a fetch rests on one started less than a TTL ago |
| Blacklist.DisabledNeverAsks | event_booking/adapters/blacklist.py:56-57 | A disabled client never asks the server and never says blacklisted |
| Blacklist.BlacklistClient.GetValues | event_booking/adapters/blacklist.py:68-90 | What one call returns and leaves in the two cache fields, for every fetch outcome |
| Blacklist.BlacklistClient.IsBlacklisted | event_booking/adapters/blacklist.py:54-66 | One call answers and changes the cache as the specified call does |
| CacheRaces.EveryAnswerIsASnapshot | event_booking/adapters/blacklist.py:68-90 | With the fetch as a yield point, in every interleaving the cached set is the server's at some instant between `_fetched_at` and now, and every answer given is one the server would have given at some instant of the right span |
| CacheRaces.FromBoot | event_booking/adapters/blacklist.py:54-90 | From a fresh process: a cache hit answers from a snapshot younger than the TTL, a check that fetches from one taken during the check, and no email is rejected that the server never listed since the start |
| CacheRaces.CacheGoesBack | event_booking/adapters/blacklist.py:72-90 | A slow fetch does overwrite a newer one: for every server there is a run after which the cache and `_fetched_at` have gone back in time |
| CacheRaces.AloneIsAsk | event_booking/adapters/blacklist.py:68-90 | A check that nothing interleaves with, from a fresh or stale cache and with each way its fetch may end, leaves cache and answer, or no answer when it raises, as a call of the client does |
| Controllers.DecisionIsExact | event_booking/controllers/booking.py:78-104 | A created booking goes through if and only if it has no client, or its client is not blacklisted and, with constraints on, every rule of the analyzer's specification holds; a blacklisted client is rejected under the blacklist trigger with its own reason |
| Controllers.ListedClientIsRejected | event_booking/controllers/booking.py:78-94 | With a cache that is not fresh and a fetch that succeeds, a created booking is rejected as blacklisted if and only if the answer lists its client's email, up to case and surrounding space |
| Controllers.ReasonIsFirstViolation | event_booking/controllers/constraints.py:36-76 | With constraints on, the reason given is that of the first rule that fails, in the order active booking, month, year, interval |
| Controllers.BookingController.HandleCreated | event_booking/controllers/booking.py:71-109 | The stores, the outcome and the blacklist cache are those of the check, the decision and an attempt at its plan, whatever fails on the way; an unknown booking changes nothing |
| Controllers.BookingController.HandleRescheduled | event_booking/controllers/booking.py:111-141 | The stores and the outcome are those of an attempt at the reschedule plan |
| Controllers.BookingController.HandleReassigned | event_booking/controllers/booking.py:143-171 | The stores and the outcome are those of an attempt at the reassignment plan |
| Controllers.BookingController.HandleCancelled | event_booking/controllers/booking.py:173-205 | The stores and the outcome are those of an attempt at the cancellation plan |
| Controllers.BookingController.EnsureChatWithWelcome | event_booking/controllers/booking.py:207-221 | Creating, asking for messages and sending are an attempt at the chat plan, whose sends are skipped when there are messages |
| Controllers.BookingController.CreateMeetingUrls | event_booking/controllers/booking.py:223-257 | An attempt at both participants' link plans; the returned URLs are each participant's own |
| Controllers.BookingController.StoreClientVideoUrl | event_booking/controllers/booking.py:259-269 | The client's URL and no other is stored, if there is one |
| Controllers.BookingController.NotifyParticipants | event_booking/controllers/booking.py:271-301 | The loop over the recipients is an attempt at the plan that sends each participant its own URL |
| Controllers.BookingController.RejectBooking | event_booking/controllers/booking.py:318-368 | The row is rejected, the client notified and the rejection announced, in this order |
| Controllers.ChatController.CreateChat | event_booking/controllers/chat.py:26-42 | The channel is created before chat.created is announced |
| Controllers.ChatController.DeleteChat | event_booking/controllers/chat.py:47-56 | The channel is deleted before chat.deleted is announced |
| Controllers.MeetingController.ResolveShortUrl | event_booking/controllers/meeting.py:103-125 | With an old id the link is moved and only if that fails created; without one it is created; the returned ident is that of the attempt |
| Controllers.MeetingController.CreateMeetingUrl | event_booking/controllers/meeting.py:127-182 | An attempt at resolving the participant's own page from the right old id and announcing the short URL, or the long one if there is none |
| Controllers.MeetingController.DeleteMeetingUrl | event_booking/controllers/meeting.py:184-209 | The link is deleted, and the deletion announced if the participant is present |
| Adapters.Outside.CreateChat | event_booking/adapters/get_stream.py:54-69 | A live channel stays as it is, an absent one is created empty, a soft-deleted one raises |
| Adapters.Outside.DeleteChat | event_booking/adapters/get_stream.py:80-93 | Soft or hard deletion; a missing channel is a success |
| Adapters.Outside.CreateUrl | event_booking/adapters/shortener.py:19-41 | The ident of the upserted link, or none after any failure, before or after the effect |
| Adapters.Outside.UpdateUrlData | event_booking/adapters/shortener.py:58-85 | The ident of the moved link, or none when it is absent or the call fails |

## Left out

- HTTP, RabbitMQ, SQL and the GetStream SDK: each call is its effect on a store and a choice of failure; the two calls inside one adapter method (users, then channel) are one step.
- Reads of booking rows, histories and chat tokens are not steps of a plan: a failing read before the first step is an attempt that does nothing. The chat token minted between two steps of a link plan can raise there; that is a crash before the next step.
- Cryptography, JWT and base64 encoding, UUIDv5 and the encrypted GetStream user ids: opaque.
- CloudEvent parsing, envelope unwrapping and the dispatch by event type; settings, dependency injection, logging, metrics, tracing and health endpoints: wiring.
- Template texts and payload fields other than recipient, role, meeting URL, rejection reason and dedupe key; the string values of event and trigger names come from a library that is not part of this model.
- Other keys of a row's metadata: the video URL and the reminder marker are fields of their own, so that one update keeps the other is built in, not proved.
- `update_attendee_email`, and bookings with several attendees, of which the adapter reads the first.
- Changing decisions on replay: the theorems on resume fix the accept or reject decision; `ConstraintGate` allows every redelivery to decide anew.
- Reschedules, reactivations and edited start times in `ConstraintGate`: the service does not validate them again, so the limits can be exceeded by them.
- The tag of email addresses is removed on ASCII terms: Unicode case folding and white space are not modelled.
- Convergence.CrashReplayConverges: requires the delivery to be resumable, because it is false otherwise (`Crossing.ResumeIsExactIffResumable`); it covers crashes but not silent shortener failures, after which idents may differ and `Convergence.OneGoodRunHeals` and `Events.AcceptedIdsConverge` say what still holds.
- SameEvents.ReplaysRepeatEvents: requires a working shortener, because a failing one makes a replay announce another URL under the same id.
- Welcome.WelcomesNeverRepeat: requires one uid's deliveries to be handled one at a time, as two that overlap may both find the channel without messages.
- Reminders.RemindersAreSafe: speaks of what the receiver accepted; that two accepted commands with one id lead to one delivered notification is the receiver's part.
- WelcomeOutcome.WelcomeOutcomeIsExact: is about created and rescheduled deliveries of one booking on its own channel; a later reschedule, cancellation or reassignment deletes the channel.
- Controllers.BookingController.RejectBooking: the payload of booking.rejected and the template data are reduced to the reason; rejection type, available_from and active start are what `Constraints.AnalyzerMeetsSpec` says of the result they are copied from.
- Scheduler.ReminderScheduler.RunForever: takes the finite list of rounds to come as a parameter; the loop of the source has no end of its own.
