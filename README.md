# Slack support bot: the expert hunt, modelled in Dafny

This project models the core of a Slack support bot that routes support requests to
subject matter experts (SMEs). When a request is urgent, or the bot's reply hands the user
over to a person, the bot starts a *hunt*:
- it picks candidate experts from the expert directory and marks them as notified;
- the first expert to accept the hunt settles it;
- a periodic sweep expires the hunts nobody accepted in time.

The model covers:
- the hunt state machine and the hunt service (`hunt.dfy`, module `Hunt`);
- the expert directory with its case-insensitive matching and stable ranking (`sme.dfy`,
  `stablesort.dfy`);
- tickets with their status changes and their stored form (`tickets.dfy`);
- users and the user-level database that decides who is a VIP (`users.dfy`);
- the keyword classifier of the language-model service (`llm.dfy`);
- the pure decisions of the message handler: mention stripping, priority with the VIP boost,
  title, expertise areas, and whether to hunt (`app.dfy`).

Support modules:
- `wrappers.dfy`: `Option`/`Result`;
- `text.dfy`: ASCII lower-casing, Python's `strip` and substring test;
- `pydata.dfy`: Python dictionaries as stored JSON values.

Modelling choices:
- Each state-changing entity is a class:
  - `HuntRequest` and `HuntService` in the hunt module;
  - `Ticket` and `User` for tickets and users;
  - `SmeDatabase` for the expert directory.
- Methods carry `modifies` clauses. Where the source loops, they loop: the notification loop
  in `HuntRequest.MarkAllNotified` (which `StartHunt` reaches through `NewHunt`), the two phases of the timeout sweep, and the database scans.
- Time is an integer number of seconds passed in as `now`. A hunt expires
  `60 * timeout_minutes` seconds after creation.
- Callbacks are recorded in a per-hunt event log (`Accepted(id, name)` or `TimedOut`). Their
  effect on chat and tickets is outside the model.

Invariants proved:
- Every hunt satisfies `HuntRequest.Valid()`:
  - accepted and expired never hold together;
  - the log holds exactly one settling callback iff the hunt is settled and the matching
    callback was supplied.
- `StartHunt`, `AcceptHunt`, `CancelHunt` and `SweepTimeouts` preserve `HuntService.Valid()`:
  - each active hunt is filed under its own ticket id;
  - each active hunt is valid;
  - each active hunt is still unsettled.

  Within a sweep, `ExpireOverdue` leaves the hunts it has just expired in the map, so
  `Valid()` does not hold between the two phases. `RemoveAll` then pops them, and `Valid()`
  holds again at the end of `SweepTimeouts`.

Source quirks reproduced, not corrected:
- **Accepting with an empty id.** The "already accepted" test checks `accepted_by` for
  truthiness, so accepting with the empty expert id does not settle a hunt.
  `AcceptTwiceWithEmptyId` shows that a second accept then succeeds and the accept callback
  runs twice.
- **Replacing a hunt.** `start_hunt` silently replaces an active hunt for the same ticket. The
  replaced hunt is left unsettled and unreachable, so it never times out.
- **Rating keys.** Ratings are looked up under the lower-cased tag, so ratings stored under
  capitalised keys never count.
- **Repeated tags.** A tag required twice is counted twice in the rating sum.
- **The VIP re-sort.** It uses exactly the key the directory already sorted by, so it changes
  nothing: the candidates do not depend on the requester's level (`VipResortChangesNothing`).

Two further points about the code:
- **No locking.** The code has no locking, so concurrent claims are not excluded. The model
  is sequential and proves at-most-once settlement for sequential calls.
- **Timeouts.** A zero timeout falls back to the default. A negative timeout is kept.

## Model

| member | source | states |
|---|---|---|
| Users.ParseLevel | src/models/user.py:9-14 | `UserLevel(s)` succeeds exactly on the three stored values |
| Users.DisplayName | src/models/user.py:31 | the name is `real_name`, else `name`, else "Unknown" |
| Users.User.FromSlackUser | src/models/user.py:26-36 | a user built from Slack data has the Slack id, the chosen name, the profile email, level REGULAR and no tags |
| Users.UserLevelDatabase.GetUserLevel | src/models/user.py:46-51 | an unknown user or a missing level is REGULAR; a stored level is matched after lower-casing, and a string that names no level raises |
| Users.UserLevelDatabase.GetUserTags | src/models/user.py:53-57 | the stored tags, or none for an unknown user or a missing key |
| Users.UserLevelDatabase.UpdateUser | src/models/user.py:59-63 | sets exactly the level and tags from the database and returns the same user; on an invalid stored level nothing changes |
| Users.CapitalVipIsVip | src/models/user.py:49-50 | a level stored as "VIP" makes the user a VIP |
| Tickets.ParsePriority | src/models/ticket.py:12-17 | `TicketPriority(s)` succeeds exactly on the stored values |
| Tickets.ParseStatus | src/models/ticket.py:20-29 | `TicketStatus(s)` succeeds exactly on the seven stored values |
| Tickets.Ticket.constructor | src/models/ticket.py:32-48 | a new ticket holds the given fields and is unassigned |
| Tickets.Ticket.UpdateStatus | src/models/ticket.py:50-53 | only the status and the update time change |
| Tickets.Ticket.AssignToSme | src/models/ticket.py:55-58 | records the expert and moves to SME_ASSIGNED; nothing else changes but the update time |
| Tickets.Ticket.MarkWaitingForInfo | src/models/ticket.py:60-62 | moves to AWAITING_INFO, nothing else but the update time changes |
| Tickets.Ticket.MarkInProgress | src/models/ticket.py:64-66 | moves to IN_PROGRESS, nothing else but the update time changes |
| Tickets.Ticket.Resolve | src/models/ticket.py:68-70 | moves to RESOLVED, nothing else but the update time changes |
| Tickets.Ticket.Close | src/models/ticket.py:72-74 | moves to CLOSED, nothing else but the update time changes |
| Tickets.Ticket.IsUrgent | src/models/ticket.py:76-78 | urgent iff the priority is HIGH; a MEDIUM or LOW ticket is never urgent |
| Tickets.Serialize | src/models/ticket.py:80-103 | the stored form has exactly the fourteen keys |
| Tickets.FromDict | src/models/ticket.py:105-138 | a missing required key (timestamps, user, id, title, description, status, priority) fails; on success every field is the value stored under its key, enums by their string value, the user is the one decoded from the stored `user` dictionary, and the optional keys read as their value or their default |
| Tickets.UserFromDict | src/models/ticket.py:114-121 | a missing `slack_id`, `name` or `level` fails; on success id and name are the stored strings, the level is the one whose value is stored (not lower-cased), email defaults to None and tags to the empty list |
| Tickets.UserRoundTrip | src/models/ticket.py:114-121 | the stored user reads back as the same user |
| Tickets.StampsAndUserRoundTrip | src/models/ticket.py:109-121 | the stored timestamps and user read back unchanged |
| Tickets.HeadingRoundTrip | src/models/ticket.py:124-128 | id, title, description, status and priority read back unchanged |
| Tickets.ExtrasRoundTrip | src/models/ticket.py:132-137 | category, tags, assignee, thread, channel and extra info read back unchanged |
| Tickets.SerializeRoundTrip | src/models/ticket.py:80-138 | `from_dict(serialize(t))` is `t` for every ticket |
| Tickets.FromDictDefaults | src/models/ticket.py:132-137 | absent optional keys read as None, no tags and an empty dictionary |
| Tickets.FromDictRejectsUnknownStatus | src/models/ticket.py:127 | a status string that names no status makes `from_dict` fail |
| Tickets.FromDictRejectsUnknownPriority | src/models/ticket.py:128 | a priority string that names no priority makes `from_dict` fail |
| Sme.HasExpertise | src/models/sme.py:21-23 | true iff some tag of the expert equals the given tag ignoring case |
| Sme.HasAnyExpertise | src/models/sme.py:25-32 | true for an empty requirement, otherwise iff some required tag matches some tag of the expert ignoring case |
| Sme.RatingFor | src/models/sme.py:34-36 | the rating stored under the lower-cased tag, else 0; a non-zero rating always comes from a lower-case key |
| Sme.IsAvailable | src/models/sme.py:38-40 | an expert flagged unavailable, or at or above the concurrency limit, is not available; otherwise it is |
| Sme.CapitalisedKeysNeverRate | src/models/sme.py:34-36 | ratings stored under keys with a capital letter never affect a rating |
| Sme.DuplicateTagsCountTwice | src/models/sme.py:88-94 | requiring the tags twice doubles the rating sum |
| Sme.RankedOrder | src/models/sme.py:88-94 | in a ranked list, rating sums never increase, and equal sums put lower load first |
| Sme.TieBrokenByLoad | src/models/sme.py:88-94 | with equal rating sums, the less loaded expert is ranked first |
| Sme.Matching | src/models/sme.py:79-85 | the filter keeps each qualifying expert exactly as often as it occurs and nothing else |
| Sme.AvailableMatchesAreMatches | src/models/sme.py:79-85 | the available-only matches are among the unrestricted matches |
| Sme.NoMatchIff | src/models/sme.py:79-85 | no match iff no expert of the database qualifies |
| Sme.MatchingFirstOfTwo | src/models/sme.py:79-85 | of two experts where only the first qualifies, the filter keeps just the first |
| Sme.RankedMatches | src/models/sme.py:75-96 | the query result is a permutation of the qualifying experts, ranked, with equal keys in database order |
| Sme.AllExpertiseAreasAreTags | src/models/sme.py:68-73 | every tag of every expert, lower-cased, is an area, and every area is a lower-case tag of some expert |
| Sme.SmeDatabase.constructor | src/models/sme.py:61-66 | the database holds the given experts |
| Sme.SmeDatabase.GetAllExpertiseAreas | src/models/sme.py:68-73 | the set built tag by tag is the set of all lower-cased tags |
| Sme.SmeDatabase.FindExpertsByExpertise | src/models/sme.py:75-96 | the scan and sort return the ranked matches and change nothing |
| Sme.ExpertDefaults | src/models/sme.py:43-53 | absent keys give no expertise, available, no ratings, load 0 and a limit of 3 concurrent issues |
| Sme.ExpertFromDict | src/models/sme.py:43-53 | a missing `slack_id` or `name` fails with that key, whatever the other values are, since both are read before anything is validated; on success id and name are the stored strings, and expertise, availability, load, limit and ratings are the stored values or their defaults |
| Sme.MinimalExpert | src/models/sme.py:43-53 | a record with only id and name is a fresh, available, unrated expert |
| StableSort.SortByKey | src/models/sme.py:88-94 | the sort is a permutation and leaves the list in non-increasing key order |
| StableSort.SortStable | src/models/sme.py:88-94 | elements with equal keys keep their input order |
| StableSort.SortSingleton | src/models/sme.py:88-94 | a one-element list is sorted as it is |
| StableSort.SortRankedIsIdentity | src/services/hunt_service.py:194-201 | sorting an already ranked list changes nothing |
| Hunt.EffectiveTimeout | src/services/hunt_service.py:44 | a missing or zero timeout falls back to the default; any other value is kept |
| Hunt.HuntRequest.constructor | src/services/hunt_service.py:22-49 | a new hunt is valid and active, with nobody notified and its deadline the creation time plus the timeout |
| Hunt.HuntRequest.IsTimedOut | src/services/hunt_service.py:51-53 | timed out iff more than the timeout has passed since creation; not at the deadline itself |
| Hunt.HuntRequest.TimedOutStays | src/services/hunt_service.py:51-53 | once timed out, a hunt stays timed out at every later time |
| Hunt.HuntRequest.MarkNotified | src/services/hunt_service.py:55-57 | adds the id to the notified set and changes nothing else |
| Hunt.HuntRequest.MarkAllNotified | src/services/hunt_service.py:169-170 | the notified ids become the old ones plus the experts' ids, in order; nothing else changes |
| Hunt.HuntRequest.Accept | src/services/hunt_service.py:59-70 | succeeds iff neither expired nor accepted; then records the expert and logs the accept callback once, otherwise changes nothing; the hunt invariant is kept |
| Hunt.HuntRequest.Expire | src/services/hunt_service.py:72-77 | an unsettled hunt becomes expired and logs the timeout callback once; a settled hunt is left as it is |
| Hunt.HuntRequest.ExpireIfTimedOut | src/services/hunt_service.py:117-121 | on an unsettled hunt, expires it iff the deadline has passed and reports whether it did; otherwise the hunt is untouched |
| Hunt.AcceptTwiceWithEmptyId | src/services/hunt_service.py:64 | an accept with the empty id does not settle the hunt, so a second accept also succeeds and both callbacks are logged |
| Hunt.RankedMatchesEmpty | src/models/sme.py:79-85 | the query result is empty iff no expert passes the filter |
| Hunt.HuntCandidates | src/services/hunt_service.py:188-209 | the candidates are empty iff no expert has a required tag; they all match, are all available when any match is available, and are ranked |
| Hunt.VipResortChangesNothing | src/services/hunt_service.py:193-201 | the VIP re-sort leaves the candidates unchanged |
| Hunt.HuntCandidatesCount | src/services/hunt_service.py:188-209 | the candidates hold each available match as often as in the database when there is one, otherwise each match |
| Hunt.IdsOfIff | src/services/hunt_service.py:169-170 | the notified ids are exactly the ids of the listed experts |
| Hunt.NotifiedIff | src/services/hunt_service.py:163-170 | a hunt notifies nobody iff no expert has a required tag, and notifies only matching experts |
| Hunt.SoleAvailableCandidate | src/services/hunt_service.py:188-209 | of two matching experts only the available one is a candidate, whatever their ratings |
| Hunt.HuntService.constructor | src/services/hunt_service.py:83-93 | a new service has no active hunts |
| Hunt.HuntService.FindExpertsForHunt | src/services/hunt_service.py:174-209 | the query, the VIP re-sort and the fallback return exactly the hunt candidates |
| Hunt.HuntService.NewHunt | src/services/hunt_service.py:151-172 | builds a fresh, valid, unsettled hunt whose notified ids are the candidates' ids |
| Hunt.HuntService.StartHunt | src/services/hunt_service.py:130-172 | files a new active hunt under the ticket id, replacing any previous one; the other entries are unchanged and the notified set is the candidates' ids |
| Hunt.ReplacedIsOrphaned | src/services/hunt_service.py:160-161 | a hunt replaced under its ticket id is left in no entry of the active hunts |
| Hunt.HuntService.AcceptHunt | src/services/hunt_service.py:211-234 | succeeds iff the ticket has an active hunt; that hunt is accepted, stays valid, keeps its notified set, logs the accept callback once and is removed; otherwise the map is unchanged; no other hunt is touched |
| Hunt.ClaimTwice | src/services/hunt_service.py:223-234 | of two claims on one active ticket the first wins with one callback and the second is refused |
| Hunt.HuntService.CancelHunt | src/services/hunt_service.py:236-245 | removes exactly that id from the active hunts, if present, and keeps the service valid |
| Hunt.HuntService.GetActiveHunt | src/services/hunt_service.py:247-257 | returns a hunt iff the id is active, and it is exactly the hunt filed under that id, unsettled |
| Hunt.HuntService.ExpireOverdue | src/services/hunt_service.py:114-121 | expires exactly the hunts past their deadline, one timeout callback each, collects their ids and leaves the other hunts untouched |
| Hunt.HuntService.RemoveAll | src/services/hunt_service.py:123-125 | pops exactly the collected ids |
| Hunt.HuntService.SweepTimeouts | src/services/hunt_service.py:113-125 | one sweep removes exactly the overdue hunts, each expired with one timeout callback, and leaves the rest untouched |
| Hunt.NotifyOnlyAvailable | src/services/hunt_service.py:151-172 | with one available and one busy billing expert, only the available one is notified |
| Llm.ParseQueryType | src/services/llm_service.py:96-100 | a known value gives its type; any other string gives OTHER |
| Llm.AnyIndicator | src/services/llm_service.py:193 | the `any(...)` scan is true iff some indicator occurs in the text |
| Llm.ClassifyResponseType | src/services/llm_service.py:181-205 | urgent queries escalate; otherwise more-info phrases give REQUEST_MORE_INFO, else escalation phrases give ESCALATE_TO_HUMAN, else DIRECT_ANSWER |
| Llm.CapitalisedScreenshotAsksForMore | src/services/llm_service.py:187-194 | indicators match regardless of case |
| Llm.MoreInfoOutranksEscalation | src/services/llm_service.py:187-202 | a reply with both kinds of phrase asks for more information |
| Llm.Clamp | src/services/llm_service.py:93 | the urgency is clamped into [0, 1] and unchanged inside it |
| Llm.AnalyzeQuery | src/services/llm_service.py:45-106 | an empty query or a failed call gives (OTHER, {}, 0.0); otherwise the type is read lower-cased with "other" as default, the info with {} as default, and the urgency clamped |
| Llm.UnknownTypeIsOther | src/services/llm_service.py:96-100 | a missing type or one that names no type, in any case, yields OTHER |
| Llm.CapitalisedTypeIsRecognised | src/services/llm_service.py:88 | a type given in capitals is recognised |
| Text.Strip | src/app.py:75 | the result is the input with its leading and trailing whitespace removed and nothing else |
| Text.StrippedUnique | src/app.py:75 | there is only one way to strip a string |
| App.StripMention | src/app.py:75 | with a '>', the query is the text after the first '>' with only surrounding whitespace removed; otherwise the text |
| App.MentionEndsAtFirstSeparator | src/app.py:75 | only the first '>' splits; later ones stay in the query |
| App.BasePriority | src/app.py:179-181 | HIGH iff urgency > 0.7, LOW iff urgency <= 0.3 |
| App.DerivePriority | src/app.py:179-185 | a VIP's priority is one step above the score's unless already HIGH; HIGH iff > 0.7 or a VIP above 0.3; LOW iff at most 0.3 and not a VIP |
| App.PriorityMonotone | src/app.py:179-185 | for a fixed level the priority never falls as urgency rises |
| App.VipNeverLower | src/app.py:183-185 | the VIP boost never lowers a priority |
| App.UrgentTicketIff | src/app.py:179-185 | a new ticket is urgent iff urgency > 0.7, or > 0.3 for a VIP |
| App.Title | src/app.py:190 | the topic if present; otherwise the first 50 characters of the text plus "..." exactly when longer |
| App.ExpertiseAreas | src/app.py:219-221 | a truthy list of strings is taken as is and a truthy string as its characters; otherwise the topic is the sole area when present; otherwise an empty string, list or dictionary (or no key) means no area; every other value is one the hunt cannot search |
| App.MissingAndNoneAreasDiffer | src/app.py:219-221 | a missing "expertise_areas" means no area, but an explicit `None` with no topic is not searchable |
| App.EmptyAreasFallBackToTopic | src/app.py:219-221 | an empty list of areas falls back to the topic |
| App.ShouldHuntIff | src/app.py:147 | for a reply that was generated and classified, a hunt starts iff the query is urgent or the reply mentions an escalation phrase and no more-info phrase |
| App.ShouldHunt | src/app.py:147 | an urgent query, or a reply classified as ESCALATE_TO_HUMAN, starts a hunt; a non-urgent query whose reply answers, asks for more or acknowledges starts none |

## Left out

- The timeout thread: `start`, `stop`, the `while self._running` loop and `time.sleep(10)`. One pass of the loop body is `SweepTimeouts(now)`.
- Concurrency. The source has no locking, and the model is sequential.
- Wall-clock reads (`datetime.now()`). Time is the parameter `now`, in whole seconds. ISO date strings are replaced by opaque integer timestamps.
- The callbacks' bodies (ticket assignment and chat messages). They appear only as events in the hunt's log.
- The order in which one sweep invokes the timeout callbacks of several hunts. The sweep picks hunts in no fixed order, and the model proves the result for every order.
- Slack plumbing, OpenAI calls and prompts, `generate_initial_response`, file storage and settings loading. These are I/O and foreign calls. The default hunt timeout is a constructor parameter of `HuntService`.
- Lower-casing covers ASCII only. Python's Unicode case mapping is not modelled.
- Pydantic coercion of wrong-typed values is not modelled: `from_dict` rejects them with an error.
- `from_dict` returns the ticket's fields as a value rather than a new object.
- Ticket `created_at`/`updated_at` defaults are not modelled. In the source they are evaluated once, when the module is imported.
- Llm.AnalyzeQuery: an `extracted_info` that is not a dictionary, and urgency values that `float()` would convert from strings, are not modelled. A reply that makes `float()` raise is a failed call (`None`).
- App.Title: a topic that is not a string is reported as `None`. The source would raise later, in ticket validation.
- App.ExpertiseAreas: `None` stands for a value the hunt cannot search. These are a list holding a non-string, a topic that is not a string, and a falsy `None`, `False` or `0` with no topic. The source passes such a value on to `start_hunt`, which files the hunt and then raises in the ranking (`AttributeError` or `TypeError`) as soon as it examines an expert; with no expert to examine it would notify nobody.
- App.ExpertiseAreas: a non-empty dictionary of areas, and a truthy integer or `True`, are also `None`. A dictionary of areas is not represented in the model, whose areas are always a list of strings; in Python the hunt would search the dictionary's keys. An integer raises `TypeError` once an expert is examined.
- App.ShouldHuntIff: the escalation when `generate_initial_response` fails is not modelled, because that function is left out.
- Users.UserLevelDatabase.GetUserLevel: the user-levels file is taken as well-typed. A stored `"level": null` or a non-string level (on which `.lower()` raises `AttributeError`) cannot be represented, nor can a stored tags value that is not a list (which `get_user_tags` returns as is).
- Callbacks are assumed to return normally. In the source, a raising accept callback leaves an accepted hunt in the active map (the `pop` in `accept_hunt` is never reached), and a raising timeout callback leaves an expired hunt there and ends the sweep thread, after which no hunt times out. `HuntService.Valid()` (every active hunt unsettled) relies on this assumption.
- Sme.SmeDatabase.constructor: takes already-decoded experts. Decoding each record is `ExpertFromDict`.
- Hunt.HuntService.FindExpertsForHunt: the ticket priority passed by `start_hunt` is unused in the source and is not a parameter.
- `list.sort` is modelled by a stable insertion sort on values, proved to be a permutation, ordered and stable.
