/**
  The expert hunt (src/services/hunt_service.py): a `HuntRequest` is a small state machine
  that starts active and is settled at most once, either by an expert accepting it or by
  expiring; `HuntService` keeps the active hunts by ticket id, starts, accepts and cancels
  them, and sweeps the overdue ones.

  Time is an integer number of seconds passed in as `now`. The callbacks the source invokes
  are recorded in each hunt's `events` log; `hasAcceptCallback`/`hasTimeoutCallback` say
  whether a callback was supplied (the source tests each for truthiness before calling it).
*/
module Hunt {
  import opened Wrappers
  import opened Users
  import opened Tickets
  import opened Sme
  import opened StableSort

  /** One invocation of a hunt callback. */
  datatype HuntEvent = Accepted(expertId: string, expertName: string) | TimedOut

  /** An event that settles the hunt: a timeout, or an acceptance by a non-empty id (an empty
      id is falsy in the source, so accepting with it leaves the hunt open). */
  predicate Settles(ev: HuntEvent) {
    ev.TimedOut? || ev.expertId != ""
  }

  /** The number of settling events in a log. */
  function SettleCount(events: seq<HuntEvent>): nat {
    if events == [] then 0
    else SettleCount(events[..|events| - 1]) + (if Settles(events[|events| - 1]) then 1 else 0)
  }

  lemma {:induction false} SettleCountZero(events: seq<HuntEvent>)
    requires SettleCount(events) == 0
    ensures forall i :: 0 <= i < |events| ==> !Settles(events[i])
  {
    if events != [] {
      var init := events[..|events| - 1];
      SettleCountZero(init);
      forall i | 0 <= i < |events| - 1 ensures !Settles(events[i]) {
        assert events[i] == init[i];
      }
    }
  }

  lemma SettleCountSnoc(events: seq<HuntEvent>, ev: HuntEvent)
    ensures SettleCount(events + [ev]) == SettleCount(events) + (if Settles(ev) then 1 else 0)
  {
    assert (events + [ev])[..|events|] == events;
  }

  /** `timeout_minutes or settings.hunt_timeout_minutes`: a missing or zero timeout (both
      falsy) falls back to the configured default; any other value, negative ones included,
      is kept. */
  function EffectiveTimeout(timeoutMinutes: Option<int>, defaultMinutes: int): (m: int)
    ensures timeoutMinutes == None || timeoutMinutes == Some(0) ==> m == defaultMinutes
    ensures timeoutMinutes.Some? && timeoutMinutes.value != 0 ==> m == timeoutMinutes.value
  {
    match timeoutMinutes
    case Some(t) => if t != 0 then t else defaultMinutes
    case None => defaultMinutes
  }

  /** The Slack ids of the first `n` experts of a list. */
  function IdsOfFirst(experts: seq<Expert>, n: nat): set<string>
    requires n <= |experts|
  {
    if n == 0 then {} else IdsOfFirst(experts, n - 1) + {experts[n - 1].slackId}
  }

  /** The Slack ids of a list of experts. */
  function IdsOf(experts: seq<Expert>): set<string> {
    IdsOfFirst(experts, |experts|)
  }

  /** `IdsOf` holds exactly the ids of the listed experts. */
  lemma IdsOfIff(experts: seq<Expert>, id: string)
    ensures id in IdsOf(experts) <==> exists e :: e in experts && e.slackId == id
  {
    IdsOfFirstIff(experts, |experts|, id);
  }

  lemma {:induction false} IdsOfFirstIff(experts: seq<Expert>, n: nat, id: string)
    requires n <= |experts|
    ensures id in IdsOfFirst(experts, n) <==> exists k :: 0 <= k < n && experts[k].slackId == id
  {
    if n > 0 {
      IdsOfFirstIff(experts, n - 1, id);
    }
  }

  class HuntRequest {
    const ticket: Ticket
    const requiredExpertise: seq<string>
    const hasAcceptCallback: bool
    const hasTimeoutCallback: bool
    const timeoutMinutes: int
    const createdAt: Timestamp
    const expiresAt: Timestamp
    var notifiedExperts: set<string>
    var acceptedBy: Option<string>
    var isExpired: bool
    var events: seq<HuntEvent>

    /** `accepted_by` is truthy: set, and not the empty string. */
    predicate IsAccepted()
      reads this
    {
      acceptedBy.Some? && acceptedBy.value != ""
    }

    predicate IsSettled()
      reads this
    {
      isExpired || IsAccepted()
    }

    /** An event of the log agrees with the state: a timeout was only reported for an expired
        hunt and a settling acceptance names the accepting expert. */
    predicate EventAgrees(ev: HuntEvent)
      reads this
    {
      match ev
      case TimedOut => isExpired && hasTimeoutCallback
      case Accepted(id, _) => hasAcceptCallback && (id != "" ==> acceptedBy == Some(id))
    }

    /** The invariant of a hunt: the deadline is the creation time plus the timeout, accepted
        and expired never hold together, and exactly one settling callback was invoked iff the
        hunt is settled and the matching callback was supplied (so never two). */
    ghost predicate Valid()
      reads this
    {
      && expiresAt == createdAt + 60 * timeoutMinutes
      && !(IsAccepted() && isExpired)
      && SettleCount(events) == (if (isExpired && hasTimeoutCallback) || (IsAccepted() && hasAcceptCallback) then 1 else 0)
      && (forall i :: 0 <= i < |events| ==> EventAgrees(events[i]))
    }

    /** `HuntRequest.__init__`: created now, active, nobody notified. */
    constructor (ticket: Ticket, requiredExpertise: seq<string>, hasAcceptCallback: bool,
                 hasTimeoutCallback: bool, timeoutMinutes: Option<int>, defaultMinutes: int, now: Timestamp)
      ensures Valid()
      ensures this.ticket == ticket && this.requiredExpertise == requiredExpertise
      ensures this.hasAcceptCallback == hasAcceptCallback && this.hasTimeoutCallback == hasTimeoutCallback
      ensures this.timeoutMinutes == EffectiveTimeout(timeoutMinutes, defaultMinutes)
      ensures createdAt == now && expiresAt == now + 60 * this.timeoutMinutes
      ensures notifiedExperts == {} && acceptedBy == None && !isExpired && events == []
    {
      this.ticket := ticket;
      this.requiredExpertise := requiredExpertise;
      this.hasAcceptCallback := hasAcceptCallback;
      this.hasTimeoutCallback := hasTimeoutCallback;
      var minutes := EffectiveTimeout(timeoutMinutes, defaultMinutes);
      this.timeoutMinutes := minutes;
      createdAt := now;
      expiresAt := now + 60 * minutes;
      notifiedExperts := {};
      acceptedBy := None;
      isExpired := false;
      events := [];
    }

    /** `is_timed_out`: strictly past the deadline, that is, more than the timeout after
        creation; at the deadline itself the hunt is not yet timed out. */
    function IsTimedOut(now: Timestamp): (r: bool)
      requires Valid()
      reads this
      ensures r <==> now - createdAt > 60 * timeoutMinutes
    {
      now > expiresAt
    }

    /** Once timed out, a hunt stays timed out. */
    lemma TimedOutStays(now: Timestamp, later: Timestamp)
      requires Valid() && now <= later && IsTimedOut(now)
      ensures IsTimedOut(later)
    {
    }

    /** `mark_notified`: adds the id to the notified set and changes nothing else. */
    method MarkNotified(expertId: string)
      requires Valid()
      modifies this
      ensures Valid()
      ensures notifiedExperts == old(notifiedExperts) + {expertId}
      ensures acceptedBy == old(acceptedBy) && isExpired == old(isExpired) && events == old(events)
    {
      notifiedExperts := notifiedExperts + {expertId};
    }

    /** The notification loop of `start_hunt`: marks every listed expert as notified, one at a
        time, and changes nothing else. */
    method MarkAllNotified(experts: seq<Expert>)
      requires Valid()
      modifies this
      ensures Valid()
      ensures notifiedExperts == old(notifiedExperts) + IdsOf(experts)
      ensures acceptedBy == old(acceptedBy) && isExpired == old(isExpired) && events == old(events)
    {
      for i := 0 to |experts|
        invariant Valid()
        invariant notifiedExperts == old(notifiedExperts) + IdsOfFirst(experts, i)
        invariant acceptedBy == old(acceptedBy) && isExpired == old(isExpired) && events == old(events)
      {
        MarkNotified(experts[i].slackId);
      }
    }

    /** `accept`: refused, with nothing changed, when the hunt has expired or was accepted;
        otherwise records the expert and invokes the accept callback, if any, once. */
    method Accept(expertId: string, expertName: string) returns (ok: bool)
      requires Valid()
      modifies this
      ensures Valid()
      ensures ok <==> !old(isExpired) && !old(IsAccepted())
      ensures ok ==>
        && acceptedBy == Some(expertId) && isExpired == old(isExpired)
        && notifiedExperts == old(notifiedExperts)
        && events == old(events) + (if hasAcceptCallback then [Accepted(expertId, expertName)] else [])
      ensures !ok ==> unchanged(this)
    {
      if isExpired {
        return false;
      }
      if acceptedBy.Some? && acceptedBy.value != "" {
        return false;
      }
      acceptedBy := Some(expertId);
      SettleCountZero(events);
      if hasAcceptCallback {
        SettleCountSnoc(events, Accepted(expertId, expertName));
        events := events + [Accepted(expertId, expertName)];
      }
      ok := true;
    }

    /** None of the hunt's fields changed since the previous state. */
    twostate predicate Untouched()
      reads this
    {
      && notifiedExperts == old(notifiedExperts) && acceptedBy == old(acceptedBy)
      && isExpired == old(isExpired) && events == old(events)
    }

    /** Since the previous state, the hunt was expired by its timeout: it is expired, keeps
        its acceptance and notifications, and logged the timeout callback once if it has one. */
    twostate predicate ExpiredSince()
      reads this
    {
      && Valid() && isExpired && acceptedBy == old(acceptedBy)
      && notifiedExperts == old(notifiedExperts)
      && events == old(events) + (if hasTimeoutCallback then [TimedOut] else [])
    }

    /** `expire`: an unsettled hunt becomes expired and invokes the timeout callback, if any,
        once; a settled hunt is left exactly as it is. */
    method Expire()
      requires Valid()
      modifies this
      ensures Valid()
      ensures old(IsSettled()) ==> unchanged(this)
      ensures !old(IsSettled()) ==> ExpiredSince()
    {
      if !isExpired && !(acceptedBy.Some? && acceptedBy.value != "") {
        isExpired := true;
        if hasTimeoutCallback {
          SettleCountSnoc(events, TimedOut);
          events := events + [TimedOut];
        }
      }
    }

    /** The step the timeout sweep takes for one active hunt: expire it when it has timed out
        at `now` and is not expired yet, and report whether it did. */
    method ExpireIfTimedOut(now: Timestamp) returns (due: bool)
      requires Valid() && !IsSettled()
      modifies this
      ensures due <==> now > expiresAt
      ensures due ==> ExpiredSince()
      ensures !due ==> Untouched()
    {
      due := IsTimedOut(now) && !isExpired;
      if due {
        Expire();
      }
    }
  }

  /** The database query comes back empty exactly when no expert passes its filter. */
  lemma RankedMatchesEmpty(experts: seq<Expert>, required: seq<string>, availableOnly: bool)
    ensures RankedMatches(experts, required, availableOnly) == []
        <==> forall e :: e in experts ==> !Qualifies(e, required, availableOnly)
  {
    var r := RankedMatches(experts, required, availableOnly);
    if r == [] {
      forall e | e in experts ensures !Qualifies(e, required, availableOnly) {
        assert multiset(r)[e] == 0;
      }
    } else {
      assert r[0] in r;
    }
  }

  /** The experts `_find_experts_for_hunt` returns: the available matches (re-sorted by the
      same key for a VIP requester), or, when there are none, every match regardless of
      availability. */
  function HuntCandidates(experts: seq<Expert>, level: UserLevel, required: seq<string>): (r: seq<Expert>)
    ensures r == [] <==> forall e :: e in experts ==> !HasAnyExpertise(e, required)
    ensures forall e :: e in r ==> e in experts && HasAnyExpertise(e, required)
    ensures (exists e :: e in experts && Qualifies(e, required, true)) ==>
      forall e :: e in r ==> IsAvailable(e)
    ensures Ranked(r, RankOf(required))
  {
    var available := RankedMatches(experts, required, true);
    var sorted := if level == Vip then SortByRank(available, required) else available;
    SortRankedIsIdentity(available, RankOf(required));
    assert sorted == available;
    RankedMatchesEmpty(experts, required, true);
    RankedMatchesEmpty(experts, required, false);
    if sorted == [] then RankedMatches(experts, required, false) else sorted
  }

  /** The VIP re-sort uses the key the database query already sorted by, so it leaves the
      list as it is: the candidates do not depend on the requester's level. */
  lemma VipResortChangesNothing(experts: seq<Expert>, required: seq<string>)
    ensures HuntCandidates(experts, Vip, required) == HuntCandidates(experts, Regular, required)
  {
    SortRankedIsIdentity(RankedMatches(experts, required, true), RankOf(required));
  }

  /** The candidates are exactly the available matches when there are any, and otherwise all
      matches: each expert occurs as often as in the database. */
  lemma HuntCandidatesCount(experts: seq<Expert>, level: UserLevel, required: seq<string>, e: Expert)
    ensures (exists x :: x in experts && Qualifies(x, required, true)) ==>
      multiset(HuntCandidates(experts, level, required))[e] == if Qualifies(e, required, true) then multiset(experts)[e] else 0
    ensures (forall x :: x in experts ==> !Qualifies(x, required, true)) ==>
      multiset(HuntCandidates(experts, level, required))[e] == if HasAnyExpertise(e, required) then multiset(experts)[e] else 0
  {
    VipResortChangesNothing(experts, required);
    RankedMatchesEmpty(experts, required, true);
  }

  /** A hunt notifies somebody exactly when some expert of the database has a required tag,
      and every notified id belongs to such an expert. */
  lemma NotifiedIff(experts: seq<Expert>, level: UserLevel, required: seq<string>)
    ensures IdsOf(HuntCandidates(experts, level, required)) == {}
        <==> forall e :: e in experts ==> !HasAnyExpertise(e, required)
    ensures forall id :: id in IdsOf(HuntCandidates(experts, level, required)) ==>
      exists e :: e in experts && HasAnyExpertise(e, required) && e.slackId == id
  {
    var r := HuntCandidates(experts, level, required);
    if r != [] {
      IdsOfIff(r, r[0].slackId);
    }
    forall id | id in IdsOf(r) ensures exists e :: e in experts && HasAnyExpertise(e, required) && e.slackId == id {
      IdsOfIff(r, id);
    }
  }

  /** Filing a new hunt under a ticket id that already has one leaves the old hunt in no entry
      of the map, when every entry is filed under its own ticket id. */
  lemma ReplacedIsOrphaned(hunts: map<string, HuntRequest>, id: string, hunt: HuntRequest)
    requires id in hunts && hunts[id] != hunt
    requires forall k :: k in hunts ==> hunts[k].ticket.id == k
    ensures hunts[id] !in hunts[id := hunt].Values
  {
    var filed := hunts[id := hunt];
    forall k | k in filed ensures filed[k] != hunts[id] {
      if k != id {
        assert hunts[k].ticket.id != hunts[id].ticket.id;
      }
    }
  }

  class HuntService {
    const smeDatabase: SmeDatabase
    const defaultTimeoutMinutes: int
    var activeHunts: map<string, HuntRequest>

    /** The invariant of the service: every hunt is filed under its ticket's id (so distinct
        ids hold distinct hunts), keeps its own invariant, and is still unsettled. */
    ghost predicate Valid()
      reads this, activeHunts.Values
    {
      forall id :: id in activeHunts ==>
        && activeHunts[id].ticket.id == id
        && activeHunts[id].Valid()
        && !activeHunts[id].IsSettled()
    }

    /** `HuntService.__init__`, with the configured default timeout. */
    constructor (smeDatabase: SmeDatabase, defaultTimeoutMinutes: int)
      ensures Valid()
      ensures this.smeDatabase == smeDatabase && this.defaultTimeoutMinutes == defaultTimeoutMinutes
      ensures activeHunts == map[]
    {
      this.smeDatabase := smeDatabase;
      this.defaultTimeoutMinutes := defaultTimeoutMinutes;
      activeHunts := map[];
    }

    /** `_find_experts_for_hunt` (the ticket priority it is passed is unused). */
    method FindExpertsForHunt(user: User, required: seq<string>) returns (experts: seq<Expert>)
      ensures experts == HuntCandidates(smeDatabase.experts, user.level, required)
    {
      experts := smeDatabase.FindExpertsByExpertise(required, true);
      if user.level == Vip {
        experts := SortByRank(experts, required);
      }
      if experts == [] {
        experts := smeDatabase.FindExpertsByExpertise(required, false);
      }
    }

    /** `start_hunt`: files a new hunt under the ticket's id, replacing any hunt already there
        (which is left untouched), and marks every candidate expert as notified. */
    method StartHunt(ticket: Ticket, required: seq<string>, hasAcceptCallback: bool,
                     hasTimeoutCallback: bool, timeoutMinutes: Option<int>, now: Timestamp)
      returns (hunt: HuntRequest)
      requires Valid()
      modifies this
      ensures Valid()
      ensures fresh(hunt)
      ensures activeHunts == old(activeHunts)[ticket.id := hunt]
      ensures hunt.ticket == ticket && hunt.requiredExpertise == required
      ensures hunt.hasAcceptCallback == hasAcceptCallback && hunt.hasTimeoutCallback == hasTimeoutCallback
      ensures hunt.createdAt == now && hunt.expiresAt == now + 60 * EffectiveTimeout(timeoutMinutes, defaultTimeoutMinutes)
      ensures hunt.notifiedExperts == IdsOf(HuntCandidates(smeDatabase.experts, ticket.user.level, required))
      ensures hunt.acceptedBy == None && !hunt.isExpired && hunt.events == []
    {
      // The source files the hunt before notifying; nothing in between reads the active hunts.
      hunt := NewHunt(ticket, required, hasAcceptCallback, hasTimeoutCallback, timeoutMinutes, now);
      activeHunts := activeHunts[ticket.id := hunt];
    }

    /** The hunt `start_hunt` creates, with every candidate expert marked as notified. */
    method NewHunt(ticket: Ticket, required: seq<string>, hasAcceptCallback: bool,
                   hasTimeoutCallback: bool, timeoutMinutes: Option<int>, now: Timestamp)
      returns (hunt: HuntRequest)
      ensures fresh(hunt) && hunt.Valid()
      ensures hunt.ticket == ticket && hunt.requiredExpertise == required
      ensures hunt.hasAcceptCallback == hasAcceptCallback && hunt.hasTimeoutCallback == hasTimeoutCallback
      ensures hunt.createdAt == now && hunt.expiresAt == now + 60 * EffectiveTimeout(timeoutMinutes, defaultTimeoutMinutes)
      ensures hunt.notifiedExperts == IdsOf(HuntCandidates(smeDatabase.experts, ticket.user.level, required))
      ensures hunt.acceptedBy == None && !hunt.isExpired && hunt.events == []
    {
      hunt := new HuntRequest(ticket, required, hasAcceptCallback, hasTimeoutCallback, timeoutMinutes, defaultTimeoutMinutes, now);
      var experts := FindExpertsForHunt(ticket.user, required);
      hunt.MarkAllNotified(experts);
    }

    /** `accept_hunt`: for an active ticket, the hunt is accepted by the expert (invoking the
        accept callback once) and removed; for any other id the call fails and nothing
        changes. No other hunt is touched. */
    method AcceptHunt(ticketId: string, expertId: string, expertName: string) returns (ok: bool)
      requires Valid()
      modifies this, activeHunts.Values
      ensures Valid()
      ensures ok <==> ticketId in old(activeHunts)
      ensures !ok ==> activeHunts == old(activeHunts)
      ensures ok ==> activeHunts == old(activeHunts) - {ticketId}
      ensures ok ==> var hunt := old(activeHunts)[ticketId];
        && hunt.Valid() && hunt.acceptedBy == Some(expertId) && !hunt.isExpired
        && hunt.notifiedExperts == old(hunt.notifiedExperts)
        && hunt.events == old(hunt.events) + (if hunt.hasAcceptCallback then [Accepted(expertId, expertName)] else [])
      ensures forall h :: h in old(activeHunts.Values) && h.ticket.id != ticketId ==> unchanged(h)
    {
      if ticketId !in activeHunts {
        return false;
      }
      var hunt := activeHunts[ticketId];
      ok := hunt.Accept(expertId, expertName);
      if ok {
        activeHunts := activeHunts - {ticketId};
      }
    }

    /** `cancel_hunt`: drops the id from the active hunts, invoking no callback and touching no
        hunt; a second cancel changes nothing. */
    method CancelHunt(ticketId: string)
      requires Valid()
      modifies this
      ensures Valid()
      ensures activeHunts == old(activeHunts) - {ticketId}
    {
      if ticketId in activeHunts {
        activeHunts := activeHunts - {ticketId};
      }
    }

    /** `get_active_hunt`: the hunt filed under the id, if any. */
    function GetActiveHunt(ticketId: string): (r: Option<HuntRequest>)
      requires Valid()
      reads this, activeHunts.Values
      ensures r.Some? <==> ticketId in activeHunts
      ensures r.Some? ==> r.value == activeHunts[ticketId]
      ensures r.Some? ==> r.value.ticket.id == ticketId && !r.value.IsSettled()
    {
      if ticketId in activeHunts then Some(activeHunts[ticketId]) else None
    }

    /** The first half of a sweep: every hunt past its deadline at `now` is expired (invoking
        its timeout callback once), in no particular order, and its id collected; the other
        hunts and the map itself are untouched. */
    method ExpireOverdue(now: Timestamp) returns (expired: seq<string>)
      requires Valid()
      modifies activeHunts.Values
      ensures forall id :: id in expired <==> id in activeHunts && now > activeHunts[id].expiresAt
      ensures forall id :: id in activeHunts && now > activeHunts[id].expiresAt ==> activeHunts[id].ExpiredSince()
      ensures forall id :: id in activeHunts && now <= activeHunts[id].expiresAt ==> activeHunts[id].Untouched()
    {
      var hunts := activeHunts;
      var pending := hunts.Keys;
      expired := [];
      while pending != {}
        invariant pending <= hunts.Keys
        invariant forall id :: id in expired <==> id in hunts && id !in pending && now > hunts[id].expiresAt
        invariant forall id :: id in hunts && (id in pending || now <= hunts[id].expiresAt) ==> hunts[id].Untouched()
        invariant forall id :: id in hunts && id !in pending && now > hunts[id].expiresAt ==> hunts[id].ExpiredSince()
        decreases pending
      {
        var id :| id in pending;
        var due := hunts[id].ExpireIfTimedOut(now);
        if due {
          expired := expired + [id];
        }
        pending := pending - {id};
      }
    }

    /** The second half of a sweep: each collected id is popped from the active hunts. */
    method RemoveAll(ids: seq<string>)
      modifies this
      ensures activeHunts == map id | id in old(activeHunts) && id !in ids :: old(activeHunts)[id]
    {
      for j := 0 to |ids|
        invariant activeHunts == map id | id in old(activeHunts) && id !in ids[..j] :: old(activeHunts)[id]
      {
        assert ids[..j + 1] == ids[..j] + [ids[j]];
        activeHunts := activeHunts - {ids[j]};
      }
      assert ids[..|ids|] == ids;
    }

    /** One pass of `_monitor_timeouts`: every hunt past its deadline is expired (invoking its
        timeout callback once) and removed; the other hunts stay active and untouched. */
    method SweepTimeouts(now: Timestamp)
      requires Valid()
      modifies this, activeHunts.Values
      ensures Valid()
      ensures activeHunts == map id | id in old(activeHunts) && now <= old(activeHunts)[id].expiresAt :: old(activeHunts)[id]
      ensures forall id :: id in old(activeHunts) && now > old(activeHunts)[id].expiresAt ==>
        old(activeHunts)[id].ExpiredSince()
      ensures forall id :: id in activeHunts ==> activeHunts[id].Untouched()
    {
      var expired := ExpireOverdue(now);
      RemoveAll(expired);
    }
  }

  /** The source's truthiness test lets an accept with an empty expert id through without
      settling the hunt, so a second accept succeeds too and the accept callback runs twice. */
  method AcceptTwiceWithEmptyId(hunt: HuntRequest, name: string, expertId: string, expertName: string)
    returns (first: bool, second: bool)
    requires hunt.Valid() && !hunt.IsSettled() && hunt.hasAcceptCallback && expertId != ""
    modifies hunt
    ensures first && second
    ensures hunt.acceptedBy == Some(expertId)
    ensures hunt.events == old(hunt.events) + [Accepted("", name), Accepted(expertId, expertName)]
  {
    first := hunt.Accept("", name);
    second := hunt.Accept(expertId, expertName);
  }

  /** When of two matching experts only the first is available, only it is a candidate,
      whatever the requester's level (B's higher rating does not matter). */
  lemma SoleAvailableCandidate(a: Expert, b: Expert, level: UserLevel, required: seq<string>)
    requires Qualifies(a, required, true) && HasAnyExpertise(b, required) && !IsAvailable(b)
    ensures HuntCandidates([a, b], level, required) == [a]
  {
    MatchingFirstOfTwo(a, b, required, true);
    SortSingleton(a, RankOf(required));
    assert RankedMatches([a, b], required, true) == [a];
  }

  /** Two claims on the same active ticket: the first wins and fires the accept callback
      once, the second is refused, whoever makes it. */
  method ClaimTwice(service: HuntService, ticketId: string, firstId: string, firstName: string,
                    secondId: string, secondName: string)
    returns (first: bool, second: bool)
    requires service.Valid() && ticketId in service.activeHunts
    modifies service, service.activeHunts.Values
    ensures first && !second
    ensures ticketId !in service.activeHunts
    ensures var hunt := old(service.activeHunts)[ticketId];
      && hunt.acceptedBy == Some(firstId)
      && hunt.events == old(hunt.events) + (if hunt.hasAcceptCallback then [Accepted(firstId, firstName)] else [])
  {
    first := service.AcceptHunt(ticketId, firstId, firstName);
    second := service.AcceptHunt(ticketId, secondId, secondName);
  }

  /** The worked example: a hunt for a ticket needing "billing", with A available and B
      rated higher but busy, notifies only A. */
  method NotifyOnlyAvailable(a: Expert, b: Expert, ticket: Ticket, now: Timestamp) returns (hunt: HuntRequest)
    requires Qualifies(a, ["billing"], true) && HasAnyExpertise(b, ["billing"]) && !IsAvailable(b)
    ensures hunt.notifiedExperts == {a.slackId}
  {
    var db := new SmeDatabase([a, b]);
    var service := new HuntService(db, 30);
    hunt := service.StartHunt(ticket, ["billing"], true, true, None, now);
    SoleAvailableCandidate(a, b, ticket.user.level, ["billing"]);
    assert IdsOf([a]) == IdsOfFirst([a], 0) + {a.slackId};
  }
}
