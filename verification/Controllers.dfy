/** The controllers, changing the external stores call by call: each handler does to them exactly
    what an attempt at its plan does, whatever fails on the way. */
module Controllers {
  import opened Wrappers
  import opened Domain
  import opened Dedupe
  import opened Machine
  import opened Handlers
  import opened Adapters
  import Blacklist
  import Constraints
  import Email

  class ChatController {
    const outside: Outside

    constructor (outside: Outside)
      ensures this.outside == outside
    {
      this.outside := outside;
    }

    method CreateChat(channel: Uid, dedupeKey: Option<string>, ghost ceId: string) returns (ok: bool)
      requires outside.Going() && dedupeKey == Key(ceId, [CHAT_CREATED, channel])
      modifies outside
      ensures outside.Valid() && ok == outside.trail.alive
      ensures (outside.trail, outside.fates)
              == Attempt([CreateChannel(channel), Publish(ceId, ChatStep(true, channel), Fixed(ChatCreated(channel)))],
                         old(outside.trail), old(outside.fates))
      ensures outside.trail.regs == old(outside.trail).regs
    {
      ghost var announce := Publish(ceId, ChatStep(true, channel), Fixed(ChatCreated(channel)));
      AttemptSplit([CreateChannel(channel)], [announce], outside.trail, outside.fates);
      ok := outside.CreateChat(channel);
      if ok {
        ok := outside.SendEvent(ChatCreated(channel), dedupeKey, announce);
      }
    }

    method DeleteChat(channel: Uid, uid: Uid, hard: bool, dedupeKey: Option<string>,
                      ghost ceId: string) returns (ok: bool)
      requires outside.Going() && dedupeKey == Key(ceId, [CHAT_DELETED, channel])
      modifies outside
      ensures outside.Valid() && ok == outside.trail.alive
      ensures (outside.trail, outside.fates)
              == Attempt(DeleteChatPlan(channel, uid, hard, ceId), old(outside.trail), old(outside.fates))
      ensures outside.trail.regs == old(outside.trail).regs
    {
      ghost var announce := Publish(ceId, ChatStep(false, channel), Fixed(ChatDeleted(channel, uid)));
      AttemptSplit([DeleteChannel(channel, hard)], [announce], outside.trail, outside.fates);
      ok := outside.DeleteChat(channel, hard);
      if ok {
        ok := outside.SendEvent(ChatDeleted(channel, uid), dedupeKey, announce);
      }
    }
  }

  // The external id to move from, as the arguments of create_meeting_url give it.
  function MovedFrom(role: Role, uid: Uid, previous: Option<Uid>, replace: bool): Option<string> {
    if replace then Some(KeyOf(role, uid))
    else if Truthy(previous) then Some(KeyOf(role, previous.value))
    else None
  }

  function RoleOf(prefix: string): Role { if prefix != "" then Client else Organizer }

  lemma PrefixedKey(prefix: string, uid: Uid)
    requires prefix == "" || prefix == CLIENT_PREFIX
    ensures prefix + uid == KeyOf(RoleOf(prefix), uid)
  {
    assert "" + uid == uid;
  }

  class MeetingController {
    const outside: Outside

    constructor (outside: Outside)
      ensures this.outside == outside
    {
      this.outside := outside;
    }

    method ResolveShortUrl(page: Page, key: string, oldKey: Option<string>) returns (ident: Option<nat>, ok: bool)
      requires outside.Going() && outside.trail.regs.Ident(page.role).None?
      modifies outside
      ensures outside.Valid() && ok == outside.trail.alive
      ensures (outside.trail, outside.fates)
              == Attempt(ResolvePlan(oldKey, key, page), old(outside.trail), old(outside.fates))
      ensures ok ==> outside.trail.regs == old(outside.trail).regs.Set(page.role, ident)
    {
      if oldKey.None? {
        ident, ok := outside.CreateUrl(key, page);
        return;
      }
      AttemptSplit([MoveLink(oldKey.value, key, page)], [CreateLink(key, page)], outside.trail, outside.fates);
      ident, ok := outside.UpdateUrlData(page, key, oldKey.value);
      if ok && ident.None? {
        ident, ok := outside.CreateUrl(key, page);
      }
    }

    method CreateMeetingUrl(b: Booking, p: Person, prefix: string, previous: Option<Uid>, replace: bool,
                            dedupeKey: Option<string>, ghost ceId: string)
      returns (url: Url, ok: bool)
      requires prefix == "" || prefix == CLIENT_PREFIX
      requires outside.Going() && outside.trail.regs.Ident(RoleOf(prefix)).None?
      requires dedupeKey == Key(ceId, [URL_CREATED, RoleName(RoleOf(prefix))])
      modifies outside
      ensures outside.Valid() && ok == outside.trail.alive
      ensures var role := RoleOf(prefix);
              var page := PageFor(b, p, role);
              && (outside.trail, outside.fates)
                 == Attempt(ResolvePlan(MovedFrom(role, b.uid, previous, replace), KeyOf(role, b.uid), page)
                            + [Publish(ceId, UrlStep(true, RoleName(role)),
                                       AnnounceUrl(b.uid, Recipient(p.email, role), page))],
                            old(outside.trail), old(outside.fates))
              && (ok ==> url == outside.trail.regs.UrlOf(page)
                         && outside.trail.regs == old(outside.trail).regs.Set(role, outside.trail.regs.Ident(role)))
    {
      var role := if prefix != "" then Client else Organizer;
      var page := Page(b.uid, p.name, p.email, role, role == Organizer, b.start - BUFFER_MICROS, b.end + BUFFER_MICROS);
      var key := prefix + b.uid;
      var oldKey := None;
      if Truthy(previous) {
        oldKey := Some(prefix + previous.value);
      }
      if replace {
        oldKey := Some(key);
      }
      PrefixedKey(prefix, b.uid);
      if previous.Some? {
        PrefixedKey(prefix, previous.value);
      }
      ghost var announce := Publish(ceId, UrlStep(true, RoleName(role)),
                                    AnnounceUrl(b.uid, Recipient(p.email, role), page));
      AttemptSplit(ResolvePlan(oldKey, key, page), [announce], outside.trail, outside.fates);
      var ident;
      ident, ok := ResolveShortUrl(page, key, oldKey);
      url := if ident.Some? then Short(ident.value) else Long(page);
      if ok {
        ok := outside.SendEvent(UrlCreated(b.uid, Recipient(p.email, role), url), dedupeKey, announce);
      }
    }

    method DeleteMeetingUrl(b: Booking, prefix: string, dedupeKey: Option<string>,
                            ghost ceId: string) returns (ok: bool)
      requires prefix == "" || prefix == CLIENT_PREFIX
      requires outside.Going() && dedupeKey == Key(ceId, [URL_DELETED, RoleName(RoleOf(prefix))])
      modifies outside
      ensures outside.Valid() && ok == outside.trail.alive
      ensures (outside.trail, outside.fates)
              == Attempt(DeleteUrlPlan(b, RoleOf(prefix), ceId), old(outside.trail), old(outside.fates))
    {
      var key := prefix + b.uid;
      PrefixedKey(prefix, b.uid);
      ghost var r0, f0 := outside.trail, outside.fates;
      ok := outside.DeleteUrl(key);
      var role := if prefix != "" then Client else Organizer;
      var participant := if prefix != "" then b.client else b.user;
      if participant.None? {
        assert DeleteUrlPlan(b, role, ceId) == [DeleteLink(key)];
        return;
      }
      var to := Recipient(participant.value.email, role);
      ghost var announce := Publish(ceId, UrlStep(false, RoleName(role)), Fixed(UrlDeleted(b.uid, to)));
      assert DeleteUrlPlan(b, role, ceId) == [DeleteLink(key)] + [announce];
      AttemptSplit([DeleteLink(key)], [announce], r0, f0);
      if ok {
        ok := outside.SendEvent(UrlDeleted(b.uid, to), dedupeKey, announce);
      }
    }
  }

  // ----- The orchestrator -----

  datatype MeetingUrls = MeetingUrls(organizer: Option<Url>, client: Option<Url>) {
    function Of(role: Role): Option<Url> { if role == Client then client else organizer }
  }

  // The urls a handler holds after its registers, each participant's own.
  function UrlsOf(b: Booking, regs: Regs): MeetingUrls {
    MeetingUrls(if b.user.Some? then Some(regs.UrlOf(PageFor(b, b.user.value, Organizer))) else None,
                if b.client.Some? then Some(regs.UrlOf(PageFor(b, b.client.value, Client))) else None)
  }

  // What the checks before a created booking read: the cache's clock and the blacklist service's
  // answer, the client's history, the calendar and the wall clock.
  datatype Checks = Checks(clock: int, reply: Blacklist.Reply,
                           history: seq<Constraints.AttendeeBooking>, calendar: Constraints.Calendar, now: int)

  const BLACKLIST_REJECTION_REASON := "Booking was rejected. Please contact the organizer."

  function Reason(r: Constraints.ConstraintsResult): string {
    match r.rejectionType
    case None => "Active future booking already exists"
    case Some(MonthLimit) => "Monthly limit of 2 bookings exceeded"
    case Some(YearLimit) => "Yearly limit of 10 bookings exceeded"
    case Some(MinInterval) => "Minimum interval of 7 days between bookings not met"
  }

  function Analysis(b: Booking, checks: Checks): Constraints.ConstraintsResult {
    Constraints.AnalyzeOnCreate(checks.calendar, b.id, b.start, checks.history, checks.now)
  }

  // What a created booking is in for.
  function Decide(b: Booking, blacklisted: bool, constraints: bool, checks: Checks): Handler {
    if b.client.Some? && blacklisted then Rejected("BOOKING_REJECTED_BLACKLISTED", BLACKLIST_REJECTION_REASON)
    else if constraints && b.client.Some? && !Analysis(b, checks).isAllowed then
      Rejected("BOOKING_REJECTED", Reason(Analysis(b, checks)))
    else Created
  }

  // A booking goes through if and only if its client is not blacklisted and, with constraints on,
  // every rule of the analyzer's specification holds; without a client nothing is checked.
  lemma DecisionIsExact(b: Booking, blacklisted: bool, constraints: bool, checks: Checks)
    ensures Decide(b, blacklisted, constraints, checks) == Created <==>
            b.client.Some? ==>
              && !blacklisted
              && (constraints ==>
                    && Constraints.NoneAfter(b.id, checks.history, checks.now)
                    && Constraints.FewInMonth(checks.calendar, b.id, b.start, checks.history)
                    && Constraints.FewInYear(checks.calendar, b.id, b.start, checks.history)
                    && Constraints.Spaced(b.id, b.start, checks.history))
    ensures b.client.Some? && blacklisted ==>
            Decide(b, blacklisted, constraints, checks)
            == Rejected("BOOKING_REJECTED_BLACKLISTED", "Booking was rejected. Please contact the organizer.")
  {
    Constraints.AnalyzerMeetsSpec(checks.calendar, b.id, b.start, checks.history, checks.now);
  }

  // Why a booking is rejected by the constraints: the first rule violated.
  lemma ReasonIsFirstViolation(b: Booking, checks: Checks)
    requires b.client.Some?
    ensures var none := Constraints.NoneAfter(b.id, checks.history, checks.now);
            var month := Constraints.FewInMonth(checks.calendar, b.id, b.start, checks.history);
            var year := Constraints.FewInYear(checks.calendar, b.id, b.start, checks.history);
            var spaced := Constraints.Spaced(b.id, b.start, checks.history);
            Decide(b, false, true, checks)
            == if !none then Rejected("BOOKING_REJECTED", "Active future booking already exists")
               else if !month then Rejected("BOOKING_REJECTED", "Monthly limit of 2 bookings exceeded")
               else if !year then Rejected("BOOKING_REJECTED", "Yearly limit of 10 bookings exceeded")
               else if !spaced then
                 Rejected("BOOKING_REJECTED", "Minimum interval of 7 days between bookings not met")
               else Created
  {
    Constraints.AnalyzerMeetsSpec(checks.calendar, b.id, b.start, checks.history, checks.now);
  }

  // The blacklist check of a created booking: the cache afterwards, and the answer.
  function Check(client: Option<Person>, enabled: bool, ttl: int, cache: Blacklist.Cache, checks: Checks)
    : (Blacklist.Cache, Blacklist.Answer)
  {
    if client.None? then (cache, Blacklist.Said(false))
    else
      var (cache', step) := Blacklist.Ask(enabled, ttl, cache,
                                          Blacklist.Call(client.value.email, checks.clock, checks.reply));
      (cache', step.answer)
  }

  // It is the client's email that is looked for: after a fetch, a booking is rejected as blacklisted if and
  // only if the fetched list has that address, up to case and the space around it.
  lemma ListedClientIsRejected(b: Booking, ttl: int, cache: Blacklist.Cache, constraints: bool, checks: Checks)
    requires !Blacklist.Fresh(cache, ttl, checks.clock) && checks.reply.Values?
    ensures var answer := Check(b.client, true, ttl, cache, checks).1;
            answer.Said?
            && (Decide(b, answer.blacklisted, constraints, checks)
                == Rejected("BOOKING_REJECTED_BLACKLISTED", "Booking was rejected. Please contact the organizer.")
                <==> b.client.Some? && exists v :: v in checks.reply.raw && Email.SameAddress(v, b.client.value.email))
  {
    if b.client.Some? {
      Blacklist.VerdictIsListed(checks.reply.raw, b.client.value.email);
      ReasonIsFirstViolation(b, checks);
      assert "BOOKING_REJECTED" != "BOOKING_REJECTED_BLACKLISTED" by {
        assert |"BOOKING_REJECTED"| == 16 && |"BOOKING_REJECTED_BLACKLISTED"| == 28;
      }
    }
  }

  // An attempt at a plan from its i-th step on.
  function AttemptFrom(plan: seq<Instr>, i: nat, r: Run, fates: seq<Fate>): (Run, seq<Fate>)
    requires i <= |plan|
  {
    Attempt(plan[i..], r, fates)
  }

  lemma AttemptFromStart(plan: seq<Instr>, r: Run, fates: seq<Fate>)
    ensures AttemptFrom(plan, 0, r, fates) == Attempt(plan, r, fates)
  {
    assert plan[0..] == plan;
  }

  lemma AttemptFromNext(plan: seq<Instr>, i: nat, r: Run, fates: seq<Fate>)
    requires i < |plan|
    ensures AttemptFrom(plan, i, r, fates)
            == (var (r', rest) := Attempt([plan[i]], r, fates); AttemptFrom(plan, i + 1, r', rest))
  {
    assert plan[i..] == [plan[i]] + plan[i + 1..];
    AttemptSplit([plan[i]], plan[i + 1..], r, fates);
  }

  lemma AttemptFromEnd(plan: seq<Instr>, i: nat, r: Run, fates: seq<Fate>)
    requires i <= |plan| && (i == |plan| || !r.alive)
    ensures AttemptFrom(plan, i, r, fates) == (r, fates)
  {
  }

  // The step sends one recipient the notification with that recipient's url.
  predicate Announces(i: Instr, uid: Uid, trigger: string, ceId: string, regs: Regs, to: (Recipient, Option<Url>)) {
    i.Publish? && EventOf(i.ceId, i.step, i.draft, regs)
                  == Event(Key(ceId, [NOTIFICATION, trigger, RoleName(to.0.role)]),
                           Notification(uid, trigger, [to.0], to.1))
  }

  function ToNotify(b: Booking, role: Role, withUrl: bool, regs: Regs): seq<(Recipient, Option<Url>)> {
    match Participant(b, role)
    case None => []
    case Some(p) => [(Recipient(p.email, role), if withUrl then UrlsOf(b, regs).Of(role) else None)]
  }

  lemma NotifyPlanAnnounces(b: Booking, trigger: string, withUrl: bool, ceId: string, regs: Regs,
                            recipients: seq<(Recipient, Option<Url>)>)
    requires recipients == ToNotify(b, Organizer, withUrl, regs) + ToNotify(b, Client, withUrl, regs)
    ensures var plan := NotifyPlan(b, trigger, withUrl, ceId);
            |plan| == |recipients|
            && forall j :: 0 <= j < |plan| ==> Announces(plan[j], b.uid, trigger, ceId, regs, recipients[j])
  {
    NotifyOneAnnounces(b, Organizer, trigger, withUrl, ceId, regs);
    NotifyOneAnnounces(b, Client, trigger, withUrl, ceId, regs);
  }

  lemma NotifyOneAnnounces(b: Booking, role: Role, trigger: string, withUrl: bool, ceId: string, regs: Regs)
    ensures var plan, recipients := NotifyOne(b, role, trigger, withUrl, ceId), ToNotify(b, role, withUrl, regs);
            |plan| == |recipients|
            && forall j :: 0 <= j < |plan| ==> Announces(plan[j], b.uid, trigger, ceId, regs, recipients[j])
  {
  }

  class BookingController {
    const outside: Outside
    const chat: ChatController
    const meeting: MeetingController
    const checker: Blacklist.BlacklistClient
    const constraints: bool

    constructor (outside: Outside, checker: Blacklist.BlacklistClient, constraints: bool)
      ensures this.outside == outside && this.checker == checker && this.constraints == constraints && Wired()
    {
      this.outside, this.checker, this.constraints := outside, checker, constraints;
      this.chat := new ChatController(outside);
      this.meeting := new MeetingController(outside);
    }

    predicate Wired() { chat.outside == outside && meeting.outside == outside }

    method EnsureChatWithWelcome(b: Booking, ceId: string) returns (ok: bool)
      requires Wired() && outside.Going()
      modifies outside
      ensures outside.Valid() && ok == outside.trail.alive
      ensures (outside.trail, outside.fates) == Attempt(ChatPlan(b, ceId), old(outside.trail), old(outside.fates))
      ensures ok ==> outside.trail.regs == old(outside.trail).regs.(hasMessages := outside.trail.regs.hasMessages)
    {
      if b.user.None? || b.client.None? {
        return true;
      }
      ghost var create := [CreateChannel(b.uid), Publish(ceId, ChatStep(true, b.uid), Fixed(ChatCreated(b.uid)))];
      ghost var query, first, second := QueryMessages(b.uid), SendWelcome(b.uid, Welcome1),
        SendWelcome(b.uid, Welcome2);
      assert ChatPlan(b, ceId) == create + ([query] + ([first] + [second]));
      AttemptSplit(create, [query] + ([first] + [second]), outside.trail, outside.fates);
      ok := chat.CreateChat(b.uid, Key(ceId, [CHAT_CREATED, b.uid]), ceId);
      if !ok {
        return;
      }
      AttemptSplit([query], [first] + [second], outside.trail, outside.fates);
      var has;
      has, ok := outside.HasMessages(b.uid);
      if !ok {
        return;
      }
      AttemptSplit([first], [second], outside.trail, outside.fates);
      if has {
        return;
      }
      ok := outside.SendMessage(b.uid, Welcome1);
      if ok {
        ok := outside.SendMessage(b.uid, Welcome2);
      }
    }

    method CreateMeetingUrls(b: Booking, ceId: string, previous: Option<Uid>, replace: bool, ghost h: Handler)
      returns (urls: MeetingUrls, ok: bool)
      requires Wired() && outside.Going() && outside.trail.regs.organizer.None? && outside.trail.regs.client.None?
      requires OldKey(h, b, Organizer) == MovedFrom(Organizer, b.uid, previous, replace)
      requires OldKey(h, b, Client) == MovedFrom(Client, b.uid, previous, replace)
      modifies outside
      ensures outside.Valid() && ok == outside.trail.alive
      ensures (outside.trail, outside.fates)
              == Attempt(UrlPlan(h, b, Organizer, ceId) + UrlPlan(h, b, Client, ceId), old(outside.trail),
                         old(outside.fates))
      ensures ok ==> urls == UrlsOf(b, outside.trail.regs)
    {
      AttemptSplit(UrlPlan(h, b, Organizer, ceId), UrlPlan(h, b, Client, ceId), outside.trail, outside.fates);
      urls, ok := MeetingUrls(None, None), true;
      if b.user.Some? {
        var url;
        url, ok := meeting.CreateMeetingUrl(b, b.user.value, "", previous, replace,
                                            Key(ceId, [URL_CREATED, "organizer"]), ceId);
        urls := MeetingUrls(Some(url), None);
      }
      if ok && b.client.Some? {
        var url;
        url, ok := meeting.CreateMeetingUrl(b, b.client.value, CLIENT_PREFIX, previous, replace,
                                            Key(ceId, [URL_CREATED, "client"]), ceId);
        urls := MeetingUrls(urls.organizer, Some(url));
      }
    }

    method StoreClientVideoUrl(b: Booking, urls: MeetingUrls) returns (ok: bool)
      requires Wired() && outside.Going() && urls == UrlsOf(b, outside.trail.regs)
      modifies outside
      ensures outside.Valid() && ok == outside.trail.alive
      ensures (outside.trail, outside.fates) == Attempt(VideoPlan(b), old(outside.trail), old(outside.fates))
      ensures outside.trail.regs == old(outside.trail).regs
    {
      if urls.client.None? {
        return true;
      }
      ok := outside.UpdateBookingVideoUrl(b.uid, urls.client.value, PageFor(b, b.client.value, Client));
    }

    method NotifyParticipants(b: Booking, trigger: string, urls: Option<MeetingUrls>, ceId: string) returns (ok: bool)
      requires Wired() && outside.Going() && (urls.Some? ==> urls.value == UrlsOf(b, outside.trail.regs))
      modifies outside
      ensures outside.Valid() && ok == outside.trail.alive
      ensures (outside.trail, outside.fates)
              == Attempt(NotifyPlan(b, trigger, urls.Some?, ceId), old(outside.trail), old(outside.fates))
    {
      var recipients: seq<(Recipient, Option<Url>)> := [];
      if b.user.Some? {
        recipients := recipients + [(Recipient(b.user.value.email, Organizer),
                                     if urls.Some? then urls.value.organizer else None)];
      }
      if b.client.Some? {
        recipients := recipients + [(Recipient(b.client.value.email, Client),
                                     if urls.Some? then urls.value.client else None)];
      }
      ghost var plan := NotifyPlan(b, trigger, urls.Some?, ceId);
      ghost var regs := outside.trail.regs;
      NotifyPlanAnnounces(b, trigger, urls.Some?, ceId, regs, recipients);
      ghost var end := Attempt(plan, outside.trail, outside.fates);
      AttemptFromStart(plan, outside.trail, outside.fates);
      ok := true;
      var i := 0;
      while i < |recipients| && ok
        invariant 0 <= i <= |recipients|
        invariant outside.Valid() && ok == outside.trail.alive && outside.trail.regs == regs
        invariant end == AttemptFrom(plan, i, outside.trail, outside.fates)
      {
        AttemptFromNext(plan, i, outside.trail, outside.fates);
        assert Announces(plan[i], b.uid, trigger, ceId, regs, recipients[i]);
        var recipient, url := recipients[i].0, recipients[i].1;
        ok := outside.SendEvent(Notification(b.uid, trigger, [recipient], url),
                                Key(ceId, [NOTIFICATION, trigger, RoleName(recipient.role)]), plan[i]);
        i := i + 1;
      }
      AttemptFromEnd(plan, i, outside.trail, outside.fates);
    }

    method RejectBooking(b: Booking, trigger: string, reason: string, ceId: string) returns (ok: bool)
      requires Wired() && outside.Going()
      modifies outside
      ensures outside.Valid() && ok == outside.trail.alive
      ensures (outside.trail, outside.fates)
              == Attempt(RejectPlan(b, trigger, reason, ceId), old(outside.trail), old(outside.fates))
    {
      var recipients := [];
      if b.client.Some? {
        recipients := [Recipient(b.client.value.email, Client)];
      }
      ghost var mark := RejectRow(b.id, reason);
      ghost var notify :=
        Publish(ceId, NotifyStep(trigger, "client"), Fixed(Notification(b.uid, trigger, recipients, None)));
      ghost var announce := Publish(ceId, RejectedStep, Fixed(BookingRejected(b.uid, reason)));
      assert RejectPlan(b, trigger, reason, ceId) == [mark] + ([notify] + [announce]);
      AttemptSplit([mark], [notify] + [announce], outside.trail, outside.fates);
      ok := outside.RejectBooking(b.id, reason);
      if !ok {
        return;
      }
      AttemptSplit([notify], [announce], outside.trail, outside.fates);
      ok := outside.SendEvent(Notification(b.uid, trigger, recipients, None),
                              Key(ceId, [NOTIFICATION, trigger, "client"]), notify);
      if ok {
        ok := outside.SendEvent(BookingRejected(b.uid, reason), Key(ceId, [BOOKING_REJECTED]), announce);
      }
    }

    // The chat, the links, the video URL and the notifications, as three of the handlers end.
    method SetUp(b: Booking, ceId: string, previous: Option<Uid>, replace: bool, trigger: string, ghost h: Handler)
      returns (ok: bool)
      requires Wired() && outside.Going() && outside.trail.regs.organizer.None? && outside.trail.regs.client.None?
      requires OldKey(h, b, Organizer) == MovedFrom(Organizer, b.uid, previous, replace)
      requires OldKey(h, b, Client) == MovedFrom(Client, b.uid, previous, replace)
      modifies outside
      ensures outside.Valid() && ok == outside.trail.alive
      ensures (outside.trail, outside.fates)
              == Attempt(ChatPlan(b, ceId) + (LinksPlan(h, b, ceId) + NotifyPlan(b, trigger, true, ceId)),
                         old(outside.trail), old(outside.fates))
    {
      AttemptSplit(ChatPlan(b, ceId), LinksPlan(h, b, ceId) + NotifyPlan(b, trigger, true, ceId), outside.trail,
                   outside.fates);
      ok := EnsureChatWithWelcome(b, ceId);
      if !ok {
        return;
      }
      ghost var create := UrlPlan(h, b, Organizer, ceId) + UrlPlan(h, b, Client, ceId);
      AttemptSplit(LinksPlan(h, b, ceId), NotifyPlan(b, trigger, true, ceId), outside.trail, outside.fates);
      AttemptSplit(create, VideoPlan(b), outside.trail, outside.fates);
      var urls;
      urls, ok := CreateMeetingUrls(b, ceId, previous, replace, h);
      if !ok {
        return;
      }
      ok := StoreClientVideoUrl(b, urls);
      if ok {
        ok := NotifyParticipants(b, trigger, Some(urls), ceId);
      }
    }

    // ----- The four handlers. found is what the read of the booking row gave. -----

    method HandleCreated(found: Option<Booking>, ceId: string, checks: Checks) returns (ok: bool)
      requires Wired() && checker as object != outside
      modifies outside, checker
      ensures found.None? ==> ok && Untouched(old(outside.Snapshot()), old(outside.fates))
                              && checker.Contents() == old(checker.Contents())
      ensures found.Some? ==>
                var (cache, answer) := Check(found.value.client, checker.enabled, checker.ttl,
                                             old(checker.Contents()), checks);
                && checker.Contents() == cache
                && (answer == Blacklist.Raised ==> !ok && Untouched(old(outside.Snapshot()), old(outside.fates)))
                && (answer != Blacklist.Raised ==>
                      Followed(Plan(Decide(found.value, answer.blacklisted, constraints, checks), found.value, ceId),
                               old(outside.Snapshot()), old(outside.fates), ok))
    {
      if found.None? {
        return true;
      }
      var b, blacklisted := found.value, Blacklist.Said(false);
      if b.client.Some? {
        var asked;
        blacklisted, asked := checker.IsBlacklisted(b.client.value.email, checks.clock, checks.reply);
      }
      if blacklisted == Blacklist.Raised {
        return false;
      }
      outside.BeginAttempt();
      if blacklisted.blacklisted {
        ok := RejectBooking(b, "BOOKING_REJECTED_BLACKLISTED", BLACKLIST_REJECTION_REASON, ceId);
        return;
      }
      if constraints && b.client.Some? {
        var result := Constraints.AnalyzeOnCreate(checks.calendar, b.id, b.start, checks.history, checks.now);
        if !result.isAllowed {
          ok := RejectBooking(b, "BOOKING_REJECTED", Reason(result), ceId);
          return;
        }
      }
      ghost var plan := ChatPlan(b, ceId)
        + (LinksPlan(Created, b, ceId) + NotifyPlan(b, "BOOKING_CREATED", true, ceId));
      assert Plan(Created, b, ceId) == CleanupPlan(Created, b, ceId) + plan == plan;
      ok := SetUp(b, ceId, None, false, "BOOKING_CREATED", Created);
    }

    method HandleRescheduled(found: Option<Booking>, previousBookingUid: Option<Uid>, ceId: string) returns (ok: bool)
      requires Wired()
      modifies outside
      ensures found.None? ==> ok && Untouched(old(outside.Snapshot()), old(outside.fates))
      ensures found.Some? ==>
                Followed(Plan(Rescheduled(previousBookingUid), found.value, ceId),
                         old(outside.Snapshot()), old(outside.fates), ok)
    {
      if found.None? {
        return true;
      }
      var b := found.value;
      outside.BeginAttempt();
      var previous := if Truthy(previousBookingUid) then previousBookingUid else b.fromReschedule;
      ghost var h := Rescheduled(previousBookingUid);
      ghost var cleanup := CleanupPlan(h, b, ceId);
      AttemptSplit(cleanup, ChatPlan(b, ceId)
                   + (LinksPlan(h, b, ceId) + NotifyPlan(b, "BOOKING_RESCHEDULED", true, ceId)),
                   outside.trail, outside.fates);
      if Truthy(previous) && previous.value != b.uid {
        ok := chat.DeleteChat(previous.value, b.uid, false, Key(ceId, [CHAT_DELETED, previous.value]), ceId);
        if !ok {
          return;
        }
      }
      ok := SetUp(b, ceId, previous, false, "BOOKING_RESCHEDULED", h);
    }

    method HandleReassigned(found: Option<Booking>, ceId: string) returns (ok: bool)
      requires Wired()
      modifies outside
      ensures found.None? ==> ok && Untouched(old(outside.Snapshot()), old(outside.fates))
      ensures found.Some? ==>
                Followed(Plan(Reassigned, found.value, ceId), old(outside.Snapshot()), old(outside.fates), ok)
    {
      if found.None? {
        return true;
      }
      var b := found.value;
      outside.BeginAttempt();
      AttemptSplit(CleanupPlan(Reassigned, b, ceId),
                   ChatPlan(b, ceId) + (LinksPlan(Reassigned, b, ceId)
                                        + NotifyPlan(b, "BOOKING_REASSIGNED", true, ceId)),
                   outside.trail, outside.fates);
      ok := chat.DeleteChat(b.uid, b.uid, true, Key(ceId, [CHAT_DELETED, b.uid]), ceId);
      if ok {
        ok := SetUp(b, ceId, None, true, "BOOKING_REASSIGNED", Reassigned);
      }
    }

    method HandleCancelled(found: Option<Booking>, ceId: string) returns (ok: bool)
      requires Wired()
      modifies outside
      ensures found.None? ==> ok && Untouched(old(outside.Snapshot()), old(outside.fates))
      ensures found.Some? ==>
                Followed(Plan(Cancelled, found.value, ceId), old(outside.Snapshot()), old(outside.fates), ok)
    {
      if found.None? {
        return true;
      }
      var b := found.value;
      outside.BeginAttempt();
      ghost var notify, chatGone := NotifyPlan(b, "BOOKING_CANCELLED", false, ceId),
        DeleteChatPlan(b.uid, b.uid, false, ceId);
      ghost var organizerGone, clientGone := DeleteUrlPlan(b, Organizer, ceId), DeleteUrlPlan(b, Client, ceId);
      AttemptSplit(notify, chatGone + (organizerGone + clientGone), outside.trail, outside.fates);
      ok := NotifyParticipants(b, "BOOKING_CANCELLED", None, ceId);
      if !ok {
        return;
      }
      AttemptSplit(chatGone, organizerGone + clientGone, outside.trail, outside.fates);
      ok := chat.DeleteChat(b.uid, b.uid, false, Key(ceId, [CHAT_DELETED, b.uid]), ceId);
      if !ok {
        return;
      }
      AttemptSplit(organizerGone, clientGone, outside.trail, outside.fates);
      ok := meeting.DeleteMeetingUrl(b, "", Key(ceId, [URL_DELETED, "organizer"]), ceId);
      if ok {
        ok := meeting.DeleteMeetingUrl(b, CLIENT_PREFIX, Key(ceId, [URL_DELETED, "client"]), ceId);
      }
    }

    // Nothing was called.
    ghost predicate Untouched(s: Store, fates: seq<Fate>)
      reads this, outside
    {
      outside.Snapshot() == s && outside.fates == fates
    }

    // The stores are those after an attempt at the plan, which got through if and only if ok.
    ghost predicate Followed(plan: seq<Instr>, s: Store, fates: seq<Fate>, ok: bool)
      reads this, outside
    {
      var (end, rest) := Attempt(plan, Start(s), fates);
      outside.Snapshot() == end.store && outside.fates == rest && ok == end.alive
    }
  }
}