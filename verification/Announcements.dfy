/** What every handler tells the world, listed per participant and not as steps: one delivery that
    goes through announces these events and no others, under these ids. */
module Announcements {
  import opened Wrappers
  import opened Domain
  import opened Dedupe
  import opened Machine
  import opened Handlers
  import opened Milestones
  import opened Tracking
  import opened Convergence
  import opened SameEvents

  // The participant's own short link, or its own page where there is none.
  function OwnUrl(t: Table, b: Booking, p: Person, role: Role): Url {
    var key := KeyOf(role, b.uid);
    if key in t.links then Short(t.links[key].ident)
    else Long(Page(b.uid, p.name, p.email, role, role == Organizer, b.start - 300_000_000, b.end + 300_000_000))
  }

  // What a handler's notifications are about.
  function Occasion(h: Handler): string {
    match h
    case Created => "BOOKING_CREATED"
    case Rejected(trigger, _) => trigger
    case Rescheduled(_) => "BOOKING_RESCHEDULED"
    case Reassigned => "BOOKING_REASSIGNED"
    case Cancelled => "BOOKING_CANCELLED"
  }

  function ForParticipant(h: Handler, b: Booking, role: Role, ceId: string, t: Table): set<Event> {
    match Participant(b, role)
    case None => {}
    case Some(p) =>
      var to, name := Recipient(p.email, role), if role == Client then "client" else "organizer";
      if h.Cancelled? then {
        Event(Key(ceId, [URL_DELETED, name]), UrlDeleted(b.uid, to)),
        Event(Key(ceId, [NOTIFICATION, Occasion(h), name]), Notification(b.uid, Occasion(h), [to], None))
      } else {
        Event(Key(ceId, [URL_CREATED, name]), UrlCreated(b.uid, to, OwnUrl(t, b, p, role))),
        Event(Key(ceId, [NOTIFICATION, Occasion(h), name]),
              Notification(b.uid, Occasion(h), [to], Some(OwnUrl(t, b, p, role))))
      }
  }

  // The chat a handler gives up: the previous uid's, or the booking's own.
  function GivenUp(h: Handler, b: Booking): Option<Uid> {
    match h
    case Rescheduled(previousUid) =>
      var previous := PreviousUid(previousUid, b);
      if previous.Some? && previous.value != b.uid then previous else None
    case Created => None
    case Rejected(_, _) => None
    case _ => Some(b.uid)
  }

  function ForGivenUp(h: Handler, b: Booking, ceId: string): set<Event> {
    match GivenUp(h, b)
    case None => {}
    case Some(channel) => {Event(Key(ceId, [CHAT_DELETED, channel]), ChatDeleted(channel, b.uid))}
  }

  function ForNewChat(b: Booking, ceId: string): set<Event> {
    if b.user.None? || b.client.None? then {}
    else {Event(Key(ceId, [CHAT_CREATED, b.uid]), ChatCreated(b.uid))}
  }

  function ForRejected(b: Booking, trigger: string, reason: string, ceId: string): set<Event> {
    var to := if b.client.Some? then [Recipient(b.client.value.email, Client)] else [];
    {Event(Key(ceId, [NOTIFICATION, trigger, "client"]), Notification(b.uid, trigger, to, None)),
     Event(Key(ceId, [BOOKING_REJECTED]), BookingRejected(b.uid, reason))}
  }

  // All events of a delivery, given the short-link table it ends with.
  function Promised(h: Handler, b: Booking, ceId: string, t: Table): set<Event> {
    var forBoth := ForParticipant(h, b, Organizer, ceId, t) + ForParticipant(h, b, Client, ceId, t);
    if h.Rejected? then ForRejected(b, h.trigger, h.reason, ceId)
    else if h.Cancelled? then ForGivenUp(h, b, ceId) + forBoth
    else ForGivenUp(h, b, ceId) + ForNewChat(b, ceId) + forBoth
  }

  lemma AnnouncedConcat(p: seq<Instr>, q: seq<Instr>, regs: Regs)
    ensures Announced(p + q, regs) == Announced(p, regs) + Announced(q, regs)
  {
    assert forall i :: i in p + q <==> i in p || i in q;
  }

  lemma AnnouncedAfter(i: Instr, plan: seq<Instr>, regs: Regs)
    ensures Announced([i] + plan, regs)
            == (if i.Publish? then {EventOf(i.ceId, i.step, i.draft, regs)} else {}) + Announced(plan, regs)
  {
    AnnouncedCons([i] + plan, regs);
    assert ([i] + plan)[1..] == plan;
  }

  lemma AnnouncedOne(i: Instr, regs: Regs)
    ensures Announced([i], regs) == if i.Publish? then {EventOf(i.ceId, i.step, i.draft, regs)} else {}
  {
    AnnouncedAfter(i, [], regs);
    assert [i] + [] == [i];
  }

  lemma UrlAnnounced(h: Handler, b: Booking, p: Person, role: Role, ceId: string, t: Table)
    requires Participant(b, role) == Some(p)
    ensures Announced(UrlPlan(h, b, role, ceId), RegsFrom(t, b))
            == {Event(Key(ceId, [URL_CREATED, RoleName(role)]),
                      UrlCreated(b.uid, Recipient(p.email, role), OwnUrl(t, b, p, role)))}
  {
    var page, regs := PageFor(b, p, role), RegsFrom(t, b);
    var resolve := ResolvePlan(OldKey(h, b, role), KeyOf(role, b.uid), page);
    var announce := Publish(ceId, UrlStep(true, RoleName(role)), AnnounceUrl(b.uid, Recipient(p.email, role), page));
    AnnouncedConcat(resolve, [announce], regs);
    AnnouncedOne(announce, regs);
    assert Announced(resolve, regs) == {};
  }

  lemma NotifyAnnounced(b: Booking, p: Person, role: Role, trigger: string, withUrl: bool, ceId: string, t: Table)
    requires Participant(b, role) == Some(p)
    ensures Announced(NotifyOne(b, role, trigger, withUrl, ceId), RegsFrom(t, b))
            == {Event(Key(ceId, [NOTIFICATION, trigger, RoleName(role)]),
                      Notification(b.uid, trigger, [Recipient(p.email, role)],
                                   if withUrl then Some(OwnUrl(t, b, p, role)) else None))}
  {
    AnnouncedOne(NotifyOne(b, role, trigger, withUrl, ceId)[0], RegsFrom(t, b));
  }

  lemma DeleteUrlAnnounced(b: Booking, p: Person, role: Role, ceId: string, regs: Regs)
    requires Participant(b, role) == Some(p)
    ensures Announced(DeleteUrlPlan(b, role, ceId), regs)
            == {Event(Key(ceId, [URL_DELETED, RoleName(role)]), UrlDeleted(b.uid, Recipient(p.email, role)))}
  {
    var announce := Publish(ceId, UrlStep(false, RoleName(role)), Fixed(UrlDeleted(b.uid, Recipient(p.email, role))));
    AnnouncedAfter(DeleteLink(KeyOf(role, b.uid)), [announce], regs);
    AnnouncedOne(announce, regs);
  }

  // What a setting-up handler announces about one participant.
  lemma SetupOfParticipant(h: Handler, b: Booking, role: Role, ceId: string, t: Table)
    requires !h.Cancelled?
    ensures var regs := RegsFrom(t, b);
            Announced(UrlPlan(h, b, role, ceId), regs) + Announced(NotifyOne(b, role, Trigger(h), true, ceId), regs)
            == ForParticipant(h, b, role, ceId, t)
  {
    match Participant(b, role)
    case None =>
    case Some(p) =>
      UrlAnnounced(h, b, p, role, ceId, t);
      NotifyAnnounced(b, p, role, Trigger(h), true, ceId, t);
  }

  lemma CancelOfParticipant(b: Booking, role: Role, ceId: string, t: Table)
    ensures var regs := RegsFrom(t, b);
            Announced(DeleteUrlPlan(b, role, ceId), regs)
              + Announced(NotifyOne(b, role, Trigger(Cancelled), false, ceId), regs)
            == ForParticipant(Cancelled, b, role, ceId, t)
  {
    match Participant(b, role)
    case None => AnnouncedOne(DeleteLink(KeyOf(role, b.uid)), RegsFrom(t, b));
    case Some(p) =>
      DeleteUrlAnnounced(b, p, role, ceId, RegsFrom(t, b));
      NotifyAnnounced(b, p, role, Trigger(Cancelled), false, ceId, t);
  }

  lemma ChatAnnounced(b: Booking, ceId: string, regs: Regs)
    ensures Announced(ChatPlan(b, ceId), regs) == ForNewChat(b, ceId)
  {
    var plan := ChatPlan(b, ceId);
    if plan != [] {
      assert plan == [plan[0]] + ([plan[1]] + [plan[2], plan[3], plan[4]]);
      AnnouncedAfter(plan[0], [plan[1]] + [plan[2], plan[3], plan[4]], regs);
      AnnouncedAfter(plan[1], [plan[2], plan[3], plan[4]], regs);
      assert Announced([plan[2], plan[3], plan[4]], regs) == {};
    }
  }

  lemma DeleteChatAnnounced(channel: Uid, uid: Uid, hard: bool, ceId: string, regs: Regs)
    ensures Announced(DeleteChatPlan(channel, uid, hard, ceId), regs)
            == {Event(Key(ceId, [CHAT_DELETED, channel]), ChatDeleted(channel, uid))}
  {
    var announce := Publish(ceId, ChatStep(false, channel), Fixed(ChatDeleted(channel, uid)));
    AnnouncedAfter(DeleteChannel(channel, hard), [announce], regs);
    AnnouncedOne(announce, regs);
    assert [DeleteChannel(channel, hard)] + [announce] == DeleteChatPlan(channel, uid, hard, ceId);
  }

  lemma CleanupAnnounced(h: Handler, b: Booking, ceId: string, regs: Regs)
    requires h.Created? || h.Rescheduled? || h.Reassigned?
    ensures Announced(CleanupPlan(h, b, ceId), regs) == ForGivenUp(h, b, ceId)
  {
    if GivenUp(h, b).Some? {
      DeleteChatAnnounced(GivenUp(h, b).value, b.uid, h.Reassigned?, ceId, regs);
    }
  }

  lemma RejectAnnounced(b: Booking, trigger: string, reason: string, ceId: string, regs: Regs)
    ensures Announced(RejectPlan(b, trigger, reason, ceId), regs) == ForRejected(b, trigger, reason, ceId)
  {
    var plan := RejectPlan(b, trigger, reason, ceId);
    assert plan == [plan[0]] + ([plan[1]] + [plan[2]]);
    AnnouncedAfter(plan[0], [plan[1]] + [plan[2]], regs);
    AnnouncedAfter(plan[1], [plan[2]], regs);
    AnnouncedOne(plan[2], regs);
  }

  // The pieces of a setting-up plan, sorted by participant.
  lemma AnnouncedBySetup(cleanup: seq<Instr>, chat: seq<Instr>, u1: seq<Instr>, u2: seq<Instr>, video: seq<Instr>,
                         n1: seq<Instr>, n2: seq<Instr>, regs: Regs)
    requires Announced(video, regs) == {}
    ensures Announced(cleanup + (chat + (u1 + u2 + video + (n1 + n2))), regs)
            == Announced(cleanup, regs) + Announced(chat, regs)
               + ((Announced(u1, regs) + Announced(n1, regs)) + (Announced(u2, regs) + Announced(n2, regs)))
  {
    AnnouncedConcat(cleanup, chat + (u1 + u2 + video + (n1 + n2)), regs);
    AnnouncedConcat(chat, u1 + u2 + video + (n1 + n2), regs);
    AnnouncedConcat(u1 + u2 + video, n1 + n2, regs);
    AnnouncedConcat(u1 + u2, video, regs);
    AnnouncedConcat(u1, u2, regs);
    AnnouncedConcat(n1, n2, regs);
    Pairwise(Announced(cleanup, regs), Announced(chat, regs), Announced(u1, regs), Announced(u2, regs),
             Announced(n1, regs), Announced(n2, regs));
  }

  lemma Pairwise(first: set<Event>, second: set<Event>, u1: set<Event>, u2: set<Event>, n1: set<Event>, n2: set<Event>)
    ensures first + (second + (u1 + u2 + {} + (n1 + n2))) == first + second + ((u1 + n1) + (u2 + n2))
  {
  }

  lemma VideoAnnounced(b: Booking, regs: Regs)
    ensures Announced(VideoPlan(b), regs) == {}
  {
  }

  lemma SetupAnnounced(h: Handler, b: Booking, ceId: string, t: Table)
    requires h.Created? || h.Rescheduled? || h.Reassigned?
    ensures Expected(h, b, ceId, t) == Promised(h, b, ceId, t)
  {
    var regs := RegsFrom(t, b);
    VideoAnnounced(b, regs);
    AnnouncedBySetup(CleanupPlan(h, b, ceId), ChatPlan(b, ceId), UrlPlan(h, b, Organizer, ceId),
                     UrlPlan(h, b, Client, ceId),
                     VideoPlan(b), NotifyOne(b, Organizer, Trigger(h), true, ceId),
                       NotifyOne(b, Client, Trigger(h), true, ceId),
                     regs);
    CleanupAnnounced(h, b, ceId, regs);
    ChatAnnounced(b, ceId, regs);
    SetupOfParticipant(h, b, Organizer, ceId, t);
    SetupOfParticipant(h, b, Client, ceId, t);
  }

  lemma AnnouncedByCancel(n1: seq<Instr>, n2: seq<Instr>, chat: seq<Instr>, d1: seq<Instr>, d2: seq<Instr>, regs: Regs)
    ensures Announced(n1 + n2 + (chat + (d1 + d2)), regs)
            == Announced(chat, regs) + ((Announced(d1, regs) + Announced(n1, regs))
                                        + (Announced(d2, regs) + Announced(n2, regs)))
  {
    AnnouncedConcat(n1 + n2, chat + (d1 + d2), regs);
    AnnouncedConcat(n1, n2, regs);
    AnnouncedConcat(chat, d1 + d2, regs);
    AnnouncedConcat(d1, d2, regs);
    PairwiseLast(Announced(chat, regs), Announced(d1, regs), Announced(d2, regs), Announced(n1, regs),
                 Announced(n2, regs));
  }

  lemma PairwiseLast(chat: set<Event>, d1: set<Event>, d2: set<Event>, n1: set<Event>, n2: set<Event>)
    ensures n1 + n2 + (chat + (d1 + d2)) == chat + ((d1 + n1) + (d2 + n2))
  {
  }

  lemma PromisedOnCancel(b: Booking, ceId: string, t: Table)
    ensures Promised(Cancelled, b, ceId, t)
            == {Event(Key(ceId, [CHAT_DELETED, b.uid]), ChatDeleted(b.uid, b.uid))}
               + (ForParticipant(Cancelled, b, Organizer, ceId, t) + ForParticipant(Cancelled, b, Client, ceId, t))
  {
  }

  lemma CancelledAnnounced(b: Booking, ceId: string, t: Table)
    ensures Expected(Cancelled, b, ceId, t) == Promised(Cancelled, b, ceId, t)
  {
    var regs, trigger := RegsFrom(t, b), Trigger(Cancelled);
    var n1, n2 := NotifyOne(b, Organizer, trigger, false, ceId), NotifyOne(b, Client, trigger, false, ceId);
    var chat := DeleteChatPlan(b.uid, b.uid, false, ceId);
    var d1, d2 := DeleteUrlPlan(b, Organizer, ceId), DeleteUrlPlan(b, Client, ceId);
    assert Plan(Cancelled, b, ceId) == n1 + n2 + (chat + (d1 + d2));
    AnnouncedByCancel(n1, n2, chat, d1, d2, regs);
    DeleteChatAnnounced(b.uid, b.uid, false, ceId, regs);
    CancelOfParticipant(b, Organizer, ceId, t);
    CancelOfParticipant(b, Client, ceId, t);
    PromisedOnCancel(b, ceId, t);
  }

  // Main theorem: over any crashed attempts and then one that is not, the events accepted are exactly
  // the promised ones; each participant is told its own URL, a short one as the shortener works.
  lemma DeliveryAnnounces(h: Handler, b: Booking, ceId: string, s: Store, attempts: seq<seq<Fate>>)
    requires ceId != ""
    requires NoCrossing(h, b) && forall fates | fates in attempts :: CutsOnly(fates)
    requires Smooth(Plan(h, b, ceId), Start(s)).alive
    ensures var end := Uninterrupted(h, b, ceId, Redeliver(Plan(h, b, ceId), s, attempts));
            && EventSet(end.accepted) == EventSet(s.accepted) + Promised(h, b, ceId, end.table)
            && (h.Created? || h.Rescheduled? || h.Reassigned? ==>
                  forall role | Participant(b, role).Some? :: KeyOf(role, b.uid) in end.table.links)
  {
    var t := Uninterrupted(h, b, ceId, s).table;
    UninterruptedPublishesExpected(h, b, ceId, s);
    ReplaysRepeatEvents(h, b, ceId, s, attempts);
    CrashReplayConverges(h, b, ceId, s, attempts);
    PlanTracksGoals(h, b, ceId, s);
    var s' := Redeliver(Plan(h, b, ceId), s, attempts);
    assert Observe(Uninterrupted(h, b, ceId, s')).table == Observe(Uninterrupted(h, b, ceId, s)).table;
    match h
    case Rejected(trigger, reason) => RejectAnnounced(b, trigger, reason, ceId, RegsFrom(t, b));
    case Cancelled => CancelledAnnounced(b, ceId, t);
    case _ => SetupAnnounced(h, b, ceId, t);
  }
}
