/** Where the links and URLs of a delivery lead, whatever crashes and however the shortener fails. */
module MeetingLinks {
  import opened Wrappers
  import opened Domain
  import opened Machine
  import opened Handlers

  predicate PageOpens(page: Page, b: Booking) {
    Participant(b, page.role).Some? && OpensMeeting(page, b, Participant(b, page.role).value, page.role)
  }

  // A long URL sent to somebody opens the meeting as that participant.
  predicate UrlOpens(url: Url, b: Booking, to: Recipient) {
    url.Long? ==> PageOpens(url.page, b) && url.page.role == to.role && url.page.email == to.email
  }

  predicate NoteOpens(note: Note, b: Booking) {
    match note
    case UrlCreated(_, to, url) => UrlOpens(url, b, to)
    case Notification(_, _, recipients, link) =>
      link.Some? ==> forall to | to in recipients :: UrlOpens(link.value, b, to)
    case _ => true
  }

  // The external id of the participant the page is for.
  predicate OwnId(key: string, page: Page, b: Booking) {
    key == match page.role case Client => "client_" + b.uid case Organizer => b.uid
  }

  predicate StepOpens(i: Instr, b: Booking) {
    match i
    case MoveLink(_, key, page) => OwnId(key, page, b) && PageOpens(page, b)
    case CreateLink(key, page) => OwnId(key, page, b) && PageOpens(page, b)
    case StoreVideo(uid, page) => uid == b.uid && page.role == Client && PageOpens(page, b)
    case Publish(_, _, Fixed(note)) => NoteOpens(note, b)
    case Publish(_, _, AnnounceUrl(_, to, page)) => UrlOpens(Long(page), b, to)
    case Publish(_, _, NotifyWithUrl(_, _, to, page)) => UrlOpens(Long(page), b, to)
    case _ => true
  }

  ghost predicate AllOpen(plan: seq<Instr>, b: Booking) { forall i | i in plan :: StepOpens(i, b) }

  // What an attempt adds to a store, compared with before.
  ghost predicate OnlyOpens(s: Store, s': Store, b: Booking) {
    && (forall key | key in s'.table.links && !(key in s.table.links && s.table.links[key] == s'.table.links[key]) ::
          var page := s'.table.links[key].target; PageOpens(page, b) && OwnId(key, page, b))
    && (forall uid | uid in s'.video && !(uid in s.video && s.video[uid] == s'.video[uid]) ::
          && uid == b.uid
          && (s'.video[uid].Long? ==>
                PageOpens(s'.video[uid].page, b) && s'.video[uid].page.role == Client))
    && (forall e | e in s'.accepted && e !in s.accepted :: NoteOpens(e.note, b))
  }

  lemma StepOnlyOpens(i: Instr, b: Booking, r: Run, fate: Fate)
    requires StepOpens(i, b)
    ensures OnlyOpens(r.store, Fated(i, r, fate).store, b)
  {
  }

  lemma {:induction false} AttemptOnlyOpens(plan: seq<Instr>, b: Booking, s: Store, r: Run, fates: seq<Fate>)
    requires AllOpen(plan, b) && OnlyOpens(s, r.store, b)
    ensures OnlyOpens(s, Attempt(plan, r, fates).0.store, b)
    decreases plan
  {
    if plan != [] && r.alive {
      assert plan[0] in plan && forall i | i in plan[1..] :: i in plan;
      if Skips(plan[0], r.regs) {
        AttemptOnlyOpens(plan[1..], b, s, r, fates);
      } else {
        var fate := if fates == [] then Go(Fine) else fates[0];
        StepOnlyOpens(plan[0], b, r, fate);
        AttemptOnlyOpens(plan[1..], b, s, Fated(plan[0], r, fate), if fates == [] then [] else fates[1..]);
      }
    }
  }

  lemma AllOpenConcat(p: seq<Instr>, q: seq<Instr>, b: Booking)
    requires AllOpen(p, b) && AllOpen(q, b)
    ensures AllOpen(p + q, b)
  {
  }

  lemma OwnPageOpens(b: Booking, role: Role)
    requires Participant(b, role).Some?
    ensures PageOpens(PageFor(b, Participant(b, role).value, role), b)
  {
    var p := Participant(b, role).value;
    OnlyOwnPageOpensMeeting(PageFor(b, p, role), b, p, role);
  }

  lemma UrlPlanOpens(h: Handler, b: Booking, role: Role, ceId: string)
    ensures AllOpen(UrlPlan(h, b, role, ceId), b)
  {
    if Participant(b, role).Some? {
      OwnPageOpens(b, role);
    }
  }

  lemma NotifyOneOpens(b: Booking, role: Role, trigger: string, withUrl: bool, ceId: string)
    ensures AllOpen(NotifyOne(b, role, trigger, withUrl, ceId), b)
  {
    if Participant(b, role).Some? {
      OwnPageOpens(b, role);
    }
  }

  lemma VideoOpens(b: Booking)
    ensures AllOpen(VideoPlan(b), b)
  {
    if b.client.Some? {
      OwnPageOpens(b, Client);
    }
  }

  lemma WithoutUrlsOpen(h: Handler, b: Booking, ceId: string)
    ensures AllOpen(CleanupPlan(h, b, ceId), b) && AllOpen(ChatPlan(b, ceId), b)
    ensures h.Rejected? ==> AllOpen(RejectPlan(b, h.trigger, h.reason, ceId), b)
  {
  }

  lemma DeletionsOpen(b: Booking, ceId: string)
    ensures AllOpen(DeleteChatPlan(b.uid, b.uid, false, ceId), b)
    ensures AllOpen(DeleteUrlPlan(b, Organizer, ceId), b) && AllOpen(DeleteUrlPlan(b, Client, ceId), b)
  {
  }

  lemma NotifyOpens(b: Booking, trigger: string, withUrl: bool, ceId: string)
    ensures AllOpen(NotifyPlan(b, trigger, withUrl, ceId), b)
  {
    NotifyOneOpens(b, Organizer, trigger, withUrl, ceId);
    NotifyOneOpens(b, Client, trigger, withUrl, ceId);
    AllOpenConcat(NotifyOne(b, Organizer, trigger, withUrl, ceId), NotifyOne(b, Client, trigger, withUrl, ceId), b);
  }

  lemma LinksOpen(h: Handler, b: Booking, ceId: string)
    ensures AllOpen(LinksPlan(h, b, ceId), b)
  {
    var p, q := UrlPlan(h, b, Organizer, ceId), UrlPlan(h, b, Client, ceId);
    UrlPlanOpens(h, b, Organizer, ceId);
    UrlPlanOpens(h, b, Client, ceId);
    VideoOpens(b);
    AllOpenConcat(p, q, b);
    AllOpenConcat(p + q, VideoPlan(b), b);
  }

  lemma SetupOpens(h: Handler, b: Booking, ceId: string)
    ensures AllOpen(CleanupPlan(h, b, ceId)
                    + (ChatPlan(b, ceId) + (LinksPlan(h, b, ceId) + NotifyPlan(b, Trigger(h), true, ceId))), b)
  {
    var cleanup, chat := CleanupPlan(h, b, ceId), ChatPlan(b, ceId);
    var links, notify := LinksPlan(h, b, ceId), NotifyPlan(b, Trigger(h), true, ceId);
    WithoutUrlsOpen(h, b, ceId);
    LinksOpen(h, b, ceId);
    NotifyOpens(b, Trigger(h), true, ceId);
    AllOpenConcat(links, notify, b);
    AllOpenConcat(chat, links + notify, b);
    AllOpenConcat(cleanup, chat + (links + notify), b);
  }

  lemma CancelOpens(b: Booking, ceId: string)
    ensures AllOpen(NotifyPlan(b, Trigger(Cancelled), false, ceId)
                    + (DeleteChatPlan(b.uid, b.uid, false, ceId)
                       + (DeleteUrlPlan(b, Organizer, ceId) + DeleteUrlPlan(b, Client, ceId))), b)
  {
    var notify, chat := NotifyPlan(b, Trigger(Cancelled), false, ceId), DeleteChatPlan(b.uid, b.uid, false, ceId);
    var p, q := DeleteUrlPlan(b, Organizer, ceId), DeleteUrlPlan(b, Client, ceId);
    DeletionsOpen(b, ceId);
    NotifyOpens(b, Trigger(Cancelled), false, ceId);
    AllOpenConcat(p, q, b);
    AllOpenConcat(chat, p + q, b);
    AllOpenConcat(notify, chat + (p + q), b);
  }

  lemma PlanOpens(h: Handler, b: Booking, ceId: string)
    ensures AllOpen(Plan(h, b, ceId), b)
  {
    match h
    case Rejected(_, _) => WithoutUrlsOpen(h, b, ceId);
    case Cancelled => CancelOpens(b, ceId);
    case _ => SetupOpens(h, b, ceId);
  }

  // Main theorem. Whatever crashes and however the shortener fails, every link a delivery makes or moves,
  // every URL it stores and every long URL it sends opens the booking's own room for the participant it
  // belongs to, under that participant's name, from five minutes before until five minutes after.
  lemma EveryUrlOpensMeeting(h: Handler, b: Booking, ceId: string, s: Store, fates: seq<Fate>)
    ensures OnlyOpens(s, Attempt(Plan(h, b, ceId), Start(s), fates).0.store, b)
  {
    PlanOpens(h, b, ceId);
    AttemptOnlyOpens(Plan(h, b, ceId), b, s, Start(s), fates);
  }
}
