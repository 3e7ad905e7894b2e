/** The four booking handlers and the rejection flow as plans: the steps each takes, in order. */
module Handlers {
  import opened Wrappers
  import opened Domain
  import opened Dedupe
  import opened Machine

  datatype Handler =
    | Created
    | Rejected(trigger: string, reason: string)   // booking.created with a negative decision
    | Rescheduled(previousUid: Option<Uid>)
    | Reassigned
    | Cancelled

  function RoleName(role: Role): string { if role == Client then "client" else "organizer" }

  // A Python string is falsy when missing or empty.
  predicate Truthy(s: Option<string>) { s.Some? && s.value != "" }

  // `previous_booking_uid or booking.from_reschedule`, as far as it is truthy.
  function PreviousUid(payload: Option<Uid>, b: Booking): Option<Uid> {
    if Truthy(payload) then payload else if Truthy(b.fromReschedule) then b.fromReschedule else None
  }

  function Participant(b: Booking, role: Role): Option<Person> {
    if role == Client then b.client else b.user
  }

  function DeleteChatPlan(channel: Uid, uid: Uid, hard: bool, ceId: string): seq<Instr> {
    [DeleteChannel(channel, hard),
     Publish(ceId, ChatStep(false, channel), Fixed(ChatDeleted(channel, uid)))]
  }

  function ChatPlan(b: Booking, ceId: string): seq<Instr> {
    if b.user.None? || b.client.None? then []
    else [
        CreateChannel(b.uid),
        Publish(ceId, ChatStep(true, b.uid), Fixed(ChatCreated(b.uid))),
        QueryMessages(b.uid),
        SendWelcome(b.uid, Welcome1),
        SendWelcome(b.uid, Welcome2)]
  }

  // The external id to move from: the previous uid's on a reschedule, its own on a reassignment.
  function OldKey(h: Handler, b: Booking, role: Role): Option<string> {
    match h
    case Rescheduled(previousUid) =>
      var previous := PreviousUid(previousUid, b);
      if previous.Some? then Some(KeyOf(role, previous.value)) else None
    case Reassigned => Some(KeyOf(role, b.uid))
    case _ => None
  }

  function ResolvePlan(oldKey: Option<string>, key: string, page: Page): seq<Instr> {
    if oldKey.Some? then [MoveLink(oldKey.value, key, page), CreateLink(key, page)] else [CreateLink(key, page)]
  }

  function UrlPlan(h: Handler, b: Booking, role: Role, ceId: string): seq<Instr> {
    match Participant(b, role)
    case None => []
    case Some(p) =>
      var page := PageFor(b, p, role);
      ResolvePlan(OldKey(h, b, role), KeyOf(role, b.uid), page)
      + [Publish(ceId, UrlStep(true, RoleName(role)), AnnounceUrl(b.uid, Recipient(p.email, role), page))]
  }

  function VideoPlan(b: Booking): seq<Instr> {
    match b.client
    case None => []
    case Some(p) => [StoreVideo(b.uid, PageFor(b, p, Client))]
  }

  function NotifyOne(b: Booking, role: Role, trigger: string, withUrl: bool, ceId: string): seq<Instr> {
    match Participant(b, role)
    case None => []
    case Some(p) =>
      var to := Recipient(p.email, role);
      [Publish(ceId, NotifyStep(trigger, RoleName(role)),
               if withUrl then NotifyWithUrl(b.uid, trigger, to, PageFor(b, p, role))
               else Fixed(Notification(b.uid, trigger, [to], None)))]
  }

  function NotifyPlan(b: Booking, trigger: string, withUrl: bool, ceId: string): seq<Instr> {
    NotifyOne(b, Organizer, trigger, withUrl, ceId) + NotifyOne(b, Client, trigger, withUrl, ceId)
  }

  function DeleteUrlPlan(b: Booking, role: Role, ceId: string): seq<Instr> {
    [DeleteLink(KeyOf(role, b.uid))]
    + match Participant(b, role)
      case None => []
      case Some(p) =>
        [Publish(ceId, UrlStep(false, RoleName(role)), Fixed(UrlDeleted(b.uid, Recipient(p.email, role))))]
  }

  function RejectPlan(b: Booking, trigger: string, reason: string, ceId: string): seq<Instr> {
    var recipients := if b.client.Some? then [Recipient(b.client.value.email, Client)] else [];
    [RejectRow(b.id, reason),
     Publish(ceId, NotifyStep(trigger, "client"), Fixed(Notification(b.uid, trigger, recipients, None))),
     Publish(ceId, RejectedStep, Fixed(BookingRejected(b.uid, reason)))]
  }

  function Trigger(h: Handler): string {
    match h
    case Created => "BOOKING_CREATED"
    case Rejected(trigger, _) => trigger
    case Rescheduled(_) => "BOOKING_RESCHEDULED"
    case Reassigned => "BOOKING_REASSIGNED"
    case Cancelled => "BOOKING_CANCELLED"
  }

  // What comes before the chat is ensured.
  function CleanupPlan(h: Handler, b: Booking, ceId: string): seq<Instr> {
    match h
    case Rescheduled(previousUid) =>
      var previous := PreviousUid(previousUid, b);
      if previous.Some? && previous.value != b.uid then DeleteChatPlan(previous.value, b.uid, false, ceId) else []
    case Reassigned => DeleteChatPlan(b.uid, b.uid, true, ceId)
    case _ => []
  }

  function LinksPlan(h: Handler, b: Booking, ceId: string): seq<Instr> {
    UrlPlan(h, b, Organizer, ceId) + UrlPlan(h, b, Client, ceId) + VideoPlan(b)
  }

  function Plan(h: Handler, b: Booking, ceId: string): seq<Instr> {
    match h
    case Rejected(trigger, reason) => RejectPlan(b, trigger, reason, ceId)
    case Cancelled =>
      NotifyPlan(b, Trigger(h), false, ceId)
      + (DeleteChatPlan(b.uid, b.uid, false, ceId)
         + (DeleteUrlPlan(b, Organizer, ceId) + DeleteUrlPlan(b, Client, ceId)))
    case _ =>
      CleanupPlan(h, b, ceId)
      + (ChatPlan(b, ceId)
         + (LinksPlan(h, b, ceId)
            + NotifyPlan(b, Trigger(h), true, ceId)))
  }

  // A payload with a uid overrules the row; without one the row decides, and an empty one counts as none.
  lemma RowNamesPrevious(payload: Option<Uid>, b: Booking)
    ensures payload.Some? && payload.value != "" ==> PreviousUid(payload, b) == payload
    ensures payload in {None, Some("")} && b.fromReschedule !in {None, Some("")} ==>
              PreviousUid(payload, b) == b.fromReschedule
    ensures payload in {None, Some("")} && b.fromReschedule in {None, Some("")} ==> PreviousUid(payload, b) == None
  {
  }

  lemma SamePreviousSameKeys(b: Booking, ceId: string, payload: Option<Uid>, payload2: Option<Uid>)
    requires PreviousUid(payload, b) == PreviousUid(payload2, b)
    ensures var h, h2 := Rescheduled(payload), Rescheduled(payload2);
            && CleanupPlan(h, b, ceId) == CleanupPlan(h2, b, ceId)
            && OldKey(h, b, Organizer) == OldKey(h2, b, Organizer) && OldKey(h, b, Client) == OldKey(h2, b, Client)
  {
  }

  lemma SamePreviousSameUrls(b: Booking, role: Role, ceId: string, payload: Option<Uid>, payload2: Option<Uid>)
    requires PreviousUid(payload, b) == PreviousUid(payload2, b)
    ensures UrlPlan(Rescheduled(payload), b, role, ceId) == UrlPlan(Rescheduled(payload2), b, role, ceId)
  {
  }

  // So a reschedule whose payload names no previous uid is handled as one whose payload names the row's.
  lemma PayloadFallsBackToRow(b: Booking, ceId: string, payload: Option<Uid>)
    requires payload in {None, Some("")}
    ensures Plan(Rescheduled(payload), b, ceId) == Plan(Rescheduled(b.fromReschedule), b, ceId)
  {
    var h, h2 := Rescheduled(payload), Rescheduled(b.fromReschedule);
    SamePreviousSameKeys(b, ceId, payload, b.fromReschedule);
    SamePreviousSameUrls(b, Organizer, ceId, payload, b.fromReschedule);
    SamePreviousSameUrls(b, Client, ceId, payload, b.fromReschedule);
    assert LinksPlan(h, b, ceId) == LinksPlan(h2, b, ceId);
  }
}
