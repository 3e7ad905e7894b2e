/** The values the service moves around: bookings, tokenized meeting pages, short links,
    chat channels and outgoing events, and the external stores that hold them.
    Instants are whole microseconds. */
module Domain {
  import opened Wrappers

  type Uid = string

  const CLIENT_PREFIX := "client_"
  const MICROS_PER_SECOND := 1_000_000
  const BUFFER_MICROS := 5 * 60 * MICROS_PER_SECOND

  datatype Role = Organizer | Client

  datatype Person = Person(name: string, email: string)

  datatype Booking = Booking(
    id: int,
    uid: Uid,
    start: int,
    end: int,
    user: Option<Person>,
    client: Option<Person>,
    fromReschedule: Option<Uid>)

  // A tokenized long URL, as the record of the claims its tokens carry (issue time left out).
  datatype Page = Page(
    room: Uid,
    name: string,
    email: string,
    role: Role,
    moderator: bool,
    opens: int,
    closes: int)

  datatype Url = Long(page: Page) | Short(ident: nat)

  datatype Link = Link(ident: nat, target: Page)

  datatype Message = Welcome1 | Welcome2 | Chatter

  // A channel that is absent is a missing key of Store.channels.
  datatype Channel = Live(messages: seq<Message>) | SoftDeleted

  datatype Recipient = Recipient(email: string, role: Role)

  datatype Note =
    | ChatCreated(channel: Uid)
    | ChatDeleted(channel: Uid, uid: Uid)
    | UrlCreated(uid: Uid, to: Recipient, url: Url)
    | UrlDeleted(uid: Uid, to: Recipient)
    | Notification(uid: Uid, trigger: string, recipients: seq<Recipient>, link: Option<Url>)
    | BookingRejected(uid: Uid, reason: string)

  // The event id is a function of the dedupe key; without a key it is random.
  datatype Event = Event(key: Option<string>, note: Note)

  // The shortener's table, keyed by external id.
  datatype Table = Table(
    links: map<string, Link>,
    issued: seq<Role>,      // issued[i]: the role of the page ident i was first created for
    overwrites: bool)       // whether moving a link onto an occupied id replaces it or is refused

  datatype Store = Store(
    table: Table,
    channels: map<Uid, Channel>,
    video: map<Uid, Url>,
    rejected: map<int, string>,
    accepted: seq<Event>)

  function KeyOf(role: Role, uid: Uid): string {
    if role == Client then CLIENT_PREFIX + uid else uid
  }

  function PageFor(b: Booking, p: Person, role: Role): Page {
    Page(b.uid, p.name, p.email, role, role == Organizer, b.start - BUFFER_MICROS, b.end + BUFFER_MICROS)
  }

  // What a participant's link is to open: the booking's own room, under the participant's name and email,
  // from five minutes before the meeting until five minutes after it, moderated by the organizer alone.
  predicate OpensMeeting(page: Page, b: Booking, p: Person, role: Role) {
    && page.room == b.uid && page.name == p.name && page.email == p.email
    && page.role == role && (page.moderator <==> role == Organizer)
    && page.opens == b.start - 300_000_000 && page.closes == b.end + 300_000_000
  }

  lemma OnlyOwnPageOpensMeeting(page: Page, b: Booking, p: Person, role: Role)
    ensures OpensMeeting(page, b, p, role) <==> page == PageFor(b, p, role)
  {
  }

  // int(x.timestamp()): truncation toward zero.
  function WholeSeconds(micros: int): int {
    if micros >= 0 then micros / MICROS_PER_SECOND else -((-micros) / MICROS_PER_SECOND)
  }

  // The "nbf" and "exp" claims of the video token.
  function NotBefore(p: Page): int { WholeSeconds(p.opens) }

  function Expires(p: Page): int { WholeSeconds(p.closes) }

  // Despite truncation to seconds, a token is valid throughout its meeting, and for no more than five
  // minutes and a second around it.
  lemma TokenCoversMeeting(b: Booking, p: Person, role: Role, t: int)
    ensures b.start <= t <= b.end ==>
              NotBefore(PageFor(b, p, role)) * 1_000_000 <= t < Expires(PageFor(b, p, role)) * 1_000_000
    ensures NotBefore(PageFor(b, p, role)) * 1_000_000 <= t < Expires(PageFor(b, p, role)) * 1_000_000 ==>
              b.start - 301_000_000 < t < b.end + 301_000_000
  {
    WholeSecondsNear(b.start - BUFFER_MICROS);
    WholeSecondsNear(b.end + BUFFER_MICROS);
  }

  // Truncation goes towards zero, by less than a second.
  lemma WholeSecondsNear(micros: int)
    ensures micros >= 0 ==> 0 <= micros - WholeSeconds(micros) * 1_000_000 < 1_000_000
    ensures micros <= 0 ==> 0 <= WholeSeconds(micros) * 1_000_000 - micros < 1_000_000
  {
    if micros < 0 {
      assert (-micros) == (-micros) / MICROS_PER_SECOND * MICROS_PER_SECOND + (-micros) % MICROS_PER_SECOND;
    }
  }
}
