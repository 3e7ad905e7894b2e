/** A booking's life: created, rescheduled any number of times under new uids, at last cancelled,
    each delivery crashing and being redelivered any number of times. */
module Chain {
  import opened Wrappers
  import opened Domain
  import opened Machine
  import opened Handlers
  import opened Milestones
  import opened Convergence

  // One delivery: the booking row it reads, what its payload says of the previous uid, its event id and its
  // crashed attempts.
  datatype Leg = Leg(b: Booking, previous: Option<Uid>, ceId: string, attempts: seq<seq<Fate>>)

  datatype Life = Born(leg: Leg) | Moved(earlier: Life, leg: Leg)

  function Complete(h: Handler, leg: Leg, s: Store): Store {
    Uninterrupted(h, leg.b, leg.ceId, Redeliver(Plan(h, leg.b, leg.ceId), s, leg.attempts))
  }

  function Lived(s: Store, life: Life): Store {
    match life
    case Born(leg) => Complete(Created, leg, s)
    case Moved(earlier, leg) => Complete(Rescheduled(leg.previous), leg, Lived(s, earlier))
  }

  // The uids given up on the way.
  function PastUids(life: Life): set<Uid> {
    match life
    case Born(_) => {}
    case Moved(earlier, _) => PastUids(earlier) + {earlier.leg.b.uid}
  }

  predicate GoodLeg(leg: Leg) {
    && leg.b.user.Some? && leg.b.client.Some? && leg.b.uid != ""
    && forall fates | fates in leg.attempts :: CutsOnly(fates)
  }

  // Neither the uid's links nor its channel are known.
  predicate Unused(s: Store, uid: Uid) {
    uid !in s.table.links && CLIENT_PREFIX + uid !in s.table.links && uid !in s.channels
  }

  // The payload names the uid, whatever the row says; or it does not name any, and the row does.
  predicate Names(leg: Leg, uid: Uid) {
    leg.previous == Some(uid) || (leg.previous in {None, Some("")} && leg.b.fromReschedule == Some(uid))
  }

  lemma NamedIsPrevious(leg: Leg, uid: Uid)
    requires Names(leg, uid) && uid != ""
    ensures PreviousUid(leg.previous, leg.b) == Some(uid)
  {
  }

  // Every reschedule names the uid before and brings a new one, which does not cross the one before.
  predicate GoodLife(s: Store, life: Life) {
    && GoodLeg(life.leg) && Unused(s, life.leg.b.uid)
    && (life.Moved? ==>
          && GoodLife(s, life.earlier) && Names(life.leg, life.earlier.leg.b.uid)
          && life.leg.b.uid != life.earlier.leg.b.uid && life.leg.b.uid !in PastUids(life.earlier)
          && Uncrossed(life.leg.b.uid, life.earlier.leg.b.uid))
  }

  lemma CompleteReachesGoals(h: Handler, leg: Leg, s: Store)
    requires NoCrossing(h, leg.b) && forall fates | fates in leg.attempts :: CutsOnly(fates)
    ensures Observe(Complete(h, leg, s)) == Reach(Observe(s), Goals(h, leg.b)).0
  {
    CrashReplayConverges(h, leg.b, leg.ceId, s, leg.attempts);
    UninterruptedReachesGoals(h, leg.b, leg.ceId, s);
  }

  // The links are those of the store before and the two of booking b, with the first two idents, each
  // opening the booking's meeting for its own participant; the client's is the stored video URL.
  predicate OnlyLinksOf(s: Store, b: Booking, o: Obs)
    requires b.user.Some? && b.client.Some?
  {
    var links, key, key2 := o.table.links, b.uid, CLIENT_PREFIX + b.uid;
    && o.table.issued == s.table.issued + [Organizer, Client]
    && key in links && OpensMeeting(links[key].target, b, b.user.value, Organizer)
    && key2 in links && OpensMeeting(links[key2].target, b, b.client.value, Client)
    && links == s.table.links[key := Link(|s.table.issued|, links[key].target)]
                  [key2 := Link(|s.table.issued| + 1, links[key2].target)]
    && b.uid in o.video && o.video[b.uid] == Short(|s.table.issued| + 1)
  }

  // The same with the pages spelled out.
  predicate OwnLinks(s: Store, b: Booking, o: Obs)
    requires b.user.Some? && b.client.Some?
  {
    && o.table.issued == s.table.issued + [Organizer, Client]
    && o.table.links == s.table.links[b.uid := Link(|s.table.issued|, PageFor(b, b.user.value, Organizer))]
         [CLIENT_PREFIX + b.uid := Link(|s.table.issued| + 1, PageFor(b, b.client.value, Client))]
    && b.uid in o.video && o.video[b.uid] == Short(|s.table.issued| + 1)
  }

  lemma OwnLinksOpenMeeting(s: Store, b: Booking, o: Obs)
    requires b.user.Some? && b.client.Some?
    ensures OnlyLinksOf(s, b, o) <==> OwnLinks(s, b, o)
  {
    PrefixChanges(b.uid);
    if b.uid in o.table.links && CLIENT_PREFIX + b.uid in o.table.links {
      OnlyOwnPageOpensMeeting(o.table.links[b.uid].target, b, b.user.value, Organizer);
      OnlyOwnPageOpensMeeting(o.table.links[CLIENT_PREFIX + b.uid].target, b, b.client.value, Client);
    }
  }

  // The status of chats is as before, but for the given-up uids and the live last one.
  function ChatsOf(s: Store, life: Life): map<Uid, Status> {
    (Observe(s).status + map uid | uid in PastUids(life) :: DeletedChat)[life.leg.b.uid := LiveChat]
  }

  lemma BothOnFresh(t: Table, b: Booking)
    requires b.user.Some? && b.client.Some?
    requires b.uid !in t.links && CLIENT_PREFIX + b.uid !in t.links
    ensures Both(t, Created, b) == Table(
      t.links[b.uid := Link(|t.issued|, PageFor(b, b.user.value, Organizer))]
             [CLIENT_PREFIX + b.uid := Link(|t.issued| + 1, PageFor(b, b.client.value, Client))],
      t.issued + [Organizer, Client], t.overwrites)
  {
    PrefixChanges(b.uid);
    assert t.issued + [Organizer] + [Client] == t.issued + [Organizer, Client];
  }

  // A reschedule moves both links and keeps their idents.
  lemma BothMoves(s: Store, p: Booking, t: Table, h: Handler, b: Booking)
    requires p.user.Some? && p.client.Some? && b.user.Some? && b.client.Some?
    requires h.Rescheduled? && PreviousUid(h.previousUid, b) == Some(p.uid)
    requires p.uid != b.uid && Uncrossed(b.uid, p.uid) && Unused(s, p.uid) && Unused(s, b.uid)
    requires t.links == s.table.links[p.uid := Link(|s.table.issued|, PageFor(p, p.user.value, Organizer))]
                          [CLIENT_PREFIX + p.uid := Link(|s.table.issued| + 1, PageFor(p, p.client.value, Client))]
    ensures Both(t, h, b) == Table(
      s.table.links[b.uid := Link(|s.table.issued|, PageFor(b, b.user.value, Organizer))]
                   [CLIENT_PREFIX + b.uid := Link(|s.table.issued| + 1, PageFor(b, b.client.value, Client))],
      t.issued, t.overwrites)
  {
    var u, v := p.uid, b.uid;
    PrefixChanges(u);
    PrefixChanges(v);
    if CLIENT_PREFIX + u == CLIENT_PREFIX + v {
      PrefixCancels(u, v);
    }
    var first := SettleIn(t, Some(u), v, PageFor(b, b.user.value, Organizer));
    assert Movable(t, u, v);
    assert first.links == s.table.links[v := Link(|s.table.issued|, PageFor(b, b.user.value, Organizer))]
                            [CLIENT_PREFIX + u := Link(|s.table.issued| + 1, PageFor(p, p.client.value, Client))];
    assert Movable(first, CLIENT_PREFIX + u, CLIENT_PREFIX + v);
    assert Both(t, h, b).links
           == s.table.links[v := Link(|s.table.issued|, PageFor(b, b.user.value, Organizer))]
                [CLIENT_PREFIX + v := Link(|s.table.issued| + 1, PageFor(b, b.client.value, Client))];
  }

  lemma BornResult(s: Store, leg: Leg)
    requires GoodLife(s, Born(leg))
    ensures var o := Reach(Observe(s), Goals(Created, leg.b)).0;
            OwnLinks(s, leg.b, o) && o.status == ChatsOf(s, Born(leg))
  {
    assert Goals(Created, leg.b) == SetupGoals(Created, leg.b);
    SetupResult(Created, leg.b, Observe(s));
    FreshClientIdent(s.table, leg.b);
    BothOnFresh(s.table, leg.b);
    FirstChat(s, leg);
  }

  lemma FreshClientIdent(t: Table, b: Booking)
    requires b.user.Some? && b.client.Some?
    requires b.uid !in t.links && CLIENT_PREFIX + b.uid !in t.links
    ensures var both := Both(t, Created, b);
            KeyOf(Client, b.uid) in both.links && both.links[KeyOf(Client, b.uid)].ident == |t.issued| + 1
  {
    BothOnFresh(t, b);
  }

  lemma FirstChat(s: Store, leg: Leg)
    ensures Observe(s).status[leg.b.uid := LiveChat] == ChatsOf(s, Born(leg))
  {
    assert PastUids(Born(leg)) == {};
    assert Observe(s).status + map[] == Observe(s).status;
  }

  lemma ChatMovesOn(s: Store, life: Life, status: map<Uid, Status>)
    requires life.Moved? && GoodLife(s, life) && status == ChatsOf(s, life.earlier)
    ensures life.leg.b.uid !in status && life.earlier.leg.b.uid in status
    ensures status[life.earlier.leg.b.uid := DeletedChat][life.leg.b.uid := LiveChat] == ChatsOf(s, life)
  {
  }

  // Main theorem. After creation and any chain of reschedules, exactly one organizer link and one
  // client link remain, under the last uid and with the idents of the first, and only its chat is live.
  lemma {:induction false} OneBookingRemains(s: Store, life: Life)
    requires GoodLife(s, life)
    ensures var o := Observe(Lived(s, life));
            OnlyLinksOf(s, life.leg.b, o) && o.status == ChatsOf(s, life)
  {
    match life
    case Born(leg) =>
      CompleteReachesGoals(Created, leg, s);
      BornResult(s, leg);
      OwnLinksOpenMeeting(s, leg.b, Observe(Lived(s, life)));
    case Moved(earlier, leg) =>
      OneBookingRemains(s, earlier);
      var h, before := Rescheduled(leg.previous), Lived(s, earlier);
      NamedIsPrevious(leg, earlier.leg.b.uid);
      OwnLinksOpenMeeting(s, earlier.leg.b, Observe(before));
      CompleteReachesGoals(h, leg, before);
      ChatMovesOn(s, life, Observe(before).status);
      RescheduleResult(h, leg.b, Observe(before));
      BothMoves(s, earlier.leg.b, before.table, h, leg.b);
      OwnLinksOpenMeeting(s, leg.b, Observe(Lived(s, life)));
  }

  lemma CancelledResult(b: Booking, o: Obs)
    ensures var o' := Reach(o, Goals(Cancelled, b)).0;
            && o'.table.links == o.table.links - {b.uid} - {CLIENT_PREFIX + b.uid}
            && o'.status == Apply(Drop(b.uid, false), o).status
  {
    var drop, unlink, unlink2 := Drop(b.uid, false), Unlink(b.uid), Unlink(CLIENT_PREFIX + b.uid);
    assert Goals(Cancelled, b) == [drop] + ([unlink] + ([unlink2] + []));
    ReachCons(o, drop, [unlink] + ([unlink2] + []));
    var o1 := Apply(drop, o);
    ReachCons(o1, unlink, [unlink2] + []);
    ReachCons(Apply(unlink, o1), unlink2, []);
  }

  lemma CancelClears(s: Store, life: Life, b: Booking, o: Obs)
    requires GoodLife(s, life) && b.uid == life.leg.b.uid
    requires OnlyLinksOf(s, life.leg.b, o) && o.status == ChatsOf(s, life)
    ensures var o' := Reach(o, Goals(Cancelled, b)).0;
            && o'.table.links == s.table.links
            && o'.status == Observe(s).status + map uid | uid in PastUids(life) + {b.uid} :: DeletedChat
  {
    CancelledResult(b, o);
    PrefixChanges(b.uid);
    LinksGone(s.table.links, b.uid, CLIENT_PREFIX + b.uid, o.table.links[b.uid], o.table.links[CLIENT_PREFIX + b.uid]);
    ChatsGone(s, life);
  }

  lemma LinksGone(links: map<string, Link>, first: string, second: string, a: Link, c: Link)
    requires first !in links && second !in links && first != second
    ensures links[first := a][second := c] - {first} - {second} == links
  {
  }

  lemma ChatsGone(s: Store, life: Life)
    ensures ChatsOf(s, life)[life.leg.b.uid := DeletedChat]
            == Observe(s).status + map uid | uid in PastUids(life) + {life.leg.b.uid} :: DeletedChat
  {
  }

  // A final cancellation, too, may crash and be redelivered; it leaves no link and no live chat.
  lemma CancelLeavesNothing(s: Store, life: Life, cancel: Leg)
    requires GoodLife(s, life)
    requires cancel.b.uid == life.leg.b.uid && forall fates | fates in cancel.attempts :: CutsOnly(fates)
    ensures var o := Observe(Complete(Cancelled, cancel, Lived(s, life)));
            && o.table.links == s.table.links
            && o.status == Observe(s).status + map uid | uid in PastUids(life) + {life.leg.b.uid} :: DeletedChat
  {
    OneBookingRemains(s, life);
    CompleteReachesGoals(Cancelled, cancel, Lived(s, life));
    CancelClears(s, life, cancel.b, Observe(Lived(s, life)));
  }
}
