/** The external stores as the service reaches them through its adapters: every call changes them in
    place, or raises. */
module Adapters {
  import opened Wrappers
  import opened Domain
  import opened Dedupe
  import opened Machine

  lemma AttemptOne(i: Instr, r: Run, fates: seq<Fate>)
    requires r.alive && !Skips(i, r.regs)
    ensures Attempt([i], r, fates)
            == if fates == [] then (Fated(i, r, Go(Fine)), []) else (Fated(i, r, fates[0]), fates[1..])
  {
    assert [i][1..] == [];
  }

  // fates says how the next calls will go. trail is the attempt as the plans describe it.
  class Outside {
    var table: Table
    var channels: map<Uid, Channel>
    var video: map<Uid, Url>
    var rejected: map<int, string>
    var accepted: seq<Event>
    var fates: seq<Fate>
    ghost var trail: Run

    constructor (s: Store, fates: seq<Fate>)
      ensures Snapshot() == s && this.fates == fates && Valid() && trail == Start(s)
    {
      table, channels, video, rejected, accepted := s.table, s.channels, s.video, s.rejected, s.accepted;
      this.fates, trail := fates, Start(s);
    }

    function Snapshot(): Store
      reads this
    {
      Store(table, channels, video, rejected, accepted)
    }

    // The stores are what the attempt has made of them.
    ghost predicate Valid()
      reads this
    {
      trail.store == Snapshot()
    }

    ghost predicate Going()
      reads this
    {
      Valid() && trail.alive
    }

    ghost method BeginAttempt()
      modifies this`trail
      ensures Going() && trail == Start(Snapshot())
    {
      trail := Start(Snapshot());
    }

    method NextFate() returns (fate: Fate)
      modifies this`fates
      ensures old(fates) == [] ==> fate == Go(Fine) && fates == []
      ensures old(fates) != [] ==> fate == old(fates)[0] && fates == old(fates)[1..]
    {
      fate := Go(Fine);
      if fates != [] {
        fate, fates := fates[0], fates[1..];
      }
    }

    // ----- GetStream -----

    method CreateChat(channel: Uid) returns (ok: bool)
      requires Going()
      modifies this
      ensures Valid() && ok == trail.alive
      ensures (trail, fates) == Attempt([CreateChannel(channel)], old(trail), old(fates))
      ensures trail.regs == old(trail).regs
    {
      AttemptOne(CreateChannel(channel), trail, fates);
      var fate := NextFate();
      ok := fate != Crash;
      if ok {
        if channel !in channels {
          channels := channels[channel := Live([])];
        } else {
          ok := channels[channel].Live?;
        }
      }
      trail := Fated(CreateChannel(channel), trail, fate);
    }

    method HasMessages(channel: Uid) returns (has: bool, ok: bool)
      requires Going()
      modifies this
      ensures Valid() && ok == trail.alive
      ensures (trail, fates) == Attempt([QueryMessages(channel)], old(trail), old(fates))
      ensures ok ==> trail.regs == old(trail).regs.(hasMessages := has)
    {
      AttemptOne(QueryMessages(channel), trail, fates);
      var fate := NextFate();
      has, ok := false, fate != Crash && channel in channels && channels[channel].Live?;
      if ok {
        has := channels[channel].messages != [];
      }
      trail := Fated(QueryMessages(channel), trail, fate);
    }

    method SendMessage(channel: Uid, message: Message) returns (ok: bool)
      requires Going() && !trail.regs.hasMessages
      modifies this
      ensures Valid() && ok == trail.alive
      ensures (trail, fates) == Attempt([SendWelcome(channel, message)], old(trail), old(fates))
      ensures trail.regs == old(trail).regs
    {
      AttemptOne(SendWelcome(channel, message), trail, fates);
      var fate := NextFate();
      ok := fate != Crash && channel in channels && channels[channel].Live?;
      if ok {
        channels := channels[channel := Live(channels[channel].messages + [message])];
      }
      trail := Fated(SendWelcome(channel, message), trail, fate);
    }

    // A missing channel is a success.
    method DeleteChat(channel: Uid, hard: bool) returns (ok: bool)
      requires Going()
      modifies this
      ensures Valid() && ok == trail.alive
      ensures (trail, fates) == Attempt([DeleteChannel(channel, hard)], old(trail), old(fates))
      ensures trail.regs == old(trail).regs
    {
      AttemptOne(DeleteChannel(channel, hard), trail, fates);
      var fate := NextFate();
      ok := fate != Crash;
      if ok {
        if hard {
          channels := channels - {channel};
        } else if channel in channels {
          channels := channels[channel := SoftDeleted];
        }
      }
      trail := Fated(DeleteChannel(channel, hard), trail, fate);
    }

    // ----- The shortener: None on any failure, even one after the effect -----

    method CreateUrl(key: string, page: Page) returns (ident: Option<nat>, ok: bool)
      requires Going() && trail.regs.Ident(page.role).None?
      modifies this
      ensures Valid() && ok == trail.alive
      ensures (trail, fates) == Attempt([CreateLink(key, page)], old(trail), old(fates))
      ensures ok ==> trail.regs == old(trail).regs.Set(page.role, ident)
    {
      AttemptOne(CreateLink(key, page), trail, fates);
      var fate := NextFate();
      ok, ident := fate != Crash, None;
      if ok && fate.luck != Refused {
        table := Upsert(table, key, page);
        if fate.luck == Fine {
          ident := Some(table.links[key].ident);
        }
      }
      trail := Fated(CreateLink(key, page), trail, fate);
    }

    method UpdateUrlData(page: Page, newKey: string, oldKey: string) returns (ident: Option<nat>, ok: bool)
      requires Going()
      modifies this
      ensures Valid() && ok == trail.alive
      ensures (trail, fates) == Attempt([MoveLink(oldKey, newKey, page)], old(trail), old(fates))
      ensures ok ==> trail.regs == old(trail).regs.Set(page.role, ident)
    {
      AttemptOne(MoveLink(oldKey, newKey, page), trail, fates);
      var fate := NextFate();
      ok, ident := fate != Crash, None;
      if ok && fate.luck != Refused && Movable(table, oldKey, newKey) {
        table := Move(table, oldKey, newKey, page);
        if fate.luck == Fine {
          ident := Some(table.links[newKey].ident);
        }
      }
      trail := Fated(MoveLink(oldKey, newKey, page), trail, fate);
    }

    method DeleteUrl(key: string) returns (ok: bool)
      requires Going()
      modifies this
      ensures Valid() && ok == trail.alive
      ensures (trail, fates) == Attempt([DeleteLink(key)], old(trail), old(fates))
    {
      AttemptOne(DeleteLink(key), trail, fates);
      var fate := NextFate();
      ok := fate != Crash;
      if ok && fate.luck != Refused {
        table := table.(links := table.links - {key});
      }
      trail := Fated(DeleteLink(key), trail, fate);
    }

    // ----- cal.com -----

    method UpdateBookingVideoUrl(uid: Uid, url: Url, ghost page: Page) returns (ok: bool)
      requires Going() && url == trail.regs.UrlOf(page)
      modifies this
      ensures Valid() && ok == trail.alive
      ensures (trail, fates) == Attempt([StoreVideo(uid, page)], old(trail), old(fates))
      ensures trail.regs == old(trail).regs
    {
      AttemptOne(StoreVideo(uid, page), trail, fates);
      var fate := NextFate();
      ok := fate != Crash;
      if ok {
        video := video[uid := url];
      }
      trail := Fated(StoreVideo(uid, page), trail, fate);
    }

    method RejectBooking(id: int, reason: string) returns (ok: bool)
      requires Going()
      modifies this
      ensures Valid() && ok == trail.alive
      ensures (trail, fates) == Attempt([RejectRow(id, reason)], old(trail), old(fates))
    {
      AttemptOne(RejectRow(id, reason), trail, fates);
      var fate := NextFate();
      ok := fate != Crash;
      if ok {
        rejected := rejected[id := reason];
      }
      trail := Fated(RejectRow(id, reason), trail, fate);
    }

    // ----- The event receiver -----

    method SendEvent(note: Note, dedupeKey: Option<string>, ghost step: Instr) returns (ok: bool)
      requires Going() && step.Publish?
      requires EventOf(step.ceId, step.step, step.draft, trail.regs) == Event(dedupeKey, note)
      modifies this
      ensures Valid() && ok == trail.alive
      ensures (trail, fates) == Attempt([step], old(trail), old(fates))
      ensures trail.regs == old(trail).regs
    {
      AttemptOne(step, trail, fates);
      var fate := NextFate();
      ok := fate != Crash;
      if ok {
        accepted := accepted + [Event(dedupeKey, note)];
      }
      trail := Fated(step, trail, fate);
    }
  }
}
