/** Role separation over all runs: every short link keeps its role for good, and every participant
    is only ever sent, and every booking only ever stores, a URL of the right role. */
module RoleSafety {
  import opened Wrappers
  import opened Domain
  import opened Machine
  import opened Handlers
  import opened System

  // No uid is another one behind the client prefix; in particular when no uid starts with it.
  predicate Separable(uids: set<Uid>) {
    forall uid | uid in uids :: CLIENT_PREFIX + uid !in uids
  }

  lemma NoPrefixIsSeparable(uids: set<Uid>)
    requires forall uid | uid in uids :: !(CLIENT_PREFIX <= uid)
    ensures Separable(uids)
  {
  }

  // External ids tell role and uid apart exactly for separable uids.
  lemma KeysInjectiveIffSeparable(uids: set<Uid>)
    ensures Separable(uids) <==>
            forall role, role2, uid, uid2 | uid in uids && uid2 in uids && KeyOf(role, uid) == KeyOf(role2, uid2) ::
              role == role2 && uid == uid2
  {
    if Separable(uids) {
      forall role, role2, uid, uid2 | uid in uids && uid2 in uids && KeyOf(role, uid) == KeyOf(role2, uid2)
        ensures role == role2 && uid == uid2
      {
        if role == Client && role2 == Client {
          assert KeyOf(role, uid)[7..] == uid && KeyOf(role2, uid2)[7..] == uid2;
        }
      }
    } else {
      var uid :| uid in uids && CLIENT_PREFIX + uid in uids;
      assert KeyOf(Client, uid) == KeyOf(Organizer, CLIENT_PREFIX + uid);
    }
  }

  // ----- The invariant -----

  predicate PageOk(page: Page, role: Role) {
    page.role == role && (page.moderator <==> role == Organizer)
  }

  // A URL of this role: a page of its own, or an ident issued for the role.
  predicate UrlOk(t: Table, url: Url, role: Role) {
    match url
    case Long(page) => PageOk(page, role)
    case Short(ident) => ident < |t.issued| && t.issued[ident] == role
  }

  ghost predicate KeyOk(uids: set<Uid>, key: string, role: Role) {
    exists uid :: uid in uids && key == KeyOf(role, uid)
  }

  ghost predicate LinkOk(uids: set<Uid>, t: Table, key: string)
    requires key in t.links
  {
    var link := t.links[key];
    KeyOk(uids, key, link.target.role) && PageOk(link.target, link.target.role)
    && UrlOk(t, Short(link.ident), link.target.role)
  }

  predicate NoteOk(t: Table, note: Note) {
    match note
    case UrlCreated(_, to, url) => UrlOk(t, url, to.role)
    case Notification(_, _, recipients, link) =>
      link.Some? ==> forall to | to in recipients :: UrlOk(t, link.value, to.role)
    case _ => true
  }

  predicate RegsOk(t: Table, regs: Regs) {
    forall role: Role :: regs.Ident(role).Some? ==> UrlOk(t, Short(regs.Ident(role).value), role)
  }

  predicate DraftOk(draft: Draft) {
    match draft
    case Fixed(note) => !note.UrlCreated? && (note.Notification? ==> note.link.None?)
    case AnnounceUrl(_, to, page) => PageOk(page, to.role)
    case NotifyWithUrl(_, _, to, page) => PageOk(page, to.role)
  }

  ghost predicate InstrOk(uids: set<Uid>, i: Instr) {
    match i
    case MoveLink(oldKey, key, page) =>
      PageOk(page, page.role) && KeyOk(uids, key, page.role) && KeyOk(uids, oldKey, page.role)
    case CreateLink(key, page) => PageOk(page, page.role) && KeyOk(uids, key, page.role)
    case StoreVideo(_, page) => PageOk(page, Client)
    case Publish(_, _, draft) => DraftOk(draft)
    case _ => true
  }

  ghost predicate StoreOk(uids: set<Uid>, s: Store) {
    && (forall key | key in s.table.links :: LinkOk(uids, s.table, key))
    && (forall uid | uid in s.video :: UrlOk(s.table, s.video[uid], Client))
    && (forall e | e in s.accepted :: NoteOk(s.table, e.note))
  }

  ghost predicate JobOk(uids: set<Uid>, t: Table, job: Job) {
    RegsOk(t, job.regs) && forall i | i in job.todo :: InstrOk(uids, i)
  }

  ghost predicate Inv(uids: set<Uid>, y: Sys) {
    StoreOk(uids, y.store) && forall id | id in y.jobs :: JobOk(uids, y.store.table, y.jobs[id])
  }

  // The bookings delivered, and those they were rescheduled from, have uids of the set.
  predicate ActionOk(uids: set<Uid>, a: Action) {
    a.Begin? ==>
      && a.b.uid in uids
      && (a.h.Rescheduled? && PreviousUid(a.h.previousUid, a.b).Some? ==> PreviousUid(a.h.previousUid,
                                                                                      a.b).value in uids)
  }

  // ----- It is kept by every step -----

  predicate Grows(t: Table, t': Table) { t.issued <= t'.issued }

  ghost predicate AllOk(uids: set<Uid>, plan: seq<Instr>) { forall i | i in plan :: InstrOk(uids, i) }

  lemma AllOkConcat(uids: set<Uid>, p: seq<Instr>, q: seq<Instr>)
    requires AllOk(uids, p) && AllOk(uids, q)
    ensures AllOk(uids, p + q)
  {
  }

  lemma PlanOk(uids: set<Uid>, h: Handler, b: Booking, ceId: string)
    requires ActionOk(uids, Begin(0, h, b, ceId))
    ensures AllOk(uids, Plan(h, b, ceId))
  {
    match h
    case Rejected(trigger, reason) => assert AllOk(uids, RejectPlan(b, trigger, reason, ceId));
    case Cancelled =>
      var notify, chat := NotifyPlan(b, Trigger(h), false, ceId), DeleteChatPlan(b.uid, b.uid, false, ceId);
      var p, q := DeleteUrlPlan(b, Organizer, ceId), DeleteUrlPlan(b, Client, ceId);
      NotifyPlanOk(uids, b, Trigger(h), false, ceId);
      assert AllOk(uids, chat) && AllOk(uids, p) && AllOk(uids, q);
      AllOkConcat(uids, p, q);
      AllOkConcat(uids, chat, p + q);
      AllOkConcat(uids, notify, chat + (p + q));
    case _ =>
      var cleanup, chat := CleanupPlan(h, b, ceId), ChatPlan(b, ceId);
      var links, notify := LinksPlan(h, b, ceId), NotifyPlan(b, Trigger(h), true, ceId);
      NotifyPlanOk(uids, b, Trigger(h), true, ceId);
      LinksPlanOk(uids, h, b, ceId);
      CleanupAndChatOk(uids, h, b, ceId);
      AllOkConcat(uids, links, notify);
      AllOkConcat(uids, chat, links + notify);
      AllOkConcat(uids, cleanup, chat + (links + notify));
  }

  lemma CleanupAndChatOk(uids: set<Uid>, h: Handler, b: Booking, ceId: string)
    ensures AllOk(uids, CleanupPlan(h, b, ceId)) && AllOk(uids, ChatPlan(b, ceId))
  {
  }

  lemma LinksPlanOk(uids: set<Uid>, h: Handler, b: Booking, ceId: string)
    requires ActionOk(uids, Begin(0, h, b, ceId))
    ensures AllOk(uids, LinksPlan(h, b, ceId))
  {
    var p, q := UrlPlan(h, b, Organizer, ceId), UrlPlan(h, b, Client, ceId);
    UrlPlanOk(uids, h, b, Organizer, ceId);
    UrlPlanOk(uids, h, b, Client, ceId);
    AllOkConcat(uids, p, q);
    AllOkConcat(uids, p + q, VideoPlan(b));
  }

  lemma UrlPlanOk(uids: set<Uid>, h: Handler, b: Booking, role: Role, ceId: string)
    requires ActionOk(uids, Begin(0, h, b, ceId))
    ensures AllOk(uids, UrlPlan(h, b, role, ceId))
  {
    assert KeyOk(uids, KeyOf(role, b.uid), role);
    if OldKey(h, b, role).Some? {
      assert KeyOk(uids, OldKey(h, b, role).value, role);
    }
  }

  lemma NotifyPlanOk(uids: set<Uid>, b: Booking, trigger: string, withUrl: bool, ceId: string)
    ensures AllOk(uids, NotifyPlan(b, trigger, withUrl, ceId))
  {
  }

  // Separable uids: a key is good for one role only.
  lemma KeyHasOneRole(uids: set<Uid>, key: string, role: Role, role2: Role)
    requires Separable(uids) && KeyOk(uids, key, role) && KeyOk(uids, key, role2)
    ensures role == role2
  {
    KeysInjectiveIffSeparable(uids);
  }

  lemma UpsertOk(uids: set<Uid>, t: Table, key: string, page: Page)
    requires Separable(uids) && InstrOk(uids, CreateLink(key, page))
    requires forall k | k in t.links :: LinkOk(uids, t, k)
    ensures var t' := Upsert(t, key, page);
            && Grows(t, t') && (forall k | k in t'.links :: LinkOk(uids, t', k))
            && UrlOk(t', Short(t'.links[key].ident), page.role)
  {
    var t' := Upsert(t, key, page);
    if key in t.links {
      assert LinkOk(uids, t, key);
      KeyHasOneRole(uids, key, page.role, t.links[key].target.role);
    }
    forall k | k in t'.links ensures LinkOk(uids, t', k) {
      if k != key {
        assert LinkOk(uids, t, k);
      }
    }
  }

  lemma MoveOk(uids: set<Uid>, t: Table, oldKey: string, key: string, page: Page)
    requires Separable(uids) && InstrOk(uids, MoveLink(oldKey, key, page)) && Movable(t, oldKey, key)
    requires forall k | k in t.links :: LinkOk(uids, t, k)
    ensures var t' := Move(t, oldKey, key, page);
            && Grows(t, t') && (forall k | k in t'.links :: LinkOk(uids, t', k))
            && UrlOk(t', Short(t'.links[key].ident), page.role)
  {
    var t' := Move(t, oldKey, key, page);
    assert LinkOk(uids, t, oldKey);
    KeyHasOneRole(uids, oldKey, page.role, t.links[oldKey].target.role);
    forall k | k in t'.links ensures LinkOk(uids, t', k) {
      if k != key {
        assert LinkOk(uids, t, k);
      }
    }
  }

  // Issuing more idents spoils nothing.
  lemma StoreKeeps(uids: set<Uid>, s: Store, t': Table)
    requires StoreOk(uids, s) && Grows(s.table, t') && forall k | k in t'.links :: LinkOk(uids, t', k)
    ensures StoreOk(uids, s.(table := t'))
  {
    forall e | e in s.accepted ensures NoteOk(t', e.note) {
      assert NoteOk(s.table, e.note);
    }
  }

  lemma RegsKeep(t: Table, t': Table, regs: Regs)
    requires RegsOk(t, regs) && Grows(t, t')
    ensures RegsOk(t', regs)
  {
  }

  lemma SetKeeps(t: Table, regs: Regs, role: Role, ident: Option<nat>)
    requires RegsOk(t, regs) && (ident.Some? ==> UrlOk(t, Short(ident.value), role))
    ensures RegsOk(t, regs.Set(role, ident))
  {
    forall other: Role | regs.Set(role, ident).Ident(other).Some?
      ensures UrlOk(t, Short(regs.Set(role, ident).Ident(other).value), other)
    {
      assert other != role ==> regs.Set(role, ident).Ident(other) == regs.Ident(other);
    }
  }

  lemma ExecOk(uids: set<Uid>, i: Instr, s: Store, regs: Regs, luck: Luck)
    requires Separable(uids) && StoreOk(uids, s) && RegsOk(s.table, regs) && InstrOk(uids, i)
    ensures var out := Exec(i, s, regs, luck);
            out.Next? ==> StoreOk(uids, out.store) && RegsOk(out.store.table, out.regs) && Grows(s.table,
                                                                                                 out.store.table)
  {
    match i
    case MoveLink(oldKey, key, page) =>
      if luck == Refused || !Movable(s.table, oldKey, key) {
        SetKeeps(s.table, regs, page.role, None);
      } else {
        MoveOk(uids, s.table, oldKey, key, page);
        var t' := Move(s.table, oldKey, key, page);
        StoreKeeps(uids, s, t');
        RegsKeep(s.table, t', regs);
        SetKeeps(t', regs, page.role, if luck == Fine then Some(t'.links[key].ident) else None);
      }
    case CreateLink(key, page) =>
      if luck == Refused {
        SetKeeps(s.table, regs, page.role, None);
      } else {
        UpsertOk(uids, s.table, key, page);
        var t' := Upsert(s.table, key, page);
        StoreKeeps(uids, s, t');
        RegsKeep(s.table, t', regs);
        SetKeeps(t', regs, page.role, if luck == Fine then Some(t'.links[key].ident) else None);
      }
    case DeleteLink(key) =>
      var t' := s.table.(links := s.table.links - {key});
      forall k | k in t'.links ensures LinkOk(uids, t', k) {
        assert LinkOk(uids, s.table, k);
      }
      StoreKeeps(uids, s, t');
    case QueryMessages(_) =>
      assert forall role: Role, b: bool :: regs.(hasMessages := b).Ident(role) == regs.Ident(role);
    case Publish(ceId, step, draft) =>
      var e := EventOf(ceId, step, draft, regs);
      assert NoteOk(s.table, e.note);
      assert forall x | x in s.accepted + [e] :: x in s.accepted || x == e;
    case _ =>
  }

  lemma StepKeeps(uids: set<Uid>, y: Sys, a: Action)
    requires Separable(uids) && Inv(uids, y) && ActionOk(uids, a)
    ensures Inv(uids, Step(y, a)) && Grows(y.store.table, Step(y, a).store.table)
  {
    match a
    case Begin(id, h, b, ceId) => PlanOk(uids, h, b, ceId);
    case Advance(id, luck) =>
      if id in y.jobs && y.jobs[id].todo != [] {
        var job, y' := y.jobs[id], Step(y, a);
        assert JobOk(uids, y.store.table, job) && job.todo[0] in job.todo;
        assert forall i | i in job.todo[1..] :: i in job.todo;
        if !Skips(job.todo[0], job.regs) {
          ExecOk(uids, job.todo[0], y.store, job.regs, luck);
        }
        forall other | other in y'.jobs ensures JobOk(uids, y'.store.table, y'.jobs[other]) {
          if other != id {
            assert JobOk(uids, y.store.table, y.jobs[other]);
            RegsKeep(y.store.table, y'.store.table, y.jobs[other].regs);
          }
        }
      }
    case Kill(id) =>
    case Post(channel) =>
  }

  // Main theorem: the invariant holds throughout every run.
  lemma {:induction false} RolesNeverMix(uids: set<Uid>, y: Sys, actions: seq<Action>)
    requires Separable(uids) && Inv(uids, y) && forall a | a in actions :: ActionOk(uids, a)
    ensures Inv(uids, Trace(y, actions)) && Grows(y.store.table, Trace(y, actions).store.table)
    decreases actions
  {
    if actions != [] {
      assert actions[0] in actions && forall a | a in actions[1..] :: a in actions;
      StepKeeps(uids, y, actions[0]);
      RolesNeverMix(uids, Step(y, actions[0]), actions[1..]);
    }
  }

  lemma StartsOk(uids: set<Uid>, overwrites: bool)
    ensures Inv(uids, Sys(Store(Table(map[], [], overwrites), map[], map[], map[], []), map[]))
  {
  }

  // The events accepted so far stay accepted.
  lemma {:induction false} AcceptedStays(y: Sys, actions: seq<Action>, e: Event)
    requires e in y.store.accepted
    ensures e in Trace(y, actions).store.accepted
    decreases actions
  {
    if actions != [] {
      AcceptedStays(Step(y, actions[0]), actions[1..], e);
    }
  }

  // What it means to a recipient: wherever the delivered link leads at any later time, it is a page
  // of the recipient's own role, with moderator rights exactly for the organizer.
  lemma DeliveredLinkStaysOwnRole(uids: set<Uid>, y: Sys, before: seq<Action>, after: seq<Action>,
                                  e: Event, to: Recipient, key: string)
    requires Separable(uids) && Inv(uids, y) && forall a | a in before + after :: ActionOk(uids, a)
    requires e in Trace(y, before).store.accepted && e.note.Notification? && to in e.note.recipients
    requires e.note.link.Some? && e.note.link.value.Short?
    requires var t := Trace(y, before + after).store.table;
             key in t.links && t.links[key].ident == e.note.link.value.ident
    ensures PageOk(Trace(y, before + after).store.table.links[key].target, to.role)
  {
    RolesNeverMix(uids, y, before + after);
    TraceSplit(y, before, after);
    AcceptedStays(Trace(y, before), after, e);
    var s := Trace(y, before + after).store;
    assert NoteOk(s.table, e.note) && LinkOk(uids, s.table, key);
  }

  predicate Harmless(page: Page) { page.role == Client && !page.moderator }

  // A page for clients, or a short link that leads to one, wherever its entry is by now.
  predicate LeadsToClientPage(t: Table, url: Url) {
    match url
    case Long(page) => Harmless(page)
    case Short(ident) => forall key | key in t.links && t.links[key].ident == ident :: Harmless(t.links[key].target)
  }

  // The same for the video URL cal.com shows to the attendee.
  lemma VideoLinkIsNeverModerator(uids: set<Uid>, y: Sys, actions: seq<Action>, uid: Uid)
    requires Separable(uids) && Inv(uids, y) && forall a | a in actions :: ActionOk(uids, a)
    requires uid in Trace(y, actions).store.video
    ensures LeadsToClientPage(Trace(y, actions).store.table, Trace(y, actions).store.video[uid])
  {
    RolesNeverMix(uids, y, actions);
    var s := Trace(y, actions).store;
    assert UrlOk(s.table, s.video[uid], Client);
    forall key | key in s.table.links && s.video[uid] == Short(s.table.links[key].ident)
      ensures Harmless(s.table.links[key].target)
    {
      assert LinkOk(uids, s.table, key);
    }
  }
}
