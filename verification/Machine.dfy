/** The atomic steps a handler takes on the external stores, and how an attempt goes through them:
    any step may be the last one before a crash, and the shortener may fail without raising. */
module Machine {
  import opened Wrappers
  import opened Domain
  import opened Dedupe

  // ----- The short-link table -----

  // Creating is an upsert: a known external id keeps its ident and gets the new page.
  function Upsert(t: Table, key: string, page: Page): Table {
    if key in t.links then t.(links := t.links[key := Link(t.links[key].ident, page)])
    else t.(links := t.links[key := Link(|t.issued|, page)], issued := t.issued + [page.role])
  }

  predicate Movable(t: Table, oldKey: string, key: string) {
    oldKey in t.links && (key == oldKey || key !in t.links || t.overwrites)
  }

  // Updating moves an entry to a new external id and page, and keeps its ident.
  function Move(t: Table, oldKey: string, key: string, page: Page): Table
    requires Movable(t, oldKey, key)
  {
    t.(links := (t.links - {oldKey})[key := Link(t.links[oldKey].ident, page)])
  }

  // ----- Steps -----

  // What a published event says; links are filled in from the attempt's registers.
  datatype Draft =
    | Fixed(note: Note)
    | AnnounceUrl(uid: Uid, to: Recipient, page: Page)
    | NotifyWithUrl(uid: Uid, trigger: string, to: Recipient, page: Page)

  datatype Instr =
    | DeleteChannel(uid: Uid, hard: bool)
    | CreateChannel(uid: Uid)
    | QueryMessages(uid: Uid)
    | SendWelcome(uid: Uid, message: Message)
    | MoveLink(oldKey: string, key: string, page: Page)
    | CreateLink(key: string, page: Page)
    | DeleteLink(key: string)
    | StoreVideo(uid: Uid, page: Page)
    | RejectRow(id: int, reason: string)
    | Publish(ceId: string, step: Step, draft: Draft)

  // The local variables an attempt carries from step to step.
  datatype Regs = Regs(hasMessages: bool, organizer: Option<nat>, client: Option<nat>) {
    function Ident(role: Role): Option<nat> { if role == Client then client else organizer }

    function Set(role: Role, ident: Option<nat>): Regs {
      if role == Client then this.(client := ident) else this.(organizer := ident)
    }

    // `short_url or long_url`
    function UrlOf(page: Page): Url {
      match Ident(page.role)
      case Some(ident) => Short(ident)
      case None => Long(page)
    }
  }

  const FRESH_REGS := Regs(false, None, None)

  function Fill(draft: Draft, regs: Regs): Note {
    match draft
    case Fixed(note) => note
    case AnnounceUrl(uid, to, page) => UrlCreated(uid, to, regs.UrlOf(page))
    case NotifyWithUrl(uid, trigger, to, page) => Notification(uid, trigger, [to], Some(regs.UrlOf(page)))
  }

  function EventOf(ceId: string, step: Step, draft: Draft, regs: Regs): Event {
    Event(Key(ceId, Parts(step)), Fill(draft, regs))
  }

  // The shortener adapter answers None on any failure: before its effect, or after it when the reply is lost.
  datatype Luck = Fine | Refused | ReplyLost

  datatype Outcome = Next(store: Store, regs: Regs) | Raised

  // The `if` around a call: skipped when messages exist, or when the update already gave a short URL.
  predicate Skips(i: Instr, regs: Regs) {
    match i
    case SendWelcome(_, _) => regs.hasMessages
    case CreateLink(_, page) => regs.Ident(page.role).Some?
    case _ => false
  }

  predicate IsLive(s: Store, uid: Uid) { uid in s.channels && s.channels[uid].Live? }

  // The shortener's reply carries the entry's ident, unless it gets lost.
  function Answered(s: Store, regs: Regs, key: string, page: Page, luck: Luck): Outcome
    requires key in s.table.links
  {
    Next(s, regs.Set(page.role, if luck == Fine then Some(s.table.links[key].ident) else None))
  }

  function Exec(i: Instr, s: Store, regs: Regs, luck: Luck): Outcome {
    match i
    case DeleteChannel(uid, hard) =>
      if hard then Next(s.(channels := s.channels - {uid}), regs)
      else if uid in s.channels then Next(s.(channels := s.channels[uid := SoftDeleted]), regs)
      else Next(s, regs)
    case CreateChannel(uid) =>
      if uid !in s.channels then Next(s.(channels := s.channels[uid := Live([])]), regs)
      else if s.channels[uid].Live? then Next(s, regs)
      else Raised
    case QueryMessages(uid) =>
      if IsLive(s, uid) then Next(s, regs.(hasMessages := s.channels[uid].messages != [])) else Raised
    case SendWelcome(uid, message) =>
      if IsLive(s, uid)
      then Next(s.(channels := s.channels[uid := Live(s.channels[uid].messages + [message])]), regs)
      else Raised
    case MoveLink(oldKey, key, page) =>
      if luck == Refused || !Movable(s.table, oldKey, key) then Next(s, regs.Set(page.role, None))
      else Answered(s.(table := Move(s.table, oldKey, key, page)), regs, key, page, luck)
    case CreateLink(key, page) =>
      if luck == Refused then Next(s, regs.Set(page.role, None))
      else Answered(s.(table := Upsert(s.table, key, page)), regs, key, page, luck)
    case DeleteLink(key) =>
      if luck == Refused then Next(s, regs)
      else Next(s.(table := s.table.(links := s.table.links - {key})), regs)
    case StoreVideo(uid, page) =>
      Next(s.(video := s.video[uid := regs.UrlOf(page)]), regs)
    case RejectRow(id, reason) =>
      Next(s.(rejected := s.rejected[id := reason]), regs)
    case Publish(ceId, step, draft) =>
      Next(s.(accepted := s.accepted + [EventOf(ceId, step, draft, regs)]), regs)
  }

  // ----- Attempts -----

  // What the surroundings do at a step. A crash after a step's effect is a crash before the next step.
  datatype Fate = Crash | Go(luck: Luck)

  datatype Run = Run(store: Store, regs: Regs, alive: bool)

  function Start(s: Store): Run { Run(s, FRESH_REGS, true) }

  function Fated(i: Instr, r: Run, fate: Fate): Run {
    if fate == Crash then r.(alive := false)
    else match Exec(i, r.store, r.regs, fate.luck)
      case Next(store, regs) => Run(store, regs, true)
      case Raised => r.(alive := false)
  }

  // A run of the plan under the given fates, and the fates left over. Past the last fate all goes well.
  function Attempt(plan: seq<Instr>, r: Run, fates: seq<Fate>): (Run, seq<Fate>) {
    if plan == [] || !r.alive then (r, fates)
    else if Skips(plan[0], r.regs) then Attempt(plan[1..], r, fates)
    else if fates == [] then Attempt(plan[1..], Fated(plan[0], r, Go(Fine)), [])
    else Attempt(plan[1..], Fated(plan[0], r, fates[0]), fates[1..])
  }

  // A run in which nothing goes wrong outside.
  function Smooth(plan: seq<Instr>, r: Run): Run { Attempt(plan, r, []).0 }

  lemma {:induction false} AttemptSplit(p: seq<Instr>, q: seq<Instr>, r: Run, fates: seq<Fate>)
    ensures Attempt(p + q, r, fates) == (var (r', rest) := Attempt(p, r, fates); Attempt(q, r', rest))
  {
    if p == [] {
      assert p + q == q;
    } else {
      assert (p + q)[1..] == p[1..] + q;
      if !r.alive {
      } else if Skips(p[0], r.regs) {
        AttemptSplit(p[1..], q, r, fates);
      } else if fates == [] {
        AttemptSplit(p[1..], q, Fated(p[0], r, Go(Fine)), []);
      } else {
        AttemptSplit(p[1..], q, Fated(p[0], r, fates[0]), fates[1..]);
      }
    }
  }

  lemma {:induction false} SmoothLeavesNoFates(plan: seq<Instr>, r: Run)
    ensures Attempt(plan, r, []).1 == []
  {
    if plan != [] && r.alive {
      if Skips(plan[0], r.regs) {
        SmoothLeavesNoFates(plan[1..], r);
      } else {
        SmoothLeavesNoFates(plan[1..], Fated(plan[0], r, Go(Fine)));
      }
    }
  }

  lemma SmoothSplit(p: seq<Instr>, q: seq<Instr>, r: Run)
    ensures Smooth(p + q, r) == Smooth(q, Smooth(p, r))
  {
    AttemptSplit(p, q, r, []);
    SmoothLeavesNoFates(p, r);
  }

  // Crashes, but no silent shortener failures.
  predicate CutsOnly(fates: seq<Fate>) {
    forall f | f in fates :: f == Crash || f == Go(Fine)
  }

  // Crashing is stopping after some number of steps.
  lemma {:induction false} CutIsPrefix(plan: seq<Instr>, r: Run, fates: seq<Fate>) returns (k: nat)
    requires CutsOnly(fates)
    ensures k <= |plan|
    ensures Attempt(plan, r, fates).0.store == Smooth(plan[..k], r).store
  {
    if plan == [] || !r.alive || (!Skips(plan[0], r.regs) && fates != [] && fates[0] == Crash) {
      k := 0;
    } else {
      var j: nat;
      if Skips(plan[0], r.regs) {
        j := CutIsPrefix(plan[1..], r, fates);
      } else if fates == [] {
        j := CutIsPrefix(plan[1..], Fated(plan[0], r, Go(Fine)), []);
      } else {
        assert fates[0] in fates && forall f | f in fates[1..] :: f in fates;
        j := CutIsPrefix(plan[1..], Fated(plan[0], r, fates[0]), fates[1..]);
      }
      k := j + 1;
      assert plan[..k][1..] == plan[1..][..j];
    }
  }
}
