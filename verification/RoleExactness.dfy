/** Separable uids are not only enough for role separation, they are needed. */
module RoleExactness {
  import opened Wrappers
  import opened Domain
  import opened Machine
  import opened Handlers
  import opened Milestones
  import opened Convergence
  import opened System
  import opened RoleSafety

  function Empty(overwrites: bool): Sys {
    Sys(Store(Table(map[], [], overwrites), map[], map[], map[], []), map[])
  }

  // Every stored video URL leads to a client's page.
  ghost predicate VideosSafe(y: Sys) {
    forall uid | uid in y.store.video :: LeadsToClientPage(y.store.table, y.store.video[uid])
  }

  // A whole delivery of booking.created as a run.
  lemma DeliverCreated(y: Sys, b: Booking) returns (actions: seq<Action>)
    requires y.jobs == map[]
    ensures forall a | a in actions :: a.Begin? ==> a.b == b && a.h == Created
    ensures Trace(y, actions) == Sys(Uninterrupted(Created, b, "", y.store), map[])
  {
    var begin := Begin(0, Created, b, "");
    var y' := Step(y, begin);
    var rest := AttemptIsTrace(y', 0, b.uid, Plan(Created, b, ""), FRESH_REGS, []);
    assert y'.jobs - {0} == map[];
    actions := [begin] + rest;
    assert actions[1..] == rest;
  }

  lemma CreatedResult(b: Booking, s: Store)
    requires b.user.Some? && b.client.Some? && b.uid !in s.channels
    ensures var s' := Uninterrupted(Created, b, "", s);
            && s'.table == Both(s.table, Created, b)
            && KeyOf(Client, b.uid) in s'.table.links
            && s'.video == s.video[b.uid := Short(s'.table.links[KeyOf(Client, b.uid)].ident)]
            && (forall uid | uid in s'.channels :: uid in s.channels || uid == b.uid)
  {
    UninterruptedReachesGoals(Created, b, "", s);
    assert Goals(Created, b) == SetupGoals(Created, b);
    SetupResult(Created, b, Observe(s));
    forall uid | uid in Uninterrupted(Created, b, "", s).channels ensures uid in s.channels || uid == b.uid {
      assert uid in Observe(Uninterrupted(Created, b, "", s)).status;
    }
  }

  // Two bookings with crossing uids: the second one's organizer link takes over the first one's client link.
  lemma CrossingUidsMixRoles(uid: Uid, overwrites: bool) returns (actions: seq<Action>)
    ensures forall a | a in actions :: a.Begin? ==> a.b.uid in [uid, CLIENT_PREFIX + uid] && a.h == Created
    ensures !VideosSafe(Trace(Empty(overwrites), actions))
  {
    var p := Some(Person("", ""));
    var b1, b2 := Booking(1, uid, 0, 0, p, p, None), Booking(2, CLIENT_PREFIX + uid, 0, 0, p, p, None);
    PrefixChanges(uid);
    PrefixChanges(CLIENT_PREFIX + uid);
    var y := Empty(overwrites);
    var first := DeliverCreated(y, b1);
    var y1 := Trace(y, first);
    CreatedResult(b1, y.store);
    var second := DeliverCreated(y1, b2);
    CreatedResult(b2, y1.store);
    actions := first + second;
    TraceSplit(y, first, second);
    var s := Trace(y, actions).store;
    assert s.table.links[b2.uid].target.moderator && s.video[uid] == Short(s.table.links[b2.uid].ident);
    assert !LeadsToClientPage(s.table, s.video[uid]);
  }

  // Main theorem: every run over these uids is safe if and only if no uid is another one behind the prefix.
  lemma VideosSafeIffSeparable(uids: set<Uid>, overwrites: bool)
    ensures Separable(uids) <==>
            forall actions: seq<Action> | (forall a | a in actions :: ActionOk(uids, a)) ::
              VideosSafe(Trace(Empty(overwrites), actions))
  {
    if Separable(uids) {
      forall actions: seq<Action> | forall a | a in actions :: ActionOk(uids, a)
        ensures VideosSafe(Trace(Empty(overwrites), actions))
      {
        StartsOk(uids, overwrites);
        forall uid | uid in Trace(Empty(overwrites), actions).store.video
          ensures var s := Trace(Empty(overwrites), actions).store; LeadsToClientPage(s.table, s.video[uid])
        {
          VideoLinkIsNeverModerator(uids, Empty(overwrites), actions, uid);
        }
      }
    } else {
      var uid :| uid in uids && CLIENT_PREFIX + uid in uids;
      var actions := CrossingUidsMixRoles(uid, overwrites);
      assert forall a | a in actions :: ActionOk(uids, a);
    }
  }
}
