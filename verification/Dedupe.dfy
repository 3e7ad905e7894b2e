/** Deterministic event keys: the inbound event id and the step's parts, joined by colons. */
module Dedupe {
  import opened Wrappers

  const CHAT_CREATED := "chat.created"
  const CHAT_DELETED := "chat.deleted"
  const URL_CREATED := "meeting.url_created"
  const URL_DELETED := "meeting.url_deleted"
  const BOOKING_REJECTED := "booking.rejected"
  const NOTIFICATION := "notification"

  function Join(head: string, parts: seq<string>): string
    decreases parts
  {
    if parts == [] then head else head + ":" + Join(parts[0], parts[1..])
  }

  // None stands for the random id of an event without a key.
  function Key(ceId: string, parts: seq<string>): Option<string> {
    if ceId == "" then None else Some(Join(ceId, parts))
  }

  // ----- Reading a key back -----

  predicate ColonFree(s: string) { ':' !in s }

  // Everything before the first colon, and what follows it when there is one.
  function Cut(s: string): (r: (string, Option<string>)) {
    if s == "" then ("", None)
    else if s[0] == ':' then ("", Some(s[1..]))
    else var (head, rest) := Cut(s[1..]); ([s[0]] + head, rest)
  }

  lemma {:induction false} CutJoined(head: string, rest: string)
    requires ColonFree(head)
    ensures Cut(head + ":" + rest) == (head, Some(rest))
  {
    var s := head + ":" + rest;
    if head == "" {
      assert s[1..] == rest;
    } else {
      assert s[1..] == head[1..] + ":" + rest;
      assert s[0] == head[0];
      CutJoined(head[1..], rest);
      assert head == [head[0]] + head[1..];
    }
  }

  lemma {:induction false} CutWhole(s: string)
    requires ColonFree(s)
    ensures Cut(s) == (s, None)
  {
    if s != "" {
      CutWhole(s[1..]);
      assert s == [s[0]] + s[1..];
    }
  }

  // Every kind of key the four handlers build.
  datatype Step =
    | ChatStep(created: bool, uid: string)
    | UrlStep(made: bool, role: string)
    | NotifyStep(trigger: string, role: string)
    | RejectedStep

  function Parts(step: Step): seq<string> {
    match step
    case ChatStep(created, uid) => [if created then CHAT_CREATED else CHAT_DELETED, uid]
    case UrlStep(made, role) => [if made then URL_CREATED else URL_DELETED, role]
    case NotifyStep(trigger, role) => [NOTIFICATION, trigger, role]
    case RejectedStep => [BOOKING_REJECTED]
  }

  // A uid may hold colons; the other arguments are names without them.
  predicate Plain(step: Step) {
    match step
    case ChatStep(_, _) => true
    case UrlStep(_, role) => ColonFree(role)
    case NotifyStep(trigger, role) => ColonFree(trigger) && ColonFree(role)
    case RejectedStep => true
  }

  function ParseStep(kind: string, rest: Option<string>): Option<Step> {
    if kind == CHAT_CREATED && rest.Some? then Some(ChatStep(true, rest.value))
    else if kind == CHAT_DELETED && rest.Some? then Some(ChatStep(false, rest.value))
    else if kind == URL_CREATED && rest.Some? then Some(UrlStep(true, rest.value))
    else if kind == URL_DELETED && rest.Some? then Some(UrlStep(false, rest.value))
    else if kind == NOTIFICATION && rest.Some? then
      var (trigger, role) := Cut(rest.value);
      if role.Some? then Some(NotifyStep(trigger, role.value)) else None
    else if kind == BOOKING_REJECTED && rest.None? then Some(RejectedStep)
    else None
  }

  function Parse(key: string): Option<(string, Step)> {
    var (ceId, rest) := Cut(key);
    if rest.None? then None
    else
      var (kind, args) := Cut(rest.value);
      var step := ParseStep(kind, args);
      if step.None? then None else Some((ceId, step.value))
  }

  lemma KindsAreDistinctNames()
    ensures ColonFree(CHAT_CREATED) && ColonFree(CHAT_DELETED) && ColonFree(URL_CREATED)
    ensures ColonFree(URL_DELETED) && ColonFree(BOOKING_REJECTED) && ColonFree(NOTIFICATION)
    ensures CHAT_CREATED != CHAT_DELETED && URL_CREATED != URL_DELETED
    ensures |CHAT_CREATED| == |CHAT_DELETED| == |NOTIFICATION| == 12
    ensures |URL_CREATED| == |URL_DELETED| == 19 && |BOOKING_REJECTED| == 16
    ensures NOTIFICATION !in [CHAT_CREATED, CHAT_DELETED]
  {
    assert CHAT_CREATED[5] == 'c' && CHAT_DELETED[5] == 'd';
    assert URL_CREATED[12] == 'c' && URL_DELETED[12] == 'd';
    assert NOTIFICATION[0] == 'n' && CHAT_CREATED[0] == 'c' && CHAT_DELETED[0] == 'c';
  }

  // What a key is parsed into, once the inbound id and the kind are cut off.
  lemma ParseJoined(ceId: string, kind: string, args: Option<string>)
    requires ColonFree(ceId) && ColonFree(kind)
    ensures var key := ceId + ":" + if args.Some? then kind + ":" + args.value else kind;
            Parse(key) == (var step := ParseStep(kind, args); if step.None? then None else Some((ceId, step.value)))
  {
    CutJoined(ceId, if args.Some? then kind + ":" + args.value else kind);
    if args.Some? {
      CutJoined(kind, args.value);
    } else {
      CutWhole(kind);
    }
  }

  lemma JoinTwo(head: string, first: string, second: string)
    ensures Join(head, [first, second]) == head + ":" + (first + ":" + second)
  {
    assert [first, second][1..] == [second];
    assert Join(first, [second]) == first + ":" + second;
  }

  lemma TwoPartKey(ceId: string, kind: string, rest: string, middle: string)
    requires ceId != "" && middle == ":" + kind + ":"
    ensures Key(ceId, [kind, rest]) == Some(ceId + middle + rest)
  {
    JoinTwo(ceId, kind, rest);
    assert ceId + ":" + (kind + ":" + rest) == ceId + middle + rest;
  }

  // The keys as the receiver sees them.
  lemma ChatKeysSpelledOut(ceId: string, uid: string)
    requires ceId != ""
    ensures Key(ceId, Parts(ChatStep(true, uid))) == Some(ceId + ":chat.created:" + uid)
    ensures Key(ceId, Parts(ChatStep(false, uid))) == Some(ceId + ":chat.deleted:" + uid)
  {
    TwoPartKey(ceId, CHAT_CREATED, uid, ":chat.created:");
    TwoPartKey(ceId, CHAT_DELETED, uid, ":chat.deleted:");
  }

  lemma UrlKeysSpelledOut(ceId: string, role: string)
    requires ceId != ""
    ensures Key(ceId, Parts(UrlStep(true, role))) == Some(ceId + ":meeting.url_created:" + role)
    ensures Key(ceId, Parts(UrlStep(false, role))) == Some(ceId + ":meeting.url_deleted:" + role)
  {
    TwoPartKey(ceId, URL_CREATED, role, ":meeting.url_created:");
    TwoPartKey(ceId, URL_DELETED, role, ":meeting.url_deleted:");
  }

  lemma NotifyKeysSpelledOut(ceId: string, trigger: string, role: string)
    requires ceId != ""
    ensures Key(ceId, Parts(NotifyStep(trigger, role))) == Some(ceId + ":notification:" + (trigger + ":" + role))
    ensures Key(ceId, Parts(RejectedStep)) == Some(ceId + ":booking.rejected")
  {
    var parts := [NOTIFICATION, trigger, role];
    assert parts[1..] == [trigger, role];
    JoinTwo(NOTIFICATION, trigger, role);
    assert Join(ceId, parts) == ceId + ":" + (NOTIFICATION + ":" + (trigger + ":" + role));
    assert ceId + ":" + (NOTIFICATION + ":" + (trigger + ":" + role))
        == ceId + ":notification:" + (trigger + ":" + role);
    assert [BOOKING_REJECTED][1..] == [];
    assert ceId + ":" + BOOKING_REJECTED == ceId + ":booking.rejected";
  }

  lemma KeyRoundTrip(ceId: string, step: Step)
    requires ceId != "" && ColonFree(ceId) && Plain(step)
    ensures Key(ceId, Parts(step)).Some?
    ensures Parse(Key(ceId, Parts(step)).value) == Some((ceId, step))
  {
    KindsAreDistinctNames();
    match step
    case ChatStep(created, uid) =>
      var kind := if created then CHAT_CREATED else CHAT_DELETED;
      JoinTwo(ceId, kind, uid);
      ParseJoined(ceId, kind, Some(uid));
    case UrlStep(made, role) =>
      var kind := if made then URL_CREATED else URL_DELETED;
      JoinTwo(ceId, kind, role);
      ParseJoined(ceId, kind, Some(role));
    case NotifyStep(trigger, role) =>
      assert Parts(step)[1..] == [trigger, role];
      JoinTwo(NOTIFICATION, trigger, role);
      ParseJoined(ceId, NOTIFICATION, Some(trigger + ":" + role));
      CutJoined(trigger, role);
    case RejectedStep =>
      ParseJoined(ceId, BOOKING_REJECTED, None);
      assert [BOOKING_REJECTED][1..] == [];
      assert Join(ceId, [BOOKING_REJECTED]) == ceId + ":" + BOOKING_REJECTED;
  }

  // Equal keys come from the same inbound event and the same step.
  lemma KeysAreInjective(ce1: string, step1: Step, ce2: string, step2: Step)
    requires ce1 != "" && ColonFree(ce1) && Plain(step1)
    requires ce2 != "" && ColonFree(ce2) && Plain(step2)
    requires Key(ce1, Parts(step1)) == Key(ce2, Parts(step2))
    ensures ce1 == ce2 && step1 == step2
  {
    KeyRoundTrip(ce1, step1);
    KeyRoundTrip(ce2, step2);
  }

  // The hypothesis on the inbound id is needed: with a colon in it, two inbound events share a key.
  lemma ColonInInboundIdCollides(a: string, uid: string)
    requires a != "" && ColonFree(a)
    ensures var b := a + ":" + CHAT_CREATED;
            b != a && !ColonFree(b)
            && Key(a, Parts(ChatStep(true, CHAT_DELETED + ":" + uid))) == Key(b, Parts(ChatStep(false, uid)))
  {
    var b := a + ":" + CHAT_CREATED;
    assert b[|a|] == ':';
    JoinTwo(a, CHAT_CREATED, CHAT_DELETED + ":" + uid);
    JoinTwo(b, CHAT_DELETED, uid);
    assert a + ":" + (CHAT_CREATED + ":" + (CHAT_DELETED + ":" + uid)) == b + ":" + (CHAT_DELETED + ":" + uid);
  }

  // ----- The reminder scheduler's keys -----

  function ReminderKey(uid: string): string { "reminder:" + uid }

  function ReminderSentKey(uid: string): string { "reminder_sent:" + uid }

  lemma SchedulerKeysAreSeparate(ceId: string, step: Step, uid: string, uid2: string)
    requires ceId != "" && ColonFree(ceId) && ceId !in ["reminder", "reminder_sent"]
    ensures Key(ceId, Parts(step)) != Some(ReminderKey(uid))
    ensures Key(ceId, Parts(step)) != Some(ReminderSentKey(uid))
    ensures ReminderKey(uid) != ReminderSentKey(uid2)
    ensures ReminderKey(uid) == ReminderKey(uid2) ==> uid == uid2
    ensures ReminderSentKey(uid) == ReminderSentKey(uid2) ==> uid == uid2
  {
    var parts := Parts(step);
    CutJoined(ceId, Join(parts[0], parts[1..]));
    assert ReminderKey(uid) == "reminder" + ":" + uid;
    assert ReminderKey(uid2) == "reminder" + ":" + uid2;
    assert ReminderSentKey(uid) == "reminder_sent" + ":" + uid;
    assert ReminderSentKey(uid2) == "reminder_sent" + ":" + uid2;
    CutJoined("reminder", uid);
    CutJoined("reminder", uid2);
    CutJoined("reminder_sent", uid);
    CutJoined("reminder_sent", uid2);
  }
}
