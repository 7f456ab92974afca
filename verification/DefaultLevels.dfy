/** The default power level is not protected as the listed levels are: what one accepted replacement can
    do to it, exactly when, and a run in which that costs the top user their entry. */
module DefaultLevels {
  import opened Wrappers
  import opened Identifiers
  import opened Events
  import opened RoomVersions
  import opened EventAuth
  import opened Samples
  import opened Replay
  import opened Ambiguity
  import opened PowerSafety

  // ---- Replacements by a joined sender ----

  /** The sender is joined, the create event is known, and the sender's level is enough to send power
      levels. */
  predicate CanReplace(fetch: Store, state: StateMap, sender: UserId) {
    && CREATE_KEY in state && state[CREATE_KEY] in fetch
    && MemberKey(sender) in state && state[MemberKey(sender)] in fetch
    && DecodeMembership(fetch[state[MemberKey(sender)]].content) == Some(Join)
    && LevelsAt(fetch, state).Some?
    && LevelIn(LevelsAt(fetch, state).value, sender)
       >= SendLevel(RoomPowerLevels, Some(""), Some(fetch[state[POWER_LEVELS_KEY]]))
  }

  /** Then the guard over the levels decides alone. */
  lemma ReplacementVerdict(rv: RoomVersion, fetch: Store, state: StateMap, id: EventId)
    requires id in fetch && IsTypeAndKey(fetch[id], RoomPowerLevels, "") && OwnAuth(fetch, fetch[id].authEvents).Ok?
    requires DecodePowerLevels(fetch[id].content).Some? && CanReplace(fetch, state, fetch[id].sender)
    ensures var e, prior := fetch[id], LevelsAt(fetch, state).value;
            Judges(rv, fetch, state, id,
                   Ok(LevelsGuard(rv, prior, DecodePowerLevels(e.content).value, e.sender, LevelIn(prior, e.sender))))
  {
    var e := fetch[id];
    var auth := Gather(fetch, state, e).value;
    GatheredFromState(fetch, state, e, auth, CREATE_KEY);
    GatheredFromState(fetch, state, e, auth, POWER_LEVELS_KEY);
    GatheredFromState(fetch, state, e, auth, MemberKey(e.sender));
    var tp := SomeThirdParty(auth);
    assert AuthCheck(rv, e, MostRecentPrev(fetch, e.prevEvents), tp, auth) == JoinedSenderVerdict(rv, e, auth);
    var prior := LevelsAt(fetch, state).value;
    assert SenderLevel(e.sender, auth) == LevelIn(prior, e.sender);
    assert Judges(rv, fetch, state, id, JudgeWith(rv, fetch, e, tp, auth));
  }

  lemma AcceptedReplacementStep(rv: RoomVersion, fetch: Store, state: StateMap, id: EventId) returns (s: Step)
    requires forall a | a in fetch :: fetch[a].stateKey.Some?
    requires id in fetch && IsTypeAndKey(fetch[id], RoomPowerLevels, "") && DecodePowerLevels(fetch[id].content).Some?
    requires CanReplace(fetch, state, fetch[id].sender)
    requires var prior, sender := LevelsAt(fetch, state).value, fetch[id].sender;
             LevelsGuard(rv, prior, DecodePowerLevels(fetch[id].content).value, sender, LevelIn(prior, sender))
    ensures s == Step(state, id, true, state[POWER_LEVELS_KEY := id]) && ValidStep(rv, fetch, s)
  {
    OwnAuthSucceeds(fetch, fetch[id].authEvents);
    ReplacementVerdict(rv, fetch, state, id);
    s := StepFor(rv, fetch, state, id, true);
  }

  // ---- Exactly when the default can be raised above the sender ----

  /** The comparison of default levels binds only when neither is the default zero. */
  lemma DefaultLevelGuard(rv: RoomVersion, prior: PowerLevels, proposed: PowerLevels, sender: UserId, level: int)
    requires LevelsGuard(rv, prior, proposed, sender, level)
    ensures prior.usersDefault == 0 || proposed.usersDefault == 0
            || (prior.usersDefault <= level && proposed.usersDefault <= level)
  {
    assert NamedGuard(NamedLevels(prior)[0], NamedLevels(proposed)[0], level);
  }

  /** The step accepts power levels that give everybody unlisted more than the sender had. */
  ghost predicate RaisesDefault(rv: RoomVersion, fetch: Store, s: Step) {
    && ValidStep(rv, fetch, s) && ReplacesLevels(fetch, s)
    && LevelsAt(fetch, s.before).Some? && LevelsAt(fetch, s.after).Some?
    && var before, after := LevelsAt(fetch, s.before).value, LevelsAt(fetch, s.after).value;
       after.usersDefault != before.usersDefault && after.usersDefault > LevelIn(before, fetch[s.id].sender)
  }

  lemma RaisedFromZero(rv: RoomVersion, fetch: Store, s: Step)
    requires RaisesDefault(rv, fetch, s)
    ensures var before, after := LevelsAt(fetch, s.before).value, LevelsAt(fetch, s.after).value;
            before.usersDefault == 0 || (LevelIn(before, fetch[s.id].sender) < 0 && after.usersDefault == 0)
  {
    AcceptedReplacement(rv, fetch, s);
    var before, after, sender := LevelsAt(fetch, s.before).value, LevelsAt(fetch, s.after).value, fetch[s.id].sender;
    DefaultLevelGuard(rv, before, after, sender, LevelIn(before, sender));
  }

  /** Content that decodes to the given levels. */
  function ContentOf(l: PowerLevels): Content {
    EMPTY_OBJECT.(levels := Levels(
      Value(l.ban), Value(l.kick), Value(l.invite), Value(l.redact), Value(l.stateDefault), Value(l.eventsDefault),
      Value(l.usersDefault), Value(l.notificationsRoom), Value(l.users), Value(l.events)))
  }

  /** The same users, events and notifications, another default level, and every other named level at
      its default, which is not compared. */
  function WithDefault(l: PowerLevels, usersDefault: int): PowerLevels {
    DEFAULT_POWER_LEVELS.(users := l.users, events := l.events, notificationsRoom := l.notificationsRoom,
                          usersDefault := usersDefault)
  }

  lemma WithDefaultGuard(rv: RoomVersion, l: PowerLevels, usersDefault: int, sender: UserId, level: int)
    requires l.usersDefault == 0 || usersDefault == 0
    ensures LevelsGuard(rv, l, WithDefault(l, usersDefault), sender, level)
  {
    var proposed := NamedLevels(WithDefault(l, usersDefault));
    assert forall i | 0 < i < |proposed| :: proposed[i] == None;
    assert NamedLevels(l)[0] == None || proposed[0] == None;
  }

  /** The sender's event `e`, new to the store, raises the default in `state`. */
  ghost predicate RaisedBy(rv: RoomVersion, fetch: Store, state: StateMap, sender: UserId, id: EventId, e: Event, s: Step) {
    e.id == id && e.sender == sender && s.id == id && s.before == state && RaisesDefault(rv, fetch[id := e], s)
  }

  lemma RaisingStep(rv: RoomVersion, fetch: Store, state: StateMap, sender: UserId, id: EventId)
    returns (e: Event, s: Step)
    requires id !in fetch && CanReplace(fetch, state, sender)
    requires LevelsAt(fetch, state).value.usersDefault == 0 || LevelIn(LevelsAt(fetch, state).value, sender) < 0
    ensures RaisedBy(rv, fetch, state, sender, id, e, s)
  {
    var prior := LevelsAt(fetch, state).value;
    var level := LevelIn(prior, sender);
    var usersDefault := if prior.usersDefault != 0 then 0 else if level < 0 then 1 else level + 1;
    var proposed := WithDefault(prior, usersDefault);
    e := Event(id, "", sender, RoomPowerLevels, Some(""), 0, [], [], None, ContentOf(proposed));
    var fetch' := fetch[id := e];
    assert DecodePowerLevels(e.content) == Some(proposed);
    assert LevelsAt(fetch', state) == Some(prior);
    WithDefaultGuard(rv, prior, usersDefault, sender, level);
    ReplacementVerdict(rv, fetch', state, id);
    s := StepFor(rv, fetch', state, id, true);
    assert LevelsAt(fetch', s.after) == Some(proposed);
  }

  /** Whoever can replace the power levels can raise the default above their own level if and only if
      the default is zero or their level is negative. */
  lemma DefaultRaisable(rv: RoomVersion, fetch: Store, state: StateMap, sender: UserId, id: EventId)
    requires id !in fetch && CanReplace(fetch, state, sender)
    ensures (exists e, s :: RaisedBy(rv, fetch, state, sender, id, e, s))
            <==> LevelsAt(fetch, state).value.usersDefault == 0 || LevelIn(LevelsAt(fetch, state).value, sender) < 0
  {
    var prior := LevelsAt(fetch, state).value;
    if prior.usersDefault == 0 || LevelIn(prior, sender) < 0 {
      var e, s := RaisingStep(rv, fetch, state, sender, id);
    }
    if e, s :| RaisedBy(rv, fetch, state, sender, id, e, s) {
      RaisedFromZero(rv, fetch[id := e], s);
      assert LevelsAt(fetch[id := e], state) == LevelsAt(fetch, state);
    }
  }

  // ---- A run that removes the top user ----

  const MODERATED := DEFAULT_POWER_LEVELS.(users := map["@t:h" := 100, "@m:h" := 50])

  const RAISED := MODERATED.(usersDefault := 1000)

  const TAKEN := DEFAULT_POWER_LEVELS.(users := map["@x:h" := 1000])

  function LevelsEvent(id: EventId, sender: UserId, auths: seq<EventId>, l: PowerLevels): Event {
    Sample(id, sender, RoomPowerLevels, "", auths, ContentOf(l))
  }

  /** A room with a top user, a moderator and a user who is not listed; the moderator raises the
      default, and the unlisted user then drops the top user. */
  const ROOM: Store := map[
    "$c" := CreatedBy("@t:h"), "$t" := JoinOf("$t", "@t:h"), "$m" := JoinOf("$m", "@m:h"), "$x" := JoinOf("$x", "@x:h"),
    "$0" := LevelsEvent("$0", "@t:h", ["$c", "$t"], MODERATED),
    "$1" := LevelsEvent("$1", "@m:h", ["$c", "$m", "$0"], RAISED),
    "$2" := LevelsEvent("$2", "@x:h", ["$c", "$x", "$1"], TAKEN)]

  function RoomState(levels: EventId): StateMap {
    map[CREATE_KEY := "$c", MemberKey("@t:h") := "$t", MemberKey("@m:h") := "$m", MemberKey("@x:h") := "$x", POWER_LEVELS_KEY := levels]
  }

  lemma RoomLevels()
    ensures LevelsAt(ROOM, RoomState("$0")) == Some(MODERATED)
    ensures LevelsAt(ROOM, RoomState("$1")) == Some(RAISED)
    ensures LevelsAt(ROOM, RoomState("$2")) == Some(TAKEN)
  {
  }

  lemma RoomEvents()
    ensures forall id | id in ROOM :: ROOM[id].stateKey.Some?
  {
  }

  lemma RoomReplaced(before: EventId, id: EventId)
    ensures RoomState(before)[POWER_LEVELS_KEY := id] == RoomState(id)
  {
  }

  lemma RoomStep(rv: RoomVersion, before: EventId, id: EventId) returns (s: Step)
    requires before in ROOM && id in ROOM && IsTypeAndKey(ROOM[id], RoomPowerLevels, "")
    requires CanReplace(ROOM, RoomState(before), ROOM[id].sender) && DecodePowerLevels(ROOM[id].content).Some?
    requires var prior, sender := LevelsAt(ROOM, RoomState(before)).value, ROOM[id].sender;
             LevelsGuard(rv, prior, DecodePowerLevels(ROOM[id].content).value, sender, LevelIn(prior, sender))
    ensures s == Step(RoomState(before), id, true, RoomState(id)) && ValidStep(rv, ROOM, s)
  {
    RoomEvents();
    s := AcceptedReplacementStep(rv, ROOM, RoomState(before), id);
    RoomReplaced(before, id);
  }

  /** A default of zero lets a moderator at 50 raise it to 1000. */
  lemma DefaultLevelEscapes(rv: RoomVersion) returns (s: Step)
    ensures s == Step(RoomState("$0"), "$1", true, RoomState("$1")) && ROOM["$1"].sender == "@m:h"
    ensures RaisesDefault(rv, ROOM, s)
    ensures LevelIn(LevelsAt(ROOM, s.before).value, "@m:h") == 50 && LevelsAt(ROOM, s.after).value.usersDefault == 1000
  {
    RoomLevels();
    assert RAISED == RAISED.(users := MODERATED.users);
    assert forall i | 0 <= i < 7 :: NamedLevels(MODERATED)[i] == None;
    s := RoomStep(rv, "$0", "$1");
  }

  lemma DropTopUser(rv: RoomVersion) returns (s: Step)
    ensures s == Step(RoomState("$1"), "$2", true, RoomState("$2")) && ValidStep(rv, ROOM, s)
  {
    RoomLevels();
    assert forall i | 0 <= i < 7 :: NamedLevels(TAKEN)[i] == None;
    assert RAISED.users["@t:h"] == 100 && RAISED.users["@m:h"] == 50;
    s := RoomStep(rv, "$1", "$2");
  }

  lemma RunOfTwo(rv: RoomVersion, fetch: Store, first: Step, second: Step)
    requires ValidStep(rv, fetch, first) && ValidStep(rv, fetch, second) && second.before == first.after
    ensures IsRun(rv, fetch, first.before, [first, second]) && RunIds([first, second]) == [first.id, second.id]
    ensures Final(first.before, [first, second]) == second.after
  {
    assert [] + [first] == [first] && [first] + [second] == [first, second];
    RunGrows(rv, fetch, first.before, [], first);
    RunGrows(rv, fetch, first.before, [first], second);
  }

  /** Every accepted event of the run is sent by somebody else. */
  predicate ByOthers(fetch: Store, run: seq<Step>, user: UserId) {
    forall s | s in run && s.accepted :: s.id in fetch && fetch[s.id].sender != user
  }

  lemma RoomRun(rv: RoomVersion) returns (run: seq<Step>)
    ensures IsRun(rv, ROOM, RoomState("$0"), run) && RunIds(run) == ["$1", "$2"]
    ensures Final(RoomState("$0"), run) == RoomState("$2")
    ensures ByOthers(ROOM, run, "@t:h")
  {
    var first := DefaultLevelEscapes(rv);
    var second := DropTopUser(rv);
    RunOfTwo(rv, ROOM, first, second);
    run := [first, second];
    SentByOthers();
  }

  lemma SentByOthers()
    ensures "$1" in ROOM && ROOM["$1"].sender != "@t:h" && "$2" in ROOM && ROOM["$2"].sender != "@t:h"
  {
    assert "@t:h"[1] == 't' && "@m:h"[1] == 'm' && "@x:h"[1] == 'x';
  }

  lemma TopUserBeforeAndAfter()
    ensures TopsState(ROOM, RoomState("$0"), "@t:h", 100)
    ensures LevelsAt(ROOM, RoomState("$2")) == Some(TAKEN) && "@t:h" !in TAKEN.users
  {
    RoomLevels();
    assert "@t:h"[1] == 't' && "@x:h"[1] == 'x';
  }

  /** So the bound on the default level in `TopUserStays` cannot be dropped: here others replace the
      power levels twice, the first time raising the default, and the top user is gone. */
  lemma TopUserLost(rv: RoomVersion) returns (start: StateMap, run: seq<Step>, end: StateMap)
    ensures IsRun(rv, ROOM, start, run) && end == Final(start, run) && ByOthers(ROOM, run, "@t:h")
    ensures TopsState(ROOM, start, "@t:h", 100)
    ensures LevelsAt(ROOM, end).Some? && "@t:h" !in LevelsAt(ROOM, end).value.users
  {
    start, end := RoomState("$0"), RoomState("$2");
    run := RoomRun(rv);
    TopUserBeforeAndAfter();
  }
}
