/** Exactly when others can unlist a user by replacing the power levels: whenever one of them can send
    power levels at all, whatever the levels and the default are. */
module RemovableUser {
  import opened Wrappers
  import opened Identifiers
  import opened Events
  import opened RoomVersions
  import opened EventAuth
  import opened Replay
  import opened Ambiguity
  import opened PowerSafety
  import opened MembershipSafety
  import opened DefaultLevels

  // ---- Runs of replacements ----

  /** The store holds more events, and answers as before for the old ones. */
  predicate Extends(fetch: Store, more: Store) {
    forall id | id in fetch :: id in more && more[id] == fetch[id]
  }

  /** Every step, accepted or not, is of power levels sent by one of `senders`. */
  predicate ReplacementsBy(fetch: Store, run: seq<Step>, senders: set<UserId>) {
    forall s | s in run :: s.id in fetch && IsTypeAndKey(fetch[s.id], RoomPowerLevels, "") && fetch[s.id].sender in senders
  }

  /** The run consists of replacements by `senders` and ends with power levels that do not list the user. */
  ghost predicate Unlists(rv: RoomVersion, fetch: Store, more: Store, state: StateMap, run: seq<Step>,
                          senders: set<UserId>, user: UserId) {
    && Extends(fetch, more) && (Consistent(fetch) ==> Consistent(more))
    && IsRun(rv, more, state, run) && ReplacementsBy(more, run, senders)
    && LevelsAt(more, Final(state, run)).Some? && user !in LevelsAt(more, Final(state, run)).value.users
  }

  /** The state's create event, power levels and the sender's member event are at hand. */
  predicate Known(fetch: Store, state: StateMap, sender: UserId) {
    && CREATE_KEY in state && state[CREATE_KEY] in fetch
    && MemberKey(sender) in state && state[MemberKey(sender)] in fetch
    && LevelsAt(fetch, state).Some?
  }

  // ---- Whoever replaces the power levels could do so at the start ----

  lemma AcceptedMeansCanReplace(rv: RoomVersion, fetch: Store, s: Step)
    requires ValidStep(rv, fetch, s) && ReplacesLevels(fetch, s) && Known(fetch, s.before, fetch[s.id].sender)
    ensures CanReplace(fetch, s.before, fetch[s.id].sender)
  {
    var e := fetch[s.id];
    AcceptedSpeaker(rv, fetch, s);
    var auth := Gather(fetch, s.before, e).value;
    GatheredFromState(fetch, s.before, e, auth, POWER_LEVELS_KEY);
    assert SenderLevel(e.sender, auth) == LevelIn(LevelsAt(fetch, s.before).value, e.sender);
  }

  lemma SameInMore(fetch: Store, more: Store, state: StateMap, sender: UserId)
    requires Extends(fetch, more) && Known(fetch, state, sender)
    ensures Known(more, state, sender) && LevelsAt(more, state) == LevelsAt(fetch, state)
    ensures CanReplace(more, state, sender) <==> CanReplace(fetch, state, sender)
  {
  }

  /** Without a sender who can replace the power levels at the start, nothing is ever accepted. */
  lemma {:induction false} NothingReplaced(rv: RoomVersion, fetch: Store, state: StateMap, run: seq<Step>, senders: set<UserId>)
    requires IsRun(rv, fetch, state, run) && ReplacementsBy(fetch, run, senders)
    requires forall sender | sender in senders :: Known(fetch, state, sender) && !CanReplace(fetch, state, sender)
    ensures Final(state, run) == state
  {
    if run == [] {
    } else {
      var last := |run| - 1;
      assert forall s | s in run[..last] :: s in run;
      NothingReplaced(rv, fetch, state, run[..last], senders);
      assert run[last] in run;
      if run[last].accepted {
        AcceptedMeansCanReplace(rv, fetch, run[last]);
      }
    }
  }

  // ---- Three replacements that unlist a user ----

  function Replacement(id: EventId, sender: UserId, l: PowerLevels): Event {
    Event(id, "", sender, RoomPowerLevels, Some(""), 0, [], [], None, ContentOf(l))
  }

  /** The default level set to zero, which is not compared, with the sender's own level listed; the other
      named levels go to their defaults, but the state level stays if the sender has it. */
  function Listing(l: PowerLevels, sender: UserId): PowerLevels {
    var level := LevelIn(l, sender);
    DEFAULT_POWER_LEVELS.(
      users := l.users[sender := level], events := l.events, notificationsRoom := l.notificationsRoom,
      stateDefault := if l.stateDefault <= level then l.stateDefault else 50)
  }

  /** The sender's entry dropped, and the default raised. */
  function Raising(l: PowerLevels, sender: UserId, usersDefault: int): PowerLevels {
    l.(users := l.users - {sender}, usersDefault := usersDefault)
  }

  function Dropping(l: PowerLevels, user: UserId): PowerLevels {
    l.(users := l.users - {user})
  }

  /** All named levels but the default and the state level have their default values. */
  predicate Plain(l: PowerLevels) {
    l == DEFAULT_POWER_LEVELS.(users := l.users, events := l.events, notificationsRoom := l.notificationsRoom,
                               stateDefault := l.stateDefault, usersDefault := l.usersDefault)
  }

  /** Between levels with the same events and notifications, the latter plain, the guard looks at the
      users, the default and the state level only. */
  lemma PlainGuard(rv: RoomVersion, prior: PowerLevels, proposed: PowerLevels, sender: UserId, level: int)
    requires Plain(proposed) && proposed.events == prior.events && proposed.notificationsRoom == prior.notificationsRoom
    requires forall u | u in prior.users.Keys + proposed.users.Keys :: UserGuard(prior.users, proposed.users, u, sender, level)
    requires prior.usersDefault == 0 || proposed.usersDefault == 0
             || (prior.usersDefault <= level && proposed.usersDefault <= level)
    requires proposed.stateDefault == 50 || (prior.stateDefault <= level && proposed.stateDefault <= level)
    ensures LevelsGuard(rv, prior, proposed, sender, level)
  {
    var a, b := NamedLevels(prior), NamedLevels(proposed);
    assert b[1] == None && b[3] == None && b[4] == None && b[5] == None && b[6] == None;
    assert NamedGuard(a[0], b[0], level) && NamedGuard(a[2], b[2], level);
  }

  lemma ListingGuard(rv: RoomVersion, l: PowerLevels, sender: UserId)
    ensures LevelsGuard(rv, l, Listing(l, sender), sender, LevelIn(l, sender))
  {
    PlainGuard(rv, l, Listing(l, sender), sender, LevelIn(l, sender));
  }

  lemma RaisingGuard(rv: RoomVersion, l: PowerLevels, sender: UserId, usersDefault: int)
    requires Plain(l) && sender in l.users && l.usersDefault == 0
    requires l.stateDefault <= l.users[sender] || l.stateDefault == 50
    ensures LevelsGuard(rv, l, Raising(l, sender, usersDefault), sender, LevelIn(l, sender))
  {
    PlainGuard(rv, l, Raising(l, sender, usersDefault), sender, LevelIn(l, sender));
  }

  lemma DroppingGuard(rv: RoomVersion, l: PowerLevels, sender: UserId, user: UserId)
    requires Plain(l) && sender !in l.users && (forall u | u in l.users :: l.users[u] < l.usersDefault)
    requires l.stateDefault <= l.usersDefault
    ensures LevelsGuard(rv, l, Dropping(l, user), sender, LevelIn(l, sender))
  {
    PlainGuard(rv, l, Dropping(l, user), sender, LevelIn(l, sender));
  }

  /** The level that sending power levels takes. */
  function LevelToReplace(l: PowerLevels): int {
    if RoomPowerLevels in l.events then l.events[RoomPowerLevels] else l.stateDefault
  }

  lemma SendLevelIs(powerLevels: Event, l: PowerLevels)
    requires DecodePowerLevels(powerLevels.content) == Some(l)
    ensures SendLevel(RoomPowerLevels, Some(""), Some(powerLevels)) == LevelToReplace(l)
  {
  }

  /** The sender can replace `l` by `next`, and has the level to go on. */
  predicate GoesOn(rv: RoomVersion, l: PowerLevels, next: PowerLevels, sender: UserId) {
    LevelsGuard(rv, l, next, sender, LevelIn(l, sender)) && LevelIn(next, sender) >= LevelToReplace(next)
  }

  /** One replacement. */
  lemma ReplaceOnce(rv: RoomVersion, fetch: Store, state: StateMap, id: EventId, sender: UserId, l: PowerLevels)
    returns (s: Step)
    requires id in fetch && fetch[id] == Replacement(id, sender, l)
    requires CanReplace(fetch, state, sender)
    requires LevelsGuard(rv, LevelsAt(fetch, state).value, l, sender, LevelIn(LevelsAt(fetch, state).value, sender))
    ensures ValidStep(rv, fetch, s) && s == Step(state, id, true, state[POWER_LEVELS_KEY := id])
    ensures LevelsAt(fetch, s.after) == Some(l)
  {
    ReplacementVerdict(rv, fetch, state, id);
    s := StepFor(rv, fetch, state, id, true);
    assert DecodePowerLevels(fetch[id].content) == Some(l);
  }

  /** One replacement after which the sender can go on. */
  lemma ReplaceAndGoOn(rv: RoomVersion, fetch: Store, state: StateMap, id: EventId, sender: UserId, l: PowerLevels)
    returns (s: Step)
    requires id in fetch && fetch[id] == Replacement(id, sender, l)
    requires CanReplace(fetch, state, sender) && GoesOn(rv, LevelsAt(fetch, state).value, l, sender)
    ensures ValidStep(rv, fetch, s) && s.before == state
    ensures s.id == id && LevelsAt(fetch, s.after) == Some(l) && CanReplace(fetch, s.after, sender)
  {
    s := ReplaceOnce(rv, fetch, state, id, sender, l);
    SendLevelIs(fetch[id], l);
  }

  lemma {:induction false} AboveAll(levels: map<UserId, int>, level: int) returns (top: int)
    ensures top > level && forall u | u in levels :: levels[u] < top
  {
    if levels == map[] {
      top := level + 1;
    } else {
      var u :| u in levels;
      var rest := AboveAll(levels - {u}, level);
      top := if rest > levels[u] then rest else levels[u] + 1;
      forall v | v in levels
        ensures levels[v] < top
      {
        assert v == u || v in levels - {u};
      }
    }
  }

  lemma {:induction false} LongerThanAll(ids: set<EventId>) returns (n: nat)
    ensures forall id | id in ids :: |id| < n
  {
    if ids == {} {
      n := 0;
    } else {
      var id :| id in ids;
      var m := LongerThanAll(ids - {id});
      n := if m > |id| then m else |id| + 1;
      forall other | other in ids
        ensures |other| < n
      {
        assert other == id || other in ids - {id};
      }
    }
  }

  /** There is always another event id. */
  lemma FreshId(fetch: Store) returns (id: EventId)
    ensures id !in fetch
  {
    var n := LongerThanAll(fetch.Keys);
    id := seq(n, _ => 'x');
  }

  /** Each of the three can be sent, and the last one does not list the user. */
  lemma ThreeReplacements(rv: RoomVersion, l: PowerLevels, sender: UserId, user: UserId, top: int)
    requires LevelIn(l, sender) >= LevelToReplace(l) && top > LevelIn(l, sender) && top >= 50
    requires forall u | u in l.users :: l.users[u] < top
    ensures var l1 := Listing(l, sender);
            var l2 := Raising(l1, sender, top);
            && GoesOn(rv, l, l1, sender) && GoesOn(rv, l1, l2, sender)
            && LevelsGuard(rv, l2, Dropping(l2, user), sender, LevelIn(l2, sender)) && user !in Dropping(l2, user).users
  {
    var l1 := Listing(l, sender);
    ListingGuard(rv, l, sender);
    RaisingGuard(rv, l1, sender, top);
    DroppingGuard(rv, Raising(l1, sender, top), sender, user);
  }

  /** Three replacements in turn, given where they stand in the store. */
  lemma ReplaceThrice(rv: RoomVersion, fetch: Store, state: StateMap, sender: UserId,
                      l1: PowerLevels, l2: PowerLevels, l3: PowerLevels, i: EventId, j: EventId, k: EventId)
    returns (run: seq<Step>)
    requires CanReplace(fetch, state, sender) && GoesOn(rv, LevelsAt(fetch, state).value, l1, sender)
    requires GoesOn(rv, l1, l2, sender) && LevelsGuard(rv, l2, l3, sender, LevelIn(l2, sender))
    requires i in fetch && fetch[i] == Replacement(i, sender, l1)
    requires j in fetch && fetch[j] == Replacement(j, sender, l2)
    requires k in fetch && fetch[k] == Replacement(k, sender, l3)
    ensures IsRun(rv, fetch, state, run) && LevelsAt(fetch, Final(state, run)) == Some(l3)
    ensures ReplacementsBy(fetch, run, {sender})
  {
    var a := ReplaceAndGoOn(rv, fetch, state, i, sender, l1);
    var b := ReplaceAndGoOn(rv, fetch, a.after, j, sender, l2);
    var c := ReplaceOnce(rv, fetch, b.after, k, sender, l3);
    RunOfThree(rv, fetch, a, b, c);
    run := [a, b, c];
  }

  lemma RunOfThree(rv: RoomVersion, fetch: Store, a: Step, b: Step, c: Step)
    requires ValidStep(rv, fetch, a) && ValidStep(rv, fetch, b) && ValidStep(rv, fetch, c)
    requires b.before == a.after && c.before == b.after
    ensures IsRun(rv, fetch, a.before, [a, b, c]) && Final(a.before, [a, b, c]) == c.after
  {
    RunOfTwo(rv, fetch, a, b);
    assert [a, b] + [c] == [a, b, c];
    RunGrows(rv, fetch, a.before, [a, b], c);
  }

  /** The store with one more replacement. */
  lemma AddReplacement(fetch: Store, sender: UserId, l: PowerLevels) returns (more: Store, id: EventId)
    ensures Extends(fetch, more) && (Consistent(fetch) ==> Consistent(more))
    ensures id in more && more[id] == Replacement(id, sender, l)
  {
    id := FreshId(fetch);
    more := fetch[id := Replacement(id, sender, l)];
  }

  lemma AddThree(fetch: Store, sender: UserId, l1: PowerLevels, l2: PowerLevels, l3: PowerLevels)
    returns (more: Store, i: EventId, j: EventId, k: EventId)
    ensures Extends(fetch, more) && (Consistent(fetch) ==> Consistent(more))
    ensures i in more && more[i] == Replacement(i, sender, l1)
    ensures j in more && more[j] == Replacement(j, sender, l2)
    ensures k in more && more[k] == Replacement(k, sender, l3)
  {
    more, i := AddReplacement(fetch, sender, l1);
    more, j := AddReplacement(more, sender, l2);
    more, k := AddReplacement(more, sender, l3);
  }

  /** Whoever can send power levels can unlist anybody else. */
  lemma CanUnlist(rv: RoomVersion, fetch: Store, state: StateMap, sender: UserId, user: UserId)
    returns (more: Store, run: seq<Step>)
    requires CanReplace(fetch, state, sender) && sender != user
    ensures Unlists(rv, fetch, more, state, run, {sender}, user)
  {
    var l := LevelsAt(fetch, state).value;
    SendLevelIs(fetch[state[POWER_LEVELS_KEY]], l);
    var top := AboveAll(l.users, if LevelIn(l, sender) > 50 then LevelIn(l, sender) else 50);
    var l1 := Listing(l, sender);
    var l2 := Raising(l1, sender, top);
    ThreeReplacements(rv, l, sender, user, top);
    var i, j, k;
    more, i, j, k := AddThree(fetch, sender, l1, l2, Dropping(l2, user));
    SameInMore(fetch, more, state, sender);
    run := ReplaceThrice(rv, more, state, sender, l1, l2, Dropping(l2, user), i, j, k);
  }

  /** Some run of replacements by `senders` unlists a listed user who is not among them if and only if one
      of them can send power levels at the start. */
  lemma UnlistedExactly(rv: RoomVersion, fetch: Store, state: StateMap, senders: set<UserId>, user: UserId)
    requires LevelsAt(fetch, state).Some? && user in LevelsAt(fetch, state).value.users && user !in senders
    requires forall sender | sender in senders :: Known(fetch, state, sender)
    ensures (exists more, run :: Unlists(rv, fetch, more, state, run, senders, user))
            <==> exists sender :: sender in senders && CanReplace(fetch, state, sender)
  {
    if sender :| sender in senders && CanReplace(fetch, state, sender) {
      var more, run := CanUnlist(rv, fetch, state, sender, user);
      assert Unlists(rv, fetch, more, state, run, senders, user);
    } else {
      forall more, run | Extends(fetch, more) && IsRun(rv, more, state, run) && ReplacementsBy(more, run, senders)
        ensures !Unlists(rv, fetch, more, state, run, senders, user)
      {
        StaysListed(rv, fetch, more, state, run, senders);
      }
    }
  }

  lemma StaysListed(rv: RoomVersion, fetch: Store, more: Store, state: StateMap, run: seq<Step>, senders: set<UserId>)
    requires LevelsAt(fetch, state).Some? && (forall sender | sender in senders :: Known(fetch, state, sender))
    requires Extends(fetch, more) && IsRun(rv, more, state, run) && ReplacementsBy(more, run, senders)
    requires forall sender | sender in senders :: !CanReplace(fetch, state, sender)
    ensures LevelsAt(more, Final(state, run)) == LevelsAt(fetch, state)
  {
    forall sender | sender in senders
      ensures Known(more, state, sender) && !CanReplace(more, state, sender)
    {
      SameInMore(fetch, more, state, sender);
    }
    NothingReplaced(rv, more, state, run, senders);
  }
}
