/** What replaying events can do to the power levels. */
module PowerSafety {
  import opened Wrappers
  import opened Identifiers
  import opened Events
  import opened RoomVersions
  import opened EventAuth
  import opened Replay

  /** The state's entry at a needed key is what the event is judged against. */
  lemma GatheredFromState(fetch: Store, state: StateMap, e: Event, auth: AuthMap, key: StateKey)
    requires Gather(fetch, state, e) == Ok(auth)
    requires key in AuthTypes(e.eventType, e.sender, e.stateKey, e.content)
    requires key in state && state[key] in fetch
    ensures key in auth && auth[key] == fetch[state[key]]
  {
  }

  /** Nothing is gathered but the keys of the state and of the event's own auth events. */
  lemma GatheredWithin(fetch: Store, state: StateMap, e: Event, auth: AuthMap)
    requires Gather(fetch, state, e) == Ok(auth)
    requires forall a | a in e.authEvents && a in fetch :: fetch[a].stateKey.Some? && KeyOfEvent(fetch[a]) in state
    ensures auth.Keys <= state.Keys
  {
    OwnAuthKeyed(fetch, e.authEvents);
    var own := OwnAuth(fetch, e.authEvents).value;
    forall k | k in own
      ensures k in state
    {
      var a :| a in e.authEvents && a in fetch && fetch[a] == own[k];
    }
  }

  /** The decoded power levels of a state, if it holds a fetchable power levels event. */
  function LevelsAt(fetch: Store, state: StateMap): Option<PowerLevels> {
    if HasLevels(fetch, state) then DecodePowerLevels(fetch[state[POWER_LEVELS_KEY]].content) else None
  }

  predicate HasLevels(fetch: Store, state: StateMap) {
    POWER_LEVELS_KEY in state && state[POWER_LEVELS_KEY] in fetch
  }

  predicate ReplacesLevels(fetch: Store, s: Step) {
    s.accepted && s.id in fetch && IsTypeAndKey(fetch[s.id], RoomPowerLevels, "")
  }

  function LevelIn(l: PowerLevels, user: UserId): int {
    UserLevels(l.users, l.usersDefault).Of(user)
  }

  /** What a replacement by `sender` may do: other users at or above the sender stay as they are, and
      no level is added or changed to one above the sender's. */
  predicate RespectsLevels(before: PowerLevels, after: PowerLevels, sender: UserId) {
    var level := LevelIn(before, sender);
    && (forall u | u in before.users && u != sender && before.users[u] >= level ::
          u in after.users && after.users[u] == before.users[u])
    && (forall u | u in after.users ::
          after.users[u] <= level || (u in before.users && before.users[u] == after.users[u]))
    && (forall k | k in after.events ::
          after.events[k] <= level || (k in before.events && before.events[k] == after.events[k]))
  }

  /** Every accepted replacement of a fetchable power levels event respects the levels it replaces. */
  lemma AcceptedReplacement(rv: RoomVersion, fetch: Store, s: Step)
    requires ValidStep(rv, fetch, s) && ReplacesLevels(fetch, s) && HasLevels(fetch, s.before)
    ensures LevelsAt(fetch, s.before).Some? && LevelsAt(fetch, s.after).Some?
    ensures RespectsLevels(LevelsAt(fetch, s.before).value, LevelsAt(fetch, s.after).value, fetch[s.id].sender)
    ensures LevelsGuard(rv, LevelsAt(fetch, s.before).value, LevelsAt(fetch, s.after).value, fetch[s.id].sender,
                        LevelIn(LevelsAt(fetch, s.before).value, fetch[s.id].sender))
  {
    var e := fetch[s.id];
    var auth := Gather(fetch, s.before, e).value;
    GatheredFromState(fetch, s.before, e, auth, POWER_LEVELS_KEY);
    var tp :| ThirdPartyChoice(auth, tp) && Ok(true) == JudgeWith(rv, fetch, e, tp, auth);
    assert JoinedSenderVerdict(rv, e, auth) == Ok(true);
    var level := SenderLevel(e.sender, auth);
    assert PowerLevelsVerdict(rv, e, Lookup(auth, POWER_LEVELS_KEY), level) == Ok(true);
    var prior, proposed := LevelsAt(fetch, s.before).value, LevelsAt(fetch, s.after).value;
    GuardRespects(rv, prior, proposed, e.sender, level);
  }

  lemma GuardRespects(rv: RoomVersion, prior: PowerLevels, proposed: PowerLevels, sender: UserId, level: int)
    requires LevelsGuard(rv, prior, proposed, sender, level) && level == LevelIn(prior, sender)
    ensures RespectsLevels(prior, proposed, sender)
  {
    forall u | u in prior.users && u != sender && prior.users[u] >= level
      ensures u in proposed.users && proposed.users[u] == prior.users[u]
    {
      assert u in prior.users.Keys + proposed.users.Keys && UserGuard(prior.users, proposed.users, u, sender, level);
    }
    forall u | u in proposed.users
      ensures proposed.users[u] <= level || (u in prior.users && prior.users[u] == proposed.users[u])
    {
      assert u in prior.users.Keys + proposed.users.Keys && UserGuard(prior.users, proposed.users, u, sender, level);
    }
    forall k | k in proposed.events
      ensures proposed.events[k] <= level || (k in prior.events && prior.events[k] == proposed.events[k])
    {
      assert k in prior.events.Keys + proposed.events.Keys && EntryGuard(prior.events, proposed.events, k, level);
    }
  }

  /** A step that is not an accepted power levels event leaves the power levels alone. */
  lemma OtherStepKeepsLevels(rv: RoomVersion, fetch: Store, s: Step)
    requires ValidStep(rv, fetch, s) && !ReplacesLevels(fetch, s)
    ensures LevelsAt(fetch, s.after) == LevelsAt(fetch, s.before)
  {
  }

  // ---- The top user over whole runs ----

  /** `user` is listed at `top`, and nobody has more, listed or by default. */
  predicate Tops(l: PowerLevels, user: UserId, top: int) {
    && user in l.users && l.users[user] == top && l.usersDefault <= top
    && forall u | u in l.users :: l.users[u] <= top
  }

  predicate TopsState(fetch: Store, state: StateMap, user: UserId, top: int) {
    LevelsAt(fetch, state).Some? && Tops(LevelsAt(fetch, state).value, user, top)
  }

  /** The replacements a run accepts are sent by others and keep the default level at most `top`. */
  predicate OthersReplace(fetch: Store, s: Step, user: UserId, top: int) {
    ReplacesLevels(fetch, s) ==>
      && fetch[s.id].sender != user
      && (DecodePowerLevels(fetch[s.id].content).Some? ==> DecodePowerLevels(fetch[s.id].content).value.usersDefault <= top)
  }

  lemma TopUserStep(rv: RoomVersion, fetch: Store, s: Step, user: UserId, top: int)
    requires ValidStep(rv, fetch, s) && TopsState(fetch, s.before, user, top) && OthersReplace(fetch, s, user, top)
    ensures TopsState(fetch, s.after, user, top)
  {
    if ReplacesLevels(fetch, s) {
      AcceptedReplacement(rv, fetch, s);
    } else {
      OtherStepKeepsLevels(rv, fetch, s);
    }
  }

  /** Nobody else ever alters the top user: over any run their level stays and stays the highest. */
  lemma {:induction false} TopUserStays(rv: RoomVersion, fetch: Store, start: StateMap, run: seq<Step>, user: UserId, top: int)
    requires IsRun(rv, fetch, start, run) && TopsState(fetch, start, user, top)
    requires forall i | 0 <= i < |run| :: OthersReplace(fetch, run[i], user, top)
    ensures TopsState(fetch, Final(start, run), user, top)
  {
    if run == [] {
    } else {
      var last := |run| - 1;
      TopUserStays(rv, fetch, start, run[..last], user, top);
      assert OthersReplace(fetch, run[last], user, top);
      TopUserStep(rv, fetch, run[last], user, top);
    }
  }

  // ---- The ceiling over whole runs ----

  /** No listed level and no default is above `top`. */
  predicate Under(l: PowerLevels, top: int) {
    l.usersDefault <= top && forall u | u in l.users :: l.users[u] <= top
  }

  predicate UnderState(fetch: Store, state: StateMap, top: int) {
    LevelsAt(fetch, state).Some? && Under(LevelsAt(fetch, state).value, top)
  }

  predicate KeepsDefaultUnder(fetch: Store, s: Step, top: int) {
    ReplacesLevels(fetch, s) && DecodePowerLevels(fetch[s.id].content).Some? ==>
      DecodePowerLevels(fetch[s.id].content).value.usersDefault <= top
  }

  lemma CeilingStep(rv: RoomVersion, fetch: Store, s: Step, top: int)
    requires ValidStep(rv, fetch, s) && UnderState(fetch, s.before, top) && KeepsDefaultUnder(fetch, s, top)
    ensures UnderState(fetch, s.after, top)
  {
    if ReplacesLevels(fetch, s) {
      AcceptedReplacement(rv, fetch, s);
    } else {
      OtherStepKeepsLevels(rv, fetch, s);
    }
  }

  /** Power is never created: whoever sends what, no run lifts anyone above the highest level there
      was, as long as the default levels stay under it. */
  lemma {:induction false} CeilingStays(rv: RoomVersion, fetch: Store, start: StateMap, run: seq<Step>, top: int)
    requires IsRun(rv, fetch, start, run) && UnderState(fetch, start, top)
    requires forall i | 0 <= i < |run| :: KeepsDefaultUnder(fetch, run[i], top)
    ensures UnderState(fetch, Final(start, run), top)
  {
    if run == [] {
    } else {
      var last := |run| - 1;
      CeilingStays(rv, fetch, start, run[..last], top);
      assert KeepsDefaultUnder(fetch, run[last], top);
      CeilingStep(rv, fetch, run[last], top);
    }
  }
}
