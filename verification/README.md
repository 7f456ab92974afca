# Verified model of Matrix state resolution and event signing in ruma

The project models two parts of ruma and proves properties of them.

**State resolution** (`crates/ruma-state-res`). Given several forked states of a room, `resolve`
computes one state that every server agrees on. The modules follow its stages: `StateSets` (splitting
the forks), `AuthChains` (auth chains and their difference), `ControlGraph` and `TopologicalSort` (the
control events and their order), `EventAuth` (the authorization rules), `Replay` (judging events one by
one), `Mainline` (the order of the remaining events) and `StateResolution` (the whole). On top of them
`AuthRules` states by the fields of the events exactly when each kind of event is accepted,
`AuthFrame`, `PowerSafety`, `BanSafety` and `MembershipSafety` state what any run of the authorization
state machine keeps, `DefaultLevels`, `RemovableUser` and `UnseatedUser` exactly what it does not,
`ReleaserKeys` and `OrderAgreement` compare the topological sort with the order by own keys, and
`ResolveProperties` says what the result holds and what becomes of every conflicted event. `Ambiguity`
says which judgements a hash map's order decides, `Convergence` that servers agree without such
judgements, and `AmbiguousInvite` that they need not agree with one.

**Redaction, hashing and signing** (`crates/ruma-signatures`). `CanonicalJson` prints JSON values in
their canonical form, `CanonicalReader` reads it back, and `CanonicalInjective` and `CanonicalLength` say
what it determines. `Redaction`, `Signing` and `EventSigning` model the operations on events and prove that
signatures and event ids survive redaction and signing by several servers, and `VerifiedEvents` says what
the answers of the verifying functions mean.

## How to read the model

- Loops over hash maps and hash sets take their elements in any order (`:|`). Each such method is proved
  against a specification that fixes the result whatever the order is. The one place where the source's
  result does depend on the order, the third party invite found first among the gathered auth events,
  is a free choice in `Replay.Judges`; `Ambiguity.JudgementsAgree` says exactly when it matters, and
  `AmbiguousInvite.ResolveDiverges` shows a room where it decides the outcome of `resolve`.
- A run is a sequence of `Replay.Step`s, one per judged event. Safety theorems are about every run, from
  every state, over every sequence of events and every such choice.
- Event content is kept as the fields the source decodes, each absent, malformed or with a value; each
  decoder fails where the source's derived deserializer fails. `unwrap` and `expect` on such contents
  are the error `Panic`.
- `fetch_event` is a finite map. `Mainline.Acyclic` (no event among its own auth ancestors) is asked for
  wherever the source walks chains of power levels events, because there it does not end otherwise; the
  control graph and the auth chain closure need no such condition, and neither does the sort.
- `key_fn` of the topological sort is a finite map: an event without an entry is one it fails on.
- Power levels are only compared and negated, so the 53-bit range of `js_int::Int` does not matter.

## Where the code differs from its documentation or its neighbours

- `mainline_sort` documents the newest power levels event as depth 0 (`crates/ruma-state-res/src/lib.rs:490-496`);
  the indices count from the oldest one (`Mainline.IndexCountsFromOldest`), and an event without a
  mainline ancestor shares depth 0 with the oldest.
- In the topological sort a released node carries the key of the node that released it, not its own
  (`TopologicalSort.Tie`). So nodes released together are ordered by id alone
  (`ReleaserKeys.ReleasedTogether`, `ReleaserKeys.ForkOrder`); with equal keys along every edge nothing
  changes (`ReleaserKeys.SameKeysSameOrder`), and `OrderAgreement.OrdersAgreeExactly` says on which
  graphs no keys change anything.
- Named power levels are compared only when both serialized contents hold them, that is, when neither
  has its default value. In one replacement the default level can be raised above the sender's own
  level exactly when it is zero or the sender is below zero (`DefaultLevels.DefaultRaisable`). Over
  several replacements no default protects the room, because any default can be set to zero first:
  of the senders whose member event the state holds, exactly those who can send power levels at all
  can unlist any other user, the one at the top included (`RemovableUser.UnlistedExactly`, with an
  instance in `DefaultLevels.TopUserLost`).
- Unlike a plain invite, a signed one is checked against a ban of the invited user only, and a member
  event straight after the root create event against nothing, so both can unseat a joined user at the top
  (`MembershipSafety.TopUntouchable`, `UnseatedUser.TopUserUnseated`).
- A leave or a ban decodes the join rules although `auth_types_for_event` does not list them
  (`AuthFrame.VerdictFrame`, `AuthFrame.FrameFails`).
- `redact` documents an error for `hashes` or `signatures` that are not objects
  (`crates/ruma-signatures/src/functions.rs:719-724`); the code passes them on
  (`Redaction.RedactedByTable` says exactly when it fails).
- A failing `sign_json` leaves the object without `signatures`, and possibly without `unsigned`
  (`Signing.SignJson`).

## Model

| member | source | states |
|---|---|---|
| EventAuth.AuthTypesForEvent | crates/ruma-state-res/src/event_auth.rs:28-80 | fails exactly on a member event whose content is not an object; else lists exactly the needed keys, each once |
| EventAuth.CheckPowerLevels | crates/ruma-state-res/src/event_auth.rs:589-725 | the loops with early returns decide exactly whether every listed, notification and named level respects the sender's level |
| EventAuth.CheckUsers | crates/ruma-state-res/src/event_auth.rs:651-672 | the loop over users accepts exactly when every user's change is guarded |
| EventAuth.CheckEvents | crates/ruma-state-res/src/event_auth.rs:675-690 | the loop over event types accepts exactly when every entry is unchanged or both values are at most the sender's level |
| EventAuth.CheckNamed | crates/ruma-state-res/src/event_auth.rs:708-724 | the loop over level names rejects exactly when a pair present on both sides has a value above the sender's level |
| AuthFrame.VerdictFrame | crates/ruma-state-res/src/event_auth.rs:91-364 | two states that agree on the listed keys give the same verdict, if and only if the unlisted join rules are not decoded or decode alike |
| AuthFrame.DecodedVerdictFrame | crates/ruma-state-res/src/event_auth.rs:28-80 | for contents that decode, the verdict depends on the keys of `auth_types_for_event` alone |
| AuthFrame.ChangeFrame | crates/ruma-state-res/src/event_auth.rs:431-434 | without a join or an invite the join rules matter only in that they must decode |
| AuthFrame.ThirdPartyIrrelevant | crates/ruma-state-res/src/event_auth.rs:471-488 | the third party invite matters only for an invite that carries a signed block |
| AuthFrame.FrameFails | crates/ruma-state-res/src/event_auth.rs:431-434 | a concrete leave, with both states gathered from its own auth events, whose verdict changes with join rules it does not list |
| RoomVersions.New | crates/ruma-state-res/src/room_version.rs:71-147 | versions 1 to 6 are supported; the special case for aliases ends and the limit on notification levels starts with 6, the redaction checks start with 3 |
| AuthRules.NeededKeys | crates/ruma-state-res/src/event_auth.rs:28-80 | which keys an event needs, by its type, state key, membership and token |
| AuthRules.CreateRule | crates/ruma-state-res/src/event_auth.rs:122-165 | exactly when a create event is accepted, and when it is an error |
| AuthRules.AliasesRule | crates/ruma-state-res/src/event_auth.rs:194-208 | exactly when a specially treated aliases event is accepted |
| AuthRules.MemberRule | crates/ruma-state-res/src/event_auth.rs:213-247 | a member event is accepted exactly when its contents decode and it follows the root create event or the change is allowed, all by the fields of the events |
| AuthRules.ThirdPartyInviteRule | crates/ruma-state-res/src/event_auth.rs:786-829 | a third party invite allows a signed one exactly when invited user, inviter, state key and key match |
| AuthRules.SenderRule | crates/ruma-state-res/src/event_auth.rs:250-364 | any other event is accepted exactly when its sender is joined and has the level it needs by field, it speaks for nobody else, and what its type asks for is met |
| AuthRules.GuardByField | crates/ruma-state-res/src/event_auth.rs:641-721 | which replacements of power levels are allowed: users, event types, each of the seven named levels against its own default, and notifications where limited |
| AuthRules.ReplacementRule | crates/ruma-state-res/src/event_auth.rs:271-312 | a replacement by a sender who can send power levels is accepted if and only if every level it changes is allowed by field |
| AuthRules.ErrorsExactly | crates/ruma-state-res/src/lib.rs:413-473 | when judging an event is an error: it cannot be fetched, has no state key, cannot be gathered for, or the rules fail on it |
| AuthRules.LevelsRoundTrip | crates/ruma-state-res/src/event_auth.rs:635-639 | serialized levels, without those that have their default value, decode to the same levels; contents decode exactly when no field is malformed |
| Replay.GatherAuth | crates/ruma-state-res/src/lib.rs:418-451 | the event's own auth events, later ones first, overridden by the state's entries at the needed keys, or the first error |
| Replay.GatheredByKey | crates/ruma-state-res/src/lib.rs:418-451 | at each key: the state's entry when it is needed and can be fetched, else the last of the event's own fetchable auth events with that key; and when gathering fails |
| Replay.MostRecentPrevByIndex | crates/ruma-state-res/src/lib.rs:456-457 | the previous event handed to the rules is the last one that can be fetched |
| Replay.IterativeAuthCheck | crates/ruma-state-res/src/lib.rs:399-488 | replays the events as a run: each judged in the state left by the ones before, accepted ones filed at their own key, ending with the last state or the first error |
| PowerSafety.AcceptedReplacement | crates/ruma-state-res/src/event_auth.rs:271-312 | an accepted replacement of fetchable power levels keeps every other user at or above the sender, and lists no new level above the sender's |
| PowerSafety.TopUserStays | crates/ruma-state-res/src/event_auth.rs:650-672 | over any run in which others send the power levels and the default stays at most L, a listed top user at L is never altered |
| PowerSafety.CeilingStays | crates/ruma-state-res/src/event_auth.rs:650-724 | over any run no listed level ever exceeds the highest level there was, as long as defaults stay under it |
| DefaultLevels.ReplacementVerdict | crates/ruma-state-res/src/event_auth.rs:271-287 | with a joined sender whose level is enough to send power levels, the guard over the levels decides alone |
| DefaultLevels.DefaultRaisable | crates/ruma-state-res/src/event_auth.rs:708-736 | whoever can replace the power levels has an accepted replacement that raises the default above their own level if and only if the default is zero or their level is negative |
| DefaultLevels.RaisedFromZero | crates/ruma-state-res/src/event_auth.rs:708-736 | an accepted replacement raises the default above its sender only from zero, or to zero by a sender below zero |
| DefaultLevels.DefaultLevelEscapes | crates/ruma-state-res/src/event_auth.rs:708-736 | a concrete accepted step in which a moderator at 50 raises a default of zero to 1000 |
| DefaultLevels.TopUserLost | crates/ruma-state-res/src/event_auth.rs:650-736 | a concrete run of two accepted events of others after which the top user is not listed any more |
| RemovableUser.UnlistedExactly | crates/ruma-state-res/src/event_auth.rs:271-287 | some run of replacements by given senders unlists a listed user who is not among them if and only if one of the senders can send power levels at the start, whatever the levels and the default are |
| RemovableUser.CanUnlist | crates/ruma-state-res/src/event_auth.rs:589-725 | whoever can send power levels has a run of accepted replacements after which any chosen other user is not listed |
| RemovableUser.AcceptedMeansCanReplace | crates/ruma-state-res/src/event_auth.rs:250-287 | the sender of accepted power levels is joined and has the level that sending them takes |
| BanSafety.AcceptedChange | crates/ruma-state-res/src/event_auth.rs:213-247 | behind an accepted member event, unless it follows the root create event, are decoded facts under which the change is allowed |
| BanSafety.AcceptedByRules | crates/ruma-state-res/src/event_auth.rs:436-440 | a member event whose last fetchable previous event is not the root create event is accepted only as an allowed change |
| BanSafety.BannedChange | crates/ruma-state-res/src/event_auth.rs:447-564 | the only changes allowed to a banned user are another ban, and a leave by another joined user with both levels and power above the target |
| BanSafety.BanPersists | crates/ruma-state-res/src/event_auth.rs:447-564 | over any run a ban stays until a pardon by a different, joined user with power at least the ban and kick levels and above the target's |
| BanSafety.BannedSenderSilenced | crates/ruma-state-res/src/event_auth.rs:122-269 | while nobody pardons them, a banned user gets only create events, special-cased aliases, signed invites of others and member events after the root create event accepted |
| MembershipSafety.ChangeFollowsTable | crates/ruma-state-res/src/event_auth.rs:447-564 | without a signed invite, a membership change is allowed if and only if its entry in an independent transition table is met |
| MembershipSafety.OutsiderStaysOut | crates/ruma-state-res/src/event_auth.rs:448-471 | over any run nobody joins a room that is not public without an invite, other join rules or a member event after the root create event |
| MembershipSafety.TopUntouchable | crates/ruma-state-res/src/event_auth.rs:471-559 | another sender's change against a joined user at the top is allowed if and only if it is a signed invite that passes |
| MembershipSafety.TopMemberStep | crates/ruma-state-res/src/event_auth.rs:471-559 | a step by another sender changes the membership of a joined top user only by accepting a signed invite, which leaves them invited |
| MembershipSafety.TopMemberStays | crates/ruma-state-res/src/event_auth.rs:471-559 | over any run of replacements by others with bounded defaults, a joined top user stays joined and on top unless the run accepts a change of their own, a signed invite of them, or a member event after the root create event |
| UnseatedUser.TopUserUnseated | crates/ruma-state-res/src/event_auth.rs:436-488 | concrete accepted steps of a moderator that turn a joined top user into an invited one by a signed invite, and remove them by a kick after the root create event |
| MembershipSafety.AcceptedSpeaker | crates/ruma-state-res/src/event_auth.rs:250-335 | other accepted events come from joined users with the level the event type or the invite needs, and speak for nobody else |
| StateSets.Separate | crates/ruma-state-res/src/lib.rs:163-189 | partitions all keys: clean exactly where every state has the same id, with that id; else the list of the ids present; the `expect` is not reached |
| StateSets.CleanExactly | crates/ruma-state-res/src/lib.rs:163-189 | an entry is clean exactly when there are states and all of them have it |
| StateSets.PresentCount | crates/ruma-state-res/src/lib.rs:182-185 | a conflicting list holds an id once for every state that maps the key to it |
| StateSets.SeparationPermuted | crates/ruma-state-res/src/lib.rs:163-189 | any order of the forked states gives the same clean state and conflicting ids |
| AuthChains.AuthEventIds | crates/ruma-state-res/benches/state_res_bench.rs:186-205 | the stack loop ends with the least set closed under auth events, or fails with a reachable event missing from the store |
| AuthChains.LeastClosedIsReachable | crates/ruma-state-res/src/lib.rs:589-612 | the least closed set holds exactly the events at the end of a path of auth edges from the roots |
| AuthChains.GetAuthChainDiff | crates/ruma-state-res/src/lib.rs:192-204 | the counting form yields, without duplicates, the events of some chain that are not in every chain |
| AuthChains.CountingRefinesReference | crates/ruma-state-res/benches/state_res_bench.rs:208-231 | the counting form equals union minus the fold of intersections |
| AuthChains.CommonPartClosed | crates/ruma-state-res/benches/state_res_bench.rs:218-231 | with closed chains, auth events of a common event are common and outside the difference |
| AuthChains.DifferencePermuted | crates/ruma-state-res/src/lib.rs:192-204 | any order of the chains gives the same difference |
| ControlGraph.AddEventAndAuthChain | crates/ruma-state-res/src/lib.rs:589-612 | adds exactly what the event reaches inside the conflicted events, with exact edges, and ends on cycles and repeated stack entries too |
| ControlGraph.StackOrderPop | crates/ruma-state-res/src/lib.rs:596-611 | an event already in the graph has its edges in the graph or above it on the stack, so reprocessing it pushes nothing |
| ControlGraph.BuildGraph | crates/ruma-state-res/src/lib.rs:220-227 | repeated calls build the graph of everything reachable from all the events |
| ControlGraph.ControlGraphUnique | crates/ruma-state-res/src/lib.rs:220-227 | the graph does not depend on the order of the calls |
| ControlGraph.GetPowerLevelForSender | crates/ruma-state-res/src/lib.rs:357-388 | the search loop finds the first fetchable power levels event and the sender's level in it |
| ControlGraph.SortPower | crates/ruma-state-res/src/lib.rs:357-388 | every event is sorted by its sender's listed or default level in the first fetchable power levels event it names, by zero without one, and not at all when that one does not decode |
| ControlGraph.ReverseTopologicalPowerSort | crates/ruma-state-res/src/lib.rs:213-247 | sorts the control graph greedily by sender power and timestamp, and fails only on power levels that do not decode or a key that is missing |
| ControlGraph.KeysFound | crates/ruma-state-res/src/lib.rs:242-246 | with fetchable events no key is ever missing |
| ControlGraph.ControlRootsByFields | crates/ruma-state-res/src/lib.rs:213-247 | control events without conflicted auth events come out by their senders' power, then oldest first, then by id |
| TopologicalSort.LexicographicalTopologicalSort | crates/ruma-state-res/src/lib.rs:253-336 | on any graph ends, past both `expect`s, with the greedy order; fails exactly when a key it asks for along that order is missing |
| TopologicalSort.ClearNode | crates/ruma-state-res/src/lib.rs:312-328 | clearing the popped node leaves exactly the nodes then ready in the heap, under the right keys |
| TopologicalSort.GreedyOrderUnique | crates/ruma-state-res/src/lib.rs:253-336 | the output is a function of the graph and the keys alone |
| TopologicalSort.NoDuplicates | crates/ruma-state-res/src/lib.rs:305-334 | no node is emitted twice |
| TopologicalSort.EdgesFirst | crates/ruma-state-res/src/lib.rs:305-334 | every edge target is emitted before its source |
| TopologicalSort.EmitsLeastClosedSet | crates/ruma-state-res/src/lib.rs:305-334 | on any graph, cyclic or with dangling edges, exactly the least set closed under "all my edges are emitted" comes out |
| TopologicalSort.EmitsEveryNode | crates/ruma-state-res/src/lib.rs:305-334 | on a closed acyclic graph the output is a permutation of the nodes |
| TopologicalSort.SmallestTopologicalOrder | crates/ruma-state-res/src/lib.rs:261-266 | with one key for all nodes the output is the lexicographically smallest topological order |
| TopologicalSort.ReadyAfter | crates/ruma-state-res/src/lib.rs:319-328 | emitting a node keeps the other ready nodes under their keys and releases exactly those that waited for it alone, under its key |
| SortFields.FirstByFields | crates/ruma-state-res/src/lib.rs:261-335 | at every position stands the ready node with most power, then the lowest age, then the smallest id, under the keys of the nodes that released them |
| ReleaserKeys.ReleasedTogether | crates/ruma-state-res/src/lib.rs:319-328 | nodes released by the same node come out in the order of their ids, whatever their own keys |
| ReleaserKeys.SameKeysSameOrder | crates/ruma-state-res/src/lib.rs:319-328 | if nodes joined by an edge have equal keys, the order is the greedy one by own keys |
| ReleaserKeys.ForkOrder | crates/ruma-state-res/src/lib.rs:319-328 | of two nodes waiting for a third, the one with the smaller id comes first under any keys; the order by own keys agrees if and only if its own key is not above the other's |
| ReleaserKeys.ReleaserDecides | crates/ruma-state-res/src/lib.rs:319-328 | a concrete graph on which the order is not the one by own keys |
| OrderAgreement.OrdersAgreeExactly | crates/ruma-state-res/src/lib.rs:319-328 | a closed acyclic graph is sorted as by own keys under any keys if and only if every node with edges comes before or after every other node along the edges |
| Mainline.MainlineSort | crates/ruma-state-res/src/lib.rs:497-559 | gives the ids with a computable depth strictly sorted by depth, timestamp and id; fails exactly when the mainline cannot be walked |
| Mainline.SortedByFields | crates/ruma-state-res/src/lib.rs:537-556 | the output holds exactly the fetchable ids with a computable depth, by depth, then oldest first, then by id |
| Mainline.GetMainlineDepth | crates/ruma-state-res/src/lib.rs:563-587 | the chain walk computes the depth |
| Mainline.DepthByWalk | crates/ruma-state-res/src/lib.rs:563-587 | the depth is where the walk along power levels events ends; there is none exactly when no walk ends |
| Mainline.FirstPowerAuthByIndex | crates/ruma-state-res/src/lib.rs:509-528 | the walk goes on with the first power levels event among the auth events, and fails on one that cannot be fetched before it |
| Mainline.DepthIsClosest | crates/ruma-state-res/src/lib.rs:563-587 | the depth is the index of the first mainline event on the event's own chain of power levels, or zero |
| Mainline.PowerChainLinks | crates/ruma-state-res/src/lib.rs:509-528 | the mainline is a chain of power levels events, each the parent of the one before, and has no repetitions |
| Mainline.IndexCountsFromOldest | crates/ruma-state-res/src/lib.rs:530-535 | mainline indices count from the oldest event |
| Mainline.DepthNeverIncreases | crates/ruma-state-res/src/lib.rs:563-587 | the depth never increases from an event to the power levels event it was sent under |
| Mainline.SortedUnique | crates/ruma-state-res/src/lib.rs:553-556 | there is one strictly sorted arrangement, whatever order the hash map yields |
| StateResolution.Resolve | crates/ruma-state-res/src/lib.rs:55-154 | runs the stages: clean state, control graph and order, first replay, mainline order, second replay, clean entries on top |
| StateResolution.CollectConflicted | crates/ruma-state-res/src/lib.rs:84-90 | the fetchable events that some chain holds and another lacks, or that some state holds at a key which another state lacks or maps elsewhere |
| StateResolution.ConflictedExactly | crates/ruma-state-res/src/lib.rs:84-90 | the conflicted set that all stages work on is exactly those events |
| StateResolution.ControlEventByFields | crates/ruma-state-res/src/lib.rs:625-641 | which events count as control events, by their fields |
| ResolveProperties.ResultEntries | crates/ruma-state-res/src/lib.rs:113-153 | clean keys keep their id; any other entry is a conflicted, fetchable event of that key accepted in a pass and not followed by another |
| ResolveProperties.EntryOrigin | crates/ruma-state-res/src/lib.rs:468-481 | an entry after a run is the last accepted event with that key, or the entry from before |
| ResolveProperties.PassesAreOneRun | crates/ruma-state-res/src/lib.rs:113-153 | both passes are one run from the clean state over control events and then the rest |
| ResolveProperties.ConflictedEventsConserved | crates/ruma-state-res/src/lib.rs:95-139 | first pass: conflicted events only, each once, all control events among them, every conflicted auth event before its dependents; second pass: exactly the rest with a computable depth, once each |
| ResolveProperties.ControlSortExactly | crates/ruma-state-res/src/lib.rs:95-139 | the first pass judges exactly the events at the ends of paths of conflicted auth events from conflicted control events |
| ResolveProperties.NoConflictedEventLost | crates/ruma-state-res/src/lib.rs:124-139 | with complete auth events every conflicted event is judged in exactly one pass |
| ResolveProperties.SecondPassOrder | crates/ruma-state-res/src/lib.rs:130-139 | the second pass goes by the mainline of the power levels event the first pass ends with: by depth, then oldest first, then by id |
| ResolveProperties.FailsExactly | crates/ruma-state-res/src/lib.rs:55-154 | what a resolution with conflicts fails on, and that nothing else makes it fail |
| ResolveProperties.SecondPassKeepsControlState | crates/ruma-state-res/src/lib.rs:130-148 | the second pass never changes power levels, join rules or the create event |
| ResolveProperties.SecondPassRemovesNobody | crates/ruma-state-res/src/lib.rs:625-641 | the second pass judges no kick or ban of another whose content decodes |
| Convergence.ResolveConverges | crates/ruma-state-res/src/lib.rs:55-154 | for acyclic auth events, any orders of states, chains and hash maps go through the same stages and give the same map or both fail, if in no judgement along the way the choice between third party invites matters |
| Convergence.ResolutionDetermined | crates/ruma-state-res/src/lib.rs:55-154 | the stages of a resolution are the only ones for its inputs if and only if that choice matters in no judgement along the way |
| Convergence.ResolveConvergesForNamedInvites | crates/ruma-state-res/src/lib.rs:55-154 | the same under a condition on the inputs alone: clean entries at their own keys, and signed invites naming only the third party invite of their token |
| Ambiguity.InviteDecides | crates/ruma-state-res/src/event_auth.rs:471-488 | which judgements the third party invite decides, and what they come down to |
| Ambiguity.JudgementsAgree | crates/ruma-state-res/src/lib.rs:459-473 | all judgements of an event in a state agree if and only if it is not a signed invite that reaches the check while one gathered third party invite passes and another does not |
| Ambiguity.ReplayDetermined | crates/ruma-state-res/src/lib.rs:399-488 | a replay is the only one from its start over its events if and only if the choice matters in no judgement along it |
| AmbiguousInvite.ResolveDiverges | crates/ruma-state-res/src/lib.rs:55-154 | a concrete room, with full auth chains, whose `resolve` may answer with a signed invite or without it in every supported version |
| CanonicalInjective.CanonicalFormUnique | crates/ruma-signatures/src/functions.rs:202-204 | no two JSON values have the same canonical form |
| CanonicalInjective.PrintInjective | crates/ruma-signatures/src/functions.rs:691-702 | printed in front of any separator, values are told apart |
| CanonicalReader.ValueBack | crates/ruma-signatures/src/functions.rs:202-204 | a reader written from the JSON grammar reads the canonical form of any value back |
| CanonicalReader.ObjectBack | crates/ruma-signatures/src/functions.rs:691-702 | a whole printed object is read back as that object |
| CanonicalReader.KeysAscend | crates/ruma-signatures/src/functions.rs:202-204 | keys are printed in strictly ascending order |
| CanonicalReader.BytesAreUtf8 | crates/ruma-signatures/src/functions.rs:350-352 | the length in bytes is that of the UTF-8 form |
| CanonicalLength.ShorterObject | crates/ruma-signatures/src/functions.rs:691-702 | an object with fewer keys and no longer values has no longer canonical form in bytes |
| CanonicalLength.PrintLength | crates/ruma-signatures/src/functions.rs:350-352 | the length in bytes of the canonical form, by structure |
| Redaction.SplitIdExact | crates/ruma-signatures/src/lib.rs:75-101 | a key id splits exactly when it is `ed25519`, a colon and a version of letters, digits and underscores |
| Redaction.RedactEvent | crates/ruma-signatures/src/functions.rs:725-765 | the loops that move allowed keys back leave exactly the allowed keys and content keys |
| Redaction.RedactedByTable | crates/ruma-signatures/src/functions.rs:28-75 | which top-level and content keys survive redaction, by event type and room version, and exactly when it fails |
| Redaction.HashesByField | crates/ruma-signatures/src/functions.rs:346-394 | what the content hash and the reference hash leave out, their size bound, and their alphabet by room version |
| Redaction.RedactIdempotent | crates/ruma-signatures/src/functions.rs:725-765 | redacting twice is redacting once, per room version |
| Redaction.RedactIgnoresSignatures | crates/ruma-signatures/src/functions.rs:725-765 | redaction succeeds or fails whatever the signatures are, and passes them on |
| Redaction.ReferenceHashSurvivesRedaction | crates/ruma-signatures/src/functions.rs:372-394 | a redacted event has the same reference hash |
| Redaction.ReferenceHashIgnoresSignatures | crates/ruma-signatures/src/functions.rs:372-394 | signatures do not affect the reference hash |
| Redaction.RedactionShortens | crates/ruma-signatures/src/functions.rs:346-355 | redaction never lengthens the canonical form |
| Redaction.ContentHashSurvivesRedaction | crates/ruma-signatures/src/functions.rs:346-355 | if the content hash is within the size bound before redaction it is after |
| Signing.SignJson | crates/ruma-signatures/src/functions.rs:136-178 | succeeds exactly when `signatures` and the entity's entry are objects or absent, then adds the signature; says what is left of the object on failure |
| Signing.SignedEntries | crates/ruma-signatures/src/functions.rs:136-178 | signing changes `signatures` only, adds this signature, keeps every other one, and does not change what is signed |
| Signing.SigningCommutes | crates/ruma-signatures/src/functions.rs:136-178 | calls with different entities or key ids commute |
| Signing.SigningKeepsReferenceHash | crates/ruma-signatures/src/functions.rs:372-394 | signing does not affect the reference hash |
| Signing.VerifyJson | crates/ruma-signatures/src/functions.rs:251-306 | the loops accept exactly when every signature of every entity has a known key and is accepted |
| VerifiedEvents.VerifyJsonExactly | crates/ruma-signatures/src/functions.rs:251-306 | `verify_json` accepts exactly when every signature of every entity has a known key and is accepted over the object without signatures and unsigned part |
| VerifiedEvents.SignedByFields | crates/ruma-signatures/src/functions.rs:136-178 | where `sign_json` files which signature of which text |
| Signing.SignersVerified | crates/ruma-signatures/src/functions.rs:136-306 | any sequence of signers of an unsigned object succeeds, leaves the rest alone, and verifies under any key map holding their keys |
| Signing.SoundSchemeExists | crates/ruma-signatures/src/functions.rs:615 | the assumptions on the signature scheme and the parser can be met, the latter by the reader of the grammar |
| EventSigning.HashAndSignSucceeds | crates/ruma-signatures/src/functions.rs:489-518 | signing an event succeeds exactly when it fits the size bound, has a type, and its `content`, `hashes`, `signatures` and the entity's own entry are objects or absent |
| EventSigning.HashAndSignEvent | crates/ruma-signatures/src/functions.rs:489-518 | stores the content hash and a signature over the redacted event; on failure the object is as before or holds its hash |
| EventSigning.CheckEvent | crates/ruma-signatures/src/functions.rs:587-681 | decides as the specification of `verify_event` does, up to which error is reported |
| VerifiedEvents.VerifyEventExactly | crates/ruma-signatures/src/functions.rs:587-681 | `verify_event` succeeds exactly when the event can be redacted, names its required servers, holds a hash, fits the size bound, and every required server's first known signature of the redacted form is accepted |
| VerifiedEvents.VerifiedMeansSigned | crates/ruma-signatures/src/functions.rs:635-671 | behind a verified event there is for each required server a known, well-formed key whose signature of the redacted form is accepted |
| VerifiedEvents.AllMeansHashed | crates/ruma-signatures/src/functions.rs:673-681 | the answer is `All` exactly when the stored hash is the digest of the event without hashes, signatures and unsigned part |
| VerifiedEvents.HashedAndSignedByFields | crates/ruma-signatures/src/functions.rs:489-518 | which digest and which signature of which text `hash_and_sign_event` stores, and where |
| EventSigning.FindKey | crates/ruma-signatures/src/functions.rs:635-647 | picks the first known key with a signature when all ids up to it are well-formed, and none when a malformed id comes first or no id has a signature |
| EventSigning.RedactionKeepsEvidence | crates/ruma-signatures/src/functions.rs:771-810 | redaction keeps the required servers, the stored hash and the signatures |
| EventSigning.MessageInjective | crates/ruma-signatures/src/functions.rs:202-204 | two objects have the same signed message if and only if they agree outside `signatures` and `unsigned` |
| EventSigning.SignedMessageCommits | crates/ruma-signatures/src/functions.rs:489-518 | the redacted forms of two events have the same signed message if and only if the events agree on every allowed key but `signatures` and on what redaction leaves of their content |
| EventSigning.VerificationSurvivesRedaction | crates/ruma-signatures/src/functions.rs:587-681 | a verified event is verified after redaction, size bound included |
| EventSigning.EventSignersCarried | crates/ruma-signatures/src/functions.rs:489-518 | after several servers hash and sign in turn, every one of their signatures is accepted over the final redacted form |
| EventSigning.SignedEventVerifies | crates/ruma-signatures/src/functions.rs:587-681 | signing by servers that cover the required ones makes `verify_event` return `Verified::All` |
| EventSigning.SignThenVerify | crates/ruma-signatures/src/functions.rs:489-681 | one successful `hash_and_sign_event` by the required server, its sole known key well-formed, makes `verify_event` return `Verified::All` |

## Left out

- Decoding with serde and `Raw`: contents are the decoded fields, absent, malformed or with a value; a `null` counts as absent.
- The server name grammar of user and event ids, and lengths of ids in bytes rather than characters.
- Ed25519, SHA-256, base64 and PKCS#8: the signature scheme is a parameter with one law, the hash a parameter with none; a base64 error and a refused signature are the same refusal.
- The parser of `serde_json`: a parameter that inverts printing, as `CanonicalReader` does without white space.
- Which of several errors is reported: outcomes are compared by success and value.
- `BinaryHeap`: a set of entries from which a least one is taken; `TopologicalSort.ClearNode` shows that no entry is pushed twice.
- `sort_by_key`: an insertion sort stands for it; the order is strict, so stability does not matter.
- `HashMap` and `BTreeMap` as mutable arguments: a graph, a state or a counter passed by mutable reference is passed in and returned; only the signed JSON object is a class.
- The `compat` feature, room versions 7 to 9 and logging.
- Flags of a room version that no rule reads, and the room's disposition.
- Everything outside the two crates: HTTP clients, API types, identifiers, event content types and macros.
