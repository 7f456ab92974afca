/** Events to build concrete rooms from. */
module Samples {
  import opened Wrappers
  import opened Identifiers
  import opened Events

  const EMPTY_LEVELS :=
    Levels(Absent, Absent, Absent, Absent, Absent, Absent, Absent, Absent, Absent, Absent)

  const EMPTY_OBJECT :=
    Object(Absent, Absent, true, Absent, Absent, Absent, true, EMPTY_LEVELS, Absent, Absent, true)

  function Sample(id: EventId, sender: UserId, kind: EventType, key: string, auths: seq<EventId>, content: Content): Event {
    Event(id, "h", sender, kind, Some(key), 0, if auths == [] then [] else ["$p"], auths, None, content)
  }

  /** The root of every concrete room. */
  function CreatedBy(user: UserId): Event {
    Sample("$c", user, RoomCreate, "", [], EMPTY_OBJECT.(creator := Value(user)))
  }

  function MembershipContent(membership: Membership): Content {
    EMPTY_OBJECT.(membership := Value(membership))
  }

  function JoinOf(id: EventId, user: UserId): Event {
    Sample(id, user, RoomMember, user, ["$c"], MembershipContent(Join))
  }

  function SignedContent(user: UserId, token: string): Content {
    EMPTY_OBJECT.(membership := Value(Invite), thirdPartyInvite := Value(SignedInvite(user, token)))
  }

  lemma SampleUser()
    ensures IsUserId("@a:h")
  {
    var s := "@a:h";
    assert s[1..] == "a:h" && s[1..][1..] == ":h";
    assert FindChar(":h", ':') == Some(0);
    assert FindChar("a:h", ':') == Some(1);
  }
}
