/** The room version flags the authorization rules branch on. */
module RoomVersions {
  import opened Wrappers

  datatype RoomVersionId = V1 | V2 | V3 | V4 | V5 | V6 | Custom(name: string)

  datatype RoomVersion = RoomVersion(
    specialCaseAliasesAuth: bool,
    limitNotificationsPowerLevels: bool,
    extraRedactionChecks: bool)

  const VERSION_1 := RoomVersion(true, false, false)
  const VERSION_3 := VERSION_1.(extraRedactionChecks := true)
  const VERSION_6 := VERSION_3.(specialCaseAliasesAuth := false, limitNotificationsPowerLevels := true)

  /** `RoomVersion::new`: only versions 1 to 6 are supported. The special case for aliases ends with version
      6, the limit on notification levels starts with it, and the redaction checks start with version 3. */
  function New(id: RoomVersionId): (r: Result<RoomVersion>)
    ensures r.Ok? <==> !id.Custom?
    ensures r.Ok? ==> (r.value.specialCaseAliasesAuth <==> id != V6)
    ensures r.Ok? ==> (r.value.limitNotificationsPowerLevels <==> id == V6)
    ensures r.Ok? ==> (r.value.extraRedactionChecks <==> id != V1 && id != V2)
  {
    match id
    case V1 => Ok(VERSION_1)
    case V2 => Ok(VERSION_1)
    case V3 => Ok(VERSION_3)
    case V4 => Ok(VERSION_3)
    case V5 => Ok(VERSION_3)
    case V6 => Ok(VERSION_6)
    case Custom(_) => Err(Unsupported)
  }
}
