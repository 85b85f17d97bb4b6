/** Moderation of albums and tracks by staff users. */
module AdminServices {
  import opened Base
  import opened MusicModels
  import MusicServices

  /** `check_staff_permissions`: only staff users pass. */
  function CheckStaffPermissions(user: User): (r: Outcome)
    ensures r.Pass? <==> user.isStaff
    ensures r.Fail? ==> r.error == PermissionDenied
  {
    if !user.isStaff then Fail(PermissionDenied) else Pass
  }

  /** `approve_music_object`: a staff user makes the object active; anyone
      else is refused and the object keeps its status. */
  method ApproveMusicObject(user: User, obj: MusicObject) returns (r: Outcome)
    modifies obj`status
    ensures r == CheckStaffPermissions(user)
    ensures r.Pass? ==> obj.status == Active
    ensures r.Fail? ==> obj.status == old(obj.status)
  {
    r := CheckStaffPermissions(user);
    if r.Fail? {
      return;
    }
    MusicServices.UpdateMusicObjectStatus(obj, Active);
  }

  /** `reject_music_object`: a staff user marks the object rejected; anyone
      else is refused and the object keeps its status. */
  method RejectMusicObject(user: User, obj: MusicObject) returns (r: Outcome)
    modifies obj`status
    ensures r == CheckStaffPermissions(user)
    ensures r.Pass? ==> obj.status == Rejected
    ensures r.Fail? ==> obj.status == old(obj.status)
  {
    r := CheckStaffPermissions(user);
    if r.Fail? {
      return;
    }
    MusicServices.UpdateMusicObjectStatus(obj, Rejected);
  }

  /** The moderation step as written: after the permission check the new
      status is read as the member `statusName` of `Music.Status`, so a
      name the class does not declare raises AttributeError. */
  function ModerateAsWritten(user: User, statusName: string): (r: Result<Status>)
    ensures !user.isStaff ==> r == Err(PermissionDenied)
    ensures user.isStaff ==> (r.Ok? <==> DeclaredStatus(statusName).Some?)
    ensures user.isStaff && DeclaredStatus(statusName).None? ==> r == Err(AttributeError)
    ensures r.Ok? ==> DeclaredStatus(statusName) == Some(r.value)
  {
    match CheckStaffPermissions(user)
    case Fail(e) => Err(e)
    case Pass =>
      match DeclaredStatus(statusName)
      case None => Err(AttributeError)
      case Some(s) => Ok(s)
  }

  /** As written, neither approval nor rejection ever succeeds: a staff user
      gets AttributeError, anyone else PermissionDenied. */
  lemma ModerationAsWrittenAlwaysRaises(user: User)
    ensures ModerateAsWritten(user, "ACTIVE").Err?
    ensures ModerateAsWritten(user, "REJECTED").Err?
    ensures user.isStaff ==>
      ModerateAsWritten(user, "ACTIVE") == Err(AttributeError) && ModerateAsWritten(user, "REJECTED") == Err(AttributeError)
  {
    assert "ACTIVE" != "DRAFT" && "ACTIVE" != "PUBLISHED";
    assert "REJECTED" != "DRAFT" && "REJECTED" != "PUBLISHED";
  }
}
