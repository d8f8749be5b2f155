/**
 * The admin's license review actions (src/app/admin/actions.ts): approving a pending
 * license verification marks it verified and raises the professional's trust level to 3;
 * rejecting a pending one marks it rejected with a reason.
 *
 * The caller's role is what `getUserRole` resolved for them (see UserRole); whether each
 * store read or write reports an error is a parameter.
 */
module AdminActions {
  import opened Database
  import opened Store
  import opened UserRole

  datatype AdminResult =
    | NotAuthenticated
    | NotAuthorized
    | NotFoundOrProcessed
    | WriteFailed
    | ApprovedButProfileNotUpdated
    | Success

  const DefaultRejectionReason: string := "Rechazado por el equipo de revisión"

  /** The caller may act: signed in, and a super admin or a listed admin email. */
  predicate MayReview(user: Option<AuthUser>, role: DashboardRole, adminEmails: Option<string>) {
    user.Some? && IsAdminUser(role, user.value.email, adminEmails)
  }

  function AuthError(user: Option<AuthUser>): AdminResult {
    if user.None? then NotAuthenticated else NotAuthorized
  }

  predicate IsPending(t: Tables, id: string) {
    id in t.verifications && t.verifications[id].status == VerificationStatus.Pending
  }

  /** The verification row after approval by `reviewer` at `now`. */
  function Approved(v: LicenseVerification, reviewer: UserId, now: Timestamp): LicenseVerification {
    v.(status := Verified, verifiedAt := Some(now), verifiedBy := Some(reviewer), reviewNotes := None,
       rejectionReason := None)
  }

  /** `update({trust_level: 3}).eq('user_id', profileId)`: no row matches when there is no profile. */
  function RaiseTrust(t: Tables, profileId: UserId): Tables {
    if profileId in t.profiles then PutProfile(t, profileId, t.profiles[profileId].(trustLevel := 3)) else t
  }

  /** `approveLicenseVerification` as a function of the store. */
  function ApproveRoute(t: Tables, user: Option<AuthUser>, role: DashboardRole, adminEmails: Option<string>,
                        id: string, now: Timestamp, fetchFails: bool, verificationWriteFails: bool,
                        profileWriteFails: bool): (Tables, AdminResult)
  {
    if !MayReview(user, role, adminEmails) then (t, AuthError(user))
    else if fetchFails || !IsPending(t, id) then (t, NotFoundOrProcessed)
    else if verificationWriteFails then (t, WriteFailed)
    else
      var v := t.verifications[id];
      var t1 := PutVerification(t, id, Approved(v, user.value.id, now));
      if profileWriteFails then (t1, ApprovedButProfileNotUpdated)
      else (RaiseTrust(t1, v.profileId), Success)
  }

  /** The verification row after rejection by `reviewer`. */
  function Rejected(v: LicenseVerification, reviewer: UserId, reason: Option<string>): LicenseVerification {
    v.(status := VerificationStatus.Rejected, verifiedBy := Some(reviewer),
       rejectionReason := Some(if reason.Some? then reason.value else DefaultRejectionReason))
  }

  /** `rejectLicenseVerification`: the update is filtered on `status = 'pending'`. */
  function RejectRoute(t: Tables, user: Option<AuthUser>, role: DashboardRole, adminEmails: Option<string>,
                       id: string, reason: Option<string>, writeFails: bool): (Tables, AdminResult)
  {
    if !MayReview(user, role, adminEmails) then (t, AuthError(user))
    else if writeFails then (t, WriteFailed)
    else if IsPending(t, id) then (PutVerification(t, id, Rejected(t.verifications[id], user.value.id, reason)), Success)
    else (t, Success)
  }

  method Approve(st: Store, user: Option<AuthUser>, role: DashboardRole, adminEmails: Option<string>, id: string,
                 now: Timestamp, fetchFails: bool, verificationWriteFails: bool, profileWriteFails: bool)
    returns (result: AdminResult)
    modifies st
    ensures (st.Snapshot(), result) ==
      ApproveRoute(old(st.Snapshot()), user, role, adminEmails, id, now, fetchFails, verificationWriteFails, profileWriteFails)
  {
    if user.None? {
      return NotAuthenticated;
    }
    if !IsAdminUser(role, user.value.email, adminEmails) {
      return NotAuthorized;
    }
    if fetchFails || !(id in st.verifications && st.verifications[id].status == VerificationStatus.Pending) {
      return NotFoundOrProcessed;
    }
    if verificationWriteFails {
      return WriteFailed;
    }
    var v := st.verifications[id];
    st.WriteVerification(id, Approved(v, user.value.id, now));
    if profileWriteFails {
      return ApprovedButProfileNotUpdated;
    }
    if v.profileId in st.profiles {
      st.WriteProfile(v.profileId, st.profiles[v.profileId].(trustLevel := 3));
    }
    return Success;
  }

  method Reject(st: Store, user: Option<AuthUser>, role: DashboardRole, adminEmails: Option<string>, id: string,
                reason: Option<string>, writeFails: bool) returns (result: AdminResult)
    modifies st
    ensures (st.Snapshot(), result) == RejectRoute(old(st.Snapshot()), user, role, adminEmails, id, reason, writeFails)
  {
    if user.None? {
      return NotAuthenticated;
    }
    if !IsAdminUser(role, user.value.email, adminEmails) {
      return NotAuthorized;
    }
    if writeFails {
      return WriteFailed;
    }
    if id in st.verifications && st.verifications[id].status == VerificationStatus.Pending {
      st.WriteVerification(id, Rejected(st.verifications[id], user.value.id, reason));
    }
    return Success;
  }

  // ---------------------------------------------------------------------------
  // Properties.

  /** A caller who is signed out or not an admin gets an error and changes nothing. */
  lemma OnlyAdminsReview(t: Tables, user: Option<AuthUser>, role: DashboardRole, adminEmails: Option<string>, id: string,
                         now: Timestamp, reason: Option<string>, f0: bool, f1: bool, f2: bool)
    requires !MayReview(user, role, adminEmails)
    ensures ApproveRoute(t, user, role, adminEmails, id, now, f0, f1, f2).0 == t
    ensures RejectRoute(t, user, role, adminEmails, id, reason, f1).0 == t
    ensures var r := ApproveRoute(t, user, role, adminEmails, id, now, f0, f1, f2).1;
      r == RejectRoute(t, user, role, adminEmails, id, reason, f1).1 &&
      (r == NotAuthenticated <==> user.None?) && (r == NotAuthorized <==> user.Some?)
  {
  }

  /**
   * Approval changes the store only for a pending verification whose lookup did not
   * report an error; a lookup error reads as "not found". The approved row is
   * verified by the caller at `now` with notes and reason cleared and nothing else altered;
   * the professional is raised to trust level 3 unless that write fails, in which case the
   * verification stays approved and the caller is told so.
   */
  lemma ApproveEffect(t: Tables, user: AuthUser, role: DashboardRole, adminEmails: Option<string>, id: string,
                      now: Timestamp, f0: bool, f1: bool, f2: bool)
    requires IsAdminUser(role, user.email, adminEmails)
    ensures var (r, result) := ApproveRoute(t, Some(user), role, adminEmails, id, now, f0, f1, f2);
      (result == Success || result == ApprovedButProfileNotUpdated <==> IsPending(t, id) && !f0 && !f1) &&
      (result == NotFoundOrProcessed <==> f0 || !IsPending(t, id)) &&
      (r != t ==> IsPending(t, id) && !f0 && !f1) &&
      (IsPending(t, id) && !f0 && !f1 ==>
        var v := t.verifications[id];
        r.verifications == t.verifications[id := v.(status := Verified, verifiedAt := Some(now), verifiedBy := Some(user.id),
                                                    reviewNotes := None, rejectionReason := None)] &&
        r.subs == t.subs && r.invoices == t.invoices &&
        (f2 ==> r.profiles == t.profiles && result == ApprovedButProfileNotUpdated) &&
        (!f2 ==> result == Success &&
                 (v.profileId in t.profiles ==> r.profiles == t.profiles[v.profileId := t.profiles[v.profileId].(trustLevel := 3)]) &&
                 (v.profileId !in t.profiles ==> r.profiles == t.profiles)))
  {
  }

  /**
   * Rejection writes only a pending row and answers success whether or not one matched;
   * the reason defaults only when none is given.
   */
  lemma RejectEffect(t: Tables, user: AuthUser, role: DashboardRole, adminEmails: Option<string>, id: string,
                     reason: Option<string>, fails: bool)
    requires IsAdminUser(role, user.email, adminEmails)
    ensures var (r, result) := RejectRoute(t, Some(user), role, adminEmails, id, reason, fails);
      (result == Success <==> !fails) &&
      (r != t ==> IsPending(t, id) && !fails) &&
      (IsPending(t, id) && !fails ==>
        r == t.(verifications := t.verifications[id := t.verifications[id].(
          status := VerificationStatus.Rejected, verifiedBy := Some(user.id),
          rejectionReason := Some(if reason.None? then "Rechazado por el equipo de revisión" else reason.value))]))
  {
  }

  /**
   * A reviewed verification is final: once approved, approving again finds nothing and
   * rejecting changes nothing; once rejected, the same holds.
   */
  lemma ReviewIsFinal(t: Tables, user: AuthUser, role: DashboardRole, adminEmails: Option<string>, id: string,
                      now: Timestamp, reason: Option<string>, f2: bool)
    requires IsAdminUser(role, user.email, adminEmails) && IsPending(t, id)
    ensures var approved := ApproveRoute(t, Some(user), role, adminEmails, id, now, false, false, f2).0;
      ApproveRoute(approved, Some(user), role, adminEmails, id, now, false, false, f2) == (approved, NotFoundOrProcessed) &&
      RejectRoute(approved, Some(user), role, adminEmails, id, reason, false) == (approved, Success)
    ensures var rejected := RejectRoute(t, Some(user), role, adminEmails, id, reason, false).0;
      ApproveRoute(rejected, Some(user), role, adminEmails, id, now, false, false, f2) == (rejected, NotFoundOrProcessed) &&
      RejectRoute(rejected, Some(user), role, adminEmails, id, reason, false) == (rejected, Success)
  {
    var approved := ApproveRoute(t, Some(user), role, adminEmails, id, now, false, false, f2).0;
    assert approved.verifications[id].status == Verified;
    var rejected := RejectRoute(t, Some(user), role, adminEmails, id, reason, false).0;
    assert rejected.verifications[id].status == VerificationStatus.Rejected;
  }
}
