/**
 * The access-configuration screen shown after a role is chosen: a unit and,
 * except for guests, two officers must be selected before the session is
 * confirmed.
 */
module LoginConfig {
  import opened Types
  import InputForm

  /** The submit button's `disabled` condition. */
  predicate SubmitDisabled(role: UserRole, ulp: string, petugas1: string, petugas2: string) {
    ulp == "" || (role != Guest && (petugas1 == "" || petugas2 == ""))
  }

  /**
   * `handleConfirm`: no session without a unit, nor for a non-guest without
   * both officers; a guest's session carries no officers, anyone else's the
   * selected ones.
   */
  function Confirm(role: UserRole, ulp: string, petugas1: string, petugas2: string): (r: Option<LoginSession>)
    ensures ulp == "" ==> r.None?
    ensures role != Guest && (petugas1 == "" || petugas2 == "") ==> r.None?
    ensures r.Some? ==> r.value.ulp == ulp && r.value.ulp != ""
    ensures r.Some? && role == Guest ==> r.value.petugas1 == None && r.value.petugas2 == None
    ensures r.Some? && role != Guest ==>
      r.value.petugas1 == Some(petugas1) && r.value.petugas2 == Some(petugas2)
      && Truthy(r.value.petugas1) && Truthy(r.value.petugas2)
  {
    if ulp == "" then None
    else if role != Guest && (petugas1 == "" || petugas2 == "") then None
    else if role == Guest then Some(LoginSession(ulp, None, None))
    else Some(LoginSession(ulp, Some(petugas1), Some(petugas2)))
  }

  /** The button is enabled exactly when submitting would confirm a session. */
  lemma SubmitEnabledIffConfirms(role: UserRole, ulp: string, petugas1: string, petugas2: string)
    ensures !SubmitDisabled(role, ulp, petugas1, petugas2) <==> Confirm(role, ulp, petugas1, petugas2).Some?
  {
  }

  /**
   * A confirmed session always lets the report form find its unit, and an
   * officer's report carries the two officers chosen here.
   */
  lemma ConfirmedSessionFeedsForm(role: UserRole, ulp: string, petugas1: string, petugas2: string)
    requires Confirm(role, ulp, petugas1, petugas2).Some?
    ensures var s := Confirm(role, ulp, petugas1, petugas2).value;
      && InputForm.CurrentUlp(s, None) == Some(ulp)
      && (role != Guest ==>
        InputForm.OfficerName(s.petugas1, None) == petugas1
        && InputForm.OfficerName(s.petugas2, None) == petugas2)
  {
  }

  /** The screen's state. */
  class LoginForm {
    const role: UserRole
    var ulp: string
    var petugas1: string
    var petugas2: string

    constructor (role: UserRole)
      ensures this.role == role && ulp == "" && petugas1 == "" && petugas2 == ""
    {
      this.role := role;
      ulp, petugas1, petugas2 := "", "", "";
    }

    /** Choosing a unit clears both officer selections. */
    method SelectUnit(u: string)
      modifies this
      ensures ulp == u && petugas1 == "" && petugas2 == ""
    {
      ulp, petugas1, petugas2 := u, "", "";
    }

    /** Choosing the first officer. */
    method SelectPetugas1(name: string)
      modifies this
      ensures petugas1 == name && ulp == old(ulp) && petugas2 == old(petugas2)
    {
      petugas1 := name;
    }

    /** Choosing the second officer. */
    method SelectPetugas2(name: string)
      modifies this
      ensures petugas2 == name && ulp == old(ulp) && petugas1 == old(petugas1)
    {
      petugas2 := name;
    }

    /** Submitting: the session handed to `onConfirm`, if any. Nothing changes. */
    method Submit() returns (session: Option<LoginSession>)
      ensures session == Confirm(role, ulp, petugas1, petugas2)
      ensures session.Some? <==> !SubmitDisabled(role, ulp, petugas1, petugas2)
    {
      SubmitEnabledIffConfirms(role, ulp, petugas1, petugas2);
      session := Confirm(role, ulp, petugas1, petugas2);
    }
  }
}
