/**
 * The caller context that replaces the Flask session, and the role gate that
 * `login_required(role)` puts in front of a handler (app.py:56-69).
 */
module Access {
  import opened Wrappers

  /** Who is calling: nobody, or a session holding `user_id` and `role`. */
  datatype Caller = Anonymous | Session(userId: nat, role: string)

  /** What the gate decides: run the handler, send to the login page, or deny. */
  datatype Gate = Granted | NotLoggedIn | Forbidden

  /**
   * `login_required(role)`: a caller without a session must log in first; a
   * caller with one passes unless a (non-empty) role is required, theirs is a
   * different one, and theirs is not "admin".
   */
  function Admits(caller: Caller, required: Option<string>): (g: Gate)
    ensures g == NotLoggedIn <==> caller.Anonymous?
    ensures g == Granted <==>
      caller.Session? &&
      (required.None? || required.value == "" || caller.role == required.value || caller.role == "admin")
    ensures g == Forbidden <==>
      caller.Session? && required.Some? && required.value != "" &&
      caller.role != required.value && caller.role != "admin"
  {
    if caller.Anonymous? then NotLoggedIn
    else if required.Some? && required.value != "" && caller.role != required.value && caller.role != "admin" then Forbidden
    else Granted
  }

  /** An admin passes every gate, and a gate with no role passes every session. */
  lemma AdminPassesEveryGate(userId: nat, role: string, required: Option<string>)
    ensures Admits(Session(userId, "admin"), required) == Granted
    ensures Admits(Session(userId, role), None) == Granted
  {
  }

  /** A consumer never reaches a vendor page, nor a vendor a consumer page. */
  lemma RolesAreSeparated(userId: nat)
    ensures Admits(Session(userId, "consumer"), Some("vendor")) == Forbidden
    ensures Admits(Session(userId, "vendor"), Some("consumer")) == Forbidden
  {
  }
}
