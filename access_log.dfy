/**
 * The user-management page (`AccessLog.jsx`): the multi-select of projects
 * for a new user, the create-user form with its messages, and the label of
 * each user's access. The POST's outcome is a parameter.
 */
module AccessLog {
  import opened Wrappers
  import opened Strings
  import opened Models
  import Api

  /** `ids.filter(id => id !== x)`. */
  function Without(ids: seq<string>, x: string): (r: seq<string>)
    ensures x !in r
    ensures |r| <= |ids|
    decreases |ids|
  {
    if ids == [] then [] else (if ids[0] == x then [] else [ids[0]]) + Without(ids[1..], x)
  }

  /** `toggleProjectSelection`: every occurrence removed when present, else appended. */
  function ToggledSelection(ids: seq<string>, x: string): seq<string> {
    if x in ids then Without(ids, x) else ids + [x]
  }

  /** The access column: "All Access" for an admin, else the number of projects, else "None". */
  function AllowedLabel(user: User): string {
    if user.role == "admin" then "All Access"
    else if |user.allowedProjects| > 0 then NatToString(|user.allowedProjects|) + " Projects"
    else "None"
  }

  const CreateFailed: string := "Failed to create user"

  /**
   * How the POST ended: created; refused with the `detail` of the error
   * body, if it had one; or an exception (no answer, or a body that is not
   * JSON) with its message.
   */
  datatype CreateOutcome = Created | Refused(detail: Option<string>) | Raised(message: string)

  /** The message shown when the user was not created. */
  function ErrorMessage(outcome: CreateOutcome): string
    requires !outcome.Created?
  {
    match outcome
    case Refused(detail) => if detail.Some? && detail.value != "" then detail.value else CreateFailed
    case Raised(message) => message
  }

  class CreateUserForm {
    var email: string
    var password: string
    var role: string
    var selected: seq<string>
    var actionError: string
    var actionSuccess: string

    constructor ()
      ensures email == "" && password == "" && role == "user" && selected == [] && actionError == "" && actionSuccess == ""
    {
      email := "";
      password := "";
      role := "user";
      selected := [];
      actionError := "";
      actionSuccess := "";
    }

    /** The three inputs of the form. */
    method Edit(newEmail: string, newPassword: string, newRole: string)
      modifies this
      ensures email == newEmail && password == newPassword && role == newRole
      ensures selected == old(selected) && actionError == old(actionError) && actionSuccess == old(actionSuccess)
    {
      email, password, role := newEmail, newPassword, newRole;
    }

    method ToggleProjectSelection(projectId: string)
      modifies this
      ensures selected == ToggledSelection(old(selected), projectId)
      ensures email == old(email) && password == old(password) && role == old(role)
      ensures actionError == old(actionError) && actionSuccess == old(actionSuccess)
    {
      if projectId in selected {
        selected := Without(selected, projectId);
      } else {
        selected := selected + [projectId];
      }
    }

    /**
     * `handleCreateUser`: both messages are cleared and the form is sent.
     * On success the success message names the e-mail and the form is
     * emptied except for the role; on failure only the error message changes.
     */
    method SubmitCreateUser(outcome: CreateOutcome) returns (request: UserCreate)
      modifies this
      ensures request == UserCreate(old(email), old(password), old(role), Some(old(selected)))
      ensures outcome.Created? ==>
        && actionSuccess == "User " + old(email) + " created successfully" && actionError == ""
        && email == "" && password == "" && selected == [] && role == old(role)
      ensures !outcome.Created? ==>
        && actionError == ErrorMessage(outcome) && actionSuccess == ""
        && email == old(email) && password == old(password) && selected == old(selected) && role == old(role)
    {
      actionError := "";
      actionSuccess := "";
      request := UserCreate(email, password, role, Some(selected));
      if outcome.Created? {
        actionSuccess := "User " + email + " created successfully";
        email := "";
        password := "";
        selected := [];
      } else {
        actionError := ErrorMessage(outcome);
      }
    }
  }

  // ---------------------------------------------------------------------------
  // Properties

  lemma {:induction false} WithoutAppend(a: seq<string>, b: seq<string>, x: string)
    ensures Without(a + b, x) == Without(a, x) + Without(b, x)
    decreases |a|
  {
    if a == [] {
      assert a + b == b;
    } else {
      var ab := a + b;
      assert ab[0] == a[0];
      assert ab[1..] == a[1..] + b;
      var head := if a[0] == x then [] else [a[0]];
      assert Without(ab, x) == head + Without(a[1..] + b, x);
      WithoutAppend(a[1..], b, x);
      assert Without(a, x) == head + Without(a[1..], x);
    }
  }

  /** Removing an id keeps every other id, and keeps the list as it is when the id is absent. */
  lemma {:induction false} WithoutKeeps(ids: seq<string>, x: string)
    ensures forall y :: y in Without(ids, x) <==> y in ids && y != x
    ensures x !in ids ==> Without(ids, x) == ids
    ensures forall y :: y != x ==> multiset(Without(ids, x))[y] == multiset(ids)[y]
    decreases |ids|
  {
    if ids != [] {
      WithoutKeeps(ids[1..], x);
      assert ids == [ids[0]] + ids[1..];
      var head := if ids[0] == x then [] else [ids[0]];
      assert Without(ids, x) == head + Without(ids[1..], x);
    }
  }

  /** A toggle changes the selection at one id only: it is selected afterwards exactly when it was not before. */
  lemma ToggleMembership(ids: seq<string>, x: string)
    ensures x in ToggledSelection(ids, x) <==> x !in ids
    ensures forall y :: y != x ==> (y in ToggledSelection(ids, x) <==> y in ids)
  {
    WithoutKeeps(ids, x);
  }

  /** Selecting a project and deselecting it again gives back the selection as it was. */
  lemma ToggleTwice(ids: seq<string>, x: string)
    requires x !in ids
    ensures ToggledSelection(ToggledSelection(ids, x), x) == ids
  {
    WithoutAppend(ids, [x], x);
    WithoutKeeps(ids, x);
    assert Without([x], x) == [];
  }

  /** The three labels never collide: "All Access" exactly for admins, "None" exactly for others without projects. */
  lemma AllowedLabelCases(user: User)
    ensures AllowedLabel(user) == "All Access" <==> user.role == "admin"
    ensures AllowedLabel(user) == "None" <==> user.role != "admin" && |user.allowedProjects| == 0
  {
    if user.role != "admin" && |user.allowedProjects| > 0 {
      var n := NatToString(|user.allowedProjects|);
      assert (n + " Projects")[0] == n[0];
      assert IsDigit(n[0]);
    }
  }

  /** The user the server stores from a submitted form is allowed on exactly the selected projects, in order. */
  lemma FormCreatesUser(email: string, password: string, role: string, selected: seq<string>,
                        hash: string -> string, now: Timestamp)
    ensures var u := Api.CreateUser(UserCreate(email, password, role, Some(selected)), false, hash, now);
      u.Ok? && u.value.allowedProjects == selected && u.value.role == role && u.value.email == email
  {
    Api.CreateUserShape(UserCreate(email, password, role, Some(selected)), false, hash, now);
  }
}
