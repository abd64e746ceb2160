/**
 * The administrators' user list: search and role filters, the profile update payload
 * with its read-only keys removed, and the role and delete actions, which need a
 * selected user.
 */
module UserManagement {
  import opened Wrappers
  import opened Seqs
  import opened Text

  datatype ManagedUser = ManagedUser(
    id: nat,
    firstName: string,
    lastName: string,
    email: string,
    role: seq<string>,
    isActive: bool,
    isSuperuser: bool)

  // ---------------------------------------------------------------- filters

  /** The lower-cased "first last" name or e-mail includes the lower-cased term. */
  predicate SearchMatches(term: string, u: ManagedUser)
  {
    Contains(Lower(u.firstName + " " + u.lastName), Lower(term)) || Contains(Lower(u.email), Lower(term))
  }

  /** "All" passes everyone; otherwise the user must hold exactly that role. */
  predicate RoleMatches(roleFilter: string, u: ManagedUser)
  {
    roleFilter == "All" || roleFilter in u.role
  }

  function SearchTest(term: string): ManagedUser -> bool
  {
    u => SearchMatches(term, u)
  }

  function RoleTest(roleFilter: string): ManagedUser -> bool
  {
    u => RoleMatches(roleFilter, u)
  }

  function BothTest(term: string, roleFilter: string): ManagedUser -> bool
  {
    u => SearchMatches(term, u) && RoleMatches(roleFilter, u)
  }

  /** `filteredUsers`: the search filter, then the role filter. */
  function FilteredUsers(users: seq<ManagedUser>, term: string, roleFilter: string): seq<ManagedUser>
  {
    Filter(Filter(users, SearchTest(term)), RoleTest(roleFilter))
  }

  /**
   * The filtered list is the order-preserving selection of the users matching both the
   * search and the role filter.
   */
  lemma FilteredUsersSpec(users: seq<ManagedUser>, term: string, roleFilter: string)
    ensures FilteredUsers(users, term, roleFilter) == Filter(users, BothTest(term, roleFilter))
    ensures IsSubsequence(FilteredUsers(users, term, roleFilter), users)
    ensures forall u :: u in FilteredUsers(users, term, roleFilter) <==>
                        u in users && SearchMatches(term, u) && RoleMatches(roleFilter, u)
  {
    FilterCompose(users, SearchTest(term), RoleTest(roleFilter), BothTest(term, roleFilter));
    FilterIsSubsequence(users, BothTest(term, roleFilter));
    forall u ensures u in FilteredUsers(users, term, roleFilter) <==>
                     u in users && SearchMatches(term, u) && RoleMatches(roleFilter, u) {
      FilterMember(users, BothTest(term, roleFilter), u);
    }
  }

  /** An empty search with the "All" role shows every user. */
  lemma NoFilterShowsAll(users: seq<ManagedUser>)
    ensures FilteredUsers(users, "", "All") == users
  {
    forall i | 0 <= i < |users| ensures SearchTest("")(users[i]) {
      ContainsEmpty(Lower(users[i].firstName + " " + users[i].lastName));
    }
    FilterKeepsAll(users, SearchTest(""));
    FilterKeepsAll(users, RoleTest("All"));
  }

  // ---------------------------------------------------------------- update payload

  /** The keys the serializer sends but the update does not accept. */
  const ReadOnlyKeys: set<string> :=
    {"role", "department_name", "city_name", "eventos_inscritos", "password", "document_type", "department", "city"}

  /**
   * `handleUpdateUser`'s payload: a copy of the edited user with the read-only keys
   * deleted one by one; every other key keeps its value.
   */
  method StripReadOnly<V>(updatedUser: map<string, V>) returns (payload: map<string, V>)
    ensures payload.Keys == updatedUser.Keys - ReadOnlyKeys
    ensures forall k :: k in payload ==> payload[k] == updatedUser[k]
  {
    payload := updatedUser;
    payload := payload - {"role"};
    payload := payload - {"department_name"};
    payload := payload - {"city_name"};
    payload := payload - {"eventos_inscritos"};
    payload := payload - {"password"};
    payload := payload - {"document_type"};
    payload := payload - {"department"};
    payload := payload - {"city"};
  }

  /** The payload never carries a password, a role or a foreign key sent as text. */
  lemma PayloadOmitsReadOnly<V>(updatedUser: map<string, V>, payload: map<string, V>)
    requires payload.Keys == updatedUser.Keys - ReadOnlyKeys
    ensures "password" !in payload && "role" !in payload
    ensures "document_type" !in payload && "department" !in payload && "city" !in payload
    ensures forall k :: k in updatedUser && k !in ReadOnlyKeys ==> k in payload
  {
  }

  // ---------------------------------------------------------------- requests

  /** `/users/{id}/`, relative to the API base. */
  function UserPath(id: nat): (r: string)
    ensures |r| >= 9 && r[..7] == "/users/" && r[|r| - 1] == '/'
  {
    "/users/" + DecimalString(id) + "/"
  }

  /** The id in a user path reads back as the user's id. */
  lemma UserPathId(id: nat)
    ensures var p := UserPath(id); ParseInt(p[7..|p| - 1]) == Some(id)
  {
    var p := UserPath(id);
    assert p[7..|p| - 1] == DecimalString(id);
    ParseIntOfDecimal(id);
  }

  datatype Request =
    | UpdateUser(path: string, payload: map<string, string>)
    | AssignRole(path: string, role: string)
    | DeleteUser(path: string)

  /** The page's selection state. */
  class UserAdmin {
    var selectedUser: Option<ManagedUser>
    var deleteModalOpen: bool

    constructor ()
      ensures selectedUser.None? && !deleteModalOpen
    {
      selectedUser := None;
      deleteModalOpen := false;
    }

    /** `handleDelete`: select a user and open the delete dialog. */
    method OpenDelete(u: ManagedUser)
      modifies this
      ensures selectedUser == Some(u) && deleteModalOpen
    {
      selectedUser := Some(u);
      deleteModalOpen := true;
    }

    /** `handleUpdateRole`: nothing without a selected user. */
    method UpdateRole(role: string) returns (request: Option<Request>)
      ensures request.None? <==> selectedUser.None?
      ensures request.Some? ==>
                request.value == AssignRole(UserPath(selectedUser.value.id) + "assign-role/", role)
    {
      if selectedUser.None? {
        return None;
      }
      request := Some(AssignRole(UserPath(selectedUser.value.id) + "assign-role/", role));
    }

    /**
     * `handleDeleteUser`, with whether the server accepted as an input: nothing without a
     * selected user; the dialog closes only after an accepted delete.
     */
    method DeleteSelected(accepted: bool) returns (request: Option<Request>)
      modifies this
      ensures request.None? <==> old(selectedUser).None?
      ensures request.Some? ==> request.value == DeleteUser(UserPath(old(selectedUser).value.id))
      ensures deleteModalOpen == (old(deleteModalOpen) && !(request.Some? && accepted))
      ensures selectedUser == old(selectedUser)
    {
      if selectedUser.None? {
        return None;
      }
      request := Some(DeleteUser(UserPath(selectedUser.value.id)));
      if accepted {
        deleteModalOpen := false;
      }
    }
  }

  /** `handleUpdateUser`: the PATCH of the stripped payload to the edited user's path. */
  method UpdateRequest(id: nat, updatedUser: map<string, string>) returns (request: Request)
    ensures request.UpdateUser? && request.path == UserPath(id)
    ensures request.payload.Keys == updatedUser.Keys - ReadOnlyKeys
    ensures forall k :: k in request.payload ==> request.payload[k] == updatedUser[k]
  {
    var payload := StripReadOnly(updatedUser);
    request := UpdateUser(UserPath(id), payload);
  }
}
