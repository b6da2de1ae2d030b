/** The admin user list: only customer accounts are listed, a search by id
    or by part of the user name narrows the list, and a confirmed removal
    reloads it. */
module AdminUsers {
  import opened Wrappers
  import opened JavaText
  import opened Records
  import opened Notices
  import opened Lists

  const NoMatches: string := "No matching users found."
  const UserRemoved: string := "User removed successfully."
  const RemoveFailed: string := "Failed to remove user."

  /** The users loadUsers keeps: every non-admin, in the service's order. */
  function NonAdmins(users: seq<User>): seq<User>
  {
    Filter(users, (u: User) => !u.isAdmin)
  }

  /** The test filterUsers applies to the (already lowercased) query: the
      decimal id is the query, or the lowercased user name contains it. */
  predicate UserMatches(u: User, query: string)
  {
    IntToString(u.id) == query || Contains(Lower(u.username), query)
  }

  function FilterUsers(users: seq<User>, query: string): seq<User>
  {
    Filter(users, (u: User) => UserMatches(u, query))
  }

  /** loadUsers lists exactly the non-admin users, in their order. */
  lemma NonAdminsExactly(users: seq<User>)
    ensures forall u :: u in NonAdmins(users) <==> u in users && !u.isAdmin
    ensures IsSubsequence(NonAdmins(users), users)
  {
    FilterIsSubsequence(users, (u: User) => !u.isAdmin);
  }

  /** filterUsers keeps exactly the matching users, in their order. */
  lemma FilterUsersExactly(users: seq<User>, query: string)
    ensures forall u :: u in FilterUsers(users, query) <==> u in users && UserMatches(u, query)
    ensures IsSubsequence(FilterUsers(users, query), users)
  {
    FilterIsSubsequence(users, (u: User) => UserMatches(u, query));
  }

  /** A user always matches the decimal form of their id, and the user
      name in any mix of upper and lower case. */
  lemma UserMatchesOwnIdAndName(u: User)
    ensures UserMatches(u, IntToString(u.id))
    ensures UserMatches(u, Lower(u.username))
  {
    var name := Lower(u.username);
    assert name[0..] == name;
    ContainsAt(name, name);
  }

  class AdminManageUsersController {
    var allUsers: seq<User>
    /** The users the table shows. */
    var shown: seq<User>

    /** initialize: loads the users. */
    constructor (fetched: seq<User>)
      ensures allUsers == NonAdmins(fetched) && shown == allUsers
    {
      allUsers := NonAdmins(fetched);
      shown := allUsers;
    }

    /** loadUsers: keeps the non-admins of what the user service returns
        and shows them. */
    method LoadUsers(fetched: seq<User>)
      modifies this
      ensures allUsers == NonAdmins(fetched) && shown == allUsers
    {
      allUsers := NonAdmins(fetched);
      shown := allUsers;
    }

    /** handleSearchUser: the trimmed, lowercased query; an empty one shows
        every loaded user; one that matches nobody shows an error and leaves
        the table as it was. */
    method HandleSearchUser(searchText: string) returns (notice: Option<Notice>)
      modifies this`shown
      ensures var query := Lower(Trim(searchText));
              && (query == [] ==> notice == None && shown == allUsers)
              && (query != [] && FilterUsers(allUsers, query) == [] ==>
                    notice == Some(Error("Search Error", NoMatches)) && shown == old(shown))
              && (query != [] && FilterUsers(allUsers, query) != [] ==>
                    notice == None && shown == FilterUsers(allUsers, query))
    {
      var query := Lower(Trim(searchText));
      if query == [] {
        shown := allUsers;
        return None;
      }
      var filtered := FilterUsers(allUsers, query);
      if filtered == [] {
        notice := Some(Error("Search Error", NoMatches));
      } else {
        notice := None;
        shown := filtered;
      }
    }

    /** handleRemoveUser, after the confirmation dialog: without
        confirmation nothing happens; otherwise the user's id goes to the
        delete call (deleteSucceeds is its answer) and a successful delete
        reloads the list from what the service then returns. */
    method HandleRemoveUser(user: User, confirmed: bool, deleteSucceeds: bool, fetched: seq<User>)
      returns (deleteRequested: Option<int>, notice: Option<Notice>)
      modifies this
      ensures deleteRequested == (if confirmed then Some(user.id) else None)
      ensures !confirmed ==> notice == None
      ensures confirmed && deleteSucceeds ==>
                notice == Some(Alert("Success", UserRemoved))
                && allUsers == NonAdmins(fetched) && shown == allUsers
      ensures confirmed && !deleteSucceeds ==> notice == Some(Error("Error", RemoveFailed))
      ensures !(confirmed && deleteSucceeds) ==> allUsers == old(allUsers) && shown == old(shown)
    {
      if !confirmed {
        return None, None;
      }
      deleteRequested := Some(user.id);
      if deleteSucceeds {
        notice := Some(Alert("Success", UserRemoved));
        LoadUsers(fetched);
      } else {
        notice := Some(Error("Error", RemoveFailed));
      }
    }
  }
}
