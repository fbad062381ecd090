/**
 * The admin dashboard (src/pages/AdminDashboard.jsx): the admin check and
 * user fetch on mount with the redirects they cause, the user search, and
 * the posts of the selected user.
 */
module AdminDashboard {
  import opened Js
  import opened Text
  import opened Seqs
  import opened Records
  import opened Auth
  import BlogCard

  /** Split so that proofs can see it has no 'A'. */
  const InvalidFormat := "Invalid response " + "format from server"
  const FetchUsersFailed := "Failed to fetch users"
  /** The phrase whose presence in an error message sends the visitor home. */
  const Denied := "Access denied"
  const HomePath := "/"
  const LoginPath := "/login"
  /**
   * What `error.message.includes(...)` throws when the caught value has no
   * `message` (engine-dependent text), split so that proofs can see it has no 'A'.
   */
  const UndefinedIncludesMessage :=
    "Cannot " + "read " + "properties " + "of " + "undefined " + "(reading " + "'includes')"

  // ---------------------------------------------------------------------
  // Search
  // ---------------------------------------------------------------------

  predicate UserMatches(u: User, query: string) {
    FieldMatches(FieldOf(u.fname), query) || FieldMatches(FieldOf(u.lname), query) || FieldMatches(FieldOf(u.email), query)
  }

  /** `filteredUsers`: the users with a first name, last name or email containing the query, any case. */
  function FilteredUsers(users: seq<User>, query: string): (r: seq<User>)
    ensures IsSubsequence(r, users)
    ensures forall u :: u in r <==> u in users && UserMatches(u, query)
    ensures forall u :: multiset(r)[u] == if UserMatches(u, query) then multiset(users)[u] else 0
  {
    Filter(users, u => UserMatches(u, query))
  }

  /** The empty query keeps exactly the users that have at least one of the three fields. */
  lemma EmptyQueryKeepsUsersWithAField(users: seq<User>)
    ensures forall u :: u in FilteredUsers(users, "") <==>
      u in users && (u.fname.Str? || u.lname.Str? || u.email.Str?)
  {
    forall u ensures UserMatches(u, "") <==> u.fname.Str? || u.lname.Str? || u.email.Str? {
      FieldMatchesEmpty(FieldOf(u.fname));
      FieldMatchesEmpty(FieldOf(u.lname));
      FieldMatchesEmpty(FieldOf(u.email));
    }
  }

  /** When every user has an email, the empty query lists them all, in order. */
  lemma EmptyQueryListsEveryone(users: seq<User>)
    requires forall i :: 0 <= i < |users| ==> users[i].email.Str?
    ensures FilteredUsers(users, "") == users
  {
    forall i | 0 <= i < |users| ensures UserMatches(users[i], "") {
      FieldMatchesEmpty(FieldOf(users[i].email));
    }
    FilterKeepsAll(users, u => UserMatches(u, ""));
  }

  /** The search ignores the case of the query. */
  lemma SearchIgnoresQueryCase(users: seq<User>, query: string)
    ensures FilteredUsers(users, Lower(query)) == FilteredUsers(users, query)
  {
    forall i | 0 <= i < |users| ensures UserMatches(users[i], Lower(query)) == UserMatches(users[i], query) {
      FieldMatchesLowerQuery(FieldOf(users[i].fname), query);
      FieldMatchesLowerQuery(FieldOf(users[i].lname), query);
      FieldMatchesLowerQuery(FieldOf(users[i].email), query);
    }
    FilterAgreeing(users, u => UserMatches(u, Lower(query)), u => UserMatches(u, query));
  }

  // ---------------------------------------------------------------------
  // Mount: admin check, then the user list
  // ---------------------------------------------------------------------

  /** Where the `catch` of the mount effect navigates for an error message. */
  function RedirectFor(message: string): (r: Navigation)
    ensures r == Go(HomePath) <==> Includes(message, Denied)
    ensures r == Go(LoginPath) <==> !Includes(message, Denied)
  {
    Go(if Includes(message, Denied) then HomePath else LoginPath)
  }

  /**
   * The navigation the mount effect makes: `checkAdmin()` failing goes
   * through the outer `catch`; a failed user fetch navigates home when its
   * message mentions access denial, and one with no `message` makes
   * `error.message.includes` throw into the outer `catch`.
   */
  function InitNavigation(info: Option<AuthInfo>, response: Outcome<Payload<User>>): (r: Option<Navigation>)
    ensures r.Some? ==> r.value == Go(HomePath) || r.value == Go(LoginPath)
    ensures r.None? ==> info.Some? && info.value.role == Some(AdminRole)
  {
    match CheckAdmin(info)
    case Fail(t) => if MessageOf(t).Some? then Some(RedirectFor(MessageOf(t).value)) else None
    case Ok(_) =>
      match response
      case Ok(_) => None
      case Fail(t) =>
        match MessageOf(t)
        case Some(m) => if Includes(m, Denied) then Some(Go(HomePath)) else None
        case None => Some(RedirectFor(UndefinedIncludesMessage))
  }

  /** A signed-in visitor who is not an admin is sent home. */
  lemma NonAdminSentHome(info: AuthInfo, response: Outcome<Payload<User>>)
    requires info.role != Some(AdminRole)
    ensures InitNavigation(Some(info), response) == Some(Go(HomePath))
  {
    IncludesPrefix(Denied, ": Admin privileges required");
  }

  /** A visitor with no session is sent to the login page. */
  lemma NoSessionSentToLogin(response: Outcome<Payload<User>>)
    ensures InitNavigation(None, response) == Some(Go(LoginPath))
  {
    NullSessionMessageNotDenied();
  }

  /** The error thrown for a missing session does not mention access denial. */
  lemma NullSessionMessageNotDenied()
    ensures !Includes(NullAuthInfoMessage, Denied)
  {
    var before := "Cannot " + "destructure " + "property " + "'role' " + "of 'get";
    var after := "uthInfo(...)' " + "as it is null.";
    assert NullAuthInfoMessage == before + [Denied[0]] + after;
    FirstCharOnlyOnce(before, after, Denied);
  }

  /**
   * The user fetch rejects with a bare string; it has no `message`, so an
   * admin whose fetch fails is sent to the login page.
   */
  lemma FailedFetchSendsAdminToLogin(info: AuthInfo, text: string)
    requires info.role == Some(AdminRole)
    ensures InitNavigation(Some(info), Fail(ErrStr(text))) == Some(Go(LoginPath))
  {
    FirstCharAbsent(UndefinedIncludesMessage, Denied);
  }

  /** An admin whose fetch succeeds stays on the dashboard. */
  lemma AdminWithUsersStays(info: AuthInfo, payload: Payload<User>)
    requires info.role == Some(AdminRole)
    ensures InitNavigation(Some(info), Ok(payload)) == None
  {
  }

  // ---------------------------------------------------------------------
  // Cards of the selected user's posts
  // ---------------------------------------------------------------------

  /** The `author` object attached to each post before it is handed to a card. */
  datatype AuthorInfo = AuthorInfo(id: Id, name: string, email: Prop)

  /** `${user.fname} ${user.lname}`: a missing part prints as "undefined", a null one as "null". */
  function DisplayName(u: User): (r: string)
    ensures u.fname.Str? && u.lname.Str? ==> r == u.fname.value + " " + u.lname.value
    ensures u.fname == Undefined ==> r == "undefined " + TemplateText(u.lname)
    ensures u.fname == Null ==> r == "null " + TemplateText(u.lname)
    ensures u.lname == Undefined ==> r == TemplateText(u.fname) + " undefined"
    ensures u.lname == Null ==> r == TemplateText(u.fname) + " null"
  {
    TemplateText(u.fname) + " " + TemplateText(u.lname)
  }

  /** A post as handed to a dashboard card, with its attached author. */
  datatype AuthoredPost = AuthoredPost(post: Post, author: AuthorInfo)

  /** `userPosts.map(post => ({ ...post, author: {...} }))` for the selected user. */
  function AuthoredPosts(posts: seq<Post>, u: User): (r: seq<AuthoredPost>)
    ensures |r| == |posts|
    ensures forall i :: 0 <= i < |r| ==>
      r[i].post == posts[i] && r[i].author.id == u.id && r[i].author.email == u.email
      && r[i].author.name == DisplayName(u)
  {
    seq(|posts|, i requires 0 <= i < |posts| => AuthoredPost(posts[i], AuthorInfo(u.id, DisplayName(u), u.email)))
  }

  /** A card on the dashboard always opens the post's manage route. */
  lemma DashboardCardsOpenManageRoute(pathname: string, p: Post)
    ensures BlogCard.ClickRoute(pathname, BlogCard.Manage, p.id) == "/post/" + p.id
  {
  }

  /** What the user list shows. */
  datatype UserListView = Spinner | NoUsersFound | UserButtons(users: seq<User>)

  function UserListOf(isLoading: bool, users: seq<User>, query: string): (r: UserListView)
    ensures r == Spinner <==> isLoading
    ensures r == NoUsersFound <==> !isLoading && FilteredUsers(users, query) == []
    ensures r.UserButtons? ==> r.users == FilteredUsers(users, query) && r.users != []
  {
    if isLoading then Spinner
    else
      var shown := FilteredUsers(users, query);
      if shown == [] then NoUsersFound else UserButtons(shown)
  }

  /** The dashboard's state. */
  class Dashboard {
    var users: seq<User>
    var selectedUser: Option<User>
    var userPosts: seq<Post>
    var isLoading: bool
    var error: Field
    var searchQuery: string

    constructor ()
      ensures users == [] && selectedUser == None && userPosts == [] && !isLoading
      ensures error == Some("") && searchQuery == ""
    {
      users := [];
      selectedUser := None;
      userPosts := [];
      isLoading := false;
      error := Some("");
      searchQuery := "";
    }

    /** The user list as rendered. */
    function UserList(): UserListView
      reads this
    {
      UserListOf(isLoading, users, searchQuery)
    }

    /** The search input's `onChange`. */
    method SetSearchQuery(text: string)
      modifies this`searchQuery
      ensures searchQuery == text
    {
      searchQuery := text;
    }

    /** A user button's `onClick`. */
    method SelectUser(u: User)
      modifies this`selectedUser
      ensures selectedUser == Some(u)
    {
      selectedUser := Some(u);
    }

    /**
     * `fetchUsers()`, with `response` the settled `getAllUsers` call.
     * Returns the navigation made and what escaped the `catch`, if anything.
     */
    method FetchUsers(response: Outcome<Payload<User>>) returns (nav: Option<Navigation>, escaped: Option<Thrown>)
      modifies this`users, this`isLoading, this`error
      ensures !isLoading
      ensures response.Ok? && response.value.List? ==>
        users == response.value.items && error == Some("") && nav == None && escaped == None
      ensures response.Ok? && response.value.NotList? ==>
        users == old(users) && error == Some(InvalidFormat) && nav == None && escaped == None
      ensures response.Fail? ==>
        users == old(users) && error == Some(OrElse(MessageOf(response.thrown), FetchUsersFailed))
      ensures response.Fail? && MessageOf(response.thrown).None? ==>
        nav == None && escaped == Some(NewError(UndefinedIncludesMessage))
      ensures response.Fail? && MessageOf(response.thrown).Some? ==>
        escaped == None
        && nav == (if Includes(MessageOf(response.thrown).value, Denied) then Some(Go(HomePath)) else None)
    {
      isLoading := true;
      error := Some("");
      nav, escaped := None, None;
      var caught: Option<Thrown> := None;
      match response {
        case Ok(data) =>
          if data.NotList? {
            FirstCharAbsent(InvalidFormat, Denied);
            caught := Some(NewError(InvalidFormat));
          } else {
            users := data.items;
          }
        case Fail(t) =>
          caught := Some(t);
      }
      if caught.Some? {
        var message := MessageOf(caught.value);
        error := Some(OrElse(message, FetchUsersFailed));
        if message.None? {
          escaped := Some(NewError(UndefinedIncludesMessage));
        } else if Includes(message.value, Denied) {
          nav := Some(Go(HomePath));
        }
      }
      isLoading := false;
    }

    /**
     * The mount effect: `info` is what `checkAdmin` reads from the store and
     * `response` the settled `getAllUsers` call (made only for an admin).
     */
    method Initialize(info: Option<AuthInfo>, response: Outcome<Payload<User>>) returns (nav: Option<Navigation>)
      modifies this`users, this`isLoading, this`error
      ensures nav == InitNavigation(info, response)
      ensures CheckAdmin(info).Fail? ==>
        users == old(users) && isLoading == old(isLoading) && error == MessageOf(CheckAdmin(info).thrown)
      ensures CheckAdmin(info).Ok? ==> !isLoading
      ensures CheckAdmin(info).Ok? && response.Ok? && response.value.List? ==>
        users == response.value.items && error == Some("")
      ensures CheckAdmin(info).Ok? && response.Ok? && response.value.NotList? ==>
        users == old(users) && error == Some(InvalidFormat)
      ensures CheckAdmin(info).Ok? && response.Fail? && MessageOf(response.thrown).Some? ==>
        users == old(users) && error == Some(OrElse(MessageOf(response.thrown), FetchUsersFailed))
      ensures CheckAdmin(info).Ok? && response.Fail? && MessageOf(response.thrown).None? ==>
        users == old(users) && error == Some(UndefinedIncludesMessage)
    {
      var check := CheckAdmin(info);
      var thrown: Option<Thrown> := None;
      if check.Fail? {
        thrown := Some(check.thrown);
      } else {
        var inner;
        nav, inner := FetchUsers(response);
        thrown := inner;
      }
      if thrown.Some? {
        var message := MessageOf(thrown.value);
        error := message;
        nav := if message.Some? then Some(RedirectFor(message.value)) else None;
      }
    }

    /**
     * The effect on `selectedUser`, with `response` the settled
     * `getPostsOfUser` call. Returns whose posts were asked for.
     */
    method FetchUserPosts(response: Outcome<Payload<Post>>) returns (requested: Option<Id>)
      modifies this`userPosts, this`isLoading, this`error
      ensures selectedUser.None? ==>
        requested == None && userPosts == old(userPosts) && isLoading == old(isLoading) && error == old(error)
      ensures selectedUser.Some? ==> requested == Some(selectedUser.value.id) && !isLoading
      ensures selectedUser.Some? && response.Ok? ==>
        userPosts == ListOrEmpty(response.value) && error == Some("")
      ensures selectedUser.Some? && response.Fail? ==>
        userPosts == [] && error == MessageOf(response.thrown)
    {
      if selectedUser.None? {
        return None;
      }
      requested := Some(selectedUser.value.id);
      isLoading := true;
      error := Some("");
      match response {
        case Ok(posts) =>
          userPosts := ListOrEmpty(posts);
        case Fail(t) =>
          error := MessageOf(t);
          userPosts := [];
      }
      isLoading := false;
    }
  }
}
