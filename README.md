# Blogging client: component rules and state machines

This project models the logic of a React client for a REST blogging API.
It covers the auth-token store, the post card, the comment thread, the
post editor, the owner's post page, the admin dashboard, the public and
personal post lists, the read-only post view, the sign-in and sign-up
forms, and the navigation bar. It proves properties of that model in Dafny.

The client holds no data of its own beyond component state, and every call
to the server is an `Outcome`: a result, or the value it threw. The value
thrown is either an error object with optional `message` and `error`
properties, or a bare string. Most network helpers rethrow `error.message`
as a bare string, and a bare string has no `message`. Each handler is modelled as one atomic step
that takes the settled outcomes of its server calls as inputs.

Modules, one per source file plus four shared ones:

- `Js`: optional string properties (`Field`), truthiness, `a || b`
  fallbacks, thrown values, outcomes and `Array.isArray`.
- `Text`: ASCII `toLowerCase`, `trim`, `includes`, `startsWith`.
- `Seqs`: order-preserving sub-lists and `filter`.
- `Records`: the post, comment, user and API-result records.
- `Auth` (`src/utils/auth.js`), `BlogCard`, `Comments`, `TiptapEditor`,
  `PostContent`, `CreatePost`, `ManagePostPage`, `AdminDashboard`,
  `Explore`, `AllPosts`, `Login`, `Register`, `Navbar`.

Stateful components are classes. Each field is one piece of React state, and
each handler is a method that names the fields it changes. The pure rules
(fallback chains, tag stripping, slugs, search filters, redirect choices)
are functions, with lemmas relating them.

## Model

| member | source | states |
|---|---|---|
| Text.Trim | src/components/Comments.jsx:15 | `trim` never lengthens the text, and a non-empty result neither starts nor ends with white space |
| Text.TrimEmptyIffAllSpace | src/components/Comments.jsx:15 | `!s.trim()` holds exactly when `s` is made only of white space |
| Text.Includes | src/pages/AdminDashboard.jsx:47 | `includes` can be true only when the query fits in the text, and is always true for the empty query |
| Text.IncludesIff | src/pages/AdminDashboard.jsx:77-79 | `includes` is true exactly when the query occurs at some index |
| Text.FieldMatchesEmpty | src/pages/AdminDashboard.jsx:77-79 | an optional-chained `includes("")` is true exactly for a present property |
| Text.FieldMatchesLowerQuery | src/pages/Explore.jsx:32-34 | lower-casing the query first changes no match |
| Seqs.Filter | src/pages/Explore.jsx:31-35 | `filter` keeps, in order, exactly the accepted elements, each as many times as it occurs in the input; nothing else |
| Auth.AuthInfoOf | src/utils/auth.js:3-29 | a session exists iff the slot holds a non-empty token that decodes to claims with an id; it then copies the token and the id, role, username and names, and the id is non-empty |
| Auth.SlotAfterRead | src/utils/auth.js:3-29 | reading keeps the slot, except that a present token which yields no session is removed |
| Auth.ReadIsStable | src/utils/auth.js:3-29 | a second read returns the same session and leaves the slot as the first read left it |
| Auth.CheckAdmin | src/utils/auth.js:41-47 | succeeds (with true) iff the role is "admin"; a non-admin gets the access-denied error, no session gets the null-destructuring error |
| Auth.TokenStore.GetAuthInfo | src/utils/auth.js:3-29 | returns `AuthInfoOf` of the slot and leaves the slot as `SlotAfterRead` says |
| Auth.TokenStore.SetAuthToken | src/utils/auth.js:31-35 | stores only a non-empty token; otherwise the slot is unchanged |
| Auth.TokenStore.RemoveAuthToken | src/utils/auth.js:37-39 | the slot is empty afterwards |
| Auth.TokenStore.CheckAdminNow | src/utils/auth.js:41-47 | `checkAdmin` is the role test over the session read from the store |
| BlogCard.CoverImage | src/components/BlogCard.jsx:40-42 | `image_url` if non-empty, else `image` if non-empty, else the fixed default URL; never empty |
| BlogCard.StripTags | src/components/BlogCard.jsx:46 | the global replace of `<[^>]+>` by "" never lengthens the text; the lemmas below fix what it deletes |
| BlogCard.StripAllHtmlTags | src/components/BlogCard.jsx:44-47 | "" for an absent or empty input; otherwise an order-preserving sub-sequence of the input, never longer |
| BlogCard.StripTagsSubsequence | src/components/BlogCard.jsx:46 | the stripped text is the input with characters deleted, order kept |
| BlogCard.StripTagsNoLt | src/components/BlogCard.jsx:46 | a string with no '<' is returned unchanged |
| BlogCard.StripTagsNoGt | src/components/BlogCard.jsx:46 | a string with no '>' is returned unchanged, so an unclosed '<' survives |
| BlogCard.StripTagsRemovesTag | src/components/BlogCard.jsx:46 | a '<', one or more non-'>' characters and a '>' are deleted as a whole |
| BlogCard.StripTagsKeepsEmptyBrackets | src/components/BlogCard.jsx:46 | "<>" is not a tag and both characters survive |
| BlogCard.StripTagsLeavesNoTags | src/components/BlogCard.jsx:46 | no tag starts anywhere in the stripped text |
| BlogCard.StripTagsIdempotent | src/components/BlogCard.jsx:46 | stripping the stripped text changes nothing |
| BlogCard.Truncate | src/components/BlogCard.jsx:52 | text of at most 80 characters is kept; longer text becomes its first 80 characters and "..."; the result has at most 83 |
| BlogCard.PreviewText | src/components/BlogCard.jsx:49-59 | at most 83 characters, and "" when description, excerpt and content are all empty |
| BlogCard.PreviewFromFirstSource | src/components/BlogCard.jsx:49-59 | the preview is the truncated stripped text of the first non-empty of description, excerpt, content |
| BlogCard.ShortPlainDescriptionShownVerbatim | src/components/BlogCard.jsx:50-52 | a description with no '<' and at most 80 characters is the preview itself |
| BlogCard.ClickRoute | src/components/BlogCard.jsx:30-38 | "/post/"+id iff the path contains "/dashboard" or the variant is manage; "/view/"+id otherwise |
| BlogCard.CardHover.MouseEnter | src/components/BlogCard.jsx:16-21 | sets the hover flag and passes the post id to a given callback |
| BlogCard.CardHover.MouseLeave | src/components/BlogCard.jsx:23-28 | clears the hover flag and calls a given callback |
| Comments.ReplaceById | src/components/Comments.jsx:34-36 | same length; exactly the comments with the id become the server's comment, the rest are kept in place |
| Comments.RemoveById | src/components/Comments.jsx:49 | an order-preserving sub-list holding exactly the comments with another id; its length drops by the number removed |
| Comments.RemoveAbsentId | src/components/Comments.jsx:49 | removing an id no comment has changes nothing |
| Comments.ReplaceAbsentId | src/components/Comments.jsx:34-36 | replacing by an id no comment has changes nothing |
| Comments.VisibleControls | src/components/Comments.jsx:134-149 | edit iff a viewer is present, owns the comment and is not editing it; delete iff edit and the role is "admin"; delete implies edit |
| Comments.AdminNeedsOwnership | src/components/Comments.jsx:134-142 | an admin who does not own a comment gets no control over it |
| Comments.CommentThread.constructor | src/components/Comments.jsx:5-11 | the thread starts with the given comments and empty input, error and edit session |
| Comments.CommentThread.SubmitDisabled | src/components/Comments.jsx:83 | the post button is disabled exactly while submitting or while the comment is only white space |
| Comments.CommentThread.TypeComment | src/components/Comments.jsx:73 | the textarea sets the new-comment text |
| Comments.CommentThread.SubmitComment | src/components/Comments.jsx:13-29 | a blank comment sends nothing and changes nothing; success appends the server's comment and clears the input; failure sets the message or "Failed to post comment" and keeps the list; submitting ends false |
| Comments.CommentThread.StartEditing | src/components/Comments.jsx:55-58 | the edit id and text become the comment's |
| Comments.CommentThread.TypeEdit | src/components/Comments.jsx:106 | the edit textarea sets the edit text |
| Comments.CommentThread.CancelEditing | src/components/Comments.jsx:60-63 | the edit id and text are reset |
| Comments.CommentThread.EditComment | src/components/Comments.jsx:31-42 | success replaces by id and ends the edit session; failure keeps list and session and sets the message or "Failed to update comment" |
| Comments.CommentThread.DeleteComment | src/components/Comments.jsx:44-53 | declining changes nothing; success removes by id; failure keeps the list and sets the message or "Failed to delete comment" |
| TiptapEditor.InitialContent | src/components/TiptapEditor.jsx:58 | `initialContent` when non-empty, else the placeholder paragraph; never empty |
| TiptapEditor.CollapseSpaces | src/components/TiptapEditor.jsx:122 | no white space remains, the text never grows, and no upper-case letter is introduced |
| TiptapEditor.CollapseWithoutSpaces | src/components/TiptapEditor.jsx:122 | text without white space is unchanged |
| TiptapEditor.CollapseChar | src/components/TiptapEditor.jsx:122 | a leading character that is not white space is copied unchanged |
| TiptapEditor.CollapseRunThenWord | src/components/TiptapEditor.jsx:122 | a white-space run followed by a word becomes '-' and the word |
| TiptapEditor.CollapseWord | src/components/TiptapEditor.jsx:122 | a leading word without white space is copied unchanged |
| TiptapEditor.CollapseRun | src/components/TiptapEditor.jsx:122 | a maximal white-space run of any length becomes one '-' |
| TiptapEditor.CollapseTwoWords | src/components/TiptapEditor.jsx:122 | two words separated by any white-space run are joined by a single '-' |
| TiptapEditor.Slug | src/components/TiptapEditor.jsx:122 | the slug has no white space and no upper-case letter and is no longer than the text |
| TiptapEditor.AddLink | src/components/TiptapEditor.jsx:112-125 | an active link is removed and nothing else happens; empty text adds nothing; otherwise the href is "https://example.com/" + the slug |
| TiptapEditor.ImageUploader.HandleImageUpload | src/components/TiptapEditor.jsx:80-102 | no file does nothing; a non-image type alerts and leaves the flag; an image starts a read and disables the image button |
| TiptapEditor.ImageUploader.ReaderLoad | src/components/TiptapEditor.jsx:92-96 | the data URL is inserted after earlier images and the image button is enabled again |
| TiptapEditor.ImageUploader.ReaderError | src/components/TiptapEditor.jsx:97-100 | alerts "Error reading file" and enables the image button again |
| CreatePost.MountRedirect | src/pages/CreatePost.jsx:25-31 | navigates to /login iff no non-empty token is stored |
| CreatePost.PublishCheck | src/pages/CreatePost.jsx:60-69 | a title of only white space gets the title message, checked first; otherwise empty or placeholder content gets the content message; otherwise the post may be sent |
| CreatePost.UntouchedEditorRefused | src/pages/CreatePost.jsx:66 | the editor's starting content and an unreported content are both refused |
| CreatePost.PublishFailure | src/pages/CreatePost.jsx:81-86 | the auth-required `error` leads to /login; any other failure shows its `error` or "Failed to create post" |
| CreatePost.BareStringFailureShowsGenericMessage | src/pages/CreatePost.jsx:81-86 | a bare-string rejection never reaches /login and always shows "Failed to create post" |
| CreatePost.CreatePostForm.constructor | src/pages/CreatePost.jsx:16-22 | the form starts empty, not loading, without error or success |
| CreatePost.CreatePostForm.SetTitle | src/pages/CreatePost.jsx:147 | the title input sets the title |
| CreatePost.CreatePostForm.SetContent | src/pages/CreatePost.jsx:184 | the editor's update sets the content |
| CreatePost.CreatePostForm.HandleImageUpload | src/pages/CreatePost.jsx:33-44 | a chosen file becomes the image and a read starts; no file leaves the image unchanged |
| CreatePost.CreatePostForm.ReaderLoadEnd | src/pages/CreatePost.jsx:39-41 | the reader's result becomes the preview: the data URL, or null after a failed read |
| CreatePost.CreatePostForm.RemoveImage | src/pages/CreatePost.jsx:46-49 | clears the image and the preview only |
| CreatePost.CreatePostForm.ResetForm | src/pages/CreatePost.jsx:51-58 | title, content, image, preview, success and error return to their initial values |
| CreatePost.CreatePostForm.HandlePublish | src/pages/CreatePost.jsx:60-90 | a failed check sends nothing and sets its message; otherwise sends the untrimmed title, the content as description and the chosen image and ends with the publish button enabled; success sets success, failure follows `PublishFailure`; nothing depends on the loading flag |
| PostContent.DisplayedContent | src/components/PostContent.jsx:16 | the first non-empty of content, description, "" |
| PostContent.AuthorLine | src/components/PostContent.jsx:29 | "fname lname" when both are non-empty, else `author` if non-empty, else "Unknown Author" |
| PostContent.Render | src/components/PostContent.jsx:8-45 | nothing for a null post; otherwise the author line, the card's cover fallback and the displayed content, never editable |
| PostContent.PageAndCardPreferDifferentFields | src/components/PostContent.jsx:16 | the page shows `content` while the card previews `description` |
| ManagePostPage.CommentsViewer | src/pages/ManagePostPage.jsx:22 | with a session the thread's `user` is always undefined; without one the render throws |
| ManagePostPage.NoCommentControlsOnManagePage | src/pages/ManagePostPage.jsx:141 | no comment on this page offers edit or delete |
| ManagePostPage.ViewOf | src/pages/ManagePostPage.jsx:77-143 | loading first, then a non-empty error, then a missing post renders nothing, then the edit form or the post |
| ManagePostPage.EditorStart | src/pages/ManagePostPage.jsx:97 | the edit editor starts from the form's description, or the placeholder when it is empty |
| ManagePostPage.ManagePostPage.constructor | src/pages/ManagePostPage.jsx:15-20 | no post, loading, no error or comments, not editing, empty form |
| ManagePostPage.ManagePostPage.Load | src/pages/ManagePostPage.jsx:24-41 | a loaded post is kept even when the comments then fail; any failure sets the message or "Failed to fetch post" and shows the error view; loading ends false |
| ManagePostPage.ManagePostPage.HandleEdit | src/pages/ManagePostPage.jsx:53-59 | enters edit mode with the post title and the content the page displays |
| ManagePostPage.ManagePostPage.SetEditTitle | src/pages/ManagePostPage.jsx:90 | changes only the form's title |
| ManagePostPage.ManagePostPage.SetEditDescription | src/pages/ManagePostPage.jsx:96 | changes only the form's description |
| ManagePostPage.ManagePostPage.HandleUpdate | src/pages/ManagePostPage.jsx:61-70 | sends the form; success replaces the post wholesale, leaves edit mode and empties the form; failure changes nothing and alerts |
| ManagePostPage.ManagePostPage.HandleCancel | src/pages/ManagePostPage.jsx:72-75 | leaves edit mode and empties the form without touching the post |
| ManagePostPage.ManagePostPage.HandleDelete | src/pages/ManagePostPage.jsx:43-51 | only after confirmation; success goes to /dashboard/posts, failure alerts; no state changes |
| AdminDashboard.FilteredUsers | src/pages/AdminDashboard.jsx:76-80 | an order-preserving sub-list of exactly the users whose fname, lname or email is a string containing the query, ignoring case, each kept as often as it occurs |
| AdminDashboard.EmptyQueryKeepsUsersWithAField | src/pages/AdminDashboard.jsx:76-80 | the empty query keeps exactly the users with at least one of the three fields |
| AdminDashboard.EmptyQueryListsEveryone | src/pages/AdminDashboard.jsx:76-80 | when all users have an email the empty query lists them all, in order |
| AdminDashboard.SearchIgnoresQueryCase | src/pages/AdminDashboard.jsx:76-80 | searching for the lower-cased query gives the same list |
| AdminDashboard.InitNavigation | src/pages/AdminDashboard.jsx:39-52 | the mount effect navigates only to "/" or "/login", and stays only for a session whose role is "admin" |
| AdminDashboard.RedirectFor | src/pages/AdminDashboard.jsx:47 | "/" iff the message contains "Access denied", else "/login" |
| AdminDashboard.NonAdminSentHome | src/pages/AdminDashboard.jsx:39-52 | a signed-in non-admin is sent to "/" |
| AdminDashboard.NoSessionSentToLogin | src/pages/AdminDashboard.jsx:39-52 | a visitor with no session is sent to "/login" |
| AdminDashboard.FailedFetchSendsAdminToLogin | src/pages/AdminDashboard.jsx:28-47 | an admin whose user fetch rejects with a bare string is sent to "/login" |
| AdminDashboard.AdminWithUsersStays | src/pages/AdminDashboard.jsx:39-52 | an admin whose user fetch settles stays on the page |
| AdminDashboard.DisplayName | src/pages/AdminDashboard.jsx:107 | "fname lname"; a missing part prints as "undefined" and a null one as "null" |
| AdminDashboard.AuthoredPosts | src/pages/AdminDashboard.jsx:132-142 | every listed post, in order, carries the selected user's id, display name and email as author |
| AdminDashboard.DashboardCardsOpenManageRoute | src/pages/AdminDashboard.jsx:143 | a dashboard card always opens "/post/"+id |
| AdminDashboard.UserListOf | src/pages/AdminDashboard.jsx:82-113 | spinner while loading, "No users found" exactly when the filtered list is empty, else a button per filtered user |
| AdminDashboard.Dashboard.constructor | src/pages/AdminDashboard.jsx:10-15 | empty lists, no selection, not loading, empty error and query |
| AdminDashboard.Dashboard.SetSearchQuery | src/pages/AdminDashboard.jsx:176 | the search input sets the query |
| AdminDashboard.Dashboard.SelectUser | src/pages/AdminDashboard.jsx:96 | a user button selects that user |
| AdminDashboard.Dashboard.FetchUsers | src/pages/AdminDashboard.jsx:18-37 | an array replaces the users; a non-array sets the invalid-format message and keeps them; a failure sets the message or "Failed to fetch users", goes home on "Access denied", and without a message throws out of the handler |
| AdminDashboard.Dashboard.Initialize | src/pages/AdminDashboard.jsx:39-52 | navigates as `InitNavigation` says; a failed admin check sets its message and loads nothing; for an admin, users and error end as `FetchUsers` leaves them in each of its four outcomes, except that an escaped error's message replaces the error |
| AdminDashboard.Dashboard.FetchUserPosts | src/pages/AdminDashboard.jsx:54-74 | no selection fetches nothing; a non-array result becomes []; a failure empties the posts and sets the error to the message, which may be absent |
| Explore.FilteredPosts | src/pages/Explore.jsx:31-35 | an order-preserving sub-list of exactly the posts whose present title, description or content contains the query, ignoring case, each kept as often as it occurs |
| Explore.EmptyQueryKeepsPostsWithAField | src/pages/Explore.jsx:31-35 | the empty query keeps exactly the posts with at least one of the three fields |
| Explore.EmptyQueryListsEverything | src/pages/Explore.jsx:31-35 | when every post has a title the empty query lists them all, in order |
| Explore.SearchIgnoresQueryCase | src/pages/Explore.jsx:31-35 | searching for the lower-cased query gives the same list |
| Explore.ListingOf | src/pages/Explore.jsx:73-91 | spinner while loading, "No posts found." exactly when not loading and the filtered list is empty, else the filtered cards |
| Explore.ExplorePage.constructor | src/pages/Explore.jsx:8-11 | no posts, not loading, empty error and query |
| Explore.ExplorePage.SetSearchQuery | src/pages/Explore.jsx:59 | the search input sets the query |
| Explore.ExplorePage.FetchPosts | src/pages/Explore.jsx:14-29 | success replaces the posts; failure keeps them and sets the message or "Failed to fetch posts"; loading ends false |
| AllPosts.BareStringIsNoSessionProblem | src/pages/AllPosts.jsx:27 | a bare-string rejection is never read as a session problem |
| AllPosts.CardRecord | src/pages/AllPosts.jsx:82-91 | image := image_url, excerpt and content := description, comments `|| []`, readTime `|| ''`, hideAuthor true; id, title, description, image_url and the author fields carried over by the spread |
| AllPosts.CardPreviewsDescription | src/pages/AllPosts.jsx:82-91 | a card here previews only the description, and nothing when it is empty |
| AllPosts.CardCoverIgnoresImage | src/pages/AllPosts.jsx:84 | the card's cover is image_url or the default; the post's own image is overwritten |
| AllPosts.CardsOpenManageRoute | src/pages/AllPosts.jsx:92 | every card opens "/post/"+id |
| AllPosts.ViewOf | src/pages/AllPosts.jsx:40-97 | spinner while loading, the empty state exactly when the list is empty, else one normalised card per post |
| AllPosts.AllPostsPage.constructor | src/pages/AllPosts.jsx:9-11 | no posts, loading, empty error |
| AllPosts.AllPostsPage.FetchUserPosts | src/pages/AllPosts.jsx:14-38 | no session goes to /login without a fetch; posts are fetched for the session id, a non-array becomes []; a session problem goes to /login without an error; other failures set the message or "Failed to fetch posts"; loading ends false |
| Login.RedirectPath | src/pages/Login.jsx:37-38 | the first non-empty of redirectTo, the from-path, "/dashboard"; never empty |
| Login.ServerRedirectWins | src/pages/Login.jsx:37-38 | with a server redirect the from-path does not matter |
| Login.LoginPage.constructor | src/pages/Login.jsx:8-15 | empty form, hidden password, not loading, no error |
| Login.LoginPage.HandleChange | src/pages/Login.jsx:19-24 | changes only the named field |
| Login.LoginPage.TogglePassword | src/pages/Login.jsx:103 | flips password visibility |
| Login.LoginPage.HandleSubmit | src/pages/Login.jsx:26-45 | sends the credentials; failure sets `new Error(message).message` and does not navigate; success replaces the location with `RedirectPath`; the submit button ends enabled |
| Register.RegisterPage.constructor | src/pages/Register.jsx:8-19 | empty form, hidden passwords, not loading, no error |
| Register.RegisterPage.HandleChange | src/pages/Register.jsx:22-27 | changes only the named field |
| Register.RegisterPage.TogglePassword | src/pages/Register.jsx:146 | flips password visibility |
| Register.RegisterPage.ToggleConfirmPassword | src/pages/Register.jsx:175 | flips confirmation visibility |
| Register.RegisterPage.HandleSubmit | src/pages/Register.jsx:29-56 | differing passwords set "Passwords do not match" and send nothing; otherwise sends fname, lname, email and password only; failure sets `new Error(message).message`; success goes to /dashboard; the submit button ends enabled |
| Navbar.FlagsOf | src/components/Navbar.jsx:25-29 | authenticated iff a session exists; admin iff its role is "admin"; admin implies authenticated |
| Navbar.AdminFlagAgreesWithCheckAdmin | src/components/Navbar.jsx:28 | the bar's admin flag holds exactly when `checkAdmin` would succeed |
| Navbar.DashboardTarget | src/components/Navbar.jsx:65-68 | "/admin" and "Admin Dashboard" for admins, "/dashboard" and "Dashboard" otherwise |
| Navbar.ItemsOf | src/components/Navbar.jsx:91-151 | signed-in items with the dropdown when open; for visitors the Explore link is hidden exactly on "/explore" |
| Navbar.LoggedOutStaysSignedOut | src/components/Navbar.jsx:47-63 | after logout a fresh check finds no session and clears both flags |
| Navbar.NavbarState.constructor | src/components/Navbar.jsx:9-11 | signed out, not admin, dropdown closed |
| Navbar.NavbarState.CheckAuth | src/components/Navbar.jsx:25-29 | sets both flags as `FlagsOf` says |
| Navbar.NavbarState.HandleClickOutside | src/components/Navbar.jsx:32-36 | a click outside the container closes an open dropdown; any other click leaves it |
| Navbar.NavbarState.ToggleDropdown | src/components/Navbar.jsx:102 | flips the dropdown |
| Navbar.NavbarState.HandleDashboardClick | src/components/Navbar.jsx:65-68 | closes the dropdown and goes to the admin or the user dashboard |
| Navbar.NavbarState.HandleLogout | src/components/Navbar.jsx:47-63 | success or failure alike: the token is removed, both flags clear, and the bar goes to /login |

## Left out

- Network clients (`src/utils/post.js`, `src/utils/comment.js`, `src/utils/user.js`) are not modelled; each call's settled result is an input to the handler.
- The Tiptap editing engine and HTML serialisation (`getHTML`, `setContent`, document commands) are a library. The editor is reduced to its starting content, the link command it is given, and the list of inserted image sources.
- `FileReader`, `window.confirm`, `alert` and `localStorage` are I/O. Read results and confirmations are inputs, alerts are return values, and the token slot is a field.
- `jwtDecode` is a foreign library and appears as a function parameter.
- Locale date formatting (`toLocaleDateString`) is not modelled. Dates are kept as optional fields and never rendered.
- Navbar scroll styling (`window.scrollY > 10`) is not modelled: it is a floating-point visual state.
- `toLowerCase`, `trim` and `\s` are ASCII only. Unicode case mapping and Unicode white space are not modelled.
- String lengths are counted in characters rather than UTF-16 code units, so the 80-character preview limit differs from the browser's for text outside the Basic Multilingual Plane.
- Routing and static pages (route table, protected route, view page, layouts, landing, home) and all styling are not part of this model.
- Each handler is one atomic step. Intermediate renders inside a handler are not modelled, for example the error cleared and loading set before the awaited call. Neither are interleavings of overlapping handlers or effect re-runs.
- The exact text of a JavaScript `TypeError` depends on the engine. The model fixes one text for destructuring a null session and one for calling `includes` on an undefined message. Only their not containing "Access denied" is used.
- Ids are strings. JavaScript `===` between a numeric id and a string id is not modelled.
- Explore assumes the server returns an array; a non-array body would make `filter` throw, and that crash is not modelled.
- The card's delete button, title, author line and date, and the comment thread's markup, are presentational and not modelled.
- ManagePostPage.ManagePostPage.HandleEdit: requires a loaded post, since the edit button is only rendered with one.
- The delete control needs the viewer to own the comment AND be an admin.
- `handlePublish` has no in-handler guard against a second submission; only the disabled button prevents one.
- `getAuthInfo` returns no `user`, so the manage page never passes a viewer to its comment thread.
- A property is `null` or `undefined` only where the code tells the two apart (a user's names and email in a template literal); elsewhere both are one absent value, since truthiness, `||` and `?.` treat them alike.
