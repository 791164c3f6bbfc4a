# DDW front end — a Dafny model of its client-side core

DDW is a web front end where users post images, check who originally
authored an image, comment on posts, and message each other. This project
models the client-side logic behind those screens:

- **Authentication context** (`auth.dfy`). The signed-in user, the raw JWT, the
  loading flag and the `token` key of `localStorage`.
  - It is given twice. First as a pure state machine (`Session`, `Event`,
    `Step`, `Run`) with its invariant. Then as the `AuthProvider` class,
    whose methods update the fields and the shared storage and are proved to
    follow `Step`.
  - `fetchWithAuth` rewrites the caller's `RequestInit` headers in place. A
    401 reply signs the user out.
- **Theme context** (`theme.dfy`). The theme chosen on mount, its persistence
  in `localStorage`, and the `dark` class on the root element.
- **Pagination** (`pagination.dfy`). The loop that lists the page numbers, the
  rule that hides the selector, and highlighting of the current page.
- **Comment section** (`comments.dfy`). Loading, posting and deleting
  comments, and who sees a delete control.
- **Chat window** (`chat.dfy`). The filter on incoming socket messages, user
  search, selecting a conversation partner, sending, and message alignment.
- **"My posts" page** (`my_posts.dfy`). The redirect, loading and empty
  conditions, the three-way delete-control rule, and deleting a post.
- **Sidebar** (`sidebar.dfy`). `classNames`, which links are highlighted, what
  the account area shows, logout, and account withdrawal.
- **API URL builders** (`api.dfy`).

Shared modules:

- `common.dfy`: options, results, users, requests and replies.
- `browser.dfy`: `localStorage` as a `Storage` class, and the root element's
  class list.
- `text.dfy`: JavaScript's `trim` whitespace set, `join` and `split`.
- `lists.dfy`: `filter` and its lemmas.

The outside world enters as inputs:

- The server's reply, given as a status plus an optional decoded JSON body.
  A missing body stands for a body that is not JSON.
- The user's answer to `window.confirm`.
- The `prefers-color-scheme` media query.
- The current time string.
- `jwtDecode` as a function `decode` that yields `None` where it would throw.
- `encodeURIComponent` as a function field of the chat window.

`NEXT_PUBLIC_API_URL` is the string `apiUrl`.

Three details of the code the model keeps:

- The withdrawal request and the "my posts" requests are plain `fetch`
  calls. Each builds `Bearer ${token}` by hand, which gives `"Bearer null"`
  when no token is held. A 401 on them does not sign anyone out.
- The stored theme is cast without a check, so any non-empty stored string
  becomes the theme. Only the exact text `dark` turns the dark class on.
- `fetchWithAuth`, the mount effect and the "my posts" fetch test the token
  for truthiness, so an empty token is treated as no token.

## Model

| member | source | states |
|---|---|---|
| Auth.StartUp | src/contexts/AuthContext.tsx:33-46 | On mount, loading always ends. A truthy stored token that decodes becomes both `user` (its decoded value) and `token`. One that does not decode is removed from storage. A falsy one leaves the session signed out and storage unchanged. |
| Auth.RunKeepsConsistent | src/contexts/AuthContext.tsx:29-78 | Any sequence of start-up, logins, logouts and replies keeps the session invariant. `user` and `token` are null together, and a held token is the stored one and decodes to `user`. |
| Auth.ReachableIsConsistent | src/contexts/AuthContext.tsx:29-78 | Every session reachable from a freshly rendered provider satisfies the invariant. |
| Auth.LoadingUntilStarted | src/contexts/AuthContext.tsx:31-46 | `isLoading` holds exactly until the mount effect has run. Login, logout and replies never touch it. |
| Auth.LoadingRun | src/contexts/AuthContext.tsx:31-46 | From any session, loading after a run holds iff it held before and the run has no start-up. |
| Auth.StepKeepsConsistent | src/contexts/AuthContext.tsx:29-78 | Each single event preserves the session invariant. |
| Auth.LogoutIdempotent | src/contexts/AuthContext.tsx:48-59 | Logging out twice equals logging out once. Logging in and then out equals logging out. |
| Auth.WithBearer | src/contexts/AuthContext.tsx:61-66 | The caller's header list is kept as its prefix. One `Authorization: Bearer <token>` entry is appended iff the token is truthy. |
| Auth.AuthProvider.Start | src/contexts/AuthContext.tsx:33-46 | The mount effect on the object and on storage is exactly `Step(_, Started)`. It keeps the invariant and every other storage key. |
| Auth.AuthProvider.Login | src/contexts/AuthContext.tsx:48-53 | It succeeds iff the JWT decodes. On success it stores the token and sets `user` and `token`. A token that does not decode changes nothing. |
| Auth.AuthProvider.Logout | src/contexts/AuthContext.tsx:55-59 | It removes exactly the `token` key and clears `user` and `token`. |
| Auth.AuthProvider.FetchWithAuth | src/contexts/AuthContext.tsx:61-78 | It rewrites the options' headers in place with `WithBearer` and sends the request. On a 401 it logs out and fails with "Unauthorized". Any other status is returned and the session is unchanged. |
| Auth.UseAuth | src/contexts/AuthContext.tsx:89-95 | It returns the provider iff one is present. Otherwise it fails with the "must be used within an AuthProvider" message. |
| Theme.InitialTheme | src/contexts/ThemeContext.tsx:23-33 | A non-empty stored theme is taken as is. Otherwise the result is dark iff the system prefers dark, and light iff it does not. |
| Theme.ThemeProvider.Mount | src/contexts/ThemeContext.tsx:21-38 | After mounting, the theme is `InitialTheme` of the stored value and the preference. Storage holds that theme, the dark class is on iff it is "dark", and other keys and classes are untouched. |
| Theme.ThemeProvider.SetTheme | src/contexts/ThemeContext.tsx:35-38 | After `setTheme(t)` and its effect, the theme is `t`, storage holds `t`, and the dark class is on iff `t` is "dark". Nothing else changes. |
| Theme.ThemeProvider.Apply | src/contexts/ThemeContext.tsx:35-38 | The second effect syncs storage and the dark class with the current theme, and touches nothing else. |
| Theme.UseTheme | src/contexts/ThemeContext.tsx:47-53 | It returns the provider iff one is present. Otherwise it fails with the "must be used within a ThemeProvider" message. |
| Pagination.CeilDivIsCeiling | src/components/Pagination.tsx:18 | The page count is the least count whose pages hold all posts. It is zero iff there are no posts. |
| Pagination.PageNumbers | src/components/Pagination.tsx:16-20 | The loop yields exactly `[1, 2, …, ceil(total / perPage)]`. |
| Pagination.PageListShape | src/components/Pagination.tsx:16-20 | That list has one entry per page, and entry `i` is `i + 1`. |
| Pagination.PageListOrdered | src/components/Pagination.tsx:16-20 | The page numbers strictly increase. A number is listed iff it lies between 1 and the page count. |
| Pagination.HiddenIffOnePage | src/components/Pagination.tsx:22-24 | The page list has at most one entry, and so the component (`Render`) renders nothing whatever the current page, iff all posts fit on one page (`totalPosts <= postsPerPage`). |
| Pagination.Buttons | src/components/Pagination.tsx:29-42 | There is one button per page number, in order. A button is highlighted iff its number equals `currentPage`. |
| Pagination.HighlightedCountPages | src/components/Pagination.tsx:29-42 | Over the pages `1..count`, exactly one button is highlighted when `currentPage` is in range, and none otherwise. |
| Pagination.ExactlyOneHighlighted | src/components/Pagination.tsx:22-42 | When the selector is shown, exactly one button is highlighted if the current page is in range, and none otherwise. |
| Pagination.ClickedPageInRange | src/components/Pagination.tsx:29-32 | Every button passes `paginate` a listed page number between 1 and the page count. |
| Api.VideoDelete | src/lib/api.ts:4-7 | The delete URL is the videos URL, then `/`, then exactly the decimal id. |
| Api.Outputs | src/lib/api.ts:9 | The outputs URL is `<api>/outputs/` followed by the file name, unescaped. |
| Api.DecimalRoundTrip | src/lib/api.ts:6-7 | Reading back the decimal rendering of an id gives the id. |
| Api.NaturalRoundTrip | src/lib/api.ts:6-7 | Reading back the digits of a natural number gives the number. |
| Api.DecimalInjective | src/lib/api.ts:6-7 | Distinct ids render differently. |
| Api.ViewExtendsDelete | src/lib/api.ts:6-7 | The view URL of a video is its delete URL followed by `/view`. |
| Api.DeleteInjective | src/lib/api.ts:7 | Distinct ids give distinct delete URLs. |
| Api.ViewInjective | src/lib/api.ts:6 | Distinct ids give distinct view URLs. |
| Api.OutputsInjective | src/lib/api.ts:9 | Distinct file names give distinct outputs URLs. |
| Comments.RemainingIsExact | src/components/CommentSection.tsx:75 | After a delete, a comment remains iff it was listed and has a different id. Each such comment keeps its multiplicity, and the order is preserved. |
| Comments.RemainingWithoutMatch | src/components/CommentSection.tsx:75 | Deleting an id that is not listed leaves the list unchanged. |
| Comments.CommentSection.LoadComments | src/components/CommentSection.tsx:23-39 | A successful reply with a JSON body replaces the list, and anything else keeps it. Loading always ends. The empty notice shows iff the list is empty. |
| Comments.CommentSection.SetNewComment | src/components/CommentSection.tsx:119 | Typing sets the input and nothing else. |
| Comments.CommentSection.HandleCommentSubmit | src/components/CommentSection.tsx:41-64 | A blank input or no user sends nothing and changes nothing. Otherwise the untrimmed text is POSTed through the authenticated fetch. On success the saved comment is appended and the input cleared. On any failure list and input are kept and the failure alert is raised. Every storage key other than `token` is kept. |
| Comments.CommentSection.HandleDeleteComment | src/components/CommentSection.tsx:66-80 | A declined confirmation sends nothing. Otherwise the DELETE goes through the authenticated fetch. On success exactly the comments with that id are removed. On failure the list is kept and the failure alert is raised. Every storage key other than `token` is kept. |
| Comments.CommentSection.DeleteControls | src/components/CommentSection.tsx:99-107 | There is one flag per comment, in order. A delete control shows iff someone is signed in and is an administrator or the comment's author. |
| Chat.ConversationIsPrivate | src/components/Chat.tsx:54-64 | A message that neither comes from nor goes to me is never accepted, nor is one the partner sends to someone else. My own message to the selected partner is accepted. |
| Chat.ChatWindow.ReceiveMessage | src/components/Chat.tsx:54-64 | An incoming message is appended at the end iff it goes between me and the selected partner, in either direction. Otherwise it is dropped. |
| Chat.ChatWindow.SetSearchQuery | src/components/Chat.tsx:144 | Typing sets the query and nothing else. |
| Chat.ChatWindow.SetNewMessage | src/components/Chat.tsx:224 | Typing sets the message text and nothing else. |
| Chat.ChatWindow.HandleSearch | src/components/Chat.tsx:77-96 | A blank query clears the results without a request. Otherwise a GET with the encoded query goes through the authenticated fetch. The results are the server's list, or empty on any failure. The "no results" notice then shows iff the reply gave no users; after a blank query it shows iff the query is not empty, so a query of blanks alone shows it. Every storage key other than `token` is kept. |
| Chat.ChatWindow.HandleUserSelect | src/components/Chat.tsx:98-112 | The partner is selected and the history fetched. The messages become the history, or empty on any failure. Every storage key other than `token` is kept. |
| Chat.ChatWindow.HandleSendMessage | src/components/Chat.tsx:114-127 | Nothing is emitted when the text is blank, no partner is selected or no one is signed in. Otherwise the untrimmed text is emitted from me to the partner, stamped with the given time. The input is cleared and the list is left for the server's echo. That echo belongs to the open conversation and is drawn as mine. |
| Chat.ChatWindow.Alignment | src/components/Chat.tsx:192-206 | There is one flag per message, in order. A message is drawn on the right iff the signed-in user sent it. |
| MyPosts.ControlRule | src/app/my-posts/page.tsx:115-161 | The "cannot delete" badge shows iff the viewer is not an administrator and the post is flagged. Administrators, and unflagged posts, get the delete button. |
| MyPosts.Render | src/app/my-posts/page.tsx:55-170 | The page shows the loading text iff the page or the session is loading, and the empty notice iff neither is loading and there are no posts. Otherwise it shows one control per post, following the three-way rule. |
| MyPosts.RemainingIsExact | src/app/my-posts/page.tsx:85 | After a delete, a post remains iff it was listed and has a different id. Each such post keeps its multiplicity, and the order is preserved. |
| MyPosts.MyPostsPage.OnSessionChange | src/app/my-posts/page.tsx:23-53 | Once the session has loaded with no user, it redirects to `/login` without a fetch. With a truthy token it GETs the user's posts with `Bearer <token>`, takes a good reply, and ends loading. Otherwise nothing changes. |
| MyPosts.MyPostsPage.HandleDelete | src/app/my-posts/page.tsx:67-94 | A declined confirmation sends nothing. On success exactly the posts with that id are removed. A failed reply alerts the server's `error` field, or the default message. A network error alerts its own message. |
| Sidebar.ClassNamesSmall | src/components/Sidebar.tsx:48-50 | With no non-empty name the result is "". With one non-empty name the result is that name. |
| Sidebar.ClassNamesIgnoresEmpty | src/components/Sidebar.tsx:48-50 | An empty argument anywhere makes no difference. |
| Sidebar.ClassNamesSplitBack | src/components/Sidebar.tsx:48-50 | If no name holds a space and at least one name is non-empty, splitting the result on spaces gives back exactly the non-empty names, in order. |
| Sidebar.ClassNamesPair | src/components/Sidebar.tsx:48-50 | Two non-empty names are joined by exactly one space. |
| Sidebar.LinkClass | src/components/Sidebar.tsx:132-137 | A link's class is the highlight colours (or the idle colours), a space, then the layout classes. |
| Sidebar.LinkClassDistinct | src/components/Sidebar.tsx:132-137 | A highlighted link's class differs from an idle link's. |
| Sidebar.AtMostOneActive | src/components/Sidebar.tsx:25-46 | Within each link list the hrefs are distinct, so at most one link per list matches the path. |
| Sidebar.NavLinks | src/components/Sidebar.tsx:128-188 | There is one link per item, in order, with the item's name and href. Its class is `LinkClass` of whether the path equals its href. |
| Sidebar.Render | src/components/Sidebar.tsx:124-265 | The main links (against the path) and the categories (against the decoded path) always show. The user links show iff someone is signed in. The account area shows the loading text while loading, otherwise the account menu (with the admin link iff the user is an administrator) or the guest links. The logout button shows iff someone is signed in. |
| Sidebar.HighlightFollowsPath | src/components/Sidebar.tsx:128-188 | In every drawn list a link has the highlight class iff its href is the path the list is compared with. At most one link per list has it. |
| Sidebar.SidebarState.ToggleUserMenu | src/components/Sidebar.tsx:197 | The user menu flips between open and closed. |
| Sidebar.SidebarState.HandleLogout | src/components/Sidebar.tsx:77-82 | On confirmation it logs out and navigates home, keeping every storage key other than `token`. A declined confirmation changes nothing. |
| Sidebar.SidebarState.HandleWithdraw | src/components/Sidebar.tsx:84-112 | A declined confirmation sends nothing. The DELETE carries `Bearer <token>`. On success it alerts the server's message or the default, logs out and goes home. A failed status, a body that is not JSON, or a network error each alert a message and keep the session. Every storage key other than `token` is kept. |
| Text.TrimEmptyIffBlank | src/components/Chat.tsx:79 | `trim()` gives "" iff every character is JavaScript whitespace, which is the blank-input test of search, send and comment submit. |
| Text.SplitJoin | src/components/Sidebar.tsx:49 | Joining one or more parts that hold no separator, then splitting again, gives the parts back. |
| Lists.WithoutIsExact | src/components/CommentSection.tsx:75 | Removing by key keeps an entry iff its key differs, with its multiplicity and in its order. The comments and posts deletes are both this. |
| Lists.WithoutAbsent | src/components/CommentSection.tsx:75 | Removing a key no entry carries changes nothing. |
| Lists.FilterCounts | src/components/CommentSection.tsx:75 | `filter` keeps every element that passes the predicate as often as it occurred, and drops every other element. |
| Lists.FilterIsSubsequence | src/app/my-posts/page.tsx:85 | `filter` keeps the relative order of the elements it keeps. |
| Lists.FilterAppend | src/components/Sidebar.tsx:49 | `filter` distributes over concatenation. |

## Left out

- Network I/O, `await` and React's scheduling are not modelled. Each handler runs to completion with the server's answer as an input, and interleavings of concurrent requests are not modelled.
- The socket connection is not modelled: connect, `join`, disconnect on close, and the `isOpen` guard. The receive handler uses the user and partner captured when the effect last ran. The model passes the current ones.
- JSX markup, CSS class strings other than `classNames`, icons, scrolling to the newest message, and `toLocaleString` formatting of dates are not modelled.
- The listener that closes the user menu on a click outside is not modelled. It depends on DOM containment.
- Auth.RunKeepsConsistent: `decode` is assumed to give a user object whenever `jwtDecode` does not throw. `jwtDecode` returns the payload's JSON unchecked, so a token whose payload is `null` decodes without throwing. The source then holds that token with a `null` user, both on mount and on `login`, which breaks the invariant that `user` and `token` are null together. The same assumption underlies Auth.ReachableIsConsistent, Auth.StepKeepsConsistent and the `Valid()` contracts of the `AuthProvider` methods.
- Auth.AuthProvider.FetchWithAuth: a request that never reaches the server enters as a status outside 200..299 other than 401. It is returned as `Success(status)`, where the source's `fetch` rejects and `fetchWithAuth` throws before its 401 test. No caller can tell the two apart. Every caller in this core (comment submit and delete, chat search and history) treats a thrown error and a reply that is not ok the same way, and the session is unchanged in both cases.
- `jwtDecode`, `encodeURIComponent` and `decodeURIComponent` are not modelled. The first two are function parameters. The sidebar takes the decoded path as given.
- `Role` distinguishes only `admin`, the one value the source tests. Any other role is a non-administrator.
- `Api.Decimal` renders integer ids only. It does not model JavaScript's number formatting of fractions, of exponent form from 1e21 upward, or of values beyond 2^53.
- An unset `NEXT_PUBLIC_API_URL` renders as the text `undefined`. The model takes the base URL as a string.
- Pagination.PageNumbers: requires a positive page size. With `postsPerPage` 0 and posts present, the source's loop bound is `Infinity` and the loop never ends. With no posts as well, `0 / 0` is `NaN`, the loop never runs and nothing is rendered. Post counts are naturals, not arbitrary numbers.
- Chat.ChatWindow.HandleSendMessage: the socket `emit` is the returned message. It is not modelled that nothing is sent when no socket exists.
- MyPosts.MyPostsPage.HandleDelete: the branch that alerts the generic message for a thrown non-`Error` value is not modelled, because every value thrown there is an `Error`.
- Sidebar.SidebarState.HandleWithdraw: the same generic-message branch is left out for the same reason.
- The message `_id` field and the chat's search-result highlight are not modelled, because no rule depends on them.
- The other pages (login, signup, upload, verify, admin, category, post detail, home) are not modelled. They are callers of this core.
- `console.error` logging is not modelled.
- WithBearer: the normalisation done by `new Headers(...)` is not modelled. That means lower-casing names, iterating in sorted order, and `append` merging into an existing `Authorization` value. The model keeps the caller's list and appends one entry. No call site in this core passes headers of its own, so every request through it carries at most that one `Authorization` header.
