/** The side navigation: the link lists, which link is highlighted, what
    the account area shows, and the logout and account-withdrawal actions.
    The withdrawal request is a plain fetch carrying `Bearer ${token}`. */
module Sidebar {
  import opened Common
  import Text
  import Lists
  import Auth

  const HomePath := "/"
  const WithdrawFailedMessage := "회원 탈퇴에 실패했습니다."
  const WithdrawDoneMessage := "회원 탈퇴가 완료되었습니다."

  datatype NavItem = NavItem(name: string, href: string)

  const MainNav: seq<NavItem> := [NavItem("홈", "/"), NavItem("소개", "/about")]
  const UserNav: seq<NavItem> := [NavItem("업로드", "/encrypt"), NavItem("원본 저작자 확인", "/decrypt")]
  const Categories: seq<NavItem> := [
    NavItem("사진", "/category/사진"), NavItem("일러스트", "/category/일러스트"),
    NavItem("자연", "/category/자연"), NavItem("동물", "/category/동물"),
    NavItem("일상", "/category/일상"), NavItem("기타", "/category/기타")]

  const ActiveLinkClass := "bg-gray-800 text-white"
  const IdleLinkClass := "text-gray-400 hover:text-white hover:bg-gray-800"
  const LinkLayoutClass := "group flex gap-x-3 rounded-md p-2 text-sm leading-6 font-semibold"

  /** `classes.filter(Boolean)`: the non-empty class names, in order. */
  function NonEmpty(classes: seq<string>): seq<string> {
    Lists.Filter(classes, Truthy)
  }

  /** `classNames(...classes)` */
  function ClassNames(classes: seq<string>): string {
    Text.Join(NonEmpty(classes), " ")
  }

  /** No non-empty argument gives "", one gives itself unchanged. */
  lemma ClassNamesSmall(classes: seq<string>)
    ensures NonEmpty(classes) == [] ==> ClassNames(classes) == ""
    ensures forall c :: NonEmpty(classes) == [c] ==> ClassNames(classes) == c
  {
  }

  /** Empty arguments anywhere make no difference. */
  lemma ClassNamesIgnoresEmpty(before: seq<string>, after: seq<string>)
    ensures ClassNames(before + [""] + after) == ClassNames(before + after)
  {
    Lists.FilterAppend(before + [""], after, Truthy);
    Lists.FilterAppend(before, [""], Truthy);
    Lists.FilterAppend(before, after, Truthy);
    assert Lists.Filter([""], Truthy) == Lists.Filter([], Truthy) by {
      assert [""][1..] == [];
    }
    assert NonEmpty(before + [""] + after) == NonEmpty(before + after);
  }

  /** Two non-empty names are joined by a single space. */
  lemma ClassNamesPair(a: string, b: string)
    requires a != "" && b != ""
    ensures ClassNames([a, b]) == a + " " + b
  {
    Lists.FilterKeepsAll([a, b], Truthy);
    assert NonEmpty([a, b]) == [a, b];
    assert [a, b][1..] == [b];
    assert Text.Join([b], " ") == b;
  }

  /** When no class name holds a space, the joined string splits back into
      exactly the non-empty names, in their original order. */
  lemma ClassNamesSplitBack(classes: seq<string>)
    requires forall c :: c in classes ==> ' ' !in c
    requires NonEmpty(classes) != []
    ensures Text.Split(ClassNames(classes), ' ') == NonEmpty(classes)
  {
    Lists.FilterMembers(classes, Truthy);
    Text.SplitJoin(NonEmpty(classes), ' ');
  }

  /** A link is highlighted exactly when the path it is compared with is
      its href: the path itself for the main and user links, the
      percent-decoded path for the categories. */
  predicate IsActive(path: string, item: NavItem) {
    path == item.href
  }

  /** The class of a link: the highlight or idle colours, then the layout. */
  function LinkClass(active: bool): (c: string)
    ensures c == (if active then ActiveLinkClass else IdleLinkClass) + " " + LinkLayoutClass
  {
    var colours := if active then ActiveLinkClass else IdleLinkClass;
    ClassNamesPair(colours, LinkLayoutClass);
    ClassNames([colours, LinkLayoutClass])
  }

  /** The two colourings are told apart by the class string alone. */
  lemma LinkClassDistinct()
    ensures LinkClass(true) != LinkClass(false)
  {
    assert |LinkClass(true)| != |LinkClass(false)|;
  }

  /** The hrefs of each link list are distinct, so at most one link of a
      list is highlighted at a time. */
  lemma AtMostOneActive(pathname: string, decodedPathname: string)
    ensures forall i, j | 0 <= i < j < |MainNav| :: !(IsActive(pathname, MainNav[i]) && IsActive(pathname, MainNav[j]))
    ensures forall i, j | 0 <= i < j < |UserNav| :: !(IsActive(pathname, UserNav[i]) && IsActive(pathname, UserNav[j]))
    ensures forall i, j | 0 <= i < j < |Categories| ::
      !(IsActive(decodedPathname, Categories[i]) && IsActive(decodedPathname, Categories[j]))
  {
  }

  datatype Link = Link(name: string, href: string, className: string)

  /** One list of links as drawn for the path `path`. */
  function NavLinks(items: seq<NavItem>, path: string): (links: seq<Link>)
    ensures |links| == |items|
    ensures forall i | 0 <= i < |items| ::
      && links[i].name == items[i].name && links[i].href == items[i].href
      && links[i].className == LinkClass(IsActive(path, items[i]))
  {
    seq(|items|, i requires 0 <= i < |items| => Link(items[i].name, items[i].href, LinkClass(IsActive(path, items[i]))))
  }

  datatype AccountArea = LoadingNotice | AccountMenu(email: string, showAdminLink: bool) | GuestLinks

  datatype View = View(linkLists: seq<seq<Link>>, account: AccountArea, showLogout: bool)

  /** What the sidebar shows for the session: the main links, the user
      links for a signed-in user, the categories; the account area; and the
      logout button, which depends on the user alone. */
  function Render(pathname: string, decodedPathname: string, isLoading: bool, user: Option<User>): (v: View)
    ensures |v.linkLists| == if user.Some? then 3 else 2
    ensures v.linkLists[0] == NavLinks(MainNav, pathname)
    ensures user.Some? ==> v.linkLists[1] == NavLinks(UserNav, pathname)
    ensures v.linkLists[|v.linkLists| - 1] == NavLinks(Categories, decodedPathname)
    ensures v.showLogout <==> user.Some?
    ensures v.account.LoadingNotice? <==> isLoading
    ensures v.account.GuestLinks? <==> !isLoading && user.None?
    ensures v.account.AccountMenu? ==> user.Some? && v.account.email == user.value.email
    ensures v.account.AccountMenu? ==> (v.account.showAdminLink <==> IsAdmin(user))
  {
    View(
      [NavLinks(MainNav, pathname)] + (if user.Some? then [NavLinks(UserNav, pathname)] else [])
        + [NavLinks(Categories, decodedPathname)],
      if isLoading then LoadingNotice
      else if user.Some? then AccountMenu(user.value.email, IsAdmin(user))
      else GuestLinks,
      user.Some?)
  }

  /** In every list the sidebar draws, a link carries the highlight class
      exactly when its href is the path that list is compared with, and at
      most one link of the list carries it. */
  lemma HighlightFollowsPath(pathname: string, decodedPathname: string, isLoading: bool, user: Option<User>)
    ensures var lists := Render(pathname, decodedPathname, isLoading, user).linkLists;
      forall k, i | 0 <= k < |lists| && 0 <= i < |lists[k]| ::
        lists[k][i].className == LinkClass(true) <==>
          lists[k][i].href == (if k == |lists| - 1 then decodedPathname else pathname)
    ensures var lists := Render(pathname, decodedPathname, isLoading, user).linkLists;
      forall k, i, j | 0 <= k < |lists| && 0 <= i < j < |lists[k]| ::
        !(lists[k][i].className == LinkClass(true) && lists[k][j].className == LinkClass(true))
  {
    LinkClassDistinct();
    AtMostOneActive(pathname, decodedPathname);
  }

  /** What the server says about a withdrawal: no answer (the message of
      the network error), a status with the `message` field of its JSON body
      ("" when it has none), or a status with a body that is not JSON (the
      parse error's message). */
  datatype WithdrawReply =
    | NetworkError(error: string)
    | Answered(status: int, message: string)
    | Unparsable(status: int, parseError: string)

  class SidebarState {
    var isUserMenuOpen: bool
    const apiUrl: string

    constructor (apiUrl: string)
      ensures this.apiUrl == apiUrl && !isUserMenuOpen
    {
      this.apiUrl := apiUrl;
      isUserMenuOpen := false;
    }

    method ToggleUserMenu()
      modifies this
      ensures isUserMenuOpen == !old(isUserMenuOpen)
    {
      isUserMenuOpen := !isUserMenuOpen;
    }

    /** `handleLogout`: on confirmation, log out and go home. */
    method HandleLogout(auth: Auth.AuthProvider, confirmed: bool) returns (navigate: Option<string>)
      requires auth.Valid()
      modifies auth, auth.store
      ensures auth.Valid()
      ensures auth.store.entries - {Auth.TokenKey} == old(auth.store.entries) - {Auth.TokenKey}
      ensures !confirmed ==> navigate.None? && unchanged(auth, auth.store)
      ensures confirmed ==>
        && navigate == Some(HomePath)
        && auth.Snapshot() == Auth.Step(old(auth.Snapshot()), Auth.LoggedOut, auth.decode)
    {
      if !confirmed {
        return None;
      }
      auth.Logout();
      navigate := Some(HomePath);
    }

    /** `handleWithdraw`: a declined confirmation sends nothing. A success
        reports the server's message (or the default), logs out and goes
        home; every failure reports a message and keeps the session. */
    method HandleWithdraw(auth: Auth.AuthProvider, confirmed: bool, reply: WithdrawReply)
      returns (sent: Option<Request>, alert: Option<string>, navigate: Option<string>)
      requires auth.Valid()
      modifies auth, auth.store
      ensures auth.Valid()
      ensures auth.store.entries - {Auth.TokenKey} == old(auth.store.entries) - {Auth.TokenKey}
      ensures !confirmed ==> sent.None? && alert.None? && navigate.None? && unchanged(auth, auth.store)
      ensures confirmed ==>
        sent == Some(Request("DELETE", apiUrl + "/api/users/me", [("Authorization", BearerValue(old(auth.token)))], []))
      ensures confirmed && reply.Answered? && 200 <= reply.status <= 299 ==>
        && alert == Some(if reply.message != "" then reply.message else WithdrawDoneMessage)
        && navigate == Some(HomePath)
        && auth.Snapshot() == Auth.Step(old(auth.Snapshot()), Auth.LoggedOut, auth.decode)
      ensures confirmed && reply.Answered? && !(200 <= reply.status <= 299) ==>
        && alert == Some(if reply.message != "" then reply.message else WithdrawFailedMessage)
        && navigate.None? && unchanged(auth, auth.store)
      ensures confirmed && reply.NetworkError? ==>
        alert == Some(reply.error) && navigate.None? && unchanged(auth, auth.store)
      ensures confirmed && reply.Unparsable? ==>
        alert == Some(reply.parseError) && navigate.None? && unchanged(auth, auth.store)
    {
      if !confirmed {
        return None, None, None;
      }
      sent := Some(Request("DELETE", apiUrl + "/api/users/me", [("Authorization", BearerValue(auth.token))], []));
      navigate := None;
      match reply
      case NetworkError(error) =>
        alert := Some(error);
      case Unparsable(_, parseError) =>
        alert := Some(parseError);
      case Answered(status, message) =>
        if !(200 <= status <= 299) {
          alert := Some(if message != "" then message else WithdrawFailedMessage);
        } else {
          alert := Some(if message != "" then message else WithdrawDoneMessage);
          auth.Logout();
          navigate := Some(HomePath);
        }
    }
  }
}
