/** The admin panel (`/admin`): a sign-in error without a caller, an
    admin-only error for a caller whose role is not exactly `admin`, and
    otherwise the post list. */
module AdminPage {
  import opened Common
  import opened Identity
  import opened ClientCommon
  import PostList
  import PostsRoute

  /** "Sign in to access the admin panel". */
  const SignInMessage: string := "برای دسترسی به ادمین پنل وارد شوید"
  /** "Only admins may access this page". */
  const AdminOnlyMessage: string := "فقط ادمین‌ها به این صفحه دسترسی دارند"

  datatype AdminView = ErrorView(message: string) | Panel(list: PostList.Props)

  /** `AdminPanel()` for the current caller. The panel passes an empty
      query and `isAllPosts`, a property the list does not read, so the
      list keeps `allPosts` false. */
  function AdminPanel(user: Option<User>): (v: AdminView)
    ensures user.None? ==> v == ErrorView(SignInMessage)
    ensures user.Some? && !IsAdmin(user.value) ==> v == ErrorView(AdminOnlyMessage)
    ensures v.Panel? <==> user.Some? && IsAdmin(user.value)
  {
    if user.None? then ErrorView(SignInMessage)
    else if user.value.role != Some("admin") then ErrorView(AdminOnlyMessage)
    else Panel(PostList.Props("", false))
  }

  /** An admin's panel lists through `/api/posts`, which the posts route
      answers with every post and no limit, under the "Your Posts" heading;
      and it offers edit and delete only on the admin's own posts. */
  lemma AdminPanelList(admin: User, author: string)
    requires IsAdmin(admin)
    ensures AdminPanel(Some(admin)).Panel?
    ensures PostList.ListUrl(AdminPanel(Some(admin)).list) == "/api/posts"
    ensures PostList.Heading(AdminPanel(Some(admin)).list) == "Your Posts"
    ensures PostsRoute.ListSql(PostsRoute.LimitOf(None)) == PostsRoute.BaseSql
    ensures CanEdit(Some(admin), author) <==> author == admin.id
  {
  }

  /** The role must be exactly `admin`: a missing or different role is
      refused, whatever the id. */
  lemma RoleMustBeExact(id: string, role: Option<string>)
    ensures AdminPanel(Some(User(id, role))).Panel? <==> role == Some("admin")
  {
  }
}
