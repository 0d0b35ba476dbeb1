/** app/admin/pages/page.tsx: the editor of the about, FAQ, disclaimer and
    footer texts, open to the signed-in admin only. */
module AdminPages {
  import opened Common
  import opened ContentEditing

  /** The pages it loads, in the order it merges them. */
  const AdminPageNames: seq<string> := ["about", "faq", "disclaimer", "footer"]

  const LoginPage: string := "/admin/login"

  /** The mount effect: without the admin flag the page sends the visitor to
      the login page and loads nothing; otherwise it loads the four pages. */
  method Mount(e: Editor, authenticated: bool, r: Responses) returns (redirect: Option<string>)
    requires e.pages == AdminPageNames && e.Valid()
    requires r.Responses? ==> |r.rows| == 4
    modifies e
    ensures !authenticated ==> redirect == Some(LoginPage) && e.editing == old(e.editing) && e.contents == old(e.contents)
    ensures authenticated ==> redirect.None? && !e.isLoading && e.Valid()
    ensures authenticated && r.Responses? ==> e.editing == AfterLoad(old(e.editing), AdminPageNames, r.rows)
  {
    if !authenticated {
      return Some(LoginPage);
    }
    e.Load(r);
    redirect := None;
  }
}
