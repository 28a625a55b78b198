/**
 * The class WDS_Custom_Login_page: the redirects of the login router, the
 * page lookup used on activation, and the `the_content` filter that renders
 * the login form and its status messages.
 *
 * Each WordPress side effect is returned as a value: `wp_redirect(); exit;`
 * becomes `Redirect(url)`, a handler that falls through becomes `Continue`,
 * and the filter's return value becomes a `FormOutcome`.
 */
module LoginPage {
  import opened Wrappers
  import opened Php
  import opened WordPress

  /** What a hooked handler does: redirect and stop, or return to WordPress. */
  datatype HookOutcome = Redirect(url: string) | Continue

  /** What `get_page_by_name` returns: the page, `false`, or the implicit `null`. */
  datatype PageLookup = Found(page: Page) | NotFound | NoPages

  /** What the `the_content` filter returns: the content untouched, or new markup. */
  datatype FormOutcome = PassThrough(content: string) | Render(html: string)

  /** The `$args` array handed to `wp_login_form`. */
  datatype FormArgs = FormArgs(redirect: string, idUsername: string, idPassword: string, echo: bool)

  /**
   * The request-time inputs of `insert_login_form`: `is_admin()`,
   * `is_page('login')`, whether `locate_template('template-login.php')`
   * finds a file, `is_user_logged_in()`, and `$_GET`.
   */
  datatype Request = Request(isAdmin: bool, isLoginPage: bool, templateExists: bool,
                             loggedIn: bool, query: map<string, string>)

  /**
   * The site-wide values `insert_login_form` draws on: `home_url()`,
   * `wp_logout_url(home_url())`, and `wp_login_form` as an opaque renderer.
   */
  datatype Site = Site(home: string, logoutUrl: string, loginForm: FormArgs -> string)

  /** The path of the login page, fixed in the constructor. */
  const LoginPath := "/login/"

  /** The built-in login script that the router sends to the login page. */
  const LoginScript := "wp-login.php"

  /** The `login` values the handlers put on the login page's URL. */
  const StatusEmpty := "empty"
  const StatusFailed := "failed"
  const StatusLoggedOut := "false"

  /** `$login_page . "?login=" . $status`. */
  function StatusUrl(loginPage: string, status: string): string
  {
    loginPage + "?login=" + status
  }

  /**
   * `$_GET` for a request of `url`, on the URLs the router sends the client to:
   * `loginPage?login=v` yields the single parameter `login` = v, anything else
   * no parameters.
   */
  function StatusParams(loginPage: string, url: string): (q: map<string, string>)
    ensures q.Keys <= {"login"}
  {
    var prefix := loginPage + "?login=";
    if prefix <= url then map["login" := url[|prefix|..]] else map[]
  }

  /** The redirect URL of each handler hands back exactly the status it was built with. */
  lemma StatusParamsOfStatusUrl(loginPage: string, status: string)
    ensures StatusParams(loginPage, StatusUrl(loginPage, status)) == map["login" := status]
  {
  }

  /** The plain login page carries no status at all. */
  lemma StatusParamsOfLoginPage(loginPage: string)
    ensures StatusParams(loginPage, loginPage) == map[]
  {
  }

  // ---------------------------------------------------------------------
  // Messages of insert_login_form (`__()` is the identity here)
  // ---------------------------------------------------------------------

  const MessageOpen := "<p class=\"login-msg\">"
  const ParagraphClose := "</p>"

  /** The logout prompt, with `wp_logout_url(home_url())` substituted for `%s`. */
  function LogoutPrompt(logoutUrl: string): string
  {
    MessageOpen + "You are logged in. Would you like to <a href=\"" + logoutUrl + "\">log out</a>?"
    + ParagraphClose
  }

  const FailedMessage := MessageOpen + "<strong>ERROR:</strong> Invalid username and/or password."
                         + ParagraphClose

  const EmptyMessage := MessageOpen + "<strong>ERROR:</strong> Username and/or Password is empty."
                        + ParagraphClose

  const LoggedOutNotice := MessageOpen
                           + "You have been logged out. You will be redirected to the home page in 5 seconds."
                           + ParagraphClose

  function GoThereLink(home: string): string
  {
    "<p><a href=\"" + home + "\">Go there now.</a></p>"
  }

  /** The delay, in milliseconds, of the client-side redirect after logout. */
  const RedirectDelay := "5000"

  function RedirectScript(home: string): string
  {
    "<script type=\"text/javascript\">setTimeout(\"window.location='" + home + "'\"," + RedirectDelay
    + ");</script>"
  }

  /** The form arguments: back to the site root, field ids "user" and "pass", returned not echoed. */
  function DefaultFormArgs(home: string): FormArgs
  {
    FormArgs(home, "user", "pass", false)
  }

  /** `isset($_GET['login']) ? $_GET['login'] : 0`, with `None` for the 0. */
  function LoginValue(query: map<string, string>): (login: Option<string>)
    ensures login.Some? <==> "login" in query
    ensures login.Some? ==> login.value == query["login"]
  {
    if "login" in query then Some(query["login"]) else None
  }

  /**
   * The error message shown above the form for a status: one for "failed",
   * one for "empty", none for any other value, truthy or not.
   */
  function StatusMessage(login: Option<string>): (message: string)
    ensures message in {"", FailedMessage, EmptyMessage}
    ensures message == FailedMessage <==> login == Some(StatusFailed)
    ensures message == EmptyMessage <==> login == Some(StatusEmpty)
  {
    if !Truthy(login) then ""
    else if login.value == StatusFailed then FailedMessage
    else if login.value == StatusEmpty then EmptyMessage
    else ""
  }

  /**
   * What `insert_login_form` decides: leave the content alone off the login
   * page or when the theme has its own template; otherwise a logout prompt
   * for a logged-in user without a status, the logged-out notice with its
   * timed redirect for status "false", and in every other case the content,
   * the status message and the login form.
   */
  function FormOutput(req: Request, site: Site, content: string): (r: FormOutcome)
    ensures r.PassThrough? ==> r.content == content
    ensures r.Render? && !Truthy(LoginValue(req.query)) && req.loggedIn ==> r.html == LogoutPrompt(site.logoutUrl)
  {
    var login := LoginValue(req.query);
    if (!req.isAdmin && !req.isLoginPage) || req.templateExists then PassThrough(content)
    else if !Truthy(login) && req.loggedIn then Render(LogoutPrompt(site.logoutUrl))
    else if Truthy(login) && login.value == StatusLoggedOut then
      Render(content + LoggedOutNotice + GoThereLink(site.home) + RedirectScript(site.home))
    else Render(content + StatusMessage(login) + site.loginForm(DefaultFormArgs(site.home)))
  }

  // ---------------------------------------------------------------------
  // Page lookup
  // ---------------------------------------------------------------------

  /**
   * `get_page_by_name` as written: the loop body returns on its first pass,
   * so only the first page is ever compared with the slug.
   */
  function LookupAsWritten(pages: seq<Page>, slug: string): (r: PageLookup)
    ensures r.NoPages? <==> pages == []
    ensures r.Found? ==> r.page == pages[0] && r.page.postName == slug
    ensures r.NotFound? ==> pages[0].postName != slug
  {
    if pages == [] then NoPages
    else if slug == pages[0].postName then Found(pages[0])
    else NotFound
  }

  /** A page with the slug at position 1 goes unseen when position 0 holds another page. */
  lemma LookupMissesLaterMatch()
    ensures var pages := [Page("about", "About"), Page("login", "Login")];
            pages[1].postName == "login" && LookupAsWritten(pages, "login") == NotFound
  {
  }

  /**
   * The lookup the helper is evidently meant to perform: the first page with
   * the slug, `false` when no page has it, `null` on an empty list.
   */
  function FindPageByName(pages: seq<Page>, slug: string): (r: PageLookup)
    ensures r.NoPages? <==> pages == []
    ensures r.Found? ==> r.page in pages && r.page.postName == slug
    ensures r.Found? ==> exists i :: FirstWithSlug(pages, i, slug) && pages[i] == r.page
    ensures r.NotFound? <==> pages != [] && forall i :: 0 <= i < |pages| ==> pages[i].postName != slug
    decreases |pages|
  {
    if pages == [] then NoPages
    else if slug == pages[0].postName then
      assert FirstWithSlug(pages, 0, slug);
      Found(pages[0])
    else
      var rest := FindPageByName(pages[1..], slug);
      if rest.NoPages? then NotFound
      else
        FirstWithSlugShift(pages, slug, rest);
        rest
  }

  /** Position `i` holds the first page of `pages` whose slug is `slug`. */
  ghost predicate FirstWithSlug(pages: seq<Page>, i: int, slug: string)
  {
    0 <= i < |pages| && pages[i].postName == slug
    && forall j :: 0 <= j < i ==> pages[j].postName != slug
  }

  /** A first match in the tail is a first match in the whole list when the head does not match. */
  lemma FirstWithSlugShift(pages: seq<Page>, slug: string, rest: PageLookup)
    requires pages != [] && pages[0].postName != slug
    requires rest.Found? ==> exists i :: FirstWithSlug(pages[1..], i, slug) && pages[1..][i] == rest.page
    ensures rest.Found? ==> exists i :: FirstWithSlug(pages, i, slug) && pages[i] == rest.page
  {
  }

  /** Where the first page does hold the slug, both lookups agree. */
  lemma LookupAgreesOnFirstPage(pages: seq<Page>, slug: string)
    requires pages == [] || pages[0].postName == slug || |pages| == 1
    ensures LookupAsWritten(pages, slug) == FindPageByName(pages, slug)
  {
  }

  // ---------------------------------------------------------------------
  // The plugin class
  // ---------------------------------------------------------------------

  class CustomLoginPage {
    /** `$login_page`: assigned once, in the constructor, and only read afterwards. */
    const loginPage: string

    /** The login page URL is `home_url('/login/')`; the configured slug plays no part. */
    constructor (home: string)
      ensures loginPage == HomeUrl(home, LoginPath)
    {
      loginPage := HomeUrl(home, LoginPath);
    }

    /** On `wp_logout`: to the login page with status "false". */
    function LogoutPage(): (o: HookOutcome)
      ensures o == Redirect(StatusUrl(loginPage, StatusLoggedOut))
    {
      assert StatusUrl(loginPage, StatusLoggedOut) == loginPage + ("?login=" + StatusLoggedOut) == loginPage + "?login=false";
      Redirect(loginPage + "?login=false")
    }

    /**
     * The `authenticate` filter at priority 1: an empty username or an empty
     * password sends the client to the login page with status "empty";
     * otherwise the handler returns null and authentication goes on.
     */
    function VerifyUsernamePassword(username: string, password: string): (o: HookOutcome)
      ensures o.Redirect? <==> username == "" || password == ""
      ensures o.Redirect? ==> o == Redirect(StatusUrl(loginPage, StatusEmpty))
    {
      assert StatusUrl(loginPage, StatusEmpty) == loginPage + ("?login=" + StatusEmpty) == loginPage + "?login=empty";
      if "" == username || "" == password then Redirect(loginPage + "?login=empty")
      else Continue
    }

    /** On `wp_login_failed`: to the login page with status "failed". */
    function LoginFailed(): (o: HookOutcome)
      ensures o == Redirect(StatusUrl(loginPage, StatusFailed))
    {
      assert StatusUrl(loginPage, StatusFailed) == loginPage + ("?login=" + StatusFailed) == loginPage + "?login=failed";
      Redirect(loginPage + "?login=failed")
    }

    /**
     * On `init`: a GET request whose URI has basename `wp-login.php` goes to
     * the login page; every other request is left alone.
     */
    function RedirectLoginPage(requestUri: string, requestMethod: string): (o: HookOutcome)
      ensures o.Redirect? <==> Basename(requestUri) == LoginScript && requestMethod == "GET"
      ensures o.Redirect? ==> o.url == loginPage
    {
      var pageViewed := Basename(requestUri);
      if LoginScript == pageViewed && requestMethod == "GET" then Redirect(loginPage)
      else Continue
    }

    /** `get_page_by_name($slug)` over the list `get_pages()` returned. */
    method GetPageByName(pages: seq<Page>, slug: string) returns (r: PageLookup)
      ensures r == LookupAsWritten(pages, slug)
    {
      // The source's foreach returns from inside its first pass: the loop
      // stops as soon as a result other than the final `null` is set.
      r := NoPages;
      var i := 0;
      while i < |pages| && r == NoPages
        invariant 0 <= i <= |pages| && i <= 1
        invariant r.NoPages? <==> i == 0
        invariant i == 1 ==> r == LookupAsWritten(pages, slug)
      {
        var page := pages[i];
        if slug == page.postName {
          r := Found(page);
        } else {
          r := NotFound;
        }
        i := i + 1;
      }
    }

    /**
     * The activation hook: the login page is inserted unless the lookup for
     * "login" yields a page (a page object is truthy; `false` and `null` are not).
     */
    method Activate(pages: seq<Page>) returns (insertLoginPage: bool)
      ensures insertLoginPage <==> !(pages != [] && pages[0].postName == "login")
    {
      var found := GetPageByName(pages, "login");
      insertLoginPage := !found.Found?;
    }

    /** The `the_content` filter: builds `$message` step by step, as the source does. */
    method InsertLoginForm(req: Request, site: Site, content: string) returns (r: FormOutcome)
      ensures r == FormOutput(req, site, content)
    {
      if !req.isAdmin && !req.isLoginPage {
        return PassThrough(content);
      }
      if req.templateExists {
        return PassThrough(content);
      }
      var login := LoginValue(req.query);
      var message := "";
      if !Truthy(login) && req.loggedIn {
        message := LogoutPrompt(site.logoutUrl);
        return Render(message);
      }
      var args := DefaultFormArgs(site.home);
      if Truthy(login) {
        // the source's `switch ( $login )`
        var status := login.value;
        if status == StatusFailed {
          message := message + FailedMessage;
        } else if status == StatusEmpty {
          message := message + EmptyMessage;
        } else if status == StatusLoggedOut {
          message := message + LoggedOutNotice;
          message := message + GoThereLink(site.home);
          var redirect := RedirectScript(site.home);
          assert message == LoggedOutNotice + GoThereLink(site.home);
          return Render(content + message + redirect);
        }
      }
      assert message == StatusMessage(login);
      return Render(content + message + site.loginForm(args));
    }
  }

  // ---------------------------------------------------------------------
  // What insert_login_form promises
  // ---------------------------------------------------------------------

  /** The content leaves the filter untouched exactly off the login page or under a theme template. */
  lemma PassThroughIff(req: Request, site: Site, content: string)
    ensures FormOutput(req, site, content).PassThrough?
            <==> (!req.isAdmin && !req.isLoginPage) || req.templateExists
    ensures FormOutput(req, site, content).PassThrough? ==> FormOutput(req, site, content).content == content
  {
  }

  /** An absent `login` value, "" and "0" are one and the same "no status". */
  lemma FalsyStatusesAgree(req: Request, site: Site, content: string, v: string)
    requires v == "" || v == "0"
    ensures FormOutput(req.(query := req.query["login" := v]), site, content)
            == FormOutput(req.(query := req.query - {"login"}), site, content)
  {
  }

  /** A logged-in user without a status sees the logout prompt alone: no content and no form. */
  lemma LoggedInWithoutStatus(req: Request, site: Site, content: string)
    requires (req.isAdmin || req.isLoginPage) && !req.templateExists
    requires !Truthy(LoginValue(req.query)) && req.loggedIn
    ensures FormOutput(req, site, content) == Render(LogoutPrompt(site.logoutUrl))
  {
  }

  /**
   * On the login page, every outcome other than the pass-through, the logout
   * prompt and the logged-out notice is the content, then the message for
   * "failed", for "empty" or none, then the form built with the default arguments.
   */
  lemma FormCases(req: Request, site: Site, content: string)
    requires (req.isAdmin || req.isLoginPage) && !req.templateExists
    requires Truthy(LoginValue(req.query)) || !req.loggedIn
    ensures var login := LoginValue(req.query);
            var form := site.loginForm(FormArgs(site.home, "user", "pass", false));
            FormOutput(req, site, content)
            == if login == Some("false") then
                 Render(content + LoggedOutNotice + GoThereLink(site.home) + RedirectScript(site.home))
               else if login == Some("failed") then Render(content + FailedMessage + form)
               else if login == Some("empty") then Render(content + EmptyMessage + form)
               else Render(content + form)
  {
  }

  // ---------------------------------------------------------------------
  // Redirect, then render: the status each handler writes is the one the form reads
  // ---------------------------------------------------------------------

  /** A request for the login page carrying the query of `url`, under no theme template. */
  function LoginPageRequest(p: CustomLoginPage, url: string, loggedIn: bool): Request
  {
    Request(false, true, false, loggedIn, StatusParams(p.loginPage, url))
  }

  /** Empty credentials end on the login page with the "empty" error above the form. */
  lemma EmptyCredentialsFlow(p: CustomLoginPage, site: Site, content: string,
                             username: string, password: string, loggedIn: bool)
    requires username == "" || password == ""
    ensures var o := p.VerifyUsernamePassword(username, password);
            o.Redirect?
            && FormOutput(LoginPageRequest(p, o.url, loggedIn), site, content)
               == Render(content + EmptyMessage + site.loginForm(DefaultFormArgs(site.home)))
  {
  }

  /** A failed login ends on the login page with the "failed" error above the form. */
  lemma FailedLoginFlow(p: CustomLoginPage, site: Site, content: string, loggedIn: bool)
    ensures FormOutput(LoginPageRequest(p, p.LoginFailed().url, loggedIn), site, content)
            == Render(content + FailedMessage + site.loginForm(DefaultFormArgs(site.home)))
  {
  }

  /** A logout ends on the logged-out notice and its timed redirect home, without a form. */
  lemma LogoutFlow(p: CustomLoginPage, site: Site, content: string, loggedIn: bool)
    ensures FormOutput(LoginPageRequest(p, p.LogoutPage().url, loggedIn), site, content)
            == Render(content + LoggedOutNotice + GoThereLink(site.home) + RedirectScript(site.home))
  {
  }

  /**
   * A GET of `.../wp-login.php` ends on the login page with no status: the
   * logout prompt for a logged-in user, the plain form for anyone else.
   */
  lemma {:induction false} LoginScriptFlow(p: CustomLoginPage, site: Site, content: string,
                                           dir: string, loggedIn: bool)
    ensures var o := p.RedirectLoginPage(dir + "/" + LoginScript, "GET");
            o == Redirect(p.loginPage)
            && FormOutput(LoginPageRequest(p, o.url, loggedIn), site, content)
               == if loggedIn then Render(LogoutPrompt(site.logoutUrl))
                  else Render(content + site.loginForm(DefaultFormArgs(site.home)))
  {
    assert NoSlash(LoginScript);
    BasenameOfJoin(dir, LoginScript);
    StatusParamsOfLoginPage(p.loginPage);
    assert content + "" == content;
  }

  /** A trailing slash does not hide the login script from the router. */
  lemma {:induction false} TrailingSlashStillRedirects(p: CustomLoginPage, dir: string)
    ensures p.RedirectLoginPage(dir + "/" + LoginScript + "/", "GET") == Redirect(p.loginPage)
  {
    assert NoSlash(LoginScript);
    BasenameOfJoin(dir, LoginScript);
    BasenameIgnoresTrailingSlash(dir + "/" + LoginScript);
  }

  /**
   * The basename of a request URI includes its query string, so a GET of the
   * login script with any query (the lost-password screen, say) is not redirected.
   */
  lemma QueryStringIsNotRedirected(p: CustomLoginPage, dir: string, query: string)
    requires NoSlash(query)
    ensures p.RedirectLoginPage(dir + "/" + LoginScript + "?" + query, "GET") == Continue
  {
  }

  /** The wrapper `wds_login_page()` of the plugin file: a new instance of the class. */
  method NewCustomLoginPage(home: string) returns (p: CustomLoginPage)
    ensures fresh(p) && p.loginPage == HomeUrl(home, LoginPath)
  {
    p := new CustomLoginPage(home);
  }
}
