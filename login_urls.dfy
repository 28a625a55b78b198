/**
 * How the two files' notions of "the login page" relate: the router's fixed
 * `home_url('/login/')` and the options file's `home_url('/' . slug . '/')`.
 */
module LoginUrls {
  import opened WordPress
  import LoginPage
  import Options

  /**
   * The router's URL and the slug URL coincide exactly when the effective
   * slug is "login": a slug configured to anything else is ignored by every
   * redirect. Like `Options.SlugLoginPageInjective`, this rests on `HomeUrl`
   * being plain concatenation; under WordPress's stripping of leading
   * slashes the slug "/login" would give the router's URL as well.
   */
  lemma {:induction false} RouterUrlIsSlugUrlIff(p: LoginPage.CustomLoginPage, home: string,
                                                  store: OptionStore, slugFilter: string -> string)
    requires p.loginPage == HomeUrl(home, LoginPage.LoginPath)
    ensures p.loginPage == Options.SlugLoginPage(home, store, slugFilter)
            <==> Options.LoginSlug(store, slugFilter) == "login"
  {
    var slug := Options.LoginSlug(store, slugFilter);
    assert p.loginPage == home + "/" + "login" + "/";
    Options.SlugLoginPageInjective(home, slug, "login");
  }

  /** With nothing stored and no filter, both URLs are `home + "/login/"`. */
  lemma DefaultsAgree(p: LoginPage.CustomLoginPage, home: string)
    requires p.loginPage == HomeUrl(home, LoginPage.LoginPath)
    ensures p.loginPage == Options.SlugLoginPage(home, map[], s => s)
  {
  }
}
