/**
 * The class WDS_Login_Page_Options and the helper functions beside it: the
 * guarded property getter, the page list offered in the settings screen, the
 * process-wide cached instance, and the configurable slug and its URL.
 */
module Options {
  import opened Wrappers
  import opened WordPress

  /** The option key, which is also the settings page slug. */
  const OptionKey := "wds_login_options"
  const MetaboxId := "wds_login_option_metabox"
  const OptionsTitle := "Login Page Options"
  const DefaultSlug := "login"

  /** The names `__get` gives access to; `in_array` is called with strict comparison. */
  const GettableFields: set<string> := {"key", "metabox_id", "title", "options_page"}

  /** The message of the exception `__get` throws for any other name. */
  function InvalidProperty(field: string): string
  {
    "Invalid property: " + field
  }

  /** A page-slug to page-title map where each key's title is that of the LAST page with the slug. */
  ghost predicate IsPageList(pages: seq<Page>, n: nat, pageList: map<string, string>)
    requires n <= |pages|
  {
    && pageList.Keys == (set j | 0 <= j < n :: pages[j].postName)
    && forall name :: name in pageList ==> LastTitle(pages, n, name, pageList[name])
  }

  /** Some page before `n` has slug `name` and title `title`, and no later page before `n` has that slug. */
  ghost predicate LastTitle(pages: seq<Page>, n: nat, name: string, title: string)
    requires n <= |pages|
  {
    exists j :: 0 <= j < n && pages[j] == Page(name, title) && NoSlugIn(pages, j + 1, n, name)
  }

  ghost predicate NoSlugIn(pages: seq<Page>, from: nat, to: nat, name: string)
    requires to <= |pages|
  {
    forall k :: from <= k < to ==> pages[k].postName != name
  }

  class LoginPageOptions {
    /** Public: read directly, never through `__get`. */
    var loginSlug: string
    /** Private, with their defaults as initialisers. */
    const key: string := OptionKey
    const metaboxId: string := MetaboxId
    /** Protected: `title` is set by the constructor, `optionsPage` by the admin menu hook. */
    var title: string
    var optionsPage: string

    constructor ()
      ensures loginSlug == DefaultSlug && key == OptionKey && metaboxId == MetaboxId
      ensures title == OptionsTitle && optionsPage == ""
    {
      title := OptionsTitle;
      loginSlug := DefaultSlug;
      optionsPage := "";
    }

    /**
     * `__get($field)`: the value of one of the four whitelisted fields, or the
     * exception "Invalid property: <field>" for any other name.
     */
    function Get(field: string): (r: Result<string, string>)
      reads this
      ensures r.Ok? <==> field in GettableFields
      ensures field == "key" ==> r == Ok(key)
      ensures field == "metabox_id" ==> r == Ok(metaboxId)
      ensures field == "title" ==> r == Ok(title)
      ensures field == "options_page" ==> r == Ok(optionsPage)
      ensures r.Err? ==> r.error == InvalidProperty(field)
    {
      if field in GettableFields then
        Ok(if field == "key" then key
           else if field == "metabox_id" then metaboxId
           else if field == "title" then title
           else optionsPage)
      else Err("Invalid property: " + field)
    }

    /**
     * `get_page_list()` over the pages `get_pages()` returned: one entry per
     * distinct slug, later pages overwriting earlier ones.
     */
    method GetPageList(pages: seq<Page>) returns (pageList: map<string, string>)
      ensures pageList.Keys == (set j | 0 <= j < |pages| :: pages[j].postName)
      ensures forall name :: name in pageList ==> LastTitle(pages, |pages|, name, pageList[name])
    {
      pageList := map[];
      var i := 0;
      while i < |pages|
        invariant 0 <= i <= |pages|
        invariant IsPageList(pages, i, pageList)
      {
        var page := pages[i];
        PageListStep(pages, i, pageList);
        pageList := pageList[page.postName := page.postTitle];
        i := i + 1;
      }
    }
  }

  /** Adding page `n` to a page list of the first `n` pages gives the page list of the first `n + 1`. */
  lemma PageListStep(pages: seq<Page>, n: nat, pageList: map<string, string>)
    requires n < |pages| && IsPageList(pages, n, pageList)
    ensures IsPageList(pages, n + 1, pageList[pages[n].postName := pages[n].postTitle])
  {
  }

  /**
   * The static cache of `wds_login_options()`: `static $object = null`, set on
   * the first call and returned on every call after.
   */
  class OptionsCache {
    var cached: LoginPageOptions?
    /** How many times `hooks()` has been called on the cached object. */
    ghost var hooksCalls: nat

    constructor ()
      ensures cached == null && hooksCalls == 0
    {
      cached := null;
      hooksCalls := 0;
    }

    /**
     * `wds_login_options()`: constructs and hooks the options object on the
     * first call only; every call returns the cached instance.
     */
    method Instance() returns (o: LoginPageOptions)
      modifies this
      ensures cached == o
      ensures old(cached) != null ==> o == old(cached) && hooksCalls == old(hooksCalls)
      ensures old(cached) == null ==> fresh(o) && hooksCalls == old(hooksCalls) + 1
      ensures old(cached) == null ==> o.loginSlug == DefaultSlug && o.key == OptionKey
                                      && o.title == OptionsTitle && o.optionsPage == ""
    {
      if cached == null {
        var created := new LoginPageOptions();
        // `$object->hooks()` registers three admin actions; the registration itself is not modelled.
        hooksCalls := hooksCalls + 1;
        cached := created;
      }
      o := cached;
    }
  }

  /**
   * The file's own start-up call of `wds_login_options()` followed by a later
   * call: both yield one object, in its freshly constructed state.
   */
  method StartUpThenCall() returns (first: LoginPageOptions, second: LoginPageOptions)
    ensures first == second
    ensures first.loginSlug == DefaultSlug && first.Get("key") == Ok(OptionKey)
  {
    var cache := new OptionsCache();
    first := cache.Instance();
    second := cache.Instance();
    assert cache.hooksCalls == 1;
  }

  /**
   * `wds_login_slug()`: the stored `login_slug` option, "login" when none is
   * stored, handed through the `wds_login_slug` filter.
   */
  function LoginSlug(store: OptionStore, slugFilter: string -> string): (slug: string)
    ensures "login_slug" in store ==> slug == slugFilter(store["login_slug"])
    ensures "login_slug" !in store ==> slug == slugFilter(DefaultSlug)
  {
    var stored := if "login_slug" in store then store["login_slug"] else DefaultSlug;
    slugFilter(stored)
  }

  /** `wds_login_page()` of the options file: `home_url('/' . wds_login_slug() . '/')`. */
  function SlugLoginPage(home: string, store: OptionStore, slugFilter: string -> string): (url: string)
    ensures url == home + "/" + LoginSlug(store, slugFilter) + "/"
  {
    HomeUrl(home, "/" + LoginSlug(store, slugFilter) + "/")
  }

  /** A slug stored under `login_slug` is what `wds_login_slug()` reads back when no filter changes it. */
  lemma SlugRoundTrip(store: OptionStore, slug: string)
    ensures LoginSlug(store["login_slug" := slug], s => s) == slug
  {
  }

  /**
   * The slug URL is determined by, and determines, the slug. This rests on
   * `HomeUrl` being plain concatenation: WordPress's `home_url` strips leading
   * slashes from the path, under which slugs "a" and "/a" give one URL.
   */
  lemma {:induction false} SlugLoginPageInjective(home: string, slug1: string, slug2: string)
    ensures home + "/" + slug1 + "/" == home + "/" + slug2 + "/" <==> slug1 == slug2
  {
    var u1, u2 := home + "/" + slug1 + "/", home + "/" + slug2 + "/";
    if u1 == u2 {
      assert |slug1| == |slug2|;
      assert slug1 == u1[|home| + 1..|u1| - 1];
      assert slug2 == u2[|home| + 1..|u2| - 1];
    }
  }
}
