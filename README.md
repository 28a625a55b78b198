# WDS Custom Login Page: a verified model

WDS Custom Login Page is a WordPress plugin. It sends visitors of the built-in
`wp-login.php` to a login page of the site, `home_url('/login/')`. It catches
empty credentials, failed logins and logouts and sends the client back to that
page with a `login` status in the query string. On that page it renders a
status message and a login form. A small options class holds the configurable
login slug and guards its private fields behind a whitelisting getter, and a
helper caches one instance of that class for the whole process.

This project models those decisions in Dafny and proves what they promise.
Every WordPress side effect becomes a returned value. `wp_redirect(); exit;` is
`Redirect(url)`, a handler that falls through is `Continue`, and the
`the_content` filter returns `PassThrough(content)` or `Render(html)`.
WordPress services (`get_pages`, `get_option`, `is_admin`, `is_page`,
`locate_template`, `is_user_logged_in`, `wp_logout_url`, `wp_login_form`,
`apply_filters`) become parameters.

Modules, one per file:

- `Wrappers` (`wrappers.dfy`): `Option` and `Result`.
- `Php` (`php.dfy`): PHP truthiness of a query value and `basename`.
- `WordPress` (`wordpress.dfy`): the page record, the options table and `home_url`.
- `LoginPage` (`login_page.dfy`): the class `WDS_Custom_Login_page` as the
  class `CustomLoginPage`. Its redirect handlers are functions. Its page lookup
  and its content filter are methods proved against the functions
  `LookupAsWritten` and `FormOutput`. The module also holds lemmas that follow
  each redirect to the page it lands on.
- `Options` (`options.dfy`): the class `WDS_Login_Page_Options` as
  `LoginPageOptions`, the static cache of `wds_login_options()` as
  `OptionsCache`, and `wds_login_slug()` / `wds_login_page()`.
- `LoginUrls` (`login_urls.dfy`): how the router's fixed URL relates to the
  slug URL of the options file.

Three behaviours of the code are easy to misread:

- The router redirects to the fixed `home_url('/login/')`. It does not use the
  configured slug. `LoginUrls.RouterUrlIsSlugUrlIff` shows the two URLs agree
  exactly when the effective slug is `login`.
- A `failed` or `empty` status shows its message and then the login form, not
  the message alone.
- The page lookup examines only the first page. The model reproduces this and
  records it under Findings.

## Model

| member | source | states |
|---|---|---|
| Php.TruthyString | wds-custom-login-page.php:180 | a truthy string is never empty, and every string of two or more characters is truthy; only `""` and `"0"` are falsy |
| Php.Truthy | wds-custom-login-page.php:175-196 | the `0` that stands for a missing `login` value is falsy, and a truthy value is neither `""` nor `"0"` |
| WordPress.HomeUrl | wds-custom-login-page.php:35 | the URL starts with the site root and continues with the given path |
| Php.Basename | wds-custom-login-page.php:135 | the basename holds no '/' and is no longer than the path |
| Php.BasenameOfJoin | wds-custom-login-page.php:135 | the basename of `dir/name` is `name` for every directory part, when `name` is a non-empty name without '/' |
| Php.BasenameIgnoresTrailingSlash | wds-custom-login-page.php:135 | a trailing '/' does not change the basename |
| LoginPage.CustomLoginPage.constructor | wds-custom-login-page.php:29-40 | the login page URL is the site root followed by `/login/` |
| LoginPage.NewCustomLoginPage | wds-custom-login-page.php:234-236 | the wrapper returns a fresh instance whose login page URL is the site root followed by `/login/` |
| LoginPage.CustomLoginPage.LogoutPage | wds-custom-login-page.php:105-108 | logout always redirects to the login page with `?login=false` |
| LoginPage.CustomLoginPage.VerifyUsernamePassword | wds-custom-login-page.php:113-121 | it redirects if and only if the username or the password is empty, and then always to the login page with `?login=empty` |
| LoginPage.CustomLoginPage.LoginFailed | wds-custom-login-page.php:126-129 | a failed login always redirects to the login page with `?login=failed` |
| LoginPage.CustomLoginPage.RedirectLoginPage | wds-custom-login-page.php:134-141 | it redirects to the login page if and only if the request URI's basename is `wp-login.php` and the method is GET |
| LoginPage.StatusParamsOfStatusUrl | wds-custom-login-page.php:105-129 | each status URL the handlers build gives back, as `$_GET`, exactly that one `login` value |
| LoginPage.StatusParamsOfLoginPage | wds-custom-login-page.php:138 | the bare login page URL carries no `login` value |
| LoginPage.LoginValue | wds-custom-login-page.php:175 | a value is present exactly when `login` is a query parameter, and it is that parameter's value |
| LoginPage.StatusMessage | wds-custom-login-page.php:196-216 | the message is empty, the "failed" error or the "empty" error; the "failed" error exactly for status `failed`, the "empty" error exactly for status `empty` |
| LoginPage.FormOutput | wds-custom-login-page.php:164-223 | the pass-through outcome carries the content unchanged; a logged-in user without a status gets the logout prompt alone |
| LoginPage.LookupAsWritten | wds-custom-login-page.php:149-159 | null exactly on an empty list; the page only when it is the first page and has the slug; false only when the first page has another slug |
| LoginPage.CustomLoginPage.GetPageByName | wds-custom-login-page.php:149-159 | the loop, which the source leaves on its first pass, returns the same result as `LookupAsWritten` |
| LoginPage.LookupMissesLaterMatch | wds-custom-login-page.php:152-158 | with pages `about`, `login`, the lookup for `login` returns false although the second page matches |
| LoginPage.FindPageByName | wds-custom-login-page.php:149-159 | the intended lookup: a returned page is the first page in the list with the slug; false if and only if the list is non-empty and no page has the slug; null if and only if the list is empty |
| LoginPage.LookupAgreesOnFirstPage | wds-custom-login-page.php:149-159 | the as-written and intended lookups agree when the list is empty, has one page, or its first page has the slug |
| LoginPage.CustomLoginPage.Activate | wds-custom-login-page.php:57-64 | activation inserts a login page if and only if the first page's slug is not `login` |
| LoginPage.CustomLoginPage.InsertLoginForm | wds-custom-login-page.php:164-223 | the step-by-step build of `$message` through the `switch` returns exactly `FormOutput` |
| LoginPage.PassThroughIff | wds-custom-login-page.php:164-172 | the content is returned untouched if and only if the request is neither admin nor the login page, or the theme has `template-login.php` |
| LoginPage.FalsyStatusesAgree | wds-custom-login-page.php:175-180 | a missing `login` value, `''` and `'0'` give the same output |
| LoginPage.LoggedInWithoutStatus | wds-custom-login-page.php:180-186 | a logged-in user without a status gets only the logout prompt, with no content and no form |
| LoginPage.FormCases | wds-custom-login-page.php:189-221 | `false` gives content, the logged-out notice, the "Go there now" link and a 5000 ms redirect script with no form; `failed` and `empty` give content, their error and the form; any other value gives content and the form; the form is built with redirect home and ids `user` and `pass` |
| LoginPage.EmptyCredentialsFlow | wds-custom-login-page.php:116-117 | empty credentials redirect, and the page they land on shows the "empty" error above the form |
| LoginPage.FailedLoginFlow | wds-custom-login-page.php:126-129 | the page a failed login lands on shows the "failed" error above the form |
| LoginPage.LogoutFlow | wds-custom-login-page.php:105-108 | the page a logout lands on shows the logged-out notice and the timed redirect, with no form |
| LoginPage.LoginScriptFlow | wds-custom-login-page.php:134-141 | a GET of `dir/wp-login.php` redirects to the login page, which has no status: the logout prompt if the user is logged in, otherwise content and form |
| LoginPage.TrailingSlashStillRedirects | wds-custom-login-page.php:135-137 | a GET of `dir/wp-login.php/` is redirected too |
| LoginPage.QueryStringIsNotRedirected | wds-custom-login-page.php:135-137 | a GET of `dir/wp-login.php?query` is not redirected, because the basename keeps the query string |
| Options.LoginPageOptions.constructor | inc/options.php:41-45 | a new object has slug `login`, key `wds_login_options`, metabox id `wds_login_option_metabox`, title `Login Page Options` and an empty options page |
| Options.LoginPageOptions.Get | inc/options.php:136-143 | it succeeds if and only if the name is `key`, `metabox_id`, `title` or `options_page`, and then returns that field; any other name throws `Invalid property: ` followed by the name |
| Options.LoginPageOptions.GetPageList | inc/options.php:119-128 | the keys are exactly the slugs of the pages, and each slug maps to the title of the last page with that slug; no pages give an empty map |
| Options.PageListStep | inc/options.php:123-125 | one loop step turns the list of the first n pages into the list of the first n + 1 pages |
| Options.OptionsCache.constructor | inc/options.php:153 | the cache starts empty |
| Options.OptionsCache.Instance | inc/options.php:152-160 | the first call constructs and hooks a fresh object and caches it; a later call returns the cached object and does not hook again |
| Options.StartUpThenCall | inc/options.php:183 | the file's start-up call and a later call return the same object, with slug `login` and key `wds_login_options` |
| Options.LoginSlug | inc/options.php:176-180 | the filtered `login_slug` option, or the filtered `login` when none is stored |
| Options.SlugRoundTrip | inc/options.php:176-180 | a stored slug is read back unchanged when the filter changes nothing |
| Options.SlugLoginPage | inc/options.php:172-174 | the site root, `/`, the slug and `/` |
| Options.SlugLoginPageInjective | inc/options.php:172-174 | two slugs give the same URL if and only if they are equal |
| LoginUrls.RouterUrlIsSlugUrlIff | wds-custom-login-page.php:35 | the router's login URL equals the slug URL if and only if the effective slug is `login` |
| LoginUrls.DefaultsAgree | inc/options.php:177 | with no stored slug and no filter, the two login URLs are equal |

## Left out

- Hook registration is left out: `do_hooks`, `hooks`, `register_activation_hook`, `register_deactivation_hook` and the add_action/add_filter calls. It is wiring only.
- `deactivate` has an empty body and is not modelled.
- The constructor's `basename`, `directory_path` and `directory_url` fields are not modelled. They come from WordPress path helpers and no modelled decision reads them.
- The bootstrap in wds-custom-login-page.php:227-228 stores an instance in `$_GLOBALS` and calls `do_hooks`. It is not modelled.
- `insert_login_page` is not modelled: `wp_insert_post`, `update_post_meta` and `update_option` are storage calls. `Activate` returns whether it would run.
- The settings screen is not modelled: `init` (`register_setting`), `add_options_page`, `admin_page_display` and `add_options_page_metabox`. They are CMB2 library and HTML output. The metabox saves the slug inside the `wds_login_options` option, while `wds_login_slug` reads a separate `login_slug` option. The link between the two is not part of this model.
- `wds_login_get_option` is not modelled. It only forwards to `cmb2_get_option`.
- PHP's redeclaration clash between the two `wds_login_page` functions is not modelled. They are `LoginPage.NewCustomLoginPage` and `Options.SlugLoginPage`.
- `exit` is not modelled. A `Redirect` outcome stands for the end of the request.
- `home_url($path)` is modelled as the site root followed by the path. WordPress's handling of the scheme and of leading slashes is not part of this model.
- The other WordPress services are parameters: `wp_login_form` is an opaque function of its arguments, `wp_logout_url(home_url())` is an opaque string, `__()` is the identity, the `wds_login_slug` filter is an arbitrary function, and `get_pages()` / `get_option` are given lists and maps.
- `$_GET` is a map from string to string. Array-valued parameters such as `login[]=x` are not modelled.
- LoginPage.StatusParams: models `$_GET` only for the URL shapes the handlers produce. It does not split on '&' and does not URL-decode.
- LoginPage.CustomLoginPage.VerifyUsernamePassword: the `$user` argument is not consulted. `Continue` stands for returning null as the filter's value.
- LoginPage.LookupAsWritten: compares slugs with string equality. PHP's `==` compares two numeric strings as numbers (`"1" == "01"`). The only caller passes `login`, where both comparisons agree.
- Php.Basename: treats only '/' as a separator. PHP's locale-dependent multibyte handling and the Windows backslash are not modelled.
- Options.LoginPageOptions.GetPageList: a Dafny map has no order, so the order of the PHP array is not modelled. PHP's conversion of decimal-integer keys to integers is not modelled either; it never merges two distinct slugs.
- Options.OptionsCache.Instance: `hooksCalls` is a ghost counter that stands for the `hooks()` call. The actions it registers are not modelled.
- Options.LoginPageOptions.Get: models `__get` itself. PHP calls it only for inaccessible properties, so the public `login_slug` is read directly and never reaches it.

## Findings

| source | as written | input that shows it | evidently intended | confidence | as-written member | corrected member |
|---|---|---|---|---|---|---|
| wds-custom-login-page.php:152-158 | `return false` sits inside the `foreach`, so only the first page is compared with the slug | pages `about`, `login` and slug `login` give false | return the first page with the slug, and false only when no page has it | not executed | LoginPage.LookupMissesLaterMatch | LoginPage.FindPageByName |

`Activate` keeps the lookup as written, because it models what the plugin does.
So activation inserts a second `login` page whenever an existing one is not
first in the list.
