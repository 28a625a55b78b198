/**
 * The WordPress services the plugin consumes, reduced to the values it reads
 * from them. Everything else about them is opaque.
 */
module WordPress {

  /** A page as returned by `get_pages()`: the plugin reads only its slug and title. */
  datatype Page = Page(postName: string, postTitle: string)

  /** The options table as `get_option` reads it: option name to stored value. */
  type OptionStore = map<string, string>

  /** `home_url($path)`: the site root followed by the path. */
  function HomeUrl(home: string, path: string): (url: string)
    ensures home <= url && url[|home|..] == path
  {
    home + path
  }
}
