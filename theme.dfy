/**
 * The colour-theme cookie (app/utils/theme.server.tsx). The `cookie`
 * library is abstracted: parsing a header is a function argument, and
 * serialising is the record of what would be serialised.
 */
module Theme {
  import opened Wrappers

  datatype Theme = Light | Dark | System

  const CookieName: string := "en-theme"

  /** One year in seconds, the lifetime of a chosen theme. */
  const OneYear: int := 31536000

  /** The string form of a theme. */
  function ThemeName(t: Theme): string {
    match t
    case Light => "light"
    case Dark => "dark"
    case System => "system"
  }

  /** The arguments of `cookie.serialize(name, value, { path, maxAge })`. */
  datatype SetCookie = SetCookie(name: string, value: string, path: string, maxAge: int)

  /**
   * The raw theme value (lines 7-10): the `en-theme` entry of the parsed
   * header, or "light" when there is no header or it is empty (falsy).
   */
  function CookieValue(cookieHeader: Option<string>, parse: string -> map<string, string>): Option<string> {
    if cookieHeader.Some? && cookieHeader.value != "" then
      var cookies := parse(cookieHeader.value);
      if CookieName in cookies then Some(cookies[CookieName]) else None
    else Some("light")
  }

  /**
   * `getTheme`: only "light" and "dark" are recognised; anything else,
   * "system" included, and a header without the cookie give null.
   */
  function GetTheme(cookieHeader: Option<string>, parse: string -> map<string, string>): (r: Option<Theme>)
    ensures r != Some(System)
    ensures r.Some? ==> CookieValue(cookieHeader, parse) == Some(ThemeName(r.value))
    ensures r.None? <==> CookieValue(cookieHeader, parse) !in {Some("light"), Some("dark")}
    ensures cookieHeader.None? ==> r == Some(Light)
  {
    var parsed := CookieValue(cookieHeader, parse);
    if parsed == Some("light") then Some(Light)
    else if parsed == Some("dark") then Some(Dark)
    else None
  }

  /**
   * `setTheme`: "system" clears the cookie (empty value, Max-Age -1);
   * any other theme stores its name for a year. The path is always "/".
   */
  function SetTheme(t: Theme): (c: SetCookie)
    ensures c.name == CookieName && c.path == "/"
    ensures t == System ==> c.value == "" && c.maxAge == -1
    ensures t != System ==> c.value == ThemeName(t) && c.maxAge == OneYear
  {
    if t == System then SetCookie(CookieName, "", "/", -1)
    else SetCookie(CookieName, ThemeName(t), "/", OneYear)
  }

  /**
   * A browser's cookie store receiving a Set-Cookie (section 5.2.2 of
   * RFC 6265: a Max-Age of zero or less expires the cookie at once, so it
   * is evicted; otherwise the value replaces any earlier one).
   */
  function StoreCookie(jar: map<string, string>, c: SetCookie): (updated: map<string, string>)
    ensures c.maxAge <= 0 ==> c.name !in updated
    ensures c.maxAge > 0 ==> c.name in updated && updated[c.name] == c.value
    ensures forall n :: n != c.name ==> (n in updated <==> n in jar) && (n in jar ==> updated[n] == jar[n])
  {
    if c.maxAge <= 0 then jar - {c.name} else jar[c.name := c.value]
  }

  /**
   * What the next request sees: the header the browser sends carries the
   * stored cookies (it sends none when nothing is stored). A light or dark
   * choice reads back as itself; choosing "system" reads back as null, or as
   * light when no cookie at all is left.
   */
  lemma ThemeRoundTrip(t: Theme, jar: map<string, string>, cookieHeader: Option<string>,
                       parse: string -> map<string, string>)
    requires cookieHeader.None? ==> StoreCookie(jar, SetTheme(t)) == map[]
    requires cookieHeader.Some? ==>
      cookieHeader.value != "" && parse(cookieHeader.value) == StoreCookie(jar, SetTheme(t))
    ensures t != System ==> GetTheme(cookieHeader, parse) == Some(t)
    ensures t == System ==> GetTheme(cookieHeader, parse) == (if cookieHeader.None? then Some(Light) else None)
  {
    if t != System {
      assert CookieName in StoreCookie(jar, SetTheme(t));
    }
  }
}
