/** The ShortenedURL entity: an immutable pair of a long URL and its short code. */
module ShortenedUrl {

  /** The Go struct has two unexported string fields; the constructor does no validation. */
  datatype ShortenedURL = ShortenedURL(long: string, short: string) {

    function GetLong(): string { long }

    function GetShort(): string { short }
  }

  /** `New(l, s)`: the getters give back exactly what was passed in, empty strings included. */
  function New(l: string, s: string): (u: ShortenedURL)
    ensures u.GetLong() == l && u.GetShort() == s
  {
    ShortenedURL(l, s)
  }

  /** Struct equality in Go compares both fields. */
  lemma EqualIffFieldsEqual(a: ShortenedURL, b: ShortenedURL)
    ensures a == b <==> a.GetLong() == b.GetLong() && a.GetShort() == b.GetShort()
  {
  }

  /** Rebuilding an entity from its getters gives the same entity. */
  lemma NewOfGetters(u: ShortenedURL)
    ensures New(u.GetLong(), u.GetShort()) == u
  {
  }
}
