/**
 * The object-oriented variant `src/shortl/shortl.py`: a `URL` whose `long_url`
 * field is cleaned in place, and `Shortl`, which cleans a URL and hands it to a
 * shortening service. The service (`Shortener.shorten_url`, an HTTP request) is
 * an opaque function given to `Shortl`.
 */
module UrlClasses {
  import opened PyStr
  import opened UrlScript

  class URL {
    var longUrl: string

    constructor (longUrl: string)
      ensures this.longUrl == longUrl
    {
      this.longUrl := longUrl;
    }

    /** Prepends `https://` exactly when neither `http://` nor `https://` begins the URL. */
    method AddHttps()
      modifies this
      ensures longUrl == AddHttpsToUrl(old(longUrl))
      ensures HasScheme(old(longUrl)) ==> longUrl == old(longUrl)
      ensures !HasScheme(old(longUrl)) ==> longUrl == "https://" + old(longUrl)
      ensures HasScheme(longUrl)
    {
      if !StartsWith(longUrl, "http://") && !StartsWith(longUrl, "https://") {
        longUrl := "https://" + longUrl;
      }
    }

    /**
     * Strips `"`, then `'`, then spaces, one assignment at a time. The new URL is
     * a slice of the old one and neither begins nor ends with a space.
     */
    method RemoveUnwantedCharacters()
      modifies this
      ensures longUrl == UrlScript.RemoveUnwantedCharacters(old(longUrl))
      ensures IsSlice(longUrl, old(longUrl))
      ensures longUrl == [] || (longUrl[0] != ' ' && longUrl[|longUrl| - 1] != ' ')
    {
      longUrl := Strip(longUrl, '"');
      longUrl := Strip(longUrl, '\'');
      longUrl := Strip(longUrl, ' ');
    }
  }

  /** The URL `Shortl.shorten` hands to the service: scheme added first, then stripped. */
  function Normalised(longUrl: string): string {
    UrlScript.RemoveUnwantedCharacters(AddHttpsToUrl(longUrl))
  }

  /**
   * Stripping quotes and spaces never removes the scheme that was added first,
   * because neither prefix contains a quote or a space.
   */
  lemma {:induction false} NormalisedHasScheme(longUrl: string)
    ensures HasScheme(Normalised(longUrl))
  {
    var u := AddHttpsToUrl(longUrl);
    var p := if StartsWith(u, "https://") then "https://" else "http://";
    assert '"' !in p && '\'' !in p && ' ' !in p;
    var u1 := Strip(u, '"');
    StripKeepsPrefix(u, p, '"');
    var u2 := Strip(u1, '\'');
    StripKeepsPrefix(u1, p, '\'');
    StripKeepsPrefix(u2, p, ' ');
  }

  class Shortl {
    /** `self.shortener.shorten_url`: the HTTP call to the shortening service. */
    const shortenUrl: string -> string

    constructor (shortenUrl: string -> string)
      ensures this.shortenUrl == shortenUrl
    {
      this.shortenUrl := shortenUrl;
    }

    /**
     * `shorten(long_url, copy)`: the service receives the normalised URL, which
     * always has a scheme, and its answer is returned as it is. `copy` only
     * decides whether the answer also goes to the clipboard.
     */
    method Shorten(longUrl: string, copy: bool) returns (shortUrl: string)
      ensures shortUrl == shortenUrl(Normalised(longUrl))
      ensures exists passed :: HasScheme(passed) && shortUrl == shortenUrl(passed)
    {
      var url := new URL(longUrl);
      url.AddHttps();
      url.RemoveUnwantedCharacters();
      shortUrl := shortenUrl(url.longUrl);
      NormalisedHasScheme(longUrl);
    }
  }
}
