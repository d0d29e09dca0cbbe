/** The URL clean-up helpers of the command-line script `src/shortl.py`. */
module UrlScript {
  import opened PyStr

  /** `url` already names a scheme the helpers accept. */
  predicate HasScheme(url: string) {
    StartsWith(url, "http://") || StartsWith(url, "https://")
  }

  /**
   * `add_https_to_url`: an URL with an `http://` or `https://` prefix is kept,
   * any other gets `https://` in front; either way the result has a scheme.
   */
  function AddHttpsToUrl(url: string): (r: string)
    ensures HasScheme(url) ==> r == url
    ensures !HasScheme(url) ==> r == "https://" + url
    ensures HasScheme(r)
  {
    if !StartsWith(url, "http://") && !StartsWith(url, "https://") then
      assert ("https://" + url)[..|"https://"|] == "https://";
      "https://" + url
    else url
  }

  /** Adding the scheme twice is the same as adding it once. */
  lemma AddHttpsIdempotent(url: string)
    ensures AddHttpsToUrl(AddHttpsToUrl(url)) == AddHttpsToUrl(url)
  {
  }

  /** `url` begins or ends with a character that `remove_unwanted_characters` strips. */
  predicate HasUnwantedEdge(url: string) {
    url != [] && (url[0] in "\"' " || url[|url| - 1] in "\"' ")
  }

  /**
   * `remove_unwanted_characters`: strips `"`, then `'`, then spaces. The result
   * is a slice of the input, never longer, and neither begins nor ends with a
   * space; an input without such an edge character is returned as it is.
   */
  function RemoveUnwantedCharacters(longUrl: string): (r: string)
    ensures IsSlice(r, longUrl) && |r| <= |longUrl|
    ensures r == [] || (r[0] != ' ' && r[|r| - 1] != ' ')
    ensures !HasUnwantedEdge(longUrl) ==> r == longUrl
  {
    var noDouble := Strip(longUrl, '"');
    var noSingle := Strip(noDouble, '\'');
    var noSpace := Strip(noSingle, ' ');
    StripsAreSlices(longUrl, noDouble, noSingle, noSpace);
    assert !HasUnwantedEdge(longUrl) ==> noSpace == longUrl by {
      if !HasUnwantedEdge(longUrl) {
        assert longUrl == [] || (longUrl[0] != '"' && longUrl[|longUrl| - 1] != '"');
        StripUntouched(longUrl, '"');
        StripUntouched(longUrl, '\'');
        StripUntouched(longUrl, ' ');
      }
    }
    noSpace
  }

  lemma StripsAreSlices(s0: string, s1: string, s2: string, s3: string)
    requires s1 == Strip(s0, '"') && s2 == Strip(s1, '\'') && s3 == Strip(s2, ' ')
    ensures IsSlice(s3, s0)
  {
    StripIsSlice(s0, '"');
    StripIsSlice(s1, '\'');
    StripIsSlice(s2, ' ');
    SliceTransitive(s2, s1, s0);
    SliceTransitive(s3, s2, s0);
  }

  /**
   * The strips run in a fixed order, so double quotes hidden behind single
   * quotes survive: `'"x"'` comes out as `"x"`, still quoted, for every `x`.
   */
  lemma {:induction false} QuoteBehindQuoteSurvives(x: string)
    ensures RemoveUnwantedCharacters("'" + ("\"" + x + "\"") + "'") == "\"" + x + "\""
  {
    var inner := "\"" + x + "\"";
    var s0 := "'" + inner + "'";
    assert s0[0] == '\'' && s0[|s0| - 1] == '\'';
    assert inner[0] == '"' && inner[|inner| - 1] == '"';
    StripUntouched(s0, '"');
    SingleQuotesStripped(inner);
    StripUntouched(inner, ' ');
    assert Strip(Strip(Strip(s0, '"'), '\''), ' ') == inner;
  }

  lemma {:induction false} SingleQuotesStripped(inner: string)
    requires inner != [] && inner[0] != '\'' && inner[|inner| - 1] != '\''
    ensures Strip("'" + inner + "'", '\'') == inner
  {
    var s0 := "'" + inner + "'";
    var s1 := inner + "'";
    assert s0[1..] == s1;
    assert StripLeft(s1, '\'') == s1;
    assert StripLeft(s0, '\'') == s1;
    assert s1[..|s1| - 1] == inner;
    assert StripRight(inner, '\'') == inner;
    assert StripRight(s1, '\'') == inner;
  }
}
