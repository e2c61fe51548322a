/**
 * `URIBuilder`, whose source is not part of this model: its contract is the
 * one its unit tests fix. Parameters are appended in call order; `build()`
 * returns the base unencoded followed by `urlencode('?' . query)`.
 */
module UriBuilder {
  import opened Url
  import opened Strings

  class URIBuilder {
    const base: string
    var params: seq<Param>

    constructor (base: string)
      ensures this.base == base && params == []
    {
      this.base := base;
      params := [];
    }

    method AddParameter(name: string, value: string)
      modifies this
      ensures params == old(params) + [(name, value)]
    {
      params := params + [(name, value)];
    }

    /** `build()`: reading it changes nothing, so repeated builds agree. */
    function Build(): (r: string)
      reads this
      ensures IsPrefix(base, r)
      ensures UrlDecode(r) == UrlDecode(base) + "?" + Query(params)
    {
      DecodeBaseAndQuery(base, Query(params));
      base + UrlEncode("?" + Query(params))
    }
  }

  /** A builder without parameters builds the base followed by the encoded `?`. */
  method TestConstructSetsDefaults(base: string) returns (built: string)
    ensures built == base + "%3F"
  {
    var builder := new URIBuilder(base);
    built := builder.Build();
    assert Query(builder.params) == "";
    assert "?" + "" == "?";
    assert EncodeChar('?') == "%3F";
    assert UrlEncode("?") == EncodeChar('?') + UrlEncode("");
  }

  /** Two parameters are rendered in call order, and the whole query is encoded. */
  method TestAddParamsAndBuildMethods(base: string, k1: string, v1: string, k2: string, v2: string)
    returns (built: string)
    ensures built == base + UrlEncode("?" + k1 + "=" + v1 + "&" + k2 + "=" + v2)
    ensures UrlDecode(built) == UrlDecode(base) + "?" + k1 + "=" + v1 + "&" + k2 + "=" + v2
  {
    var builder := new URIBuilder(base);
    builder.AddParameter(k1, v1);
    builder.AddParameter(k2, v2);
    built := builder.Build();
    assert builder.params[1..] == [(k2, v2)];
    assert Query(builder.params) == k1 + "=" + v1 + "&" + k2 + "=" + v2;
    assert built == base + UrlEncode("?" + Query(builder.params));
    assert "?" + (k1 + "=" + v1 + "&" + k2 + "=" + v2) == "?" + k1 + "=" + v1 + "&" + k2 + "=" + v2;
  }
}
