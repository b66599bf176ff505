/**
 * api_type.go: the API type selects the base URL of the service, and a
 * package-level override, once set to a non-empty URL, replaces it for
 * every API type.
 */
module APITypes {

  /** Go declares APIType over int: the three named values come from iota, and any other int is an APIType too. */
  type APIType = int

  /** The test API on a local server; it has no URL of its own. */
  const APICustom: APIType := 0
  /** The API for free accounts. */
  const APIFree: APIType := 1
  /** The API for paid accounts. */
  const APIPro: APIType := 2

  const BaseURLFree := "https://api-free.deepl.com"
  const BaseURLPro := "https://api.deepl.com"

  /** The package state api_type.go keeps: the override that SetCustomURL assigns (empty: no override). */
  class Package {
    var baseURLCustom: string

    /** A package as it starts: the override holds Go's zero string. */
    constructor ()
      ensures baseURLCustom == ""
    {
      baseURLCustom := "";
    }

    /**
     * SetCustomURL replaces the override and nothing else. After a non-empty
     * URL every API type resolves to it; after "" the fixed URLs come back and
     * the custom type resolves to "".
     */
    method SetCustomURL(url: string)
      modifies this
      ensures baseURLCustom == url
      ensures url != "" ==> forall a :: BaseURL(a) == url
      ensures url == "" ==> BaseURL(APIFree) == BaseURLFree && BaseURL(APIPro) == BaseURLPro && BaseURL(APICustom) == ""
    {
      baseURLCustom := url;
    }

    /**
     * BaseURL: the override when one is set; otherwise the fixed URL of the
     * free or the paid API, and "" for the custom type and for any value that
     * names no API. It only reads the override.
     */
    function BaseURL(a: APIType): (url: string)
      reads this
      ensures baseURLCustom != "" ==> url == baseURLCustom
      ensures baseURLCustom == "" && a == APIFree ==> url == "https://api-free.deepl.com"
      ensures baseURLCustom == "" && a == APIPro ==> url == "https://api.deepl.com"
      ensures baseURLCustom == "" && a != APIFree && a != APIPro ==> url == ""
      ensures url == "" <==> baseURLCustom == "" && a != APIFree && a != APIPro
    {
      if baseURLCustom != "" then baseURLCustom
      else if a == APIPro then BaseURLPro
      else if a == APIFree then BaseURLFree
      else ""
    }

    /** String, the Stringer of APIType: the same URL BaseURL resolves, whatever the override. */
    function String(a: APIType): (s: string)
      reads this
      ensures s == BaseURL(a)
      ensures baseURLCustom != "" ==> s == baseURLCustom
      ensures s == "" <==> baseURLCustom == "" && a != APIFree && a != APIPro
    {
      BaseURL(a)
    }
  }

  /**
   * What a program sees when it sets an override and clears it again: while
   * it is set every type (here the three named ones) resolves to it, and
   * afterwards the fixed URLs are back.
   */
  method OverrideAndClear(p: Package, url: string) returns (during: seq<string>, after: seq<string>)
    requires url != ""
    modifies p
    ensures during == [url, url, url]
    ensures after == [BaseURLFree, BaseURLPro, ""]
    ensures p.baseURLCustom == ""
  {
    p.SetCustomURL(url);
    during := [p.String(APIFree), p.String(APIPro), p.String(APICustom)];
    p.SetCustomURL("");
    after := [p.String(APIFree), p.String(APIPro), p.String(APICustom)];
  }
}
