/** Building the three item requests: method, URL, headers, query, body. */
module KvRequests {
  import opened Wrappers
  import opened Http
  import opened Provider

  const ItemsSegment := "/resources/stores/kv/"
  const KeysSegment := "/keys/"
  const AuthHeader := "Fastly-Key"
  const MetadataHeader := "metadata"

  /** Extra headers for a write: the metadata text, empty when unset. */
  datatype KVStoreAPIHeaders = KVStoreAPIHeaders(metadata: string)

  /** Query options for a write. */
  datatype KVStoreAPIQueryParameters = KVStoreAPIQueryParameters(failIfKeyExists: bool)

  /** The item URL, by plain concatenation; nothing is escaped. */
  function ItemUrl(baseUrl: string, storeId: string, key: string): string {
    baseUrl + ItemsSegment + storeId + KeysSegment + key
  }

  /** Position of the first '/' in `s`, or |s| when there is none. */
  function IndexOfSlash(s: string): (i: nat)
    ensures i <= |s|
    ensures i < |s| ==> s[i] == '/'
    ensures forall j :: 0 <= j < i ==> s[j] != '/'
  {
    if s == [] || s[0] == '/' then 0 else 1 + IndexOfSlash(s[1..])
  }

  /** Reads a store id and a key back out of an item URL, taking the store id
      to end at the first '/' after the items segment. */
  function ParseItemUrl(baseUrl: string, url: string): Option<(string, string)> {
    var head := baseUrl + ItemsSegment;
    if !(head <= url) then None
    else
      var rest := url[|head|..];
      var i := IndexOfSlash(rest);
      var tail := rest[i..];
      if KeysSegment <= tail then Some((rest[..i], tail[|KeysSegment|..])) else None
  }

  lemma IndexOfSlashPastPrefix(s: string, t: string)
    requires '/' !in s
    requires |t| > 0 && t[0] == '/'
    ensures IndexOfSlash(s + t) == |s|
  {
    assert (s + t)[|s|] == '/';
    forall j | 0 <= j < |s| ensures (s + t)[j] != '/' {
      assert (s + t)[j] == s[j];
    }
  }

  /** Parsing an item URL gives back the store id and key it was built from,
      provided the store id holds no '/'. */
  lemma ParseItemUrlRoundTrip(baseUrl: string, storeId: string, key: string)
    requires '/' !in storeId
    ensures ParseItemUrl(baseUrl, ItemUrl(baseUrl, storeId, key)) == Some((storeId, key))
  {
    var url := ItemUrl(baseUrl, storeId, key);
    var head := baseUrl + ItemsSegment;
    assert url == head + (storeId + KeysSegment + key);
    var rest := url[|head|..];
    assert rest == storeId + (KeysSegment + key);
    IndexOfSlashPastPrefix(storeId, KeysSegment + key);
    assert rest[..|storeId|] == storeId;
    assert rest[|storeId|..] == KeysSegment + key;
  }

  /** Whatever parses is an item URL of a store id without '/'. */
  lemma ParseItemUrlSound(baseUrl: string, url: string)
    requires ParseItemUrl(baseUrl, url).Some?
    ensures var (storeId, key) := ParseItemUrl(baseUrl, url).value;
            '/' !in storeId && url == ItemUrl(baseUrl, storeId, key)
  {
    var head := baseUrl + ItemsSegment;
    assert head <= url;
    var rest := url[|head|..];
    var i := IndexOfSlash(rest);
    var tail := rest[i..];
    assert KeysSegment <= tail;
    var storeId := rest[..i];
    var key := tail[|KeysSegment|..];
    assert ParseItemUrl(baseUrl, url).value == (storeId, key);
    SplitsRejoin(url, |head|, head);
    SplitsRejoin(rest, i, storeId);
    SplitsRejoin(tail, |KeysSegment|, KeysSegment);
    assert '/' !in storeId by {
      forall j | 0 <= j < i ensures storeId[j] != '/' {
        assert storeId[j] == rest[j];
      }
    }
    AppendAssoc(baseUrl, ItemsSegment, storeId, KeysSegment, key);
  }

  lemma SplitsRejoin(s: string, n: nat, prefix: string)
    requires n <= |s| && s[..n] == prefix
    ensures s == prefix + s[n..]
  {
  }

  lemma AppendAssoc(a: string, b: string, c: string, d: string, e: string)
    ensures a + b + c + d + e == (a + b) + (c + (d + e))
  {
  }

  /** Distinct identities give distinct formatted URL texts when store ids
      hold no '/'. */
  lemma ItemUrlInjective(baseUrl: string, s1: string, k1: string, s2: string, k2: string)
    requires '/' !in s1 && '/' !in s2
    requires ItemUrl(baseUrl, s1, k1) == ItemUrl(baseUrl, s2, k2)
    ensures s1 == s2 && k1 == k2
  {
    ParseItemUrlRoundTrip(baseUrl, s1, k1);
    ParseItemUrlRoundTrip(baseUrl, s2, k2);
  }

  /** Without that restriction, two identities can share a URL. */
  lemma SlashInStoreIdAliases(baseUrl: string)
    ensures ItemUrl(baseUrl, "a/keys/b", "c") == ItemUrl(baseUrl, "a", "b/keys/c")
  {
  }

  function AuthHeaders(conn: ConfiguredData): seq<Header> {
    [Header(AuthHeader, conn.apiKey)]
  }

  /** The write request. */
  function PutRequest(
    conn: ConfiguredData, storeId: string, key: string, value: string,
    headers: KVStoreAPIHeaders, params: KVStoreAPIQueryParameters): (r: Request)
    ensures r.verb == Put && r.url == ItemUrl(conn.baseUrl, storeId, key)
    ensures r.body == Some(value)
    ensures |r.headers| == (if headers.metadata == "" then 1 else 2)
    ensures HeaderValues(r.headers, AuthHeader) == [conn.apiKey]
    ensures HeaderValues(r.headers, MetadataHeader) == (if headers.metadata == "" then [] else [headers.metadata])
    ensures EncodeQuery(r.query) == (if params.failIfKeyExists then "add=true" else "")
  {
    var extra := if headers.metadata != "" then [Header(MetadataHeader, headers.metadata)] else [];
    var query := if params.failIfKeyExists then [QueryParam("add", "true")] else [];
    Request(Put, ItemUrl(conn.baseUrl, storeId, key), AuthHeaders(conn) + extra, query, Some(value))
  }

  /** The delete request: credential header only, no query, no body. */
  function DeleteRequest(conn: ConfiguredData, storeId: string, key: string): (r: Request)
    ensures r.verb == Delete && r.url == ItemUrl(conn.baseUrl, storeId, key)
    ensures r.body == None && r.query == []
    ensures |r.headers| == 1
    ensures HeaderValues(r.headers, AuthHeader) == [conn.apiKey]
    ensures HeaderValues(r.headers, MetadataHeader) == []
  {
    Request(Delete, ItemUrl(conn.baseUrl, storeId, key), AuthHeaders(conn), [], None)
  }

  /** The read request: credential header only, no query, no body. */
  function GetRequest(conn: ConfiguredData, storeId: string, key: string): (r: Request)
    ensures r.verb == Get && r.url == ItemUrl(conn.baseUrl, storeId, key)
    ensures r.body == None && r.query == []
    ensures |r.headers| == 1
    ensures HeaderValues(r.headers, AuthHeader) == [conn.apiKey]
    ensures HeaderValues(r.headers, MetadataHeader) == []
  {
    Request(Get, ItemUrl(conn.baseUrl, storeId, key), AuthHeaders(conn), [], None)
  }

  /** The write request with and without fail-if-exists differ only in the
      query: same method, URL, headers and body. */
  lemma WriteRequestsDifferOnlyInQuery(
    conn: ConfiguredData, storeId: string, key: string, value: string, headers: KVStoreAPIHeaders)
    ensures var withAdd := PutRequest(conn, storeId, key, value, headers, KVStoreAPIQueryParameters(true));
            var plain := PutRequest(conn, storeId, key, value, headers, KVStoreAPIQueryParameters(false));
            withAdd.(query := []) == plain && EncodeQuery(withAdd.query) == "add=true"
  {
  }
}
