/**
 * The mobile client's RPC link: the URL it calls and the headers it sends
 * with every call.
 */
module NativeClient {
  import opened Wrappers
  import Server

  /**
   * `${value}` in a template literal: an unset environment variable is
   * `undefined` and prints as that word.
   */
  function TemplateText(value: Option<string>): string {
    value.GetOr("undefined")
  }

  /**
   * The link URL, `${EXPO_PUBLIC_SERVER_URL}/rpc`: the server base followed
   * by a slash and the segment the server's RPC route and handler are
   * mounted under.
   */
  function LinkUrl(serverUrl: Option<string>): (url: string)
    ensures |url| >= |Server.RpcPrefix|
    ensures url[..|url| - |Server.RpcPrefix|] == TemplateText(serverUrl)
    ensures url[|url| - |Server.RpcPrefix|..] == Server.RpcPrefix
    ensures Server.RpcPrefix == "/" + Server.RpcPrefixSegments[0] && |Server.RpcPrefixSegments| == 1
  {
    var url := TemplateText(serverUrl) + "/rpc";
    assert url[|url| - 4..] == "/rpc";
    assert "/rpc" == "/" + Server.RpcMountSegment;
    url
  }

  /**
   * The link's `headers()` supplier, consulted on every call with the
   * current cookie (`null` is `None`): a `Cookie` header exactly when the
   * cookie is truthy, and nothing else.
   */
  function ClientHeaders(cookie: Option<string>): (headers: map<string, string>)
    ensures headers.Keys <= {"Cookie"}
    ensures "Cookie" in headers <==> cookie.Some? && cookie.value != ""
    ensures "Cookie" in headers ==> headers["Cookie"] == cookie.value
  {
    var empty: map<string, string> := map[];
    if cookie.Some? && cookie.value != "" then empty["Cookie" := cookie.value] else empty
  }
}
