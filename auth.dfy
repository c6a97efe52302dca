/** The form body sent to the transit-data token endpoint (class `Auth`). */
module Auth {

  /** `Auth.get_auth_header`: the client-credentials form. */
  function AuthHeader(appId: string, appKey: string): (h: map<string, string>)
    ensures h.Keys == {"content-type", "grant_type", "client_id", "client_secret"}
    ensures h["content-type"] == "application/x-www-form-urlencoded"
    ensures h["grant_type"] == "client_credentials"
    ensures h["client_id"] == appId && h["client_secret"] == appKey
  {
    map[
      "content-type" := "application/x-www-form-urlencoded",
      "grant_type" := "client_credentials",
      "client_id" := appId,
      "client_secret" := appKey
    ]
  }

  /** Different credentials give different forms: the request identifies
      exactly one application. */
  lemma AuthHeaderInjective(id1: string, key1: string, id2: string, key2: string)
    requires AuthHeader(id1, key1) == AuthHeader(id2, key2)
    ensures id1 == id2 && key1 == key2
  {
    assert AuthHeader(id1, key1)["client_id"] == AuthHeader(id2, key2)["client_id"];
    assert AuthHeader(id1, key1)["client_secret"] == AuthHeader(id2, key2)["client_secret"];
  }
}
