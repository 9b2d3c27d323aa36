/**
 * The start-up decision of app.py lines 109-124: whether the session has a
 * completion client, and which diagnostic the page shows when it has none.
 */
module Client {
  import opened Wrappers

  /** A constructed client; the model keeps only the key it was built with. */
  datatype Handle = Handle(apiKey: string)

  /** What the client constructor did with the key. */
  datatype Construction =
    | Constructed
    | RaisedTypeError(message: string)
    | RaisedOther(message: string)

  /** The diagnostic shown on the page when no client exists. */
  datatype Notice =
    | KeyMissing                                   // st.warning, line 124
    | ProxyMisconfigured                           // st.error, line 117
    | InitFailed(detail: string, infoShown: bool)  // st.error, lines 119, 121; infoShown: the st.info of line 122

  datatype Startup = Startup(client: Option<Handle>, notice: Option<Notice>)

  /** Python truthiness of the key read from the secrets: present and non-empty. */
  predicate Truthy(key: Option<string>)
  {
    key.Some? && key.value != []
  }

  /** Substring test, Python's `word in text`. */
  predicate Contains(text: string, word: string)
  {
    word <= text || (text != [] && Contains(text[1..], word))
  }

  /** The start-up branch of app.py lines 110-124. */
  function Init(key: Option<string>, construction: Construction): (s: Startup)
    ensures s.client.Some? <==> Truthy(key) && construction.Constructed?
    ensures s.client.Some? ==> s.client.value.apiKey == key.value
    ensures s.notice.Some? <==> s.client.None?
    ensures s.notice == Some(KeyMissing) <==> !Truthy(key)
  {
    if !Truthy(key) then
      Startup(None, Some(KeyMissing))
    else
      match construction
      case Constructed => Startup(Some(Handle(key.value)), None)
      case RaisedTypeError(message) =>
        if Contains(message, "proxies") then Startup(None, Some(ProxyMisconfigured))
        else Startup(None, Some(InitFailed(message, false)))
      case RaisedOther(message) => Startup(None, Some(InitFailed(message, true)))
  }

  /**
   * A failed construction reports its own message; it is reported as a proxy
   * problem exactly when a TypeError mentions "proxies", and the separate
   * st.info reinstall notice (line 122) follows exactly when it raised
   * something other than a TypeError.
   */
  lemma InitFailureNotice(key: Option<string>, construction: Construction)
    requires Truthy(key) && !construction.Constructed?
    ensures Init(key, construction).notice.value.InitFailed?
            ==> Init(key, construction).notice.value.detail == construction.message
    ensures Init(key, construction).notice == Some(ProxyMisconfigured)
            <==> construction.RaisedTypeError? && Contains(construction.message, "proxies")
    ensures (Init(key, construction).notice.value.InitFailed?
             && Init(key, construction).notice.value.infoShown)
            <==> construction.RaisedOther?
  {
  }
}
