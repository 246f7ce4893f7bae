/**
 * The application shell: the session token, kept both in memory and in the
 * browser's local storage, and the routes that choose between the login form
 * and the chat panel.
 *
 * Local storage is a map from keys to strings; a URL path is given as its
 * list of non-empty segments (`/en` is `["en"]`).
 */
module App {
  import opened Net

  const TokenKey := "token"

  type Segment = s: string | s != "" witness "en"

  datatype View = LoginView | ChatView(lang: Segment) | Redirect(to: seq<Segment>)

  const LoginPath: seq<Segment> := ["login"]
  const DefaultChatPath: seq<Segment> := ["en"]

  // ---------------------------------------------------------------------------
  // The stored token

  /** The mount effect's test of the value `localStorage.getItem('token')` returned. */
  predicate AcceptsStored(stored: Option<string>)
    ensures AcceptsStored(stored) <==>
      stored.Some? && Truthy(Str(stored.value)) && stored.value != Persisted(Undefined) && stored.value != Persisted(Null)
  {
    stored.Some? && stored.value != "" && stored.value != "null" && stored.value != "undefined"
  }

  function Lookup(storage: map<string, string>, key: string): Option<string> {
    if key in storage then Some(storage[key]) else None
  }

  /** The token in memory after the mount effect, starting from `null`. */
  function Restored(storage: map<string, string>): (t: JsValue)
    ensures Truthy(t) <==> AcceptsStored(Lookup(storage, TokenKey))
    ensures Truthy(t) ==> t.s == storage[TokenKey]
    ensures !Truthy(t) ==> t == Null
  {
    var stored := Lookup(storage, TokenKey);
    if AcceptsStored(stored) then Str(stored.value) else Null
  }

  /** What `localStorage.setItem` stores for a token: the value converted to a
      string. This is `Interpolate` by design, since both are JavaScript's string
      conversion; the name marks the storage write at its call sites. */
  function Persisted(t: JsValue): string {
    Interpolate(t)
  }

  /** A token written by the session comes back after a reload exactly when it
      is a non-empty string other than the two sentinels; `undefined` and
      `null`, which `setItem` writes as those sentinels, come back as no token. */
  lemma PersistRestore(storage: map<string, string>, t: JsValue)
    ensures Restored(storage[TokenKey := Persisted(t)]) ==
      if Truthy(t) && t.s != "null" && t.s != "undefined" then t else Null
  {
  }

  /** After the token is removed from storage, a reload restores no token. */
  lemma RemovedRestoresNothing(storage: map<string, string>)
    ensures Restored(storage - {TokenKey}) == Null
  {
  }

  class Session {
    var token: JsValue
    var storage: map<string, string>

    /** Loading the page: the token starts as `null` and the mount effect
        restores the stored one when it is accepted. */
    constructor (stored: map<string, string>)
      ensures storage == stored && token == Restored(stored)
    {
      storage := stored;
      token := Null;
      new;
      Mount();
    }

    method Mount()
      modifies this`token
      ensures AcceptsStored(Lookup(storage, TokenKey)) ==> token == Str(storage[TokenKey])
      ensures !AcceptsStored(Lookup(storage, TokenKey)) ==> token == old(token)
    {
      var stored := Lookup(storage, TokenKey);
      if AcceptsStored(stored) {
        token := Str(stored.value);
      }
    }

    /** The login form's `setToken`: memory and storage are set together. */
    method SetToken(newToken: JsValue)
      modifies this
      ensures token == newToken
      ensures storage == old(storage)[TokenKey := Persisted(newToken)]
    {
      token := newToken;
      storage := storage[TokenKey := Persisted(newToken)];
    }

    /** Logging out clears the token in memory and in storage, then reloads
        the page, which restores no token. */
    method Logout()
      modifies this
      ensures token == Null
      ensures storage == old(storage) - {TokenKey}
    {
      token := Null;
      storage := storage - {TokenKey};
      RemovedRestoresNothing(old(storage));
      Reload();
    }

    /** `window.location.reload()`: the page loads again from storage. */
    method Reload()
      modifies this`token
      ensures token == Restored(storage)
    {
      token := Null;
      Mount();
    }
  }

  // ---------------------------------------------------------------------------
  // Routes

  /** The element the route table renders for a path: `/login`, then `/:lang`,
      then the catch-all. */
  function Resolve(path: seq<Segment>, token: JsValue): (v: View)
    ensures Truthy(token) ==> v.ChatView? || v == Redirect(DefaultChatPath)
    ensures !Truthy(token) ==> v == LoginView || v == Redirect(LoginPath)
    ensures v == LoginView ==> path == LoginPath
    ensures v.ChatView? ==> path == [v.lang]
    ensures path == LoginPath ==> v == (if Truthy(token) then Redirect(DefaultChatPath) else LoginView)
    ensures |path| == 1 && path != LoginPath ==> v == (if Truthy(token) then ChatView(path[0]) else Redirect(LoginPath))
  {
    if path == LoginPath then
      if !Truthy(token) then LoginView else Redirect(DefaultChatPath)
    else if |path| == 1 then
      if Truthy(token) then ChatView(path[0]) else Redirect(LoginPath)
    else
      if !Truthy(token) then Redirect(LoginPath) else Redirect(DefaultChatPath)
  }

  /** The view shown once the route table's redirect, if any, has been followed. */
  function Settle(path: seq<Segment>, token: JsValue): (v: View)
    ensures !v.Redirect?
    ensures v.ChatView? <==> Truthy(token)
    ensures v == LoginView <==> !Truthy(token)
    ensures Truthy(token) && |path| == 1 && path != LoginPath ==> v == ChatView(path[0])
    ensures Truthy(token) && (|path| != 1 || path == LoginPath) ==> v == ChatView("en")
  {
    match Resolve(path, token)
    case Redirect(to) => Resolve(to, token)
    case v => v
  }

  /** A page load as written: the routes render once with the initial `null`
      token, following any redirect, and only then does the mount effect
      restore the stored token. */
  function LandingAsWritten(storage: map<string, string>, path: seq<Segment>): (v: View)
    ensures Truthy(Restored(storage)) ==> v == ChatView("en")
    ensures !Truthy(Restored(storage)) ==> v == LoginView
  {
    var first := Resolve(path, Null);
    var location := if first.Redirect? then first.to else path;
    Settle(location, Restored(storage))
  }

  /** Reloading `/fr` with a valid stored token ends on the English chat. */
  lemma DeepLinkLosesLanguage()
    ensures LandingAsWritten(map[TokenKey := "abc123"], ["fr"]) == ChatView("en")
  {
  }

  /** A page load with the token restored before the first render. */
  function Landing(storage: map<string, string>, path: seq<Segment>): (v: View)
    ensures Truthy(Restored(storage)) && |path| == 1 && path != LoginPath ==> v == ChatView(path[0])
    ensures Truthy(Restored(storage)) && (|path| != 1 || path == LoginPath) ==> v == ChatView("en")
    ensures !Truthy(Restored(storage)) ==> v == LoginView
  {
    Settle(path, Restored(storage))
  }

  /** With a valid stored token, a reload keeps the chat language of the URL. */
  lemma LandingKeepsLanguage(storage: map<string, string>, lang: Segment)
    requires AcceptsStored(Lookup(storage, TokenKey))
    requires lang != "login"
    ensures Landing(storage, [lang]) == ChatView(lang)
  {
  }
}
