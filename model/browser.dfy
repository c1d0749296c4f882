/** The browser globals the front end touches: `localStorage` (a string-to-string
    key/value store) and `window.location` (assigning `href` navigates). */
module Browser {
  import opened Wrappers

  /** Storage keys (frontend/src/config.js, `JWT_CONFIG`) and the cached-user key. */
  const ACCESS_TOKEN_KEY := "accessToken"
  const REFRESH_TOKEN_KEY := "refreshToken"
  const USER_KEY := "user"

  /** Where an unrecoverable authentication failure sends the user. */
  const LOGIN_PATH := "/login"

  /** `localStorage.getItem(key)`: the stored text, or null. */
  function GetItem(storage: map<string, string>, key: string): (r: Option<string>)
    ensures r.Some? <==> key in storage
    ensures r.Some? ==> r.value == storage[key]
  {
    if key in storage then Some(storage[key]) else None
  }

  /** The text `localStorage.setItem` stores for a value that may be `undefined`
      (it converts `undefined` to the string "undefined"). */
  function StoredText(v: Option<string>): string {
    match v
    case Some(s) => s
    case None => "undefined"
  }

  class Window {
    var storage: map<string, string>
    var href: string
    /** How many times `window.location.href = '/login'` has been assigned. */
    var loginRedirects: nat

    constructor (storage: map<string, string>, href: string)
      ensures this.storage == storage && this.href == href && loginRedirects == 0
    {
      this.storage := storage;
      this.href := href;
      loginRedirects := 0;
    }

    /** `localStorage.setItem(key, value)`. */
    method SetItem(key: string, value: string)
      modifies this
      ensures storage == old(storage)[key := value]
      ensures href == old(href) && loginRedirects == old(loginRedirects)
    {
      storage := storage[key := value];
    }

    /** `localStorage.removeItem(key)`; removing an absent key does nothing. */
    method RemoveItem(key: string)
      modifies this
      ensures storage == old(storage) - {key}
      ensures href == old(href) && loginRedirects == old(loginRedirects)
    {
      storage := storage - {key};
    }

    /** `window.location.href = '/login'`. */
    method RedirectToLogin()
      modifies this
      ensures href == LOGIN_PATH && loginRedirects == old(loginRedirects) + 1
      ensures storage == old(storage)
    {
      href := LOGIN_PATH;
      loginRedirects := loginRedirects + 1;
    }
  }
}
