/**
 * The browser as the client sees it: `localStorage` as a string map and
 * `window.location.href` as the last navigation target assigned.
 */
module Storage {
  import opened Wrappers

  /** Key of the bearer token (`STORAGE_KEYS.TOKEN`). Only its being distinct from USER_KEY matters here. */
  const TOKEN_KEY: string := "token"

  /** Key of the serialised user snapshot (`STORAGE_KEYS.USER`). */
  const USER_KEY: string := "user"

  /** `localStorage.getItem(key)`: the stored string, or `null`. */
  function Get(items: map<string, string>, key: string): Option<string> {
    if key in items then Some(items[key]) else None
  }

  class Browser {
    /** The contents of `localStorage`. */
    var items: map<string, string>
    /** `window.location.href`, as last assigned by the client. */
    var href: string

    constructor (items0: map<string, string>, href0: string)
      ensures items == items0 && href == href0
    {
      items := items0;
      href := href0;
    }

    /** `localStorage.setItem(key, value)`. */
    method SetItem(key: string, value: string)
      modifies this
      ensures items == old(items)[key := value]
      ensures href == old(href)
    {
      items := items[key := value];
    }

    /** `localStorage.removeItem(key)`; removing an absent key does nothing. */
    method RemoveItem(key: string)
      modifies this
      ensures items == old(items) - {key}
      ensures href == old(href)
    {
      items := items - {key};
    }

    /** `window.location.href = url`. */
    method Assign(url: string)
      modifies this
      ensures href == url
      ensures items == old(items)
    {
      href := url;
    }
  }
}
