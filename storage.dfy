/** The two browser stores, injected as maps from key to typed value: the
    long-lived store (survives restarts) and the tab-lived store (gone when the
    tab closes). Values are kept already decoded; the JSON text the browser
    actually holds is not modelled. */
module Storage {
  import opened Types

  type Key = string

  /** Long-lived key of the signed-in profile. */
  const UserKey: Key := "ultra_chat_user"
  /** Tab-lived key of the chat transcript. */
  const MessagesKey: Key := "ultra_chat_memory"
  /** Long-lived key of the analytics record. */
  const AnalyticsKey: Key := "ultra_chat_analytics"
  /** Long-lived key of the theme preference. */
  const ThemeKey: Key := "theme"

  /** What a key can hold. `Foreign` stands for whatever other code on the
      same origin may have stored under keys this application does not use. */
  datatype Value =
    | UserValue(user: User)
    | MessagesValue(messages: seq<Message>)
    | AnalyticsValue(data: AnalyticsData)
    | ThemeValue(theme: Theme)
    | Foreign(text: string)

  /** The application's keys in the long-lived store hold the kind of value it writes there. */
  ghost predicate LocalWellTyped(local: map<Key, Value>)
  {
    && (UserKey in local ==> local[UserKey].UserValue?)
    && (AnalyticsKey in local ==> local[AnalyticsKey].AnalyticsValue?)
    && (ThemeKey in local ==> local[ThemeKey].ThemeValue?)
  }

  /** The transcript key of the tab-lived store holds a message list. */
  ghost predicate SessionWellTyped(session: map<Key, Value>)
  {
    MessagesKey in session ==> session[MessagesKey].MessagesValue?
  }

  /** The user stored in the long-lived store, if any. */
  ghost function StoredUser(local: map<Key, Value>): Option<User>
    requires LocalWellTyped(local)
  {
    if UserKey in local then Some(local[UserKey].user) else None
  }

  /** The transcript stored in the tab-lived store; an absent key reads as no messages. */
  ghost function StoredMessages(session: map<Key, Value>): seq<Message>
    requires SessionWellTyped(session)
  {
    if MessagesKey in session then session[MessagesKey].messages else []
  }

  /** The browser's `localStorage` and `sessionStorage`, updated in place. */
  class Stores {
    var local: map<Key, Value>
    var session: map<Key, Value>

    ghost predicate Valid()
      reads this
    {
      LocalWellTyped(local) && SessionWellTyped(session)
    }

    constructor (local0: map<Key, Value>, session0: map<Key, Value>)
      requires LocalWellTyped(local0) && SessionWellTyped(session0)
      ensures Valid() && local == local0 && session == session0
    {
      local := local0;
      session := session0;
    }
  }
}
