/** The session manager: the signed-in user lives in the long-lived store and
    the transcript in the tab-lived store. */
module SessionService {
  import opened Types
  import opened Storage

  /** Stores `user` under the user key, replacing any earlier user. */
  method SetUser(st: Stores, user: User)
    requires st.Valid()
    modifies st
    ensures st.Valid()
    ensures st.local == old(st.local)[UserKey := UserValue(user)]
    ensures st.session == old(st.session)
    ensures StoredUser(st.local) == Some(user)
  {
    st.local := st.local[UserKey := UserValue(user)];
  }

  /** Reads the stored user; a missing key reads as no user. */
  method GetUser(st: Stores) returns (user: Option<User>)
    requires st.Valid()
    ensures UserKey !in st.local ==> user == None
    ensures UserKey in st.local ==> user == Some(st.local[UserKey].user)
  {
    if UserKey in st.local {
      user := Some(st.local[UserKey].user);
    } else {
      user := None;
    }
  }

  /** Reads the stored transcript; a missing key reads as the empty list. */
  method GetMessages(st: Stores) returns (messages: seq<Message>)
    requires st.Valid()
    ensures MessagesKey !in st.session ==> messages == []
    ensures MessagesKey in st.session ==> messages == st.session[MessagesKey].messages
  {
    if MessagesKey in st.session {
      messages := st.session[MessagesKey].messages;
    } else {
      messages := [];
    }
  }

  /** Stores the whole transcript under the transcript key. */
  method SaveMessages(st: Stores, messages: seq<Message>)
    requires st.Valid()
    modifies st
    ensures st.Valid()
    ensures st.session == old(st.session)[MessagesKey := MessagesValue(messages)]
    ensures st.local == old(st.local)
    ensures StoredMessages(st.session) == messages
  {
    st.session := st.session[MessagesKey := MessagesValue(messages)];
  }

  /** Removes the user and the transcript and nothing else. Running it twice
      leaves the stores as running it once does. */
  method ClearAll(st: Stores)
    requires st.Valid()
    modifies st
    ensures st.Valid()
    ensures st.local == old(st.local) - {UserKey}
    ensures st.session == old(st.session) - {MessagesKey}
    ensures StoredUser(st.local) == None && StoredMessages(st.session) == []
  {
    st.local := st.local - {UserKey};
    st.session := st.session - {MessagesKey};
  }

  /** Two calls in a row: the second changes nothing. */
  method ClearAllTwice(st: Stores)
    requires st.Valid()
    modifies st
    ensures st.local == old(st.local) - {UserKey}
    ensures st.session == old(st.session) - {MessagesKey}
  {
    ClearAll(st);
    ghost var once_local, once_session := st.local, st.session;
    ClearAll(st);
    assert st.local == once_local && st.session == once_session;
  }
}
