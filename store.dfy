/** The web console's global store (frontend/src/store/useStore.ts): the session
    token and its mirror in browser storage, the authentication flag, the message
    list shown on the console, and the backend configuration. The list update of
    `addMessage` is a pure function; the actions that overwrite fields are
    methods. An HTTP fetch is represented by its outcome, `None` for a failure. */
module Store {
  import opened Wrappers

  /** How many messages the console keeps. */
  const MessageLimit: nat := 100

  /** A message as the console shows it. */
  datatype Message = Message(id: int, sender: string, content: string, msgType: string, createdAt: string)

  /** The backend configuration as fetched: setting names to values. */
  type Config = map<string, string>

  /** `s.slice(0, n)`: the first `n` elements, or all of them when there are fewer. */
  function Take<T>(s: seq<T>, n: nat): (r: seq<T>)
    ensures |r| == if |s| <= n then |s| else n
    ensures r == s[..|r|]
  {
    if |s| <= n then s else s[..n]
  }

  /** `addMessage`: the new message first, then the list as it was, cut so that
      at most `MessageLimit` remain. */
  function Prepend(msg: Message, list: seq<Message>): (r: seq<Message>)
    ensures 0 < |r| <= MessageLimit
    ensures r[0] == msg
    ensures r[1..] == Take(list, MessageLimit - 1)
  {
    [msg] + Take(list, MessageLimit - 1)
  }

  /** Prepending is putting the message in front and keeping the newest
      `MessageLimit`: only the oldest entries are ever dropped. */
  lemma PrependKeepsNewest(msg: Message, list: seq<Message>)
    ensures Prepend(msg, list) == Take([msg] + list, MessageLimit)
  {
    var r := Prepend(msg, list);
    var t := Take([msg] + list, MessageLimit);
    assert |r| == |t|;
    forall i | 0 <= i < |r|
      ensures r[i] == t[i]
    {
      if i > 0 {
        assert r[i] == r[1..][i - 1];
      }
    }
  }

  /** A list cut to `n` and then to `m <= n` is the list cut to `m`. */
  lemma TakeTake<T>(s: seq<T>, n: nat, m: nat)
    requires m <= n
    ensures Take(Take(s, n), m) == Take(s, m)
  {
  }

  /** Putting an element in front of a cut list is cutting one further. */
  lemma ConsTake<T>(x: T, s: seq<T>, n: nat)
    ensures [x] + Take(s, n) == Take([x] + s, n + 1)
  {
    if |s| > n {
      assert ([x] + s)[..n + 1] == [x] + s[..n];
    }
  }

  /** The messages in the order `addMessage` received them, newest last. */
  function AddAll(list: seq<Message>, arrivals: seq<Message>): seq<Message>
    decreases |arrivals|
  {
    if |arrivals| == 0 then list
    else Prepend(arrivals[|arrivals| - 1], AddAll(list, arrivals[..|arrivals| - 1]))
  }

  /** `s` back to front. */
  function Reversed<T>(s: seq<T>): (r: seq<T>)
    ensures |r| == |s|
    ensures forall i :: 0 <= i < |s| ==> r[i] == s[|s| - 1 - i]
    decreases |s|
  {
    if |s| == 0 then [] else [s[|s| - 1]] + Reversed(s[..|s| - 1])
  }

  /** Reversing a run with one more element at its end puts that element first. */
  lemma ReversedSnoc<T>(s: seq<T>)
    requires |s| > 0
    ensures Reversed(s) == [s[|s| - 1]] + Reversed(s[..|s| - 1])
  {
  }

  /** After any run of live messages the console shows the newest first: the
      arrivals in reverse order, then the list it started from, cut to the
      newest `MessageLimit`. */
  lemma {:induction false} ConsoleShowsNewestFirst(list: seq<Message>, arrivals: seq<Message>)
    requires |arrivals| > 0
    ensures AddAll(list, arrivals) == Take(Reversed(arrivals) + list, MessageLimit)
    decreases |arrivals|
  {
    var n := |arrivals| - 1;
    var m := arrivals[n];
    var earlier := arrivals[..n];
    PrependKeepsNewest(m, AddAll(list, earlier));
    ReversedSnoc(arrivals);
    if n > 0 {
      ConsoleShowsNewestFirst(list, earlier);
      var rest := Reversed(earlier) + list;
      ConsTake(m, rest, MessageLimit);
      TakeTake([m] + rest, MessageLimit + 1, MessageLimit);
      assert [m] + rest == Reversed(arrivals) + list;
    }
  }

  /** The store: the token kept in browser storage, the session token, whether
      the console counts as logged in, the message list and the configuration. */
  class AppStore {
    var storedToken: Option<string>
    var token: Option<string>
    var isAuthenticated: bool
    var messages: seq<Message>
    var config: Config

    /** The session token mirrors browser storage, and a logged-in console has
        a token. */
    ghost predicate Valid()
      reads this
    {
      token == storedToken && (isAuthenticated ==> token.Some?)
    }

    /** The initial state: the token is read back from storage, and the console
        counts as logged in exactly when that token is a non-empty string. */
    constructor (stored: Option<string>)
      ensures Valid()
      ensures storedToken == stored && token == stored
      ensures isAuthenticated <==> stored.Some? && stored.value != ""
      ensures messages == [] && config == map[]
    {
      storedToken := stored;
      token := stored;
      isAuthenticated := stored.Some? && stored.value != "";
      messages := [];
      config := map[];
    }

    /** `setToken`: stores the token and logs the console in. */
    method SetToken(t: string)
      requires Valid()
      modifies this`storedToken, this`token, this`isAuthenticated
      ensures Valid()
      ensures storedToken == Some(t) && token == Some(t) && isAuthenticated
    {
      storedToken := Some(t);
      token := Some(t);
      isAuthenticated := true;
    }

    /** `logout`: removes the stored token and logs the console out. */
    method Logout()
      requires Valid()
      modifies this`storedToken, this`token, this`isAuthenticated
      ensures Valid()
      ensures storedToken == None && token == None && !isAuthenticated
    {
      storedToken := None;
      token := None;
      isAuthenticated := false;
    }

    /** `fetchMessages`: a successful fetch replaces the list wholesale; a failed
        one leaves it as it was. */
    method FetchMessages(response: Option<seq<Message>>)
      modifies this`messages
      ensures messages == if response.Some? then response.value else old(messages)
    {
      if response.Some? {
        messages := response.value;
      }
    }

    /** `fetchConfig`: a successful fetch replaces the configuration wholesale; a
        failed one leaves it as it was. */
    method FetchConfig(response: Option<Config>)
      modifies this`config
      ensures config == if response.Some? then response.value else old(config)
    {
      if response.Some? {
        config := response.value;
      }
    }

    /** `addMessage`: the live message goes to the top of the list. */
    method AddMessage(msg: Message)
      modifies this`messages
      ensures messages == Prepend(msg, old(messages))
      ensures |messages| <= MessageLimit && messages[0] == msg
    {
      messages := Prepend(msg, messages);
    }
  }
}
