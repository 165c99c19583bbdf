/** The Mediator pattern: a chat hub keeps an ordered list of users, tells
    every listed user when someone joins or leaves, and relays a message to
    every listed user other than its sender.

    Users are objects and are told apart by reference, as the hub does.
    What a user prints when it receives something is abstracted to a
    `Delivery`: who received what. */
module Chat {

  class User {
    const name: string

    constructor (name: string)
      ensures this.name == name
    {
      this.name := name;
    }
  }

  /** The text of a system message: "<name> join to chat" or
      "<name> left chat". */
  datatype Notice = Joined(who: string) | Left(who: string)

  /** One call of `ReceiveSystemMessage` or `ReceiveMessage` on a user. */
  datatype Delivery =
    | SystemMessage(recipient: User, notice: Notice)
    | ChatMessage(recipient: User, text: string, shownSender: User)

  function Recipients(ds: seq<Delivery>): seq<User> {
    seq(|ds|, i requires 0 <= i < |ds| => ds[i].recipient)
  }

  // ---------------------------------------------------------------------
  // What the hub delivers

  /** The system messages a broadcast of `notice` delivers: one to each
      listed user, in list order. */
  function Notify(users: seq<User>, notice: Notice): (r: seq<Delivery>)
    ensures |r| == |users|
    ensures forall i :: 0 <= i < |users| ==> r[i] == SystemMessage(users[i], notice)
    decreases users
  {
    if users == [] then []
    else [SystemMessage(users[0], notice)] + Notify(users[1..], notice)
  }

  /** The chat messages a relay delivers: one to each listed user that is
      not the sender, in list order. The recipient itself is passed as the
      shown sender. */
  function Relay(users: seq<User>, text: string, sender: User): seq<Delivery>
    decreases users
  {
    if users == [] then []
    else
      (if users[0] != sender then [ChatMessage(users[0], text, users[0])] else [])
      + Relay(users[1..], text, sender)
  }

  /** The listed users other than `sender`, in list order. */
  function Others(users: seq<User>, sender: User): seq<User>
    decreases users
  {
    if users == [] then []
    else if users[0] == sender then Others(users[1..], sender)
    else [users[0]] + Others(users[1..], sender)
  }

  /** A relay reaches exactly the users other than the sender, in list
      order, and each delivery carries the message text with the recipient
      shown as its sender. */
  lemma {:induction false} RelayReachesOthers(users: seq<User>, text: string, sender: User)
    ensures Recipients(Relay(users, text, sender)) == Others(users, sender)
    ensures forall d :: d in Relay(users, text, sender) ==>
      d.ChatMessage? && d.text == text && d.shownSender == d.recipient && d.recipient != sender
    decreases users
  {
    if users != [] {
      var head := if users[0] != sender then [ChatMessage(users[0], text, users[0])] else [];
      var rest := Relay(users[1..], text, sender);
      assert Relay(users, text, sender) == head + rest;
      RelayReachesOthers(users[1..], text, sender);
      RecipientsAppend(head, rest);
    }
  }

  /** The sender is never among the others, and every other user appears
      among them exactly as often as in the list. */
  lemma {:induction false} OthersCount(users: seq<User>, sender: User)
    ensures sender !in Others(users, sender)
    ensures forall u :: u != sender ==> multiset(Others(users, sender))[u] == multiset(users)[u]
    decreases users
  {
    if users != [] {
      OthersCount(users[1..], sender);
      assert users == [users[0]] + users[1..];
    }
  }

  /** A relay never delivers to its sender, and delivers to every other
      user once for each time that user is listed. */
  lemma RelayExactlyOnce(users: seq<User>, text: string, sender: User)
    ensures sender !in Recipients(Relay(users, text, sender))
    ensures forall u :: u != sender ==>
      multiset(Recipients(Relay(users, text, sender)))[u] == multiset(users)[u]
  {
    RelayReachesOthers(users, text, sender);
    OthersCount(users, sender);
  }

  // ---------------------------------------------------------------------
  // List.Remove: drop the first occurrence

  /** `List.IndexOf`: the first position holding `u`, or -1. */
  function IndexOf(s: seq<User>, u: User): (i: int)
    ensures -1 <= i < |s|
    ensures i == -1 <==> u !in s
    ensures 0 <= i ==> s[i] == u && forall j :: 0 <= j < i ==> s[j] != u
    decreases s
  {
    if s == [] then -1
    else if s[0] == u then 0
    else
      var j := IndexOf(s[1..], u);
      if j < 0 then -1 else j + 1
  }

  /** `List.Remove`: the list without its first occurrence of `u`. */
  function RemoveFirst(s: seq<User>, u: User): (r: seq<User>)
    ensures |r| == if u in s then |s| - 1 else |s|
    ensures forall v :: v in r ==> v in s
  {
    var i := IndexOf(s, u);
    if i < 0 then s else s[..i] + s[i + 1..]
  }

  /** Removing a user that is not listed changes nothing; removing a listed
      user takes away exactly one of its occurrences. */
  lemma RemoveFirstCount(s: seq<User>, u: User)
    ensures u !in s ==> RemoveFirst(s, u) == s
    ensures u in s ==> multiset(RemoveFirst(s, u)) == multiset(s) - multiset{u}
  {
    var i := IndexOf(s, u);
    if i >= 0 {
      assert s == s[..i] + [s[i]] + s[i + 1..];
      assert multiset(s) == multiset(s[..i]) + multiset{u} + multiset(s[i + 1..]);
    }
  }

  /** Removing a listed user cuts out its first occurrence (the position
      `IndexOf` finds) and keeps the users before and after it in their
      order. */
  lemma RemoveFirstKeepsOrder(s: seq<User>, u: User)
    requires u in s
    ensures |RemoveFirst(s, u)| == |s| - 1
    ensures forall k :: 0 <= k < IndexOf(s, u) ==> RemoveFirst(s, u)[k] == s[k]
    ensures forall k :: IndexOf(s, u) <= k < |s| - 1 ==> RemoveFirst(s, u)[k] == s[k + 1]
  {
    var i := IndexOf(s, u);
    SpliceKeepsOrder(s, i);
  }

  /** Cutting position `i` out of a sequence shifts the later elements down
      by one and leaves the earlier ones in place. */
  lemma SpliceKeepsOrder<T>(s: seq<T>, i: nat)
    requires i < |s|
    ensures |s[..i] + s[i + 1..]| == |s| - 1
    ensures forall k :: 0 <= k < i ==> (s[..i] + s[i + 1..])[k] == s[k]
    ensures forall k :: i < k < |s| ==> (s[..i] + s[i + 1..])[k - 1] == s[k]
  {
  }

  // ---------------------------------------------------------------------
  // The hub

  class ChatMediator {
    var users: seq<User>

    constructor ()
      ensures users == []
    {
      users := [];
    }

    /** Sends `notice` as a system message to every listed user. */
    method NotifyUsers(notice: Notice) returns (out: seq<Delivery>)
      ensures out == Notify(users, notice)
    {
      out := [];
      var i := 0;
      while i < |users|
        invariant 0 <= i <= |users|
        invariant |out| == i
        invariant forall k :: 0 <= k < i ==> out[k] == SystemMessage(users[k], notice)
      {
        out := out + [SystemMessage(users[i], notice)];
        i := i + 1;
      }
    }

    /** Appends the user, then tells every listed user, the newcomer
        included, that it joined. */
    method AddUser(user: User) returns (out: seq<Delivery>)
      modifies this
      ensures users == old(users) + [user]
      ensures out == Notify(users, Joined(user.name))
    {
      users := users + [user];
      out := NotifyUsers(Joined(user.name));
    }

    /** Removes the first occurrence of the user, then tells the remaining
        users that it left. */
    method RemoveUser(user: User) returns (out: seq<Delivery>)
      modifies this
      ensures users == RemoveFirst(old(users), user)
      ensures out == Notify(users, Left(user.name))
    {
      users := RemoveFirst(users, user);
      out := NotifyUsers(Left(user.name));
    }

    /** Delivers the message to every listed user that is not the sender. */
    method SendMessage(message: string, sender: User) returns (out: seq<Delivery>)
      ensures out == Relay(users, message, sender)
    {
      out := [];
      var i := 0;
      while i < |users|
        invariant 0 <= i <= |users|
        invariant out + Relay(users[i..], message, sender) == Relay(users, message, sender)
      {
        assert users[i..][1..] == users[i + 1..];
        assert Relay(users[i..], message, sender) ==
          (if users[i] != sender then [ChatMessage(users[i], message, users[i])] else [])
          + Relay(users[i + 1..], message, sender);
        if users[i] != sender {
          out := out + [ChatMessage(users[i], message, users[i])];
        }
        i := i + 1;
      }
    }
  }

  /** A broadcast reaches every listed user, in list order. */
  lemma NotifyReachesAll(users: seq<User>, notice: Notice)
    ensures Recipients(Notify(users, notice)) == users
  {
    var r := Recipients(Notify(users, notice));
    assert forall i :: 0 <= i < |r| ==> r[i] == users[i];
  }

  lemma RecipientsAppend(a: seq<Delivery>, b: seq<Delivery>)
    ensures Recipients(a + b) == Recipients(a) + Recipients(b)
  {
    var r := Recipients(a + b);
    assert forall i :: 0 <= i < |r| ==> r[i] == (Recipients(a) + Recipients(b))[i];
  }

  /** With three distinct users registered and the second removed, a
      message from the first reaches only the third. */
  lemma RemovedUserMissesRelay(a: User, b: User, c: User, text: string)
    requires a != b && b != c && a != c
    ensures RemoveFirst([a, b, c], b) == [a, c]
    ensures Recipients(Relay(RemoveFirst([a, b, c], b), text, a)) == [c]
  {
    assert IndexOf([a, b, c], b) == 1;
    assert [a, b, c][..1] + [a, b, c][2..] == [a, c];
    RelayReachesOthers([a, c], text, a);
    assert [a, c][1..] == [c] && [c][1..] == [];
    assert Others([c], a) == [c];
  }

  /** Four users join an empty chat one by one; each join notice goes to
      everyone listed so far, the newcomer included. */
  method JoinFour(chat: ChatMediator, u1: User, u2: User, u3: User, u4: User) returns (joins: seq<Delivery>)
    requires chat.users == []
    modifies chat
    ensures chat.users == [u1, u2, u3, u4]
    ensures joins == Notify([u1], Joined(u1.name)) + Notify([u1, u2], Joined(u2.name))
      + Notify([u1, u2, u3], Joined(u3.name)) + Notify([u1, u2, u3, u4], Joined(u4.name))
    ensures Recipients(joins) == [u1, u1, u2, u1, u2, u3, u1, u2, u3, u4]
  {
    var j1 := chat.AddUser(u1);
    NotifyReachesAll([u1], Joined(u1.name));
    var j2 := chat.AddUser(u2);
    NotifyReachesAll([u1, u2], Joined(u2.name));
    var j3 := chat.AddUser(u3);
    NotifyReachesAll([u1, u2, u3], Joined(u3.name));
    var j4 := chat.AddUser(u4);
    NotifyReachesAll([u1, u2, u3, u4], Joined(u4.name));
    joins := j1 + j2 + j3 + j4;
    RecipientsAppend(j1, j2);
    RecipientsAppend(j1 + j2, j3);
    RecipientsAppend(j1 + j2 + j3, j4);
  }

  /** The program's fixed call sequence: four users join one by one, then
      the first sends a message, which the other three receive. */
  method ChatDemo() returns (joins: seq<Delivery>, sent: seq<Delivery>, u1: User, u2: User, u3: User, u4: User)
    ensures u1.name == "User1" && u2.name == "User2" && u3.name == "User3" && u4.name == "User4"
    ensures joins == Notify([u1], Joined("User1")) + Notify([u1, u2], Joined("User2"))
      + Notify([u1, u2, u3], Joined("User3")) + Notify([u1, u2, u3, u4], Joined("User4"))
    ensures Recipients(joins) == [u1, u1, u2, u1, u2, u3, u1, u2, u3, u4]
    ensures sent == [ChatMessage(u2, "Hello all", u2), ChatMessage(u3, "Hello all", u3), ChatMessage(u4, "Hello all", u4)]
  {
    var chat := new ChatMediator();
    u1 := new User("User1");
    u2 := new User("User2");
    u3 := new User("User3");
    u4 := new User("User4");
    joins := JoinFour(chat, u1, u2, u3, u4);
    sent := chat.SendMessage("Hello all", u1);
    var us := [u1, u2, u3, u4];
    assert us[1..] == [u2, u3, u4] && us[1..][1..] == [u3, u4] && us[1..][1..][1..] == [u4];
    assert Relay([u4], "Hello all", u1) == [ChatMessage(u4, "Hello all", u4)];
    assert Relay([u3, u4], "Hello all", u1) == [ChatMessage(u3, "Hello all", u3), ChatMessage(u4, "Hello all", u4)];
    assert Relay([u2, u3, u4], "Hello all", u1) == [ChatMessage(u2, "Hello all", u2)] + Relay([u3, u4], "Hello all", u1);
    assert Relay(us, "Hello all", u1) == Relay([u2, u3, u4], "Hello all", u1);
  }
}
