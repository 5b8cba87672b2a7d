/**
 * The network side of a player: dispatching inbound Showdown messages,
 * framing outbound commands, the login handshake and the challenge flow.
 * The websocket is replaced by a log of the frames sent, the login POST by
 * a log of the forms posted, and the battle handler by a log of the
 * messages forwarded to it.
 */
module Network {
  import opened Wrappers
  import opened Text

  datatype NetError =
    | MissingAuthAddress     // the AttributeError raised by the constructor
    | IndexError             // a field index past the end of the split message
    | MissingPlayerOrFormat  // the ValueError raised by challenge

  /** The form fields of the login POST, and the address it goes to. */
  datatype LoginForm = LoginForm(address: string, act: string, name: string, pass: string, challstr: string)

  /** Which branch of the dispatcher handles a message. */
  datatype Branch =
    | Challstr(conf1: string, conf2: string)
    | OwnUpdateUser
    | UpdateChallenges(payload: string)
    | Battle
    | Ignored
    | Unmanaged

  /** Python truthiness of an optional string: present and non-empty. */
  predicate Truthy(s: Option<string>) {
    s.Some? && s.value != ""
  }

  /** The message types that are read and dropped. */
  const IgnoredTypes: seq<string> := ["updatesearch", "popup", "updateuser"]

  /** The separator the login form places between the two challenge tokens: `|` percent-encoded. */
  const EncodedPipe: string := "%7C"

  /** The frame `send_message` writes: `room|message`, or `room|message|message2` for a truthy `message2`. */
  function Frame(message: string, room: string, message2: Option<string>): (r: string)
    ensures r == room + [Pipe] + message + (if Truthy(message2) then [Pipe] + message2.value else "")
  {
    if Truthy(message2) then
      assert [room, message, message2.value] == [room] + [message, message2.value];
      assert [message, message2.value] == [message] + [message2.value];
      JoinCons(message, [message2.value]);
      JoinCons(room, [message, message2.value]);
      Join([room, message, message2.value])
    else
      assert [room, message] == [room] + [message];
      JoinCons(room, [message]);
      Join([room, message])
  }

  /** Frames of separator-free parts parse back into exactly those parts. */
  lemma FrameGrammar(message: string, room: string, message2: Option<string>)
    requires Pipe !in message && Pipe !in room
    requires message2.Some? ==> Pipe !in message2.value
    ensures Split(Frame(message, room, message2)) ==
      [room, message] + (if Truthy(message2) then [message2.value] else [])
  {
    if Truthy(message2) {
      SplitJoin([room, message, message2.value]);
    } else {
      SplitJoin([room, message]);
    }
  }

  /**
   * The branch `manage_message` takes for the fields of a message, checked
   * in source order, or the `IndexError` a missing field raises.
   */
  function Dispatch(fields: seq<string>, username: string): (r: Result<Branch, NetError>)
    ensures r.Err? ==> r.error == IndexError && |fields| < 4
    ensures r.Err? <==> (|fields| < 2 || (fields[1] == "challstr" && |fields| < 4)
      || (fields[1] != "challstr" && (fields[1] == "updateuser" || Contains(fields[1], "updatechallenges")) && |fields| < 3))
    ensures r.Ok? && r.value.Challstr? ==>
      |fields| >= 4 && fields[1] == "challstr" && r.value == Challstr(fields[2], fields[3])
    ensures r == Ok(OwnUpdateUser) ==> |fields| >= 3 && fields[1] == "updateuser" && fields[2] == username
    ensures r.Ok? && r.value.UpdateChallenges? ==>
      |fields| >= 3 && Contains(fields[1], "updatechallenges") && r.value.payload == fields[2]
    ensures r.Ok? ==> |fields| >= 2
    ensures r == Ok(Battle) ==> StartsWith(fields[0], ">battle")
    ensures r == Ok(Battle) ==> fields[1] != "challstr" && !Contains(fields[1], "updatechallenges")
    ensures r == Ok(Battle) && fields[1] == "updateuser" ==> |fields| >= 3 && fields[2] != username
    ensures r == Ok(Ignored) ==> fields[1] in IgnoredTypes && !StartsWith(fields[0], ">battle")
    ensures r == Ok(Unmanaged) ==> fields[1] !in IgnoredTypes && !StartsWith(fields[0], ">battle")
    ensures r == Ok(Unmanaged) ==> fields[1] != "challstr" && !Contains(fields[1], "updatechallenges")
  {
    if |fields| < 2 then Err(IndexError)
    else if fields[1] == "challstr" then
      if |fields| < 4 then Err(IndexError) else Ok(Challstr(fields[2], fields[3]))
    else if fields[1] == "updateuser" && |fields| < 3 then Err(IndexError)
    else if fields[1] == "updateuser" && fields[2] == username then Ok(OwnUpdateUser)
    else if Contains(fields[1], "updatechallenges") then
      if |fields| < 3 then Err(IndexError) else Ok(UpdateChallenges(fields[2]))
    else if StartsWith(fields[0], ">battle") then Ok(Battle)
    else if fields[1] in IgnoredTypes then Ok(Ignored)
    else Ok(Unmanaged)
  }

  /** The challengers whose format is `format`, in the order received. */
  function AcceptedUsers(challenges: seq<(string, string)>, format: string): (users: seq<string>)
    ensures |users| <= |challenges|
    ensures forall u :: u in users ==> (u, format) in challenges
  {
    if challenges == [] then []
    else
      var last := challenges[|challenges| - 1];
      AcceptedUsers(challenges[..|challenges| - 1], format) + (if last.1 == format then [last.0] else [])
  }

  /** Every challenger in the configured format is accepted. */
  lemma {:induction false} AcceptedUsersComplete(challenges: seq<(string, string)>, format: string, user: string)
    requires (user, format) in challenges
    ensures user in AcceptedUsers(challenges, format)
  {
    var n := |challenges|;
    if challenges[n - 1] != (user, format) {
      assert (user, format) in challenges[..n - 1];
      AcceptedUsersComplete(challenges[..n - 1], format, user);
    }
  }

  /** Challengers are accepted in the order received: the list of a concatenation is the concatenation of the lists. */
  lemma {:induction false} AcceptedUsersConcat(a: seq<(string, string)>, b: seq<(string, string)>, format: string)
    ensures AcceptedUsers(a + b, format) == AcceptedUsers(a, format) + AcceptedUsers(b, format)
    decreases |b|
  {
    if b == [] {
      assert a + b == a;
    } else {
      var n := |b|;
      var last := b[n - 1];
      assert (a + b)[..|a + b| - 1] == a + b[..n - 1];
      assert (a + b)[|a + b| - 1] == last;
      AcceptedUsersConcat(a, b[..n - 1], format);
    }
  }

  /** No element of `s` occurs twice. */
  predicate NoDuplicates(s: seq<string>) {
    forall i, j :: 0 <= i < j < |s| ==> s[i] != s[j]
  }

  /** Distinct challenger names give each accepted user exactly once. */
  lemma {:induction false} AcceptedUsersDistinct(challenges: seq<(string, string)>, format: string)
    requires forall i, j :: 0 <= i < j < |challenges| ==> challenges[i].0 != challenges[j].0
    ensures NoDuplicates(AcceptedUsers(challenges, format))
  {
    if challenges != [] {
      var n := |challenges|;
      var init := challenges[..n - 1];
      var last := challenges[n - 1];
      AcceptedUsersDistinct(init, format);
      var earlier := AcceptedUsers(init, format);
      if last.1 == format {
        var users := earlier + [last.0];
        assert AcceptedUsers(challenges, format) == users;
        assert NoDuplicates(earlier);
        forall i, j | 0 <= i < j < |users|
          ensures users[i] != users[j]
        {
          assert users[i] == earlier[i];
          if j < |earlier| {
            assert users[j] == earlier[j];
          } else {
            assert users[j] == last.0 && last.0 !in earlier;
          }
        }
      } else {
        assert AcceptedUsers(challenges, format) == earlier;
      }
    }
  }

  /** The accept frames sent for `users`, one each, in order. */
  function AcceptFrames(users: seq<string>): (frames: seq<string>)
    ensures |frames| == |users|
  {
    seq(|users|, i requires 0 <= i < |users| => "|/accept " + users[i])
  }

  lemma AcceptFramesSnoc(users: seq<string>, u: string)
    ensures AcceptFrames(users + [u]) == AcceptFrames(users) + ["|/accept " + u]
  {
  }

  /** The address of the server's websocket endpoint. */
  function WebsocketAddress(server: string): (r: string)
    ensures StartsWith(r, "ws://") && |r| == |server| + 24
    ensures r[5..|r| - 19] == server && r[|r| - 19..] == "/showdown/websocket"
  {
    "ws://" + server + "/showdown/websocket"
  }

  // ---- Messages and their branches ----------------------------------------

  /** A message without a separator fails at the first field lookup. */
  lemma NoPipeFailsAtIndexing(message: string, username: string)
    requires Pipe !in message
    ensures Dispatch(Split(message), username) == Err(IndexError)
  {
    SplitWithoutPipe(message);
  }

  /** `room|challstr|A|B` is the challstr branch with tokens `A` and `B`, in any room. */
  lemma ChallstrMessage(room: string, a: string, b: string, username: string)
    requires Pipe !in room && Pipe !in a && Pipe !in b
    ensures Dispatch(Split(Join([room, "challstr", a, b])), username) == Ok(Challstr(a, b))
  {
    SplitJoin([room, "challstr", a, b]);
  }

  /** `room|challstr` and `room|challstr|A` lack a token and raise `IndexError`. */
  lemma ShortChallstrFails(room: string, tokens: seq<string>, username: string, message: string)
    requires Pipe !in room && |tokens| <= 1 && forall t :: t in tokens ==> Pipe !in t
    requires message == Join([room, "challstr"] + tokens)
    ensures Dispatch(Split(message), username) == Err(IndexError)
  {
    var parts := [room, "challstr"] + tokens;
    forall i | 0 <= i < |parts|
      ensures Pipe !in parts[i]
    {
      if i == 1 {
        assert Pipe !in "challstr";
      } else if i >= 2 {
        assert parts[i] == tokens[i - 2];
      }
    }
    SplitJoin(parts);
    ShortChallstrFields(parts, username);
  }

  /** A `challstr` field list with fewer than two tokens. */
  lemma ShortChallstrFields(fields: seq<string>, username: string)
    requires 2 <= |fields| < 4 && fields[1] == "challstr"
    ensures Dispatch(fields, username) == Err(IndexError)
  {
  }

  /**
   * A message in a `>battle` room goes to the battle handler unless an
   * earlier branch claims it: `challstr`, the player's own `updateuser`, or
   * a type containing `updatechallenges`.
   */
  lemma BattleForwarded(fields: seq<string>, username: string)
    requires |fields| >= 2 && StartsWith(fields[0], ">battle")
    requires fields[1] != "challstr" && !Contains(fields[1], "updatechallenges")
    requires fields[1] == "updateuser" ==> |fields| >= 3 && fields[2] != username
    ensures Dispatch(fields, username) == Ok(Battle)
  {
  }

  /** Outside a battle room, `updatesearch` and `popup` are read and dropped. */
  lemma IgnoredOutsideBattle(fields: seq<string>, username: string)
    requires |fields| >= 2 && !StartsWith(fields[0], ">battle")
    requires fields[1] == "updatesearch" || fields[1] == "popup"
    ensures Dispatch(fields, username) == Ok(Ignored)
  {
  }

  /** Outside a battle room, any type no branch names is reported as unmanaged. */
  lemma UnmanagedOtherwise(fields: seq<string>, username: string)
    requires |fields| >= 2 && !StartsWith(fields[0], ">battle")
    requires fields[1] != "challstr" && fields[1] !in IgnoredTypes
    requires !Contains(fields[1], "updatechallenges")
    ensures Dispatch(fields, username) == Ok(Unmanaged)
  {
  }

  /** The fields of an `updateuser` message carrying the player's own name. */
  lemma OwnUpdateUserFields(fields: seq<string>, username: string)
    requires |fields| >= 3 && fields[1] == "updateuser" && fields[2] == username
    ensures Dispatch(fields, username) == Ok(OwnUpdateUser)
  {
  }

  /** `room|updateuser|<own name>|...` logs the player in, in any room. */
  lemma OwnUpdateUserMessage(room: string, username: string, rest: seq<string>, message: string)
    requires Pipe !in room && Pipe !in username
    requires forall i :: 0 <= i < |rest| ==> Pipe !in rest[i]
    requires message == Join([room, "updateuser", username] + rest)
    ensures Dispatch(Split(message), username) == Ok(OwnUpdateUser)
  {
    var parts := [room, "updateuser", username] + rest;
    assert forall i :: 3 <= i < |parts| ==> parts[i] == rest[i - 3];
    SplitJoin(parts);
    OwnUpdateUserFields(Split(message), username);
  }

  /** `updateuser` for another name is ignored outside battle rooms. */
  lemma OtherUpdateUserIgnored(room: string, other: string, username: string)
    requires Pipe !in room && Pipe !in other
    requires other != username && !StartsWith(room, ">battle")
    ensures Dispatch(Split(Join([room, "updateuser", other])), username) == Ok(Ignored)
  {
    SplitJoin([room, "updateuser", other]);
  }

  /** `room|updatechallenges|P` hands payload `P` to the challenge branch, in any room. */
  lemma UpdateChallengesMessage(room: string, payload: string, username: string)
    requires Pipe !in room && Pipe !in payload
    ensures Dispatch(Split(Join([room, "updatechallenges", payload])), username) == Ok(UpdateChallenges(payload))
  {
    SplitJoin([room, "updatechallenges", payload]);
    assert StartsWith("updatechallenges", "updatechallenges");
  }

  class PlayerNetwork {
    const username: string
    const password: string
    const authAddress: string
    const avatar: Option<int>
    const serverAddress: string
    /** The battle format this player accepts challenges in (set by the concrete player). */
    const format: string

    var loggedIn: bool
    var waitingStart: bool

    /** Every frame written to the websocket, oldest first. */
    ghost var sent: seq<string>
    /** Every login form posted to the authentication address. */
    ghost var logins: seq<LoginForm>
    /** Every message handed to the battle handler. */
    ghost var forwarded: seq<string>

    constructor (username: string, password: string, authAddress: string, avatar: Option<int>,
                 serverAddress: string, format: string)
      ensures this.username == username && this.password == password
      ensures this.authAddress == authAddress && this.avatar == avatar
      ensures this.serverAddress == serverAddress && this.format == format
      ensures !loggedIn && !waitingStart
      ensures sent == [] && logins == [] && forwarded == []
    {
      this.username := username;
      this.password := password;
      this.authAddress := authAddress;
      this.avatar := avatar;
      this.serverAddress := serverAddress;
      this.format := format;
      loggedIn := false;
      waitingStart := false;
      sent := [];
      logins := [];
      forwarded := [];
    }

    /**
     * `__init__`: refuses a missing authentication address, otherwise a
     * player that is neither logged in nor waiting for a battle to start.
     */
    static method Create(username: string, password: string, authAddress: Option<string>, avatar: Option<int>,
                         serverAddress: string, format: string) returns (r: Result<PlayerNetwork, NetError>)
      ensures r.Err? <==> authAddress.None?
      ensures r.Err? ==> r.error == MissingAuthAddress
      ensures r.Ok? ==> fresh(r.value) && r.value.authAddress == authAddress.value
      ensures r.Ok? ==> r.value.username == username && r.value.format == format
      ensures r.Ok? ==> !r.value.LoggedIn() && !r.value.waitingStart && r.value.sent == []
    {
      if authAddress.None? {
        return Err(MissingAuthAddress);
      }
      var p := new PlayerNetwork(username, password, authAddress.value, avatar, serverAddress, format);
      return Ok(p);
    }

    /** The `logged_in` property. */
    function LoggedIn(): (r: bool)
      reads this
      ensures r <==> loggedIn
    {
      loggedIn
    }

    /** `send_message`: appends exactly one frame. */
    method SendMessage(message: string, room: string, message2: Option<string>)
      modifies this
      ensures sent == old(sent) + [room + [Pipe] + message + (if Truthy(message2) then [Pipe] + message2.value else "")]
      ensures loggedIn == old(loggedIn) && waitingStart == old(waitingStart)
      ensures logins == old(logins) && forwarded == old(forwarded)
    {
      var toSend := Frame(message, room, message2);
      sent := sent + [toSend];
    }

    /**
     * `_log_in`: posts the login form, then claims the name with the
     * assertion the server returned. The avatar coroutine is created but
     * never awaited, so no avatar frame follows.
     */
    method LogIn(conf1: string, conf2: string, assertion: string)
      modifies this
      ensures logins == old(logins) + [LoginForm(authAddress, "login", username, password, conf1 + EncodedPipe + conf2)]
      ensures sent == old(sent) + ["|/trn " + username + ",0," + assertion]
      ensures loggedIn == old(loggedIn) && waitingStart == old(waitingStart) && forwarded == old(forwarded)
    {
      logins := logins + [LoginForm(authAddress, "login", username, password, conf1 + EncodedPipe + conf2)];
      SendMessage("/trn " + username + ",0," + assertion, "", None);
      assert "" + [Pipe] + ("/trn " + username + ",0," + assertion) + "" == "|/trn " + username + ",0," + assertion;
    }

    /** `accept_challenge`: only when the player can accept, waits for the start and sends the accept. */
    method AcceptChallenge(user: string, canAccept: bool)
      modifies this
      ensures canAccept ==> waitingStart && sent == old(sent) + ["|/accept " + user]
      ensures !canAccept ==> waitingStart == old(waitingStart) && sent == old(sent)
      ensures loggedIn == old(loggedIn) && logins == old(logins) && forwarded == old(forwarded)
    {
      if canAccept {
        waitingStart := true;
        SendMessage("/accept " + user, "", None);
        assert "" + [Pipe] + ("/accept " + user) + "" == "|/accept " + user;
      }
    }

    /** `leave_battle`: one frame, scoped to the battle's room. */
    method LeaveBattle(battleTag: string)
      modifies this
      ensures sent == old(sent) + [battleTag + "|/leave"]
      ensures loggedIn == old(loggedIn) && waitingStart == old(waitingStart)
      ensures logins == old(logins) && forwarded == old(forwarded)
    {
      SendMessage("/leave", battleTag, None);
      assert battleTag + [Pipe] + "/leave" + "" == battleTag + "|/leave";
    }

    /**
     * `challenge`: nothing before login; after it, a challenge frame, or a
     * `ValueError` when the player or the format is missing or empty.
     */
    method Challenge(player: Option<string>, battleFormat: Option<string>) returns (outcome: Outcome<NetError>)
      modifies this
      ensures !old(loggedIn) ==> outcome == Pass && sent == old(sent)
      ensures old(loggedIn) && Truthy(player) && Truthy(battleFormat) ==>
        outcome == Pass && sent == old(sent) + ["|/challenge " + player.value + ", " + battleFormat.value]
      ensures old(loggedIn) && !(Truthy(player) && Truthy(battleFormat)) ==>
        outcome == Fail(MissingPlayerOrFormat) && sent == old(sent)
      ensures loggedIn == old(loggedIn) && waitingStart == old(waitingStart)
      ensures logins == old(logins) && forwarded == old(forwarded)
    {
      if !loggedIn {
        return Pass;
      }
      if Truthy(player) && Truthy(battleFormat) {
        var text := "/challenge " + player.value + ", " + battleFormat.value;
        SendMessage(text, "", None);
        assert "" + [Pipe] + text + "" == "|/challenge " + player.value + ", " + battleFormat.value;
        outcome := Pass;
      } else {
        outcome := Fail(MissingPlayerOrFormat);
      }
    }

    /**
     * The `updatechallenges` loop: `accept_challenge` for every challenger
     * in the configured format, in order, and for no one else.
     */
    method AcceptChallengers(challenges: seq<(string, string)>, canAccept: bool)
      modifies this
      ensures sent == old(sent) + (if canAccept then AcceptFrames(AcceptedUsers(challenges, format)) else [])
      ensures waitingStart == (old(waitingStart) || (canAccept && AcceptedUsers(challenges, format) != []))
      ensures loggedIn == old(loggedIn) && logins == old(logins) && forwarded == old(forwarded)
    {
      for i := 0 to |challenges|
        invariant loggedIn == old(loggedIn) && logins == old(logins) && forwarded == old(forwarded)
        invariant sent == old(sent) + (if canAccept then AcceptFrames(AcceptedUsers(challenges[..i], format)) else [])
        invariant waitingStart == (old(waitingStart) || (canAccept && AcceptedUsers(challenges[..i], format) != []))
      {
        var (user, userFormat) := challenges[i];
        ghost var before := AcceptedUsers(challenges[..i], format);
        assert challenges[..i + 1][..i] == challenges[..i];
        assert AcceptedUsers(challenges[..i + 1], format) == before + (if userFormat == format then [user] else []);
        if userFormat == format {
          AcceptChallenge(user, canAccept);
          AcceptFramesSnoc(before, user);
        } else {
          assert before + [] == before;
        }
      }
      assert challenges[..|challenges|] == challenges;
    }

    /**
     * `manage_message`: splits on `|` and runs exactly the branch `Dispatch`
     * names. `assertion` is the login response's assertion, `challenges` the
     * decoded `challengesFrom` pairs, `canAccept` the player's
     * `can_accept_challenge`.
     */
    method ManageMessage(message: string, assertion: string, challenges: seq<(string, string)>, canAccept: bool)
      returns (r: Result<Branch, NetError>)
      modifies this
      ensures r == Dispatch(Split(message), username)
      ensures loggedIn == (old(loggedIn) || r == Ok(OwnUpdateUser))
      ensures waitingStart == (old(waitingStart) || (r.Ok? && r.value.UpdateChallenges? && canAccept
                                                     && AcceptedUsers(challenges, format) != []))
      ensures r.Ok? && r.value.Challstr? ==>
        && logins == old(logins) + [LoginForm(authAddress, "login", username, password,
                                              r.value.conf1 + EncodedPipe + r.value.conf2)]
        && sent == old(sent) + ["|/trn " + username + ",0," + assertion]
      ensures r.Ok? && r.value.UpdateChallenges? ==>
        sent == old(sent) + (if canAccept then AcceptFrames(AcceptedUsers(challenges, format)) else [])
      ensures !(r.Ok? && r.value.Challstr?) ==> logins == old(logins)
      ensures !(r.Ok? && (r.value.Challstr? || r.value.UpdateChallenges?)) ==> sent == old(sent)
      ensures forwarded == old(forwarded) + (if r == Ok(Battle) then [message] else [])
    {
      var fields := Split(message);
      r := Dispatch(fields, username);
      if r.Err? {
        return;
      }
      match r.value
      case Challstr(conf1, conf2) =>
        LogIn(conf1, conf2, assertion);
      case OwnUpdateUser =>
        loggedIn := true;
      case UpdateChallenges(_) =>
        AcceptChallengers(challenges, canAccept);
      case Battle =>
        forwarded := forwarded + [message];
      case Ignored =>
      case Unmanaged =>
    }
  }
}
