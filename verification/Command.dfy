/** The command line of src/client/main.cpp: from a typed line to a request. */
module CommandLine {
  import opened ChatTypes
  import opened DecimalText

  function Find(s: string, c: char): (p: int)
    ensures -1 <= p < |s|
    ensures p == -1 ==> c !in s
    ensures p >= 0 ==> s[p] == c && c !in s[..p]
  {
    if s == [] then -1
    else if s[0] == c then 0
    else
      var p := Find(s[1..], c);
      assert p >= 0 ==> s[..p + 1] == [s[0]] + s[1..][..p];
      if p == -1 then -1 else p + 1
  }

  /** `substr(0, pos)`: everything when there is no colon, because -1 is the
      largest length. */
  function BeforeColon(s: string): string {
    var pos := Find(s, ':');
    if pos == -1 then s else s[..pos]
  }

  /** `substr(pos + 1, size - pos)`: likewise everything when there is no colon. */
  function AfterColon(s: string): string {
    s[Find(s, ':') + 1..]
  }

  /** The command map's keys. */
  const COMMANDS := ["help", "logout", "chat", "groupchat", "creategroup", "addcontact", "joingroup"]

  /** What a command does. `Throws` is a number `stoi` does not accept; nothing
      catches that exception. */
  datatype Outcome =
    | Send(js: Json)
    | SendLogOut(js: Json)
    | ShowHelp
    | Unknown
    | Throws

  function ChatRequest(me: UserId, name: string, to: UserId, msg: string): Json {
    Json(Some(PRIVATE_CHAT_MSG), Some(me), Some(to), None, Some(name), None, None, Some(msg))
  }

  function GroupChatRequest(me: UserId, name: string, groupid: GroupId, msg: string): Json {
    Json(Some(GROUP_CHAT_MSG), Some(me), None, Some(groupid), Some(name), None, None, Some(msg))
  }

  function CreateGroupRequest(me: UserId, name: string, desc: string): Json {
    Json(Some(CREATE_GROUP_MSG), Some(me), None, None, Some(name), None, Some(desc), None)
  }

  function JoinGroupRequest(me: UserId, groupid: GroupId): Json {
    Json(Some(JOIN_GROUP_MSG), Some(me), None, Some(groupid), None, None, None, None)
  }

  function AddContactRequest(me: UserId, to: UserId): Json {
    Json(Some(ADD_CONTACT_MSG), Some(me), Some(to), None, None, None, None, None)
  }

  function LogOutRequest(me: UserId): Json {
    Json(Some(LOG_OUT_MSG), Some(me), None, None, None, None, None, None)
  }

  function LoginRequest(id: UserId, password: string): Json {
    Json(Some(LOGIN_MSG), Some(id), None, None, None, Some(password), None, None)
  }

  /** A number argument, then what is sent with it. */
  function SendNumbered(number: Option<int>, request: int -> Json): Outcome {
    if number.Some? then Send(request(number.value)) else Throws
  }

  function RunNamed(me: UserId, name: string, command: string, args: string): Outcome {
    if command == "help" then ShowHelp
    else if command == "logout" then SendLogOut(LogOutRequest(me))
    else if command == "chat" then
      SendNumbered(Stoi(BeforeColon(args)), to => ChatRequest(me, name, to, AfterColon(args)))
    else if command == "groupchat" then
      SendNumbered(Stoi(BeforeColon(args)), groupid => GroupChatRequest(me, name, groupid, AfterColon(args)))
    else if command == "creategroup" then Send(CreateGroupRequest(me, BeforeColon(args), AfterColon(args)))
    else if command == "addcontact" then SendNumbered(Stoi(args), to => AddContactRequest(me, to))
    else if command == "joingroup" then SendNumbered(Stoi(args), groupid => JoinGroupRequest(me, groupid))
    else Unknown
  }

  /** One line typed in a session of user `me`. */
  function RunCommand(me: UserId, name: string, line: string): Outcome {
    RunNamed(me, name, BeforeColon(line), AfterColon(line))
  }

  // ----- Round trips ------------------------------------------------------------------

  lemma {:induction false} FindAtMost(s: string, c: char, k: nat)
    requires k < |s| && s[k] == c
    ensures 0 <= Find(s, c) <= k
    ensures c !in s[..k] ==> Find(s, c) == k
  {
  }

  lemma ColonSplits(a: string, b: string)
    ensures (BeforeColon(a + ":" + b) == a && AfterColon(a + ":" + b) == b) <==> ':' !in a
  {
    var s := a + ":" + b;
    FindAtMost(s, ':', |a|);
    assert s[..|a|] == a && s[|a| + 1..] == b;
    if k :| 0 <= k < |a| && a[k] == ':' {
      FindAtMost(s, ':', k);
    }
  }

  lemma NumberThenRest(n: int, rest: string)
    ensures var args := PrintInt(n) + ":" + rest;
            Stoi(BeforeColon(args)) == (if INT_MIN <= n <= INT_MAX then Some(n) else None) && AfterColon(args) == rest
  {
    PrintedIntHasNoColon(n);
    ColonSplits(PrintInt(n), rest);
    PrintedChannelReadsBack(n);
  }

  lemma CommandThenArgs(me: UserId, name: string, command: string, args: string)
    requires ':' !in command
    ensures RunCommand(me, name, command + ":" + args) == RunNamed(me, name, command, args)
  {
    ColonSplits(command, args);
  }

  lemma NoColon(s: string)
    requires ':' !in s
    ensures BeforeColon(s) == s && AfterColon(s) == s
  {
  }

  // What is sent is given field by field.

  /** Private chat: for every id, and every message even with colons in it, the
      line is read back exactly when the id fits 32 bits; otherwise `stoi` throws. */
  lemma ChatRoundTrip(me: UserId, name: string, to: UserId, msg: string)
    ensures RunCommand(me, name, "chat" + ":" + (PrintInt(to) + ":" + msg))
         == if INT_MIN <= to <= INT_MAX
            then Send(Json(kind := Some(PRIVATE_CHAT_MSG), id := Some(me), to := Some(to), groupid := None,
                           name := Some(name), password := None, desc := None, msg := Some(msg)))
            else Throws
  {
    CommandThenArgs(me, name, "chat", PrintInt(to) + ":" + msg);
    NumberThenRest(to, msg);
  }

  lemma GroupChatRoundTrip(me: UserId, name: string, groupid: GroupId, msg: string)
    ensures RunCommand(me, name, "groupchat" + ":" + (PrintInt(groupid) + ":" + msg))
         == if INT_MIN <= groupid <= INT_MAX
            then Send(Json(kind := Some(GROUP_CHAT_MSG), id := Some(me), to := None, groupid := Some(groupid),
                           name := Some(name), password := None, desc := None, msg := Some(msg)))
            else Throws
  {
    CommandThenArgs(me, name, "groupchat", PrintInt(groupid) + ":" + msg);
    NumberThenRest(groupid, msg);
  }

  /** Group creation: read back exactly when the name has no colon. */
  lemma CreateGroupRoundTrip(me: UserId, name: string, groupname: string, desc: string)
    ensures (RunCommand(me, name, "creategroup" + ":" + (groupname + ":" + desc))
             == Send(Json(kind := Some(CREATE_GROUP_MSG), id := Some(me), to := None, groupid := None,
                          name := Some(groupname), password := None, desc := Some(desc), msg := None)))
            <==> ':' !in groupname
  {
    CommandThenArgs(me, name, "creategroup", groupname + ":" + desc);
    ColonSplits(groupname, desc);
  }

  lemma NamedJoin(me: UserId, name: string, args: string)
    ensures RunNamed(me, name, "joingroup", args)
         == match Stoi(args)
            case Some(groupid) =>
              Send(Json(kind := Some(JOIN_GROUP_MSG), id := Some(me), to := None, groupid := Some(groupid),
                        name := None, password := None, desc := None, msg := None))
            case None => Throws
  {
  }

  lemma JoinGroupRoundTrip(me: UserId, name: string, groupid: GroupId)
    ensures RunCommand(me, name, "joingroup" + ":" + PrintInt(groupid))
         == if INT_MIN <= groupid <= INT_MAX
            then Send(Json(kind := Some(JOIN_GROUP_MSG), id := Some(me), to := None, groupid := Some(groupid),
                           name := None, password := None, desc := None, msg := None))
            else Throws
  {
    CommandThenArgs(me, name, "joingroup", PrintInt(groupid));
    NamedJoin(me, name, PrintInt(groupid));
    PrintedChannelReadsBack(groupid);
  }

  lemma NamedAddContact(me: UserId, name: string, args: string)
    ensures RunNamed(me, name, "addcontact", args)
         == match Stoi(args)
            case Some(to) =>
              Send(Json(kind := Some(ADD_CONTACT_MSG), id := Some(me), to := Some(to), groupid := None,
                        name := None, password := None, desc := None, msg := None))
            case None => Throws
  {
  }

  lemma AddContactRoundTrip(me: UserId, name: string, to: UserId)
    ensures RunCommand(me, name, "addcontact" + ":" + PrintInt(to))
         == if INT_MIN <= to <= INT_MAX
            then Send(Json(kind := Some(ADD_CONTACT_MSG), id := Some(me), to := Some(to), groupid := None,
                           name := None, password := None, desc := None, msg := None))
            else Throws
  {
    CommandThenArgs(me, name, "addcontact", PrintInt(to));
    NamedAddContact(me, name, PrintInt(to));
    PrintedChannelReadsBack(to);
  }

  /** The logout of user `me`, field by field. */
  predicate LogsOut(js: Json, me: UserId) {
    js == Json(kind := Some(LOG_OUT_MSG), id := Some(me), to := None, groupid := None,
               name := None, password := None, desc := None, msg := None)
  }

  lemma NamedRequests(me: UserId, name: string, command: string, args: string)
    ensures var r := RunNamed(me, name, command, args);
            && (r.Send? ==> r.js.kind != Some(LOGIN_MSG) && r.js.kind != Some(LOG_OUT_MSG) && r.js.id == Some(me))
            && (r.SendLogOut? <==> command == "logout")
            && (r.SendLogOut? ==> LogsOut(r.js, me))
            && (r.ShowHelp? <==> command == "help")
            && (r.Unknown? <==> command !in COMMANDS)
  {
  }

  /** No line typed in a session sends a login; a logout names the session's own
      user, and every other request names that user as its sender. The line's first
      part alone decides which command it is, and whether it is one. */
  lemma SessionRequests(me: UserId, name: string, line: string)
    ensures var r, command := RunCommand(me, name, line), BeforeColon(line);
            && (r.Send? ==> r.js.kind != Some(LOGIN_MSG) && r.js.kind != Some(LOG_OUT_MSG) && r.js.id == Some(me))
            && (r.SendLogOut? <==> command == "logout")
            && (r.SendLogOut? ==> LogsOut(r.js, me))
            && (r.ShowHelp? <==> command == "help")
            && (r.Unknown? <==> command !in COMMANDS)
  {
    NamedRequests(me, name, BeforeColon(line), AfterColon(line));
  }
}
