/**
 * The socket server's session registry and room router (server/src/server.ts).
 *
 * The registry is the module-level list `userSocketMap` of connected users; each
 * socket handler reads it, replaces it by a filtered or mapped copy, or appends
 * to it, and then emits messages. An emission is modelled as a `Delivery`: a
 * target (one socket, or a room without the sender) and a message. A handler
 * that drops its event returns no deliveries.
 */
module Presence {
  import opened Wrappers
  import opened Seqs

  type SocketId = string
  /** A room is named by the project id the users joined with. */
  type RoomId = string
  /** Event payloads the server forwards without looking inside. */
  type Payload = string

  datatype ConnectionStatus = Online | Offline

  /** One entry of `userSocketMap`. */
  datatype User = User(
    username: string,
    projectId: RoomId,
    status: ConnectionStatus,
    cursorPosition: int,
    typing: bool,
    socketId: SocketId,
    currentFile: Option<string>)

  /** Client events that are forwarded to the sender's room as they are. */
  datatype RelayEvent =
    | DirectoryCreated | DirectoryUpdated | DirectoryRenamed | DirectoryDeleted
    | FileCreated | FileUpdated | FileRenamed | FileDeleted
    | SendMessage | DrawingUpdate

  /** Messages the server emits. */
  datatype Message =
    | UsernameExists
    | UserJoined(user: User)
    | JoinAccepted(user: User, users: seq<User>)
    | UserDisconnected(user: User)
    | RemainingUsers(users: seq<User>)
    | UserOffline(socketId: SocketId)
    | UserOnline(socketId: SocketId)
    | TypingStarted(user: User)
    | TypingPaused(user: User)
    /** A relayed event; SEND_MESSAGE goes out as RECEIVE_MESSAGE. */
    | Forwarded(event: RelayEvent, payload: Payload)
    | DrawingRequested(socketId: SocketId)
    | FileStructureSync(payload: Payload)
    | DrawingSync(payload: Payload)

  /** `io.to(s)`, `socket.broadcast.to(room)` and `socket.broadcast.to(s)`. */
  datatype Target =
    | ToSocket(socket: SocketId)
    | ToRoomExcept(room: RoomId, sender: SocketId)
    | ToSocketExcept(socket: SocketId, sender: SocketId)

  datatype Delivery = Delivery(target: Target, message: Message)

  /**
   * The sockets a delivery reaches, taking the registry's entries of a room as
   * that room's members.
   */
  function Recipients(m: seq<User>, t: Target): set<SocketId> {
    match t
    case ToSocket(s) => {s}
    case ToRoomExcept(room, sender) =>
      set u | u in m && u.projectId == room && u.socketId != sender :: u.socketId
    case ToSocketExcept(s, sender) => if s == sender then {} else {s}
  }

  /** A broadcast never reaches the socket that caused it. */
  lemma BroadcastExcludesSender(m: seq<User>, t: Target)
    requires t.ToRoomExcept? || t.ToSocketExcept?
    ensures t.sender !in Recipients(m, t)
  {
  }

  /** Within one room no two entries share a username. */
  ghost predicate UniqueInRooms(m: seq<User>) {
    forall i, j :: 0 <= i < j < |m| && m[i].projectId == m[j].projectId ==> m[i].username != m[j].username
  }

  /** `getUsersInRoom(projectId)`: the room's entries, in registry order. */
  function UsersInRoom(m: seq<User>, room: RoomId): (r: seq<User>)
    ensures forall u :: u in r <==> u in m && u.projectId == room
    ensures Subseq(r, m)
  {
    FilterIsSubseq(m, (u: User) => u.projectId == room);
    FilterMembers(m, (u: User) => u.projectId == room);
    Filter(m, (u: User) => u.projectId == room)
  }

  /** `userSocketMap.find(user => user.socketId == socketId)`: the first entry of that socket. */
  function FindBySocket(m: seq<User>, sid: SocketId): (r: Option<User>)
    ensures r.None? <==> forall i :: 0 <= i < |m| ==> m[i].socketId != sid
    ensures r.Some? ==> exists i :: 0 <= i < |m| && m[i] == r.value && r.value.socketId == sid
                                    && forall j :: 0 <= j < i ==> m[j].socketId != sid
  {
    if m == [] then None
    else if m[0].socketId == sid then Some(m[0])
    else
      var r := FindBySocket(m[1..], sid);
      assert r.Some? ==> exists i :: 0 <= i < |m| - 1 && m[1..][i] == r.value && r.value.socketId == sid
                                    && forall j :: 0 <= j < i ==> m[1..][j].socketId != sid;
      assert r.Some? ==> exists i :: 1 <= i < |m| && m[i] == r.value && r.value.socketId == sid
                                    && forall j :: 0 <= j < i ==> m[j].socketId != sid by {
        if r.Some? {
          var i :| 0 <= i < |m| - 1 && m[1..][i] == r.value && r.value.socketId == sid
                   && forall j :: 0 <= j < i ==> m[1..][j].socketId != sid;
          assert forall j :: 1 <= j < i + 1 ==> m[j] == m[1..][j - 1];
        }
      }
      r
  }

  /**
   * `getprojectId(socketId)`: the room of the socket's first entry; nothing when
   * the socket has no entry or its stored project id is empty.
   */
  function ProjectOf(m: seq<User>, sid: SocketId): (r: Option<RoomId>)
    ensures r.Some? <==> FindBySocket(m, sid).Some? && FindBySocket(m, sid).value.projectId != ""
    ensures r.Some? ==> r.value != "" && r.value == FindBySocket(m, sid).value.projectId
  {
    match FindBySocket(m, sid)
    case None => None
    case Some(u) => if u.projectId == "" then None else Some(u.projectId)
  }

  /** The JOIN_REQUEST duplicate check: some entry of the room already has the username. */
  predicate NameTaken(m: seq<User>, room: RoomId, name: string) {
    |Filter(UsersInRoom(m, room), (u: User) => u.username == name)| > 0
  }

  lemma NameTakenMeans(m: seq<User>, room: RoomId, name: string)
    ensures NameTaken(m, room, name) <==> exists u :: u in m && u.projectId == room && u.username == name
  {
    var f := Filter(UsersInRoom(m, room), (u: User) => u.username == name);
    FilterMembers(UsersInRoom(m, room), (u: User) => u.username == name);
    if NameTaken(m, room, name) {
      assert f[0] in f;
    }
  }

  /** The entry a successful join appends. */
  function NewSession(sid: SocketId, room: RoomId, name: string): User {
    User(name, room, Online, 0, false, sid, None)
  }

  /**
   * The registry after the `disconnecting` filter: every entry of the socket and
   * every entry, in any room, with the departing username is dropped.
   */
  function Evict(m: seq<User>, sid: SocketId, name: string): (r: seq<User>)
    ensures forall u :: u in r <==> u in m && u.socketId != sid && u.username != name
    ensures Subseq(r, m)
  {
    FilterIsSubseq(m, (u: User) => u.socketId != sid && u.username != name);
    FilterMembers(m, (u: User) => u.socketId != sid && u.username != name);
    Filter(m, (u: User) => u.socketId != sid && u.username != name)
  }

  /** USER_ONLINE / USER_OFFLINE: the status of every entry of socket `sid` becomes `st`. */
  function WithStatus(m: seq<User>, sid: SocketId, st: ConnectionStatus): (r: seq<User>)
    ensures |r| == |m|
    ensures forall i :: 0 <= i < |m| ==> r[i].(status := m[i].status) == m[i]
    ensures forall i :: 0 <= i < |m| ==> r[i].status == if m[i].socketId == sid then st else m[i].status
  {
    seq(|m|, i requires 0 <= i < |m| => if m[i].socketId == sid then m[i].(status := st) else m[i])
  }

  /**
   * TYPING_START (with `cursor`) and TYPING_PAUSE (without): the typing flag of
   * every entry of socket `sid` becomes `typing`, and its cursor is replaced only
   * when a position is given.
   */
  function WithTyping(m: seq<User>, sid: SocketId, typing: bool, cursor: Option<int>): (r: seq<User>)
    ensures |r| == |m|
    ensures forall i :: 0 <= i < |m| ==> r[i].(typing := m[i].typing, cursorPosition := m[i].cursorPosition) == m[i]
    ensures forall i :: 0 <= i < |m| && m[i].socketId == sid ==>
      r[i].typing == typing && r[i].cursorPosition == cursor.GetOr(m[i].cursorPosition)
    ensures forall i :: 0 <= i < |m| && m[i].socketId != sid ==> r[i] == m[i]
  {
    seq(|m|, i requires 0 <= i < |m| =>
      if m[i].socketId == sid then m[i].(typing := typing, cursorPosition := cursor.GetOr(m[i].cursorPosition))
      else m[i])
  }

  /** The live registry. Its invariant is that usernames are unique within each room. */
  class Registry {
    var users: seq<User>

    ghost predicate Valid()
      reads this
    {
      UniqueInRooms(users)
    }

    constructor ()
      ensures Valid() && users == []
    {
      users := [];
    }

    /** JOIN_REQUEST {projectId, username} from socket `sid`. */
    method Join(sid: SocketId, room: RoomId, name: string) returns (out: seq<Delivery>)
      requires Valid()
      modifies this
      ensures Valid()
      ensures NameTaken(old(users), room, name) ==>
        users == old(users) && out == [Delivery(ToSocket(sid), UsernameExists)]
      ensures !NameTaken(old(users), room, name) ==>
        var u := NewSession(sid, room, name);
        && users == old(users) + [u]
        && out == [Delivery(ToRoomExcept(room, sid), UserJoined(u)),
                   Delivery(ToSocket(sid), JoinAccepted(u, UsersInRoom(users, room)))]
    {
      if NameTaken(users, room, name) {
        out := [Delivery(ToSocket(sid), UsernameExists)];
        return;
      }
      var u := NewSession(sid, room, name);
      JoinKeepsNamesUnique(users, room, name, u);
      users := users + [u];
      out := [Delivery(ToRoomExcept(room, sid), UserJoined(u)),
              Delivery(ToSocket(sid), JoinAccepted(u, UsersInRoom(users, room)))];
    }

    /** `disconnecting` of socket `sid`. */
    method Disconnecting(sid: SocketId) returns (out: seq<Delivery>)
      requires Valid()
      modifies this
      ensures Valid()
      ensures FindBySocket(old(users), sid).None? ==> users == old(users) && out == []
      ensures FindBySocket(old(users), sid).Some? ==>
        var u := FindBySocket(old(users), sid).value;
        && users == Evict(old(users), sid, u.username)
        && out == [Delivery(ToRoomExcept(u.projectId, sid), UserDisconnected(u)),
                   Delivery(ToRoomExcept(u.projectId, sid), RemainingUsers(UsersInRoom(users, u.projectId)))]
    {
      var found := FindBySocket(users, sid);
      if found.None? {
        return [];
      }
      var u := found.value;
      var first := Delivery(ToRoomExcept(u.projectId, sid), UserDisconnected(u));
      SubseqKeepsNamesUnique(Evict(users, sid, u.username), users);
      users := Evict(users, sid, u.username);
      out := [first, Delivery(ToRoomExcept(u.projectId, sid), RemainingUsers(UsersInRoom(users, u.projectId)))];
    }

    /** USER_ONLINE / USER_OFFLINE {socketId: target} sent by socket `sender`. */
    method SetStatus(sender: SocketId, target: SocketId, st: ConnectionStatus) returns (out: seq<Delivery>)
      requires Valid()
      modifies this
      ensures Valid()
      ensures users == WithStatus(old(users), target, st)
      ensures ProjectOf(users, target).None? ==> out == []
      ensures ProjectOf(users, target).Some? ==>
        out == [Delivery(ToRoomExcept(ProjectOf(users, target).value, sender),
                         if st == Online then UserOnline(target) else UserOffline(target))]
    {
      users := WithStatus(users, target, st);
      var room := ProjectOf(users, target);
      if room.None? {
        return [];
      }
      out := [Delivery(ToRoomExcept(room.value, sender), if st == Online then UserOnline(target) else UserOffline(target))];
    }

    /** TYPING_START {cursorPosition} from socket `sid`. */
    method TypingStart(sid: SocketId, cursor: int) returns (out: seq<Delivery>)
      requires Valid()
      modifies this
      ensures Valid()
      ensures users == WithTyping(old(users), sid, true, Some(cursor))
      ensures FindBySocket(users, sid).None? ==> out == []
      ensures FindBySocket(users, sid).Some? ==>
        var u := FindBySocket(users, sid).value;
        out == [Delivery(ToRoomExcept(u.projectId, sid), TypingStarted(u))]
    {
      users := WithTyping(users, sid, true, Some(cursor));
      var found := FindBySocket(users, sid);
      if found.None? {
        return [];
      }
      out := [Delivery(ToRoomExcept(found.value.projectId, sid), TypingStarted(found.value))];
    }

    /** TYPING_PAUSE {fileStructure} from socket `sid` (the tree upsert is not part of this model). */
    method TypingPause(sid: SocketId) returns (out: seq<Delivery>)
      requires Valid()
      modifies this
      ensures Valid()
      ensures users == WithTyping(old(users), sid, false, None)
      ensures FindBySocket(users, sid).None? ==> out == []
      ensures FindBySocket(users, sid).Some? ==>
        var u := FindBySocket(users, sid).value;
        out == [Delivery(ToRoomExcept(u.projectId, sid), TypingPaused(u))]
    {
      users := WithTyping(users, sid, false, None);
      var found := FindBySocket(users, sid);
      if found.None? {
        return [];
      }
      out := [Delivery(ToRoomExcept(found.value.projectId, sid), TypingPaused(found.value))];
    }

    /**
     * The directory, file, chat and drawing-update handlers: the payload goes,
     * unchanged, to the sender's room without the sender, or nowhere when the
     * sender's room cannot be resolved.
     */
    function Relay(sid: SocketId, event: RelayEvent, payload: Payload): (out: seq<Delivery>)
      reads this
      ensures ProjectOf(users, sid).None? <==> out == []
      ensures out != [] ==> |out| == 1 && out[0].target == ToRoomExcept(ProjectOf(users, sid).value, sid)
      ensures out != [] ==> out[0].message == Forwarded(event, payload)
      ensures forall d :: d in out ==> sid !in Recipients(users, d.target)
    {
      match ProjectOf(users, sid)
      case None => []
      case Some(room) => [Delivery(ToRoomExcept(room, sid), Forwarded(event, payload))]
    }

    /** REQUEST_DRAWING from socket `sid`: the room is asked on the sender's behalf. */
    function RequestDrawing(sid: SocketId): (out: seq<Delivery>)
      reads this
      ensures ProjectOf(users, sid).None? <==> out == []
      ensures out != [] ==> out == [Delivery(ToRoomExcept(ProjectOf(users, sid).value, sid), DrawingRequested(sid))]
    {
      match ProjectOf(users, sid)
      case None => []
      case Some(room) => [Delivery(ToRoomExcept(room, sid), DrawingRequested(sid))]
    }
  }

  /** SYNC_FILE_STRUCTURE: sent to the named socket, whoever it is, without any registry lookup. */
  function SyncFileStructure(sender: SocketId, target: SocketId, payload: Payload): (out: seq<Delivery>)
    ensures |out| == 1 && out[0].message == FileStructureSync(payload)
    ensures forall m :: Recipients(m, out[0].target) == {target}
  {
    [Delivery(ToSocket(target), FileStructureSync(payload))]
  }

  /** SYNC_DRAWING: broadcast to the named socket, which never includes the sender itself. */
  function SyncDrawing(sender: SocketId, target: SocketId, payload: Payload): (out: seq<Delivery>)
    ensures |out| == 1 && out[0].message == DrawingSync(payload)
    ensures forall m :: Recipients(m, out[0].target) == (if target == sender then {} else {target})
    ensures forall m :: sender !in Recipients(m, out[0].target)
  {
    [Delivery(ToSocketExcept(target, sender), DrawingSync(payload))]
  }

  // ---------------------------------------------------------------------------
  // Properties of the registry transitions
  // ---------------------------------------------------------------------------

  /** A join that passes the duplicate check keeps usernames unique per room. */
  lemma JoinKeepsNamesUnique(m: seq<User>, room: RoomId, name: string, u: User)
    requires UniqueInRooms(m) && !NameTaken(m, room, name)
    requires u.projectId == room && u.username == name
    ensures UniqueInRooms(m + [u])
  {
    NameTakenMeans(m, room, name);
    var m' := m + [u];
    forall i, j | 0 <= i < j < |m'| && m'[i].projectId == m'[j].projectId
      ensures m'[i].username != m'[j].username
    {
      if j == |m| {
        assert m'[i] in m;
      }
    }
  }

  /** Dropping entries keeps usernames unique per room. */
  lemma {:induction false} SubseqKeepsNamesUnique(a: seq<User>, b: seq<User>)
    requires Subseq(a, b) && UniqueInRooms(b)
    ensures UniqueInRooms(a)
    decreases |b|
  {
    if a != [] {
      assert b != [];
      assert UniqueInRooms(b[1..]) by {
        forall i, j | 0 <= i < j < |b[1..]| && b[1..][i].projectId == b[1..][j].projectId
          ensures b[1..][i].username != b[1..][j].username
        {
          assert b[1..][i] == b[i + 1] && b[1..][j] == b[j + 1];
        }
      }
      if a[0] == b[0] {
        SubseqKeepsNamesUnique(a[1..], b[1..]);
        forall j | 1 <= j < |a| && a[0].projectId == a[j].projectId
          ensures a[0].username != a[j].username
        {
          SubseqMember(a[1..], b[1..], j - 1);
          var k :| 0 <= k < |b[1..]| && b[1..][k] == a[1..][j - 1];
          assert b[k + 1] == a[j];
        }
        forall i, j | 0 <= i < j < |a| && a[i].projectId == a[j].projectId
          ensures a[i].username != a[j].username
        {
          if i > 0 {
            assert a[1..][i - 1] == a[i] && a[1..][j - 1] == a[j];
          }
        }
      } else {
        SubseqKeepsNamesUnique(a, b[1..]);
      }
    }
  }

  /** Every element of a subsequence occurs in the original. */
  lemma {:induction false} SubseqMember(a: seq<User>, b: seq<User>, i: int)
    requires Subseq(a, b) && 0 <= i < |a|
    ensures exists k :: 0 <= k < |b| && b[k] == a[i]
    decreases |b|
  {
    assert b != [];
    if a[0] == b[0] {
      if i > 0 {
        SubseqMember(a[1..], b[1..], i - 1);
        var k :| 0 <= k < |b[1..]| && b[1..][k] == a[1..][i - 1];
        assert b[k + 1] == a[i];
      }
    } else {
      SubseqMember(a, b[1..], i);
      var k :| 0 <= k < |b[1..]| && b[1..][k] == a[i];
      assert b[k + 1] == a[i];
    }
  }

  /** After a successful join the accepted member list is the old room plus the newcomer, last. */
  lemma JoinAcceptedList(m: seq<User>, sid: SocketId, room: RoomId, name: string)
    ensures UsersInRoom(m + [NewSession(sid, room, name)], room) == UsersInRoom(m, room) + [NewSession(sid, room, name)]
    ensures NewSession(sid, room, name) in UsersInRoom(m + [NewSession(sid, room, name)], room)
  {
    FilterAppend(m, [NewSession(sid, room, name)], (u: User) => u.projectId == room);
  }

  /** A rejected join with a colliding name never grows the room. */
  lemma RejectedJoinSeesCollision(m: seq<User>, room: RoomId, name: string)
    requires NameTaken(m, room, name)
    ensures exists u :: u in UsersInRoom(m, room) && u.username == name
  {
    NameTakenMeans(m, room, name);
  }

  /**
   * After a disconnect no entry has the socket or the departing username, so
   * every later relayed event from that socket is dropped.
   */
  lemma DisconnectDropsLaterEvents(m: seq<User>, sid: SocketId, name: string)
    ensures forall u :: u in Evict(m, sid, name) ==> u.socketId != sid && u.username != name
    ensures ProjectOf(Evict(m, sid, name), sid).None?
  {
    var r := Evict(m, sid, name);
    assert forall i :: 0 <= i < |r| ==> r[i] in r;
  }

  /** The disconnect filter also removes a same-named session of another socket in another room. */
  lemma DisconnectRemovesNamesakeElsewhere()
    ensures var a := NewSession("s1", "p1", "alice");
            var b := NewSession("s2", "p2", "alice");
            Evict([a, b], "s1", "alice") == []
  {
    var a := NewSession("s1", "p1", "alice");
    var b := NewSession("s2", "p2", "alice");
    assert Filter([a, b][1..], (u: User) => u.socketId != "s1" && u.username != "alice") == [];
  }

  /** Status and typing updates neither add nor remove entries, nor move them between rooms. */
  lemma UpdatesKeepNamesUnique(m: seq<User>, sid: SocketId, st: ConnectionStatus, typing: bool, cursor: Option<int>)
    requires UniqueInRooms(m)
    ensures UniqueInRooms(WithStatus(m, sid, st))
    ensures UniqueInRooms(WithTyping(m, sid, typing, cursor))
  {
  }

  /** Only the target socket's entries change status; every other socket's entries stay as they were. */
  lemma StatusLeavesOthers(m: seq<User>, sid: SocketId, st: ConnectionStatus, i: int)
    requires 0 <= i < |m| && m[i].socketId != sid
    ensures WithStatus(m, sid, st)[i] == m[i]
  {
  }
}
