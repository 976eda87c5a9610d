/** The real-time chat: the connection gate that attaches a user to each
    socket, the consultation rooms, and the two events a connected socket
    sends, `joinConsultation` and `message`. Events are handled one at a
    time; what a handler emits is returned as an outbound event addressed to
    the requesting socket or to every member of a room. */
module Sockets {
  import opened Seqs
  import opened Text
  import opened Ids
  import opened Models
  import opened Errors
  import opened Database
  import opened Access
  import opened Consultations

  type ConnId = nat

  /** What the client sends when it connects: `auth.token` and the
      `Authorization` header. */
  datatype Handshake = Handshake(authToken: Option<string>, authorization: Option<string>)

  /** The credential the gate verifies: `auth.token` when it is a non-empty
      string, otherwise the header with its first "Bearer " removed. */
  function Credential(h: Handshake): Option<string> {
    if Present(h.authToken) then h.authToken
    else if h.authorization.Some? then Some(ReplaceFirst(h.authorization.value, "Bearer ", ""))
    else None
  }

  /** A token sent in `auth.token` is used as it is, whatever the header says. */
  lemma AuthTokenWins(token: string, authorization: Option<string>)
    requires token != []
    ensures Credential(Handshake(Some(token), authorization)) == Some(token)
  {
  }

  /** Without `auth.token`, a "Bearer" header yields exactly the token after it. */
  lemma BearerHeaderGivesToken(authToken: Option<string>, token: string)
    requires !Present(authToken)
    ensures Credential(Handshake(authToken, Some("Bearer " + token))) == Some(token)
  {
    ReplaceLeadingPattern("Bearer ", token);
  }

  /** The gate's verdict on a connection. */
  datatype GateResult = Accepted(user: User) | Refused(reason: string)

  /** The connection middleware: no credential, a credential that does not
      verify, a user id that cannot be cast, and an unknown user are refused
      in that order. */
  function Authenticate(h: Handshake, verify: string -> Option<Claims>, users: seq<User>): (r: GateResult)
    ensures !Present(Credential(h)) ==> r == Refused("Authentication error: No token provided")
    ensures Present(Credential(h)) && verify(Credential(h).value).None? ==>
      r == Refused("Authentication error: Invalid token")
    ensures Present(Credential(h)) && verify(Credential(h).value).Some? ==>
      var l := FindById(users, IdOfUser, verify(Credential(h).value).value.userId);
      && (l.Malformed? ==> r == Refused("Authentication error"))
      && (l.Missing? ==> r == Refused("Authentication error: User not found"))
      && (l.Found? ==> r == Accepted(users[l.index]))
    ensures r.Accepted? ==> r.user in users
  {
    var token := Credential(h);
    if !Present(token) then Refused("Authentication error: No token provided")
    else
      match verify(token.value)
      case None => Refused("Authentication error: Invalid token")
      case Some(claims) =>
        match FindById(users, IdOfUser, claims.userId)
        case Malformed => Refused("Authentication error")
        case Missing => Refused("Authentication error: User not found")
        case Found(k) => Accepted(users[k])
  }

  /** Any verified token naming a stored user opens a connection; unlike the
      refresh endpoint the gate does not look at the token's type. */
  lemma GateAcceptsStoredUser(h: Handshake, verify: string -> Option<Claims>, users: seq<User>,
                              k: nat, role: string, tokenType: Option<string>)
    requires Keyed(users, IdOfUser) && k < |users|
    requires Present(Credential(h))
    requires verify(Credential(h).value) == Some(Claims(IdString(k), role, tokenType))
    ensures Authenticate(h, verify, users) == Accepted(users[k])
  {
    FindAssignedId(users, IdOfUser, k);
  }

  /** One client connection. The gate attaches the user once it is
      accepted; the event handlers run only on such sockets. */
  class Socket {
    const conn: ConnId
    const handshake: Handshake
    var user: Option<User>

    constructor (conn: ConnId, handshake: Handshake)
      ensures this.conn == conn && this.handshake == handshake && user.None?
    {
      this.conn := conn;
      this.handshake := handshake;
      user := None;
    }

    /** Run the gate; an accepted socket carries the stored user. */
    method Connect(verify: string -> Option<Claims>, users: seq<User>) returns (g: GateResult)
      modifies this
      ensures g == Authenticate(handshake, verify, users)
      ensures user == (if g.Accepted? then Some(g.user) else old(user))
    {
      g := Authenticate(handshake, verify, users);
      if g.Accepted? {
        user := Some(g.user);
      }
    }
  }

  /** Membership after `conn` joins `room`: that room gains the connection
      and every other room is as it was. */
  function WithMember(m: map<string, set<ConnId>>, room: string, conn: ConnId): (r: map<string, set<ConnId>>)
    ensures room in r && r[room] == (if room in m then m[room] else {}) + {conn}
    ensures forall x :: x in r && x != room ==> x in m && r[x] == m[x]
    ensures forall x :: x in m ==> x in r
  {
    m[room := (if room in m then m[room] else {}) + {conn}]
  }

  /** Joining a room twice is joining it once: delivery is never duplicated. */
  lemma JoinIsIdempotent(m: map<string, set<ConnId>>, room: string, conn: ConnId)
    ensures WithMember(WithMember(m, room, conn), room, conn) == WithMember(m, room, conn)
  {
    var once := WithMember(m, room, conn);
    var twice := WithMember(once, room, conn);
    assert twice[room] == once[room];
    assert twice.Keys == once.Keys;
  }

  /** The rooms of the server: each room name maps to the connections in it. */
  class Rooms {
    var members: map<string, set<ConnId>>

    constructor ()
      ensures members == map[]
    {
      members := map[];
    }

    /** The connections in `room`; nobody is in a room never joined. */
    function Members(room: string): set<ConnId>
      reads this
    {
      if room in members then members[room] else {}
    }

    method Join(room: string, conn: ConnId)
      modifies this
      ensures members == WithMember(old(members), room, conn)
    {
      members := WithMember(members, room, conn);
    }
  }

  /** The room of a consultation. */
  function RoomName(consultationId: string): string {
    "consultation_" + consultationId
  }

  /** The room follows the string the client sent, character for character:
      two spellings give two rooms, even where the lookup treats them as the
      same consultation. */
  lemma RoomFollowsSpelling(a: string, b: string)
    ensures RoomName(a) == RoomName(b) <==> a == b
  {
    if RoomName(a) == RoomName(b) {
      assert a == RoomName(a)[|"consultation_"|..];
      assert b == RoomName(b)[|"consultation_"|..];
    }
  }

  datatype Event =
    | Joined(consultationId: string, room: string)
    | ErrorEvent(message: string)
    | MessageEvent(payload: Message)

  /** An outbound event: to the requesting socket only, or to every
      connection in a room. */
  datatype Emit = ToSender(event: Event) | ToRoom(room: string, recipients: set<ConnId>, event: Event)

  /** Whether a socket event may go on with a consultation: the index it
      names, or the error message sent back. */
  datatype Admission = Admit(index: nat) | Deny(message: string)

  /** The check both socket handlers make: the consultation must exist and
      the user must pass the access rule. A lookup that throws is answered
      with the handler's own `failure` message; a missing id finds nothing. */
  function AdmitTo(consultations: seq<Consultation>, user: User, consultationId: Option<string>,
                   failure: string): (r: Admission)
    ensures consultationId.None? ==> r == Deny("Consultation not found")
    ensures consultationId.Some? ==>
      var l := FindById(consultations, IdOfConsultation, consultationId.value);
      && (l.Malformed? ==> r == Deny(failure))
      && (l.Missing? ==> r == Deny("Consultation not found"))
      && (l.Found? && !CanAccess(user, consultations[l.index]) ==> r == Deny("Access denied"))
      && (l.Found? && CanAccess(user, consultations[l.index]) ==> r == Admit(l.index))
    ensures r.Admit? ==> r.index < |consultations| && CanAccess(user, consultations[r.index])
  {
    if consultationId.None? then Deny("Consultation not found")
    else
      match FindById(consultations, IdOfConsultation, consultationId.value)
      case Malformed => Deny(failure)
      case Missing => Deny("Consultation not found")
      case Found(k) =>
        if !CanAccess(user, consultations[k]) then Deny("Access denied") else Admit(k)
  }

  /** The socket check and the REST reader agree: a user admitted to a
      consultation over the socket is exactly one who may read it, and the
      not-found and access denials coincide. */
  lemma SocketGateAgreesWithRest(consultations: seq<Consultation>, user: User, id: string, failure: string)
    requires failure == "Failed to join consultation" || failure == "Failed to send message"
    ensures var a := AdmitTo(consultations, user, Some(id), failure);
      var g := GetConsultation(consultations, user, id);
      && (a.Admit? <==> g.Ok?)
      && (a.Admit? ==> g.value == consultations[a.index])
      && (a == Deny("Consultation not found") <==> g == Fail(404, "Consultation not found"))
      && (a == Deny("Access denied") <==> g == Fail(403, "Access denied"))
  {
    var l := FindById(consultations, IdOfConsultation, id);
    if l.Malformed? {
      assert ErrorHandler(CastError("Consultation", id)).status == 500;
    }
  }

  /** `joinConsultation`: on admission the socket joins the consultation's
      room and only the requester is told; otherwise only the requester gets
      the error and no room changes. */
  method JoinConsultation(socket: Socket, rooms: Rooms, consultations: seq<Consultation>,
                          consultationId: Option<string>) returns (e: Emit)
    requires socket.user.Some?
    modifies rooms
    ensures var a := AdmitTo(consultations, socket.user.value, consultationId, "Failed to join consultation");
      && (a.Deny? ==> e == ToSender(ErrorEvent(a.message)) && rooms.members == old(rooms.members))
      && (a.Admit? ==>
            var room := RoomName(consultationId.value);
            && e == ToSender(Joined(consultationId.value, room))
            && rooms.members == WithMember(old(rooms.members), room, socket.conn))
  {
    var a := AdmitTo(consultations, socket.user.value, consultationId, "Failed to join consultation");
    if a.Deny? {
      return ToSender(ErrorEvent(a.message));
    }
    var room := RoomName(consultationId.value);
    rooms.Join(room, socket.conn);
    e := ToSender(Joined(consultationId.value, room));
  }

  /** Text that is absent or white space only. */
  predicate Blank(text: Option<string>) {
    text.None? || Trim(text.value) == []
  }

  /** Who a message is addressed to: the doctor when the patient sends it,
      the patient when anybody else does. */
  function Recipient(c: Consultation, sender: Id): Id {
    if c.patientId == sender then c.doctorId else c.patientId
  }

  /** A party to a consultation writes to the other party. */
  lemma RecipientIsOtherParty(c: Consultation, sender: Id)
    requires sender == c.patientId || sender == c.doctorId
    requires c.patientId != c.doctorId
    ensures Recipient(c, sender) != sender
    ensures Recipient(c, sender) == c.patientId || Recipient(c, sender) == c.doctorId
  {
  }

  /** An admin who is not the patient writes to the patient. */
  lemma AdminWritesToPatient(c: Consultation, admin: User)
    requires admin.role == Admin && admin.id != c.patientId
    ensures CanAccess(admin, c) && Recipient(c, admin.id) == c.patientId
  {
  }

  /** `message`: blank text is refused before any lookup; an admitted
      message is stored with its text trimmed and relayed to every member of
      the consultation's room, whether or not the sender is one. */
  method HandleMessage(socket: Socket, rooms: Rooms, store: Store, consultationId: Option<string>,
                       text: Option<string>) returns (e: Emit)
    requires socket.user.Some? && store.Valid()
    modifies store
    ensures store.Valid()
    ensures Blank(text) ==> e == ToSender(ErrorEvent("Message text is required"))
    ensures !Blank(text) ==>
      var sender := socket.user.value;
      var a := AdmitTo(old(store.consultations), sender, consultationId, "Failed to send message");
      && (a.Deny? ==> e == ToSender(ErrorEvent(a.message)))
      && (a.Admit? ==>
            var c := old(store.consultations)[a.index];
            var m := Message(|old(store.messages)|, c.id, sender.id, Recipient(c, sender.id),
                             Trim(text.value), old(store.clock));
            var room := RoomName(consultationId.value);
            && e == ToRoom(room, rooms.Members(room), MessageEvent(m))
            && store.messages == old(store.messages) + [m]
            && store.clock == old(store.clock) + 1)
    ensures e.ToSender? ==> store.messages == old(store.messages) && store.clock == old(store.clock)
    ensures store.users == old(store.users) && store.consultations == old(store.consultations)
    ensures store.audits == old(store.audits)
  {
    if Blank(text) {
      return ToSender(ErrorEvent("Message text is required"));
    }
    var sender := socket.user.value;
    var a := AdmitTo(store.consultations, sender, consultationId, "Failed to send message");
    if a.Deny? {
      return ToSender(ErrorEvent(a.message));
    }
    var c := store.consultations[a.index];
    assert IdOfConsultation(store.consultations[a.index]) == a.index;
    var body := Trim(text.value);
    TrimIdempotent(text.value);
    var m := store.InsertMessage(c.id, sender.id, Recipient(c, sender.id), body);
    var room := RoomName(consultationId.value);
    e := ToRoom(room, rooms.Members(room), MessageEvent(m));
  }
}
