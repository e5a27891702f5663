/** The invite-request screen of `components/invite-request-system.tsx`:
    the request list with approve, reject and send, the chat box, the choice
    between the organizer and the requester view, and the approved-request
    lookup of the requester view. */
module InviteRequests {
  import opened Lists
  import opened Text
  import opened Auth

  datatype Status = Pending | Approved | Rejected

  datatype InviteRequest = InviteRequest(
    id: string,
    eventId: string,
    eventName: string,
    eventImage: string,
    requesterName: string,
    requesterAvatar: string,
    message: string,
    status: Status,
    timestamp: string)

  const MockRequests: seq<InviteRequest> := [
    InviteRequest("1", "2", "Sessão Bass Exclusiva", "/exclusive-drum-bass.png", "Alex Silva", "/placeholder.svg",
                  "Sou fã de drum & bass há anos e adoraria participar desta sessão exclusiva!", Pending,
                  "há 2 horas"),
    InviteRequest("2", "4", "Dark Matter", "/placeholder.svg", "Maria Santos", "/placeholder.svg",
                  "Tenho experiência em eventos underground e respeito as regras da comunidade.", Approved,
                  "há 1 dia")]

  // ------------------------------------------------------ approve / reject

  function HasId(requestId: string): InviteRequest -> bool
  {
    (r: InviteRequest) => r.id == requestId
  }

  function WithStatus(status: Status): InviteRequest -> InviteRequest
  {
    (r: InviteRequest) => r.(status := status)
  }

  /** `prev.map((req) => req.id === requestId ? { ...req, status } : req)`. */
  function SetStatusIn(requests: seq<InviteRequest>, requestId: string, status: Status): seq<InviteRequest>
  {
    MapIf(requests, HasId(requestId), WithStatus(status))
  }

  /** Only the status of the requests with that id changes; everything else,
      including length and order, is kept. */
  lemma SetStatusEffect(requests: seq<InviteRequest>, requestId: string, status: Status)
    ensures var r := SetStatusIn(requests, requestId, status);
      && |r| == |requests|
      && (forall i :: 0 <= i < |requests| && requests[i].id != requestId ==> r[i] == requests[i])
      && (forall i :: 0 <= i < |requests| && requests[i].id == requestId ==>
            r[i].status == status && r[i].(status := requests[i].status) == requests[i])
  {
  }

  lemma SetStatusUnknownId(requests: seq<InviteRequest>, requestId: string, status: Status)
    requires forall i :: 0 <= i < |requests| ==> requests[i].id != requestId
    ensures SetStatusIn(requests, requestId, status) == requests
  {
    MapIfNoHit(requests, HasId(requestId), WithStatus(status));
  }

  /** Approving twice is approving once. */
  lemma ApproveIdempotent(requests: seq<InviteRequest>, requestId: string)
    ensures SetStatusIn(SetStatusIn(requests, requestId, Approved), requestId, Approved) ==
            SetStatusIn(requests, requestId, Approved)
  {
    MapIfIdempotent(requests, HasId(requestId), WithStatus(Approved));
  }

  /** Neither handler checks for a pending status: the later decision wins,
      so approving and then rejecting is rejecting. */
  lemma LaterDecisionWins(requests: seq<InviteRequest>, requestId: string, first: Status, second: Status)
    ensures SetStatusIn(SetStatusIn(requests, requestId, first), requestId, second) ==
            SetStatusIn(requests, requestId, second)
  {
    var a := SetStatusIn(SetStatusIn(requests, requestId, first), requestId, second);
    var b := SetStatusIn(requests, requestId, second);
    forall i | 0 <= i < |a| ensures a[i] == b[i] {
    }
  }

  // ------------------------------------------------------------------ send

  /** `user?.name || "Usuário"`: no user, or an empty name, gives "Usuário". */
  function RequesterName(user: Option<User>): (name: string)
    ensures user.Some? && user.value.name != "" ==> name == user.value.name
    ensures user.None? || user.value.name == "" ==> name == "Usuário"
    ensures name != ""
  {
    if user.None? || user.value.name == "" then "Usuário" else user.value.name
  }

  /** The record built by `handleSendInviteRequest`; the id, taken from the
      clock in the source, is a parameter. */
  function NewRequest(newId: string, eventId: string, message: string, user: Option<User>): (r: InviteRequest)
    ensures r.id == newId && r.eventId == eventId && r.message == message
    ensures r.status == Pending && r.requesterName == RequesterName(user)
    ensures r.eventName == "Evento Solicitado" && r.eventImage == "/placeholder.svg"
    ensures r.requesterAvatar == "/placeholder.svg" && r.timestamp == "agora"
  {
    InviteRequest(newId, eventId, "Evento Solicitado", "/placeholder.svg", RequesterName(user), "/placeholder.svg",
                  message, Pending, "agora")
  }

  // ----------------------------------------------------------------- views

  /** `user?.plan !== "free"`: the organizer view, for every plan except free and also without a user. */
  function OrganizerView(user: Option<User>): (organizer: bool)
    ensures organizer <==> user.None? || user.value.plan != "free"
  {
    !(user.Some? && user.value.plan == "free")
  }

  function ApprovedForEventTwo(): InviteRequest -> bool
  {
    (r: InviteRequest) => r.status == Approved && r.eventId == "2"
  }

  /** `requests.find((r) => r.status === "approved" && r.eventId === "2")`: the
      first approved request for event "2", or none. */
  function ApprovedRequest(requests: seq<InviteRequest>): (r: Option<InviteRequest>)
    ensures r.None? <==> forall i :: 0 <= i < |requests| ==> !(requests[i].status == Approved && requests[i].eventId == "2")
    ensures r.Some? ==> r.value.status == Approved && r.value.eventId == "2"
    ensures r.Some? ==> exists k :: 0 <= k < |requests| && requests[k] == r.value &&
                          forall i :: 0 <= i < k ==> !(requests[i].status == Approved && requests[i].eventId == "2")
  {
    Find(requests, ApprovedForEventTwo())
  }

  /** On the mock list nothing for event "2" is approved yet; approving request
      "1" makes it the approved request. */
  lemma MockApprovedRequest()
    ensures ApprovedRequest(MockRequests) == None
    ensures ApprovedRequest(SetStatusIn(MockRequests, "1", Approved)) == Some(MockRequests[0].(status := Approved))
  {
    var s := SetStatusIn(MockRequests, "1", Approved);
    assert s[0] == MockRequests[0].(status := Approved);
    assert FirstIndex(s, ApprovedForEventTwo()) == 0;
  }

  // ----------------------------------------------------------- component

  class InviteSystem {
    var requests: seq<InviteRequest>
    var requestMessage: string
    var chatMessage: string

    constructor()
      ensures requests == MockRequests && requestMessage == "" && chatMessage == ""
    {
      requests := MockRequests;
      requestMessage := "";
      chatMessage := "";
    }

    method SetRequestMessage(message: string)
      modifies this`requestMessage
      ensures requestMessage == message
    {
      requestMessage := message;
    }

    method SetChatMessage(message: string)
      modifies this`chatMessage
      ensures chatMessage == message
    {
      chatMessage := message;
    }

    method HandleApproveRequest(requestId: string)
      modifies this`requests
      ensures requests == SetStatusIn(old(requests), requestId, Approved)
    {
      requests := SetStatusIn(requests, requestId, Approved);
    }

    method HandleRejectRequest(requestId: string)
      modifies this`requests
      ensures requests == SetStatusIn(old(requests), requestId, Rejected)
    {
      requests := SetStatusIn(requests, requestId, Rejected);
    }

    /** `handleSendInviteRequest`: a message that trims to nothing is refused
        and changes nothing; otherwise the new pending request goes first and
        the message box is cleared. */
    method HandleSendInviteRequest(eventId: string, newId: string, user: Option<User>) returns (sent: bool)
      modifies this`requests, this`requestMessage
      ensures sent <==> !IsBlank(old(requestMessage))
      ensures !sent ==> requests == old(requests) && requestMessage == old(requestMessage)
      ensures sent ==> requests == [NewRequest(newId, eventId, old(requestMessage), user)] + old(requests)
      ensures sent ==> requestMessage == ""
    {
      if IsBlank(requestMessage) {
        return false;
      }
      var newRequest := NewRequest(newId, eventId, requestMessage, user);
      requests := [newRequest] + requests;
      requestMessage := "";
      return true;
    }

    /** `handleSendMessage`: a blank chat message is ignored; otherwise the box is cleared. */
    method HandleSendMessage() returns (sent: bool)
      modifies this`chatMessage
      ensures sent <==> !IsBlank(old(chatMessage))
      ensures sent ==> chatMessage == ""
      ensures !sent ==> chatMessage == old(chatMessage)
    {
      if IsBlank(chatMessage) {
        return false;
      }
      chatMessage := "";
      return true;
    }
  }

  /** Typing a message and sending it from a fresh screen: it is sent exactly
      when it holds a non-blank character, and then the first request in the
      list is the new pending one carrying that message. */
  method SendThenInspect(eventId: string, newId: string, message: string, user: Option<User>)
    returns (sent: bool, first: InviteRequest)
    ensures sent <==> exists i :: 0 <= i < |message| && !IsWhiteSpace(message[i])
    ensures sent ==> first.status == Pending && first.message == message && first.eventId == eventId
  {
    var system := new InviteSystem();
    system.SetRequestMessage(message);
    sent := system.HandleSendInviteRequest(eventId, newId, user);
    first := system.requests[0];
    BlankIffAllWhiteSpace(message);
  }
}
