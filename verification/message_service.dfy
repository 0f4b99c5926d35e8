/**
 * Contact messages, G2.Service/Messages/MessageService.cs: users submit them,
 * admins read, mark and list them, super-admins delete them. `now` is the
 * service clock; the declarative validators are the input `valid`.
 */
module MessageService {
  import opened Common
  import opened Text
  import opened Entities
  import opened Access
  import Paging

  /** What AddMessageDto maps onto a message. */
  datatype MessageDraft = MessageDraft(kind: string, title: string, body: string, jobId: Option<int>,
                                       transactionId: Option<int>)

  /** SubmitMessage's row: the draft, sent by the caller, unread, stamped `now`. */
  function Submitted(id: int, d: MessageDraft, userId: int, now: int): (r: Message)
    ensures r.id == id && r.userId == userId && r.unread && !r.isDeleted
    ensures r.kind == d.kind && r.title == d.title && r.body == d.body
    ensures r.jobId == d.jobId && r.transactionId == d.transactionId
    ensures r.createdAt == now && r.updatedAt == now
  {
    Message(id, userId, d.kind, d.title, d.body, d.jobId, d.transactionId, true, false, now, now)
  }

  /**
   * The author joined in by `Include(User)`: the relation is required, so the
   * join is an inner one and a message whose author row is missing is never
   * found; deleted authors are joined like any other.
   */
  function Author(users: seq<User>, m: Message): (r: Option<nat>)
    ensures r.Some? ==> r.value < |users| && users[r.value].id == m.userId
    ensures r.None? <==> forall k :: 0 <= k < |users| ==> users[k].id != m.userId
  {
    FirstIndex(users, (u: User) => u.id == m.userId)
  }

  // ---------------------------------------------------------------------------
  // Reading one message

  /** MessageDto. */
  datatype MessageView = MessageView(id: int, userId: int, email: string, fullname: string, kind: string,
                                     title: string, body: string, jobId: Option<int>,
                                     transactionId: Option<int>, unread: bool, createdAt: int)

  /** GetMessage's DTO as written: UserId is filled from the reader's claims, not the message. */
  function ViewAsWritten(m: Message, author: User, readerId: int): MessageView
  {
    MessageView(m.id, readerId, author.email, author.fullname, m.kind, m.title, m.body, m.jobId,
                m.transactionId, m.unread, m.createdAt)
  }

  /** The DTO with UserId taken from the message, beside the author's email and name. */
  function View(m: Message, author: User): (r: MessageView)
    ensures r.id == m.id && r.userId == m.userId && r.unread == m.unread
    ensures r.email == author.email && r.fullname == author.fullname
  {
    MessageView(m.id, m.userId, author.email, author.fullname, m.kind, m.title, m.body, m.jobId,
                m.transactionId, m.unread, m.createdAt)
  }

  /**
   * As written, an admin reading somebody else's message is told it was sent
   * by the admin; the two DTOs differ in UserId and nowhere else.
   */
  lemma ViewReportsReader(m: Message, author: User, readerId: int)
    requires readerId != m.userId
    ensures ViewAsWritten(m, author, readerId).userId == readerId != View(m, author).userId
    ensures ViewAsWritten(m, author, readerId) == View(m, author).(userId := readerId)
  {
  }

  /** GetMessage (admins): a live message with its author, or "Message not found". */
  function GetMessage(messages: seq<Message>, users: seq<User>, caller: Caller, id: int): Reply<MessageView>
  {
    if !IsAdmin(caller) then Reply(Unauthorised, None)
    else match FirstIndex(messages, (m: Message) => m.id == id && !m.isDeleted && Author(users, m).Some?)
      case None => Reply(Response(failure, "Message not found"), None)
      case Some(k) => Reply(Response(success, "Success"), Some(View(messages[k], users[Author(users, messages[k]).value])))
  }

  lemma GetMessageIff(messages: seq<Message>, users: seq<User>, caller: Caller, id: int)
    ensures var r := GetMessage(messages, users, caller, id);
      (r.body.Some? <==> IsAdmin(caller) && exists k :: (0 <= k < |messages| && messages[k].id == id
                                                         && !messages[k].isDeleted && Author(users, messages[k]).Some?))
      && (r.body.Some? ==> (r.body.value.id == id
          && exists k :: 0 <= k < |users| && users[k].id == r.body.value.userId && users[k].email == r.body.value.email))
  {
  }

  // ---------------------------------------------------------------------------
  // Listing

  /**
   * The listing filter: read state when asked, the type ignoring case when
   * given, and the query equal (ignoring case) to the author's name or email
   * or to the title when given. IsDeleted is not consulted.
   */
  predicate Matches(m: Message, author: User, isRead: Option<bool>, kind: Option<string>, query: Option<string>)
  {
    (isRead.None? || m.unread == isRead.value)
    && (kind.None? || kind.value == [] || EqualsIgnoreCase(m.kind, kind.value))
    && (query.None? || query.value == [] || EqualsIgnoreCase(author.fullname, query.value)
        || EqualsIgnoreCase(author.email, query.value) || EqualsIgnoreCase(m.title, query.value))
  }

  predicate Listed(users: seq<User>, m: Message, isRead: Option<bool>, kind: Option<string>, query: Option<string>)
  {
    Author(users, m).Some? && Matches(m, users[Author(users, m).value], isRead, kind, query)
  }

  /** GetAllMessages (admins): matching messages with their authors, newest first, one page. */
  function GetAllMessages(messages: seq<Message>, users: seq<User>, caller: Caller, page: int, limit: int,
                          isRead: Option<bool>, kind: Option<string>, query: Option<string>): Reply<seq<(Message, User)>>
  {
    if !IsAdmin(caller) then Reply(Unauthorised, None)
    else
      var hits := Filter(messages, (m: Message) => Listed(users, m, isRead, kind, query));
      var rows := seq(|hits|, k requires 0 <= k < |hits| => (hits[k], users[Author(users, hits[k]).value]));
      Reply(Response(success, "Success"), Some(Paging.Take(NewestFirst(rows, MessageId), Paging.Normalize(page, limit))))
  }

  /**
   * Only admins get a listing; each row is a message of the table with its
   * author, passing the filters, and a page holds at most the clamped limit.
   */
  lemma MessageListing(messages: seq<Message>, users: seq<User>, caller: Caller, page: int, limit: int,
                       isRead: Option<bool>, kind: Option<string>, query: Option<string>)
    ensures var r := GetAllMessages(messages, users, caller, page, limit, isRead, kind, query).body;
      (r.Some? <==> IsAdmin(caller))
      && (r.Some? ==> (|r.value| <= Paging.Normalize(page, limit).limit
          && (forall k :: 0 <= k < |r.value| ==>
               r.value[k].0 in messages && r.value[k].1 in users && r.value[k].1.id == r.value[k].0.userId
               && Matches(r.value[k].0, r.value[k].1, isRead, kind, query))
          && Descending(r.value, MessageId)))
  {
    if IsAdmin(caller) {
      var hits := Filter(messages, (m: Message) => Listed(users, m, isRead, kind, query));
      var rows := seq(|hits|, k requires 0 <= k < |hits| => (hits[k], users[Author(users, hits[k]).value]));
      var w := Paging.Normalize(page, limit);
      var items := Paging.Take(NewestFirst(rows, MessageId), w);
      Paging.NewestPage(rows, MessageId, w);
      forall k | 0 <= k < |items|
        ensures items[k].0 in messages && items[k].1 in users && items[k].1.id == items[k].0.userId
        ensures Matches(items[k].0, items[k].1, isRead, kind, query)
      {
        var j :| 0 <= j < |rows| && rows[j] == items[k];
        assert Listed(users, hits[j], isRead, kind, query);
      }
    }
  }

  /** Deleted messages stay in the listing: the filter gives a message and its deleted copy the same verdict. */
  lemma ListingIgnoresDeletion(users: seq<User>, m: Message, isRead: Option<bool>, kind: Option<string>,
                               query: Option<string>)
    ensures Listed(users, m, isRead, kind, query) == Listed(users, m.(isDeleted := true), isRead, kind, query)
  {
    assert Author(users, m) == Author(users, m.(isDeleted := true));
  }

  // ---------------------------------------------------------------------------
  // The service

  class MessageService {
    var messages: seq<Message>

    constructor(ms: seq<Message>)
      ensures messages == ms
    {
      messages := ms;
    }

    /** SubmitMessage (any signed-in user). */
    method SubmitMessage(caller: Caller, valid: bool, d: MessageDraft, now: int) returns (r: Response)
      modifies this
      ensures !valid ==> r.status == invalid_format && messages == old(messages)
      ensures valid && !Identified(caller) ==> r == Unauthorised && messages == old(messages)
      ensures valid && Identified(caller) ==> (r == Response(success, "Success")
        && messages == old(messages) + [Submitted(NextId(old(messages), (m: Message) => m.id), d, caller.id.value, now)])
    {
      if !valid {
        return Response(invalid_format, "Data not formatted properly");
      }
      if !Identified(caller) {
        return Unauthorised;
      }
      messages := messages + [Submitted(NextId(messages, (m: Message) => m.id), d, caller.id.value, now)];
      return Response(success, "Success");
    }

    /** UpdateMessage (admins): only Unread and UpdatedAt of a live message change. */
    method UpdateMessage(caller: Caller, valid: bool, id: int, unread: bool, now: int) returns (r: Response)
      modifies this
      ensures !valid ==> r.status == invalid_format && messages == old(messages)
      ensures valid && !IsAdmin(caller) ==> r == Unauthorised && messages == old(messages)
      ensures valid && IsAdmin(caller) ==> match FirstIndex(old(messages), (m: Message) => m.id == id && !m.isDeleted)
        case None => r == Response(failure, "Message not found") && messages == old(messages)
        case Some(k) => (r == Response(success, "Success")
          && messages == old(messages)[k := old(messages)[k].(unread := unread, updatedAt := now)])
    {
      if !valid {
        return Response(invalid_format, "Data not formatted properly");
      }
      if !IsAdmin(caller) {
        return Unauthorised;
      }
      var found := FirstIndex(messages, (m: Message) => m.id == id && !m.isDeleted);
      if found.None? {
        return Response(failure, "Message not found");
      }
      var k := found.value;
      messages := messages[k := messages[k].(unread := unread, updatedAt := now)];
      return Response(success, "Success");
    }

    /**
     * DeleteMessage: the role must contain "super-admin" (ignoring case); a
     * live message is soft-deleted and nothing else about it changes, not
     * even UpdatedAt.
     */
    method DeleteMessage(caller: Caller, id: int) returns (r: Response)
      modifies this
      ensures !(Identified(caller) && ContainsIgnoreCase(caller.role.value, "super-admin")) ==>
        r == Unauthorised && messages == old(messages)
      ensures Identified(caller) && ContainsIgnoreCase(caller.role.value, "super-admin") ==>
        match FirstIndex(old(messages), (m: Message) => m.id == id && !m.isDeleted)
        case None => r == Response(failure, "Message not found") && messages == old(messages)
        case Some(k) => r == Response(success, "Success") && messages == old(messages)[k := old(messages)[k].(isDeleted := true)]
    {
      if !(Identified(caller) && ContainsIgnoreCase(caller.role.value, "super-admin")) {
        return Unauthorised;
      }
      var found := FirstIndex(messages, (m: Message) => m.id == id && !m.isDeleted);
      if found.None? {
        return Response(failure, "Message not found");
      }
      var k := found.value;
      messages := messages[k := messages[k].(isDeleted := true)];
      return Response(success, "Success");
    }
  }
}
