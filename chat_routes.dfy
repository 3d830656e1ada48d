/** The chat-session routes of the backend (`/api/chats`): an owner-scoped
    table of chat sessions with list, get, save, soft delete and clear-all.
    The MongoDB collection is a map from session id to session record; the
    authenticated user set by the `protect` middleware is the `owner`
    argument; the clock is the `now` argument; fresh ids come from a
    counter. */
module ChatRoutes {
  import opened Common
  import Ordering

  /** One chat document. `isActive` false means soft-deleted. */
  datatype Session = Session(
    id: ChatId,
    owner: UserId,
    title: string,
    messages: seq<Message>,
    isActive: bool,
    createdAt: int,
    updatedAt: int)

  /** What the listing projects each session to (`.select("title createdAt updatedAt")`,
      plus the id MongoDB always returns). */
  datatype Summary = Summary(id: ChatId, title: string, createdAt: int, updatedAt: int)

  const ListLimit: nat := 50
  const TitleCut: nat := 50
  const Ellipsis: string := "..."
  const UpdatedChatTitle: string := "Updated Chat"
  const NewChatPlaceholder: string := "New Chat"

  const ChatNotFound: HttpError := HttpError(404, "Chat not found")
  const MessagesRequired: HttpError := HttpError(400, "Messages are required")
  const DeletedMessage: string := "Chat deleted successfully"

  function SummaryOf(s: Session): Summary
  {
    Summary(s.id, s.title, s.createdAt, s.updatedAt)
  }

  function UpdatedAt(s: Summary): int { s.updatedAt }

  /** A session the listing shows to `owner`. */
  predicate Listable(s: Session, owner: UserId)
  {
    s.owner == owner && s.isActive
  }

  /** Every element of `r` is the summary of a session listable by `owner`. */
  predicate FromTable(r: seq<Summary>, sessions: map<ChatId, Session>, owner: UserId)
  {
    forall x :: x in r ==> x.id in sessions && Listable(sessions[x.id], owner) && x == SummaryOf(sessions[x.id])
  }

  /** The first `n` of a newest-first permutation of `found`: everything
      kept comes from `found`, and whatever is dropped is no newer than the
      last one kept, which only happens when `n` were kept. */
  lemma TopOfSorted(found: seq<Summary>, sorted: seq<Summary>, n: nat)
    requires multiset(sorted) == multiset(found)
    requires Ordering.SortedDesc(sorted, UpdatedAt)
    requires n > 0
    ensures var r := sorted[..Min(n, |sorted|)];
      && (forall x :: x in r ==> x in found)
      && (forall x :: x in found && x !in r ==> |r| == n && x.updatedAt <= r[n - 1].updatedAt)
  {
    var r := sorted[..Min(n, |sorted|)];
    forall x | x in r ensures x in found {
      assert x in multiset(sorted);
    }
    forall x | x in found && x !in r ensures |r| == n && x.updatedAt <= r[n - 1].updatedAt {
      assert x in multiset(sorted);
      var k :| 0 <= k < |sorted| && sorted[k] == x;
      assert k >= |r|;
    }
  }

  /** The title of a newly created chat: the caller's title when one is
      given; otherwise, when the first message is the user's, its first 50
      characters, with "..." only when something was cut; otherwise
      "New Chat". */
  function NewChatTitle(title: string, messages: seq<Message>): (r: string)
    ensures title != "" ==> r == title
    ensures title == "" ==> |r| <= TitleCut + |Ellipsis|
    ensures title == "" && messages != [] && messages[0].role == UserRole ==>
      var c := messages[0].content;
      (|c| <= TitleCut ==> r == c) && (|c| > TitleCut ==> r == c[..TitleCut] + Ellipsis)
    ensures title == "" && (messages == [] || messages[0].role != UserRole) ==> r == NewChatPlaceholder
  {
    if title != "" then title
    else if messages != [] && messages[0].role == UserRole then
      var c := messages[0].content;
      Take(c, TitleCut) + (if |c| > TitleCut then Ellipsis else "")
    else NewChatPlaceholder
  }

  class SessionStore {
    var sessions: map<ChatId, Session>
    var nextId: ChatId

    /** Every stored session carries its own key, and the counter is past
        every id handed out so far. */
    ghost predicate Valid()
      reads this
    {
      forall id :: id in sessions ==> sessions[id].id == id && id < nextId
    }

    constructor ()
      ensures Valid()
      ensures sessions == map[]
    {
      sessions := map[];
      nextId := 0;
    }

    /** `findOne({ _id, userId })`: whether the caller owns session `id`,
        active or not. */
    predicate Owns(owner: UserId, id: ChatId)
      reads this
    {
      id in sessions && sessions[id].owner == owner
    }

    /** GET /api/chats/:chatId. Succeeds exactly when the caller owns the
        session, whether or not it was soft-deleted; another owner's id
        gets the same 404 as a missing one. */
    function Get(owner: UserId, id: ChatId): (r: Result<Session>)
      reads this
      ensures r.Ok? <==> id in sessions && sessions[id].owner == owner
      ensures r.Ok? ==> r.value == sessions[id] && r.value.owner == owner
      ensures r.Err? ==> r.failure == ChatNotFound
    {
      if Owns(owner, id) then Ok(sessions[id]) else Err(ChatNotFound)
    }

    /** GET /api/chats: the caller's active sessions, newest update first,
        at most 50. Each listed summary is that of a distinct listable
        session, and a listable session is left out only when the list is
        full and the session was updated no later than the last one shown. */
    method List(owner: UserId) returns (r: seq<Summary>)
      requires Valid()
      ensures |r| <= ListLimit
      ensures FromTable(r, sessions, owner)
      ensures Ordering.Distinct(r)
      ensures Ordering.SortedDesc(r, UpdatedAt)
      ensures forall id :: id in sessions && Listable(sessions[id], owner) && SummaryOf(sessions[id]) !in r ==>
        |r| == ListLimit && sessions[id].updatedAt <= r[ListLimit - 1].updatedAt
    {
      var found := CollectListable(owner);
      var sorted := Ordering.SortDesc(found, UpdatedAt);
      Ordering.DistinctPermutation(found, sorted);
      TopOfSorted(found, sorted, ListLimit);
      r := sorted[..Min(ListLimit, |sorted|)];
    }

    /** `find({ userId, isActive: true })` before sorting: the summary of
        every listable session, once each, in no particular order. */
    method CollectListable(owner: UserId) returns (found: seq<Summary>)
      requires Valid()
      ensures FromTable(found, sessions, owner)
      ensures Ordering.Distinct(found)
      ensures forall id :: id in sessions && Listable(sessions[id], owner) ==> SummaryOf(sessions[id]) in found
    {
      var pending := sessions.Keys;
      found := [];
      while pending != {}
        invariant pending <= sessions.Keys
        invariant FromTable(found, sessions, owner)
        invariant forall x :: x in found ==> x.id !in pending
        invariant Ordering.Distinct(found)
        invariant forall id :: id in sessions && id !in pending && Listable(sessions[id], owner) ==>
          SummaryOf(sessions[id]) in found
        decreases pending
      {
        var id :| id in pending;
        if Listable(sessions[id], owner) {
          found := found + [SummaryOf(sessions[id])];
        }
        pending := pending - {id};
      }
    }

    /** POST /api/chats/save. No message array: 400 and nothing changes
        (an empty array is accepted). With a chat id: the caller's session
        gets the new transcript wholesale, the given title or "Updated
        Chat", and a fresh update time, keeping its owner, creation time and
        active flag; 404 when the caller owns no such session. Without one:
        a new active session owned by the caller under a fresh id. After
        any success, reading the returned id back yields exactly the saved
        transcript. */
    method Save(owner: UserId, chatId: Option<ChatId>, messages: Option<seq<Message>>, title: string, now: int)
      returns (r: Result<Session>)
      requires Valid()
      modifies this
      ensures Valid()
      ensures messages.None? ==> r == Err(MessagesRequired) && sessions == old(sessions) && nextId == old(nextId)
      ensures messages.Some? && chatId.Some? && !old(Owns(owner, chatId.value)) ==>
        r == Err(ChatNotFound) && sessions == old(sessions) && nextId == old(nextId)
      ensures messages.Some? && chatId.Some? && old(Owns(owner, chatId.value)) ==>
        var id := chatId.value;
        && r == Ok(old(sessions)[id].(messages := messages.value,
                                       title := if title != "" then title else UpdatedChatTitle,
                                       updatedAt := now))
        && sessions == old(sessions)[id := r.value]
        && nextId == old(nextId)
      ensures messages.Some? && chatId.None? ==>
        && r.Ok?
        && r.value.id !in old(sessions)
        && r.value == Session(r.value.id, owner, NewChatTitle(title, messages.value), messages.value, true, now, now)
        && sessions == old(sessions)[r.value.id := r.value]
      ensures r.Ok? ==> Get(owner, r.value.id) == Ok(r.value) && r.value.messages == messages.value
    {
      if messages.None? {
        return Err(MessagesRequired);
      }
      var msgs := messages.value;
      if chatId.Some? {
        var id := chatId.value;
        if !Owns(owner, id) {
          return Err(ChatNotFound);
        }
        var updated := sessions[id].(messages := msgs,
                                     title := if title != "" then title else UpdatedChatTitle,
                                     updatedAt := now);
        sessions := sessions[id := updated];
        r := Ok(updated);
      } else {
        var id := nextId;
        var created := Session(id, owner, NewChatTitle(title, msgs), msgs, true, now, now);
        sessions := sessions[id := created];
        nextId := nextId + 1;
        r := Ok(created);
      }
    }

    /** DELETE /api/chats/:chatId: soft delete. Only the caller's own
        session is touched, and only its active flag; 404 otherwise. A
        success leaves the session owned and inactive, so deleting it again
        succeeds and changes nothing. */
    method Delete(owner: UserId, id: ChatId) returns (r: Result<string>)
      requires Valid()
      modifies this
      ensures Valid() && nextId == old(nextId)
      ensures r.Ok? <==> old(Owns(owner, id))
      ensures r.Ok? ==> r.value == DeletedMessage && sessions == old(sessions)[id := old(sessions)[id].(isActive := false)]
      ensures r.Err? ==> r.failure == ChatNotFound && sessions == old(sessions)
      ensures r.Ok? ==> Owns(owner, id) && !sessions[id].isActive
    {
      if !Owns(owner, id) {
        return Err(ChatNotFound);
      }
      sessions := sessions[id := sessions[id].(isActive := false)];
      r := Ok(DeletedMessage);
    }

    /** DELETE /api/chats: every active session of the caller becomes
        inactive; everything else, including other owners' sessions, stays
        as it was. Always succeeds. */
    method ClearAll(owner: UserId)
      requires Valid()
      modifies this
      ensures Valid() && nextId == old(nextId)
      ensures sessions.Keys == old(sessions).Keys
      ensures forall id :: id in sessions ==>
        sessions[id] == if Listable(old(sessions)[id], owner) then old(sessions)[id].(isActive := false) else old(sessions)[id]
      ensures forall id :: id in sessions && sessions[id].owner == owner ==> !sessions[id].isActive
    {
      sessions := map id | id in sessions ::
        if Listable(sessions[id], owner) then sessions[id].(isActive := false) else sessions[id];
    }
  }
}
