/**
 * The user and chat-history store of agrolens-backend/app/main.py: the
 * `users` and `ai_responses` collections, the `UserManager` operations
 * (create, authenticate, token lookup), `login`, the two
 * `DatabaseModels.save_*` writers and the two history readers.
 *
 * A collection is the sequence of its documents in insertion order and
 * `find_one` answers the first document that matches. MongoDB refuses a
 * second document with the same `_id`; the insert then raises, which the
 * server answers with status 500 (`InternalError`).
 */
module UserStore {
  import opened Common

  // ---------------------------------------------------------------------
  // Documents and replies

  /** One element of a user's `history`. `lat`/`long` are kept as the
      numbers whose `str` the source stores. */
  datatype HistoryEntry = HistoryEntry(searchedImg: string, lat: Option<real>, long: Option<real>, timestamp: int, aiResponse: string)

  /** A `users` document. */
  datatype UserDoc = UserDoc(id: string, username: string, email: string, password: string, history: seq<HistoryEntry>, createdAt: int)

  /** One element of an `ai_responses` document's `chatHistory`. */
  datatype ChatEntry = ChatEntry(userMessage: string, aiResponse: string, timestamp: int)

  /** An `ai_responses` document. */
  datatype AiDoc = AiDoc(id: string, userId: string, chatHistory: seq<ChatEntry>)

  /** `SoilAnalysisRequest`. */
  datatype SoilAnalysisRequest = SoilAnalysisRequest(soilImage: string, lat: Option<real>, long: Option<real>)

  /** An `HTTPException`, or an exception the handlers do not catch. */
  datatype ApiError = HttpError(status: int, detail: string) | InternalError

  datatype Created = Created(userId: string, message: string)
  datatype Token = Token(accessToken: string, tokenType: string)
  datatype UserHistoryReply = UserHistoryReply(userId: string, username: string, email: string, history: seq<HistoryEntry>, totalSearches: int)
  datatype ChatHistoryReply = ChatHistoryReply(userId: string, chatHistory: seq<ChatEntry>, totalChats: int)

  const EmailTaken: ApiError := HttpError(400, "Email already registered")
  const BadLogin: ApiError := HttpError(401, "Invalid email or password")
  const BadToken: ApiError := HttpError(401, "Invalid authentication credentials")
  const CreatedMessage: string := "User created successfully"

  // ---------------------------------------------------------------------
  // find_one

  /** The position of the first element satisfying `p`. */
  function FirstIndex<T>(s: seq<T>, p: T -> bool): (r: Option<nat>)
    ensures r.Some? ==> r.value < |s| && p(s[r.value]) && forall j :: 0 <= j < r.value ==> !p(s[j])
    ensures r.None? ==> forall j :: 0 <= j < |s| ==> !p(s[j])
  {
    if s == [] then None
    else if p(s[0]) then Some(0)
    else
      match FirstIndex(s[1..], p)
      case None => None
      case Some(i) => Some(i + 1)
  }

  predicate EmailRegistered(users: seq<UserDoc>, email: string) {
    exists i :: 0 <= i < |users| && users[i].email == email
  }

  predicate IdTaken(users: seq<UserDoc>, id: string) {
    exists i :: 0 <= i < |users| && users[i].id == id
  }

  /** `users[i]` is the document `find_one({"_id": id})` answers. */
  predicate FirstWithId(users: seq<UserDoc>, i: int, id: string) {
    0 <= i < |users| && users[i].id == id && forall j :: 0 <= j < i ==> users[j].id != id
  }

  /** `docs[i]` is the document `find_one({"user_id": userId})` answers. */
  predicate FirstDocOf(docs: seq<AiDoc>, i: int, userId: string) {
    0 <= i < |docs| && docs[i].userId == userId && forall j :: 0 <= j < i ==> docs[j].userId != userId
  }

  predicate DocIdTaken(docs: seq<AiDoc>, id: string) {
    exists i :: 0 <= i < |docs| && docs[i].id == id
  }

  /** `_id` is unique in a collection. */
  predicate UniqueIds(users: seq<UserDoc>) {
    forall i, j :: 0 <= i < j < |users| ==> users[i].id != users[j].id
  }

  /** `create_user` lets no e-mail address in twice. */
  predicate UniqueEmails(users: seq<UserDoc>) {
    forall i, j :: 0 <= i < j < |users| ==> users[i].email != users[j].email
  }

  predicate UniqueDocIds(docs: seq<AiDoc>) {
    forall i, j :: 0 <= i < j < |docs| ==> docs[i].id != docs[j].id
  }

  /** `save_ai_chat_history` creates a user's document only when there is none. */
  predicate OneDocPerUser(docs: seq<AiDoc>) {
    forall i, j :: 0 <= i < j < |docs| ==> docs[i].userId != docs[j].userId
  }

  // ---------------------------------------------------------------------
  // UserManager and login

  /** The document `create_user` inserts. */
  function NewUser(id: string, username: string, email: string, password: string, now: int): UserDoc {
    UserDoc(id, username, email, password, [], now)
  }

  /** `create_user`: the collection after the call and the reply. */
  function CreateUser(users: seq<UserDoc>, username: string, email: string, password: string, newId: string, now: int): (r: (seq<UserDoc>, Result<Created, ApiError>))
    ensures EmailRegistered(users, email) ==> r == (users, Failure(EmailTaken))
    ensures !EmailRegistered(users, email) && IdTaken(users, newId) ==> r == (users, Failure(InternalError))
    ensures !EmailRegistered(users, email) && !IdTaken(users, newId)
        ==> r == (users + [NewUser(newId, username, email, password, now)], Success(Created(newId, CreatedMessage)))
  {
    match FirstIndex(users, (u: UserDoc) => u.email == email)
    case Some(_) => (users, Failure(EmailTaken))
    case None =>
      if FirstIndex(users, (u: UserDoc) => u.id == newId).Some? then (users, Failure(InternalError))
      else (users + [NewUser(newId, username, email, password, now)], Success(Created(newId, CreatedMessage)))
  }

  /** `authenticate_user`: the first user with both this e-mail and this password. */
  function Authenticate(users: seq<UserDoc>, email: string, password: string): (r: Option<UserDoc>)
    ensures r.Some? <==> exists i :: 0 <= i < |users| && users[i].email == email && users[i].password == password
    ensures r.Some? ==> r.value in users && r.value.email == email && r.value.password == password
  {
    match FirstIndex(users, (u: UserDoc) => u.email == email && u.password == password)
    case None => None
    case Some(i) => Some(users[i])
  }

  /** `get_current_user`: the token is a user id. */
  function CurrentUser(users: seq<UserDoc>, token: string): (r: Result<UserDoc, ApiError>)
    ensures r.Success? <==> IdTaken(users, token)
    ensures r.Success? ==> r.value in users && r.value.id == token
    ensures r.Failure? ==> r.error == BadToken
  {
    match FirstIndex(users, (u: UserDoc) => u.id == token)
    case None => Failure(BadToken)
    case Some(i) => Success(users[i])
  }

  /** `login`: the access token is the authenticated user's id. */
  function Login(users: seq<UserDoc>, email: string, password: string): (r: Result<Token, ApiError>)
    ensures r.Success? <==> exists i :: 0 <= i < |users| && users[i].email == email && users[i].password == password
    ensures r.Success? ==> r.value.tokenType == "bearer"
    ensures r.Success? ==> exists i :: 0 <= i < |users| && users[i].id == r.value.accessToken && users[i].email == email && users[i].password == password
    ensures r.Failure? ==> r.error == BadLogin
  {
    match Authenticate(users, email, password)
    case None => Failure(BadLogin)
    case Some(u) => Success(Token(u.id, "bearer"))
  }

  /** The token `login` hands out leads `get_current_user` back to the very
      user who logged in. */
  lemma LoginTokenIdentifiesUser(users: seq<UserDoc>, email: string, password: string)
    requires UniqueIds(users)
    requires Login(users, email, password).Success?
    ensures CurrentUser(users, Login(users, email, password).value.accessToken) == Success(Authenticate(users, email, password).value)
  {
    var u := Authenticate(users, email, password).value;
    var i :| 0 <= i < |users| && users[i] == u;
    var found := CurrentUser(users, u.id).value;
    var j :| 0 <= j < |users| && users[j] == found;
    assert i == j;
  }

  /** Registering is what makes logging in possible: right after a
      successful `create_user`, `login` with the same credentials answers
      the new id, and that id leads back to the new user. */
  lemma RegisteredUserCanLogIn(users: seq<UserDoc>, username: string, email: string, password: string, newId: string, now: int)
    requires UniqueIds(users)
    requires CreateUser(users, username, email, password, newId, now).1.Success?
    ensures var after := CreateUser(users, username, email, password, newId, now).0;
      && Login(after, email, password) == Success(Token(newId, "bearer"))
      && CurrentUser(after, newId) == Success(NewUser(newId, username, email, password, now))
      && UniqueIds(after)
  {
    var after := CreateUser(users, username, email, password, newId, now).0;
    var created := NewUser(newId, username, email, password, now);
    assert after == users + [created];
    assert after[|users|] == created;
    var u := Authenticate(after, email, password).value;
    var i :| 0 <= i < |after| && after[i] == u;
    assert i == |users|;
    var c := CurrentUser(after, newId).value;
    var j :| 0 <= j < |after| && after[j] == c;
    assert j == |users|;
  }

  /** `create_user` keeps e-mail addresses and ids unique. */
  lemma CreateUserKeepsKeysUnique(users: seq<UserDoc>, username: string, email: string, password: string, newId: string, now: int)
    requires UniqueIds(users) && UniqueEmails(users)
    ensures var after := CreateUser(users, username, email, password, newId, now).0;
      UniqueIds(after) && UniqueEmails(after)
  {
  }

  // ---------------------------------------------------------------------
  // save_user_history

  /** `searchedImg`: images longer than 100 characters keep their first 100
      followed by "...". */
  function TruncateImage(image: string): (r: string)
    ensures |image| <= 100 ==> r == image
    ensures |image| > 100 ==> |r| == 103 && r[..100] == image[..100] && r[100..] == "..."
  {
    if |image| > 100 then image[..100] + "..." else image
  }

  /** A stored image is at most 103 characters, and storing it again
      changes nothing. */
  lemma TruncateImageIdempotent(image: string)
    ensures |TruncateImage(image)| <= 103
    ensures TruncateImage(TruncateImage(image)) == TruncateImage(image)
  {
    if |image| > 100 {
      var r := TruncateImage(image);
      assert r[..100] + r[100..] == r;
    }
  }

  /** The stored `ai_response`: at most its first 500 characters, and always
      a trailing "...". */
  function StoredResponse(response: string): (r: string)
    ensures |r| == (if |response| <= 500 then |response| else 500) + 3
    ensures r[..|r| - 3] == response[..|r| - 3] && r[|r| - 3..] == "..."
  {
    if |response| <= 500 then response + "..." else response[..500] + "..."
  }

  /** `str(x) if x else None`: a missing or zero coordinate is not stored. */
  function StoredCoordinate(x: Option<real>): (r: Option<real>)
    ensures r.Some? <==> x.Some? && x.value != 0.0
    ensures r.Some? ==> r == x
  {
    if x.Some? && x.value != 0.0 then x else None
  }

  /** `ai_response.get("ai_response", "")`. */
  function ResponseText(aiResponse: map<string, string>): string {
    if "ai_response" in aiResponse then aiResponse["ai_response"] else ""
  }

  /** `history_entry`. */
  function HistoryEntryFor(request: SoilAnalysisRequest, aiResponse: map<string, string>, now: int): (e: HistoryEntry)
    ensures e.searchedImg == TruncateImage(request.soilImage)
    ensures e.lat == StoredCoordinate(request.lat) && e.long == StoredCoordinate(request.long)
    ensures e.aiResponse == StoredResponse(ResponseText(aiResponse)) && e.timestamp == now
  {
    HistoryEntry(TruncateImage(request.soilImage), StoredCoordinate(request.lat), StoredCoordinate(request.long), now,
      StoredResponse(ResponseText(aiResponse)))
  }

  /** `update_one({"_id": user_id}, {"$push": {"history": entry}})`: the
      first user with that id gains `entry` at the end of its history; no
      other document and no other field changes. */
  function PushHistory(users: seq<UserDoc>, userId: string, entry: HistoryEntry): (r: seq<UserDoc>)
    ensures |r| == |users|
    ensures !IdTaken(users, userId) ==> r == users
    ensures forall i :: 0 <= i < |users| ==> r[i] == users[i] || (users[i].id == userId && r[i] == users[i].(history := users[i].history + [entry]))
    ensures IdTaken(users, userId) ==> exists i :: FirstWithId(users, i, userId) && r[i] == users[i].(history := users[i].history + [entry])
    ensures forall i :: 0 <= i < |users| && !FirstWithId(users, i, userId) ==> r[i] == users[i]
  {
    match FirstIndex(users, (u: UserDoc) => u.id == userId)
    case None => users
    case Some(i) => users[i := users[i].(history := users[i].history + [entry])]
  }

  /** `get_user_history` for the user behind `token`; `total_searches`
      counts the history. */
  function GetUserHistory(users: seq<UserDoc>, token: string): (r: Result<UserHistoryReply, ApiError>)
    ensures r.Success? <==> IdTaken(users, token)
    ensures r.Success? ==> r.value.totalSearches == |r.value.history| && r.value.userId == token
    ensures forall i :: FirstWithId(users, i, token) ==> r.Success? && (r.value.username, r.value.email, r.value.history) == (users[i].username, users[i].email, users[i].history)
    ensures r.Failure? ==> r.error == BadToken
  {
    match CurrentUser(users, token)
    case Failure(e) => Failure(e)
    case Success(u) => Success(UserHistoryReply(u.id, u.username, u.email, u.history, |u.history|))
  }

  /** Saving one analysis adds exactly one search to its user's count and
      puts the entry last; every other user's history reply is as before. */
  lemma SaveUserHistoryAddsOneSearch(users: seq<UserDoc>, userId: string, entry: HistoryEntry, other: string)
    requires UniqueIds(users) && IdTaken(users, userId) && other != userId
    ensures var after := PushHistory(users, userId, entry);
      && GetUserHistory(after, userId).Success?
      && GetUserHistory(after, userId).value.totalSearches == GetUserHistory(users, userId).value.totalSearches + 1
      && GetUserHistory(after, userId).value.history == GetUserHistory(users, userId).value.history + [entry]
      && GetUserHistory(after, other) == GetUserHistory(users, other)
  {
    var after := PushHistory(users, userId, entry);
    var k :| 0 <= k < |users| && users[k].id == userId && after[k] == users[k].(history := users[k].history + [entry]);
    assert forall i :: 0 <= i < |users| ==> after[i].id == users[i].id;
    var before := CurrentUser(users, userId).value;
    var i :| 0 <= i < |users| && users[i] == before;
    assert i == k;
    var now := CurrentUser(after, userId).value;
    var j :| 0 <= j < |after| && after[j] == now;
    assert j == k;
    if IdTaken(users, other) {
      var o := CurrentUser(users, other).value;
      var p :| 0 <= p < |users| && users[p] == o;
      var o' := CurrentUser(after, other).value;
      var q :| 0 <= q < |after| && after[q] == o';
      assert p == q;
    }
  }

  // ---------------------------------------------------------------------
  // save_ai_chat_history and get_chat_history

  /** The `ai_responses` collection after saving `entry` for `userId`:
      appended to the user's document, or a new document holding only
      `entry`; the insert fails if the new `_id` is taken. */
  function AppendChat(docs: seq<AiDoc>, userId: string, entry: ChatEntry, newDocId: string): (r: Result<seq<AiDoc>, ApiError>)
    ensures r.Failure? <==> (forall i :: 0 <= i < |docs| ==> docs[i].userId != userId) && DocIdTaken(docs, newDocId)
    ensures r.Failure? ==> r.error == InternalError
  {
    match FirstIndex(docs, (d: AiDoc) => d.userId == userId)
    case Some(i) => Success(docs[i := docs[i].(chatHistory := docs[i].chatHistory + [entry])])
    case None =>
      if FirstIndex(docs, (d: AiDoc) => d.id == newDocId).Some? then Failure(InternalError)
      else Success(docs + [AiDoc(newDocId, userId, [entry])])
  }

  /** `get_chat_history` for a user: no document means no chats. */
  function ChatHistoryOf(docs: seq<AiDoc>, userId: string): (r: ChatHistoryReply)
    ensures r.userId == userId && r.totalChats == |r.chatHistory|
    ensures (forall i :: 0 <= i < |docs| ==> docs[i].userId != userId) ==> r.chatHistory == []
    ensures forall i :: FirstDocOf(docs, i, userId) ==> r.chatHistory == docs[i].chatHistory
  {
    match FirstIndex(docs, (d: AiDoc) => d.userId == userId)
    case None => ChatHistoryReply(userId, [], 0)
    case Some(i) => ChatHistoryReply(userId, docs[i].chatHistory, |docs[i].chatHistory|)
  }

  /** `get_chat_history` behind `get_current_user`. */
  function GetChatHistory(users: seq<UserDoc>, docs: seq<AiDoc>, token: string): (r: Result<ChatHistoryReply, ApiError>)
    ensures r.Success? <==> IdTaken(users, token)
    ensures r.Success? ==> r.value == ChatHistoryOf(docs, token)
    ensures r.Failure? ==> r.error == BadToken
  {
    match CurrentUser(users, token)
    case Failure(e) => Failure(e)
    case Success(u) => Success(ChatHistoryOf(docs, u.id))
  }

  /** Whether the document existed or was created, a saved exchange is the
      user's last chat and adds exactly one to `total_chats`; other users'
      chats are untouched. */
  lemma SaveChatAddsOneChat(docs: seq<AiDoc>, userId: string, entry: ChatEntry, newDocId: string, other: string)
    requires AppendChat(docs, userId, entry, newDocId).Success?
    requires other != userId
    ensures var after := AppendChat(docs, userId, entry, newDocId).value;
      && ChatHistoryOf(after, userId).chatHistory == ChatHistoryOf(docs, userId).chatHistory + [entry]
      && ChatHistoryOf(after, userId).totalChats == ChatHistoryOf(docs, userId).totalChats + 1
      && ChatHistoryOf(after, other) == ChatHistoryOf(docs, other)
  {
    var after := AppendChat(docs, userId, entry, newDocId).value;
    var mine := (d: AiDoc) => d.userId == userId;
    var theirs := (d: AiDoc) => d.userId == other;
    assert forall i :: 0 <= i < |docs| ==> after[i].userId == docs[i].userId;
    match FirstIndex(docs, mine)
    case Some(k) =>
      assert after == docs[k := docs[k].(chatHistory := docs[k].chatHistory + [entry])];
      assert FirstIndex(after, mine) == Some(k) by { FirstIndexFromUserIds(docs, after, userId); }
      assert FirstIndex(after, theirs) == FirstIndex(docs, theirs) by { FirstIndexFromUserIds(docs, after, other); }
    case None =>
      assert after == docs + [AiDoc(newDocId, userId, [entry])];
      assert FirstIndex(after, mine) == Some(|docs|) by { FirstIndexFromUserIds(docs, after, userId); }
      assert FirstIndex(after, theirs) == FirstIndex(docs, theirs) by { FirstIndexFromUserIds(docs, after, other); }
  }

  /** Looking a user up depends only on the documents' owners, in order. */
  lemma FirstIndexFromUserIds(docs: seq<AiDoc>, after: seq<AiDoc>, userId: string)
    requires |docs| <= |after|
    requires forall i :: 0 <= i < |docs| ==> after[i].userId == docs[i].userId
    ensures FirstIndex(docs, (d: AiDoc) => d.userId == userId).Some? ==> FirstIndex(after, (d: AiDoc) => d.userId == userId) == FirstIndex(docs, (d: AiDoc) => d.userId == userId)
    ensures FirstIndex(docs, (d: AiDoc) => d.userId == userId).None? && |after| > |docs| && after[|docs|].userId == userId
        ==> FirstIndex(after, (d: AiDoc) => d.userId == userId) == Some(|docs|)
  {
    var p := (d: AiDoc) => d.userId == userId;
    var a := FirstIndex(after, p);
    var b := FirstIndex(docs, p);
    if b.Some? {
      assert p(after[b.value]);
      assert a.Some? && a.value == b.value;
    }
  }

  /** `save_ai_chat_history` keeps one document per user and unique ids. */
  lemma AppendChatKeepsOneDocPerUser(docs: seq<AiDoc>, userId: string, entry: ChatEntry, newDocId: string)
    requires OneDocPerUser(docs) && UniqueDocIds(docs)
    requires AppendChat(docs, userId, entry, newDocId).Success?
    ensures OneDocPerUser(AppendChat(docs, userId, entry, newDocId).value)
    ensures UniqueDocIds(AppendChat(docs, userId, entry, newDocId).value)
  {
    var after := AppendChat(docs, userId, entry, newDocId).value;
    assert forall i :: 0 <= i < |docs| ==> after[i].userId == docs[i].userId && after[i].id == docs[i].id;
  }

  // ---------------------------------------------------------------------
  // The collections

  class Database {
    var users: seq<UserDoc>
    var aiResponses: seq<AiDoc>

    /** What MongoDB's `_id` index and the two writers keep true. */
    ghost predicate Valid()
      reads this
    {
      UniqueIds(users) && UniqueEmails(users) && UniqueDocIds(aiResponses) && OneDocPerUser(aiResponses)
    }

    constructor ()
      ensures Valid() && users == [] && aiResponses == []
    {
      users, aiResponses := [], [];
    }

    /** `UserManager.create_user`, with `uuid4()` and `utcnow()` as parameters. */
    method CreateUserDoc(username: string, email: string, password: string, newId: string, now: int) returns (r: Result<Created, ApiError>)
      requires Valid()
      modifies this
      ensures Valid()
      ensures (users, r) == CreateUser(old(users), username, email, password, newId, now)
      ensures aiResponses == old(aiResponses)
    {
      CreateUserKeepsKeysUnique(users, username, email, password, newId, now);
      var outcome := CreateUser(users, username, email, password, newId, now);
      users := outcome.0;
      r := outcome.1;
    }

    /** `DatabaseModels.save_user_history`. */
    method SaveUserHistory(userId: string, request: SoilAnalysisRequest, aiResponse: map<string, string>, now: int)
      requires Valid()
      modifies this
      ensures Valid()
      ensures users == PushHistory(old(users), userId, HistoryEntryFor(request, aiResponse, now))
      ensures aiResponses == old(aiResponses)
    {
      var entry := HistoryEntryFor(request, aiResponse, now);
      var after := PushHistory(users, userId, entry);
      assert forall i :: 0 <= i < |users| ==> after[i].id == users[i].id && after[i].email == users[i].email;
      users := after;
    }

    /** `DatabaseModels.save_ai_chat_history`; an `_id` clash on insert
        raises and changes nothing. */
    method SaveAiChatHistory(userId: string, userMessage: string, aiResponse: string, newDocId: string, now: int) returns (r: Result<(), ApiError>)
      requires Valid()
      modifies this
      ensures Valid()
      ensures users == old(users)
      ensures var outcome := AppendChat(old(aiResponses), userId, ChatEntry(userMessage, aiResponse, now), newDocId);
        && (outcome.Success? ==> r.Success? && aiResponses == outcome.value)
        && (outcome.Failure? ==> r == Failure(outcome.error) && aiResponses == old(aiResponses))
    {
      var outcome := AppendChat(aiResponses, userId, ChatEntry(userMessage, aiResponse, now), newDocId);
      if outcome.Success? {
        AppendChatKeepsOneDocPerUser(aiResponses, userId, ChatEntry(userMessage, aiResponse, now), newDocId);
        aiResponses := outcome.value;
        r := Success(());
      } else {
        r := Failure(outcome.error);
      }
    }
  }
}
