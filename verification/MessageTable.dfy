/**
 Any number of concurrent save and synchronisation transactions over one message table. A transaction takes the row
 lock of its user, then that of its conversation, and keeps both until it commits or rolls back; ids come from one
 counter shared by all conversations, and an id taken by a rolled-back insertion is never given out again.
 */
module MessageTable {
  import opened Wrappers
  import opened Identifiers
  import opened Decimal
  import opened ByteOrder
  import opened Paging
  import P = PushTasks

  datatype Error = Invalid | Forbidden | Conflict | Database

  /** Validated input is sent on; AI text names the session only, and the peer is looked up. */
  datatype Request =
    | Save(user: string, clientId: string, group: bool, receiver: string, content: string)
    | SaveAI(user: string, clientId: string, session: string, content: string)
    | Sync(user: string, session: string, group: bool, after: nat, limit: nat)

  datatype Reply =
    | Saved(message: P.Message, recipients: seq<string>, replayed: bool)
    | Paged(page: Page)
    | Failed(error: Error)

  datatype Answer = Answer(request: Request, reply: Reply)

  // ----- who may write where; other services may change all of this at any time -----

  datatype Direct = Direct(first: string, second: string)

  datatype Group = Group(normal: bool, members: Option<seq<string>>)

  datatype Authority = Authority(
    users: set<string>, directs: map<string, Direct>, groups: map<string, Group>, access: set<(string, string)>)

  predicate ValidText(s: string) {
    0 < |s| <= P.MAX_CONTENT
  }

  predicate ValidRequest(r: Request) {
    match r
    case Save(user, clientId, group, receiver, content) =>
      && ValidId(user, 'U') && ValidUuid(clientId) && ValidText(content)
      && (if group then ValidId(receiver, 'G') else ValidId(receiver, 'U') && receiver != user)
    case SaveAI(user, clientId, session, content) =>
      ValidId(user, 'U') && ValidId(session, 'S') && ValidUuid(clientId) && ValidText(content)
    case Sync(user, session, group, _, limit) =>
      ValidId(user, 'U') && limit <= MAX_LIMIT && ValidId(session, if group then 'G' else 'S')
  }

  predicate Pairs(d: Direct, a: string, b: string) {
    d == Direct(a, b) || d == Direct(b, a)
  }

  /** Why a direct session may not be used, if it may not. */
  function DirectError(auth: Authority, user: string, sid: string): Option<Error> {
    if sid !in auth.directs then Some(Forbidden)
    else
      var d := auth.directs[sid];
      if !ValidId(sid, 'S') || !ValidId(d.first, 'U') || !ValidId(d.second, 'U') || d.first == d.second
      then Some(Database)
      else if d.first != user && d.second != user then Some(Forbidden)
      else None
  }

  function MembersError(user: string, members: seq<string>): Option<Error> {
    if members == [] || exists m | m in members :: !ValidId(m, 'U') then Some(Database)
    else if user !in members then Some(Forbidden)
    else None
  }

  function GroupError(auth: Authority, user: string, gid: string): Option<Error> {
    if gid !in auth.groups || !auth.groups[gid].normal then Some(Forbidden)
    else if auth.groups[gid].members.None? then Some(Database)
    else MembersError(user, auth.groups[gid].members.value)
  }

  /** Where a request leads: the conversation to lock, and for a save the receiver and everyone to be told. */
  datatype Spot = Spot(session: string, group: bool, receiver: string, recipients: seq<string>)

  datatype Place = Place(spot: Spot) | Denied(error: Error)

  /** `sid` is the session the database picks among those joining the two users. */
  function Locate(auth: Authority, r: Request, sid: string): Place {
    match r
    case Save(user, _, true, receiver, _) =>
      var e := GroupError(auth, user, receiver);
      if e.Some? then Denied(e.value)
      else Place(Spot(receiver, true, receiver, SortedSet(auth.groups[receiver].members.value)))
    case Save(user, _, false, receiver, _) =>
      if sid !in auth.directs || !Pairs(auth.directs[sid], user, receiver) then Denied(Forbidden)
      else
        var e := DirectError(auth, user, sid);
        if e.Some? then Denied(e.value) else Place(Spot(sid, false, receiver, SortedSet([user, receiver])))
    case SaveAI(user, _, session, _) =>
      var e := DirectError(auth, user, session);
      if e.Some? then Denied(e.value)
      else if (user, session) !in auth.access then Denied(Forbidden)
      else
        var d := auth.directs[session];
        var peer := if d.first == user then d.second else d.first;
        Place(Spot(session, false, peer, SortedSet([user, peer])))
    case Sync(user, session, group, _, _) =>
      var e := if group then GroupError(auth, user, session) else DirectError(auth, user, session);
      if e.Some? then Denied(e.value) else Place(Spot(session, group, "", []))
  }

  /** A pair lookup returns some session of the two users whenever there is one. */
  predicate Picked(auth: Authority, r: Request, sid: string) {
    r.Save? && !r.group ==>
      || (sid in auth.directs && Pairs(auth.directs[sid], r.user, r.receiver))
      || forall x | x in auth.directs :: !Pairs(auth.directs[x], r.user, r.receiver)
  }

  /** The members in order: one that is no user id spoils the list, even after the sender has been found. */
  method CheckMembers(user: string, members: seq<string>) returns (error: Option<Error>)
    ensures error == MembersError(user, members)
  {
    if members == [] {
      return Some(Database);
    }
    var found := false;
    for i := 0 to |members|
      invariant forall k | 0 <= k < i :: ValidId(members[k], 'U')
      invariant found <==> user in members[..i]
    {
      if !ValidId(members[i], 'U') {
        assert members[i] in members;
        return Some(Database);
      }
      assert members[..i + 1] == members[..i] + [members[i]];
      if members[i] == user {
        found := true;
      }
    }
    assert members[..|members|] == members;
    error := if found then None else Some(Forbidden);
  }

  /** How many of the ids are users, as the database counts them: each user once. */
  function UserCount(users: set<string>, ids: seq<string>): nat {
    |set id | id in ids && id in users|
  }

  /** A hundred distinct ids at a time, all are users exactly if the count is their number. */
  method RequireUsers(users: set<string>, ids: seq<string>) returns (ok: bool)
    requires Ascending(ids)
    ensures ok <==> forall id | id in ids :: id in users
  {
    var first := 0;
    while first < |ids|
      invariant 0 <= first <= |ids|
      invariant forall k | 0 <= k < first :: ids[k] in users
    {
      var last := if first + 100 > |ids| then |ids| else first + 100;
      var chunk := ids[first..last];
      AscendingSlice(ids, first, last);
      FullCount(users, chunk);
      if UserCount(users, chunk) != |chunk| {
        assert forall id | id in chunk :: id in ids;
        return false;
      }
      forall k | first <= k < last ensures ids[k] in users {
        assert ids[k] == chunk[k - first];
      }
      first := last;
    }
    ok := true;
  }

  lemma FullCount(users: set<string>, ids: seq<string>)
    requires Ascending(ids)
    ensures UserCount(users, ids) == |ids| <==> forall id | id in ids :: id in users
  {
    AscendingDistinct(ids);
    P.DistinctCardinality(ids);
    var all, known := set id | id in ids, set id | id in ids && id in users;
    if forall id | id in ids :: id in users {
      assert all == known;
    } else {
      var missing :| missing in ids && missing !in users;
      assert known <= all - {missing};
      P.CardinalityMonotone(known, all - {missing});
    }
  }

  // ----- rows and what they show -----

  /** The checks made whenever a row is shown. */
  predicate Presentable(row: Row) {
    && 0 < row.id <= MAX_INT64 && ValidId(row.uuid, 'M') && ValidId(row.sender, 'U') && ValidText(row.content)
    && P.ZERO_TIME < row.created <= P.LAST_TIME
    && (if ValidId(row.session, 'G') then row.receiver == row.session
        else ValidId(row.session, 'S') && ValidId(row.receiver, 'U') && row.sender != row.receiver)
  }

  function View(row: Row): P.Message {
    var group := ValidId(row.session, 'G');
    P.Message(row.uuid, (if group then "group:" else "direct:") + row.session, row.session, row.sender, row.receiver,
              if group then "group" else "user", "text", row.content, if row.ai then "ai" else "user",
              P.Time(row.created, 0), Format(row.id))
  }

  predicate ValidSnapshot(ids: seq<string>) {
    ids != [] && (forall id | id in ids :: ValidId(id, 'U')) && Ascending(ids)
  }

  /** A stored snapshot is used only if it is as a save would have written it. */
  method DecodeRecipients(ids: seq<string>) returns (ok: bool)
    ensures ok <==> ValidSnapshot(ids)
  {
    hide ValidId, Ascending, SameElements, SortedSet;
    if ids == [] {
      return false;
    }
    for i := 0 to |ids|
      invariant forall k | 0 <= k < i :: ValidId(ids[k], 'U')
    {
      if !ValidId(ids[i], 'U') {
        assert ids[i] in ids;
        return false;
      }
    }
    var sorted := SortedUnique(ids);
    SortedSetFixpoint(ids);
    if |sorted| != |ids| {
      return false;
    }
    for i := 0 to |ids|
      invariant forall k | 0 <= k < i :: ids[k] == sorted[k]
    {
      if ids[i] != sorted[i] {
        return false;
      }
    }
    assert ids == sorted;
    ok := true;
  }

  predicate Matches(row: Row, r: Request) {
    !r.Sync? && row.sender == r.user && row.clientId == r.clientId
  }

  function FingerprintOf(r: Request, spot: Spot): Fingerprint
    requires !r.Sync?
  {
    Fingerprint(spot.group, spot.receiver, r.content, r.SaveAI?)
  }

  // ----- the state -----

  datatype Lock = UserLock(user: string) | ConversationLock(session: string)

  datatype Stage =
    | Begun
    | UserLocked
    | Located(spot: Spot)
    | UsersKnown(spot: Spot)
    | Absent(spot: Spot)
    | Found(row: Row)
    | Inserted(row: Row)
    | PageRead(page: Page)

  datatype Tx = Tx(request: Request, stage: Stage)

  /** `rows` are the committed ones; an insertion not yet committed is in its transaction only. */
  datatype State = State(
    rows: map<nat, Row>, lastId: nat, locks: map<Lock, nat>, txs: map<nat, Tx>, authority: Authority,
    answers: seq<Answer>)

  datatype Event =
    | Begin(t: nat, request: Request)
    | LockUser(t: nat)
    | LockConversation(t: nat, sid: string)
    | CheckUsers(t: nat)
    | Find(t: nat, id: nat)
    | Insert(t: nat, uuid: string, created: int)
    | ReadRows(t: nat)
    | Commit(t: nat, known: bool)
    | Abort(t: nat)
    | Crash
    | Change(authority: Authority)

  /** Free for `t`: held by nobody, or by `t` itself. */
  predicate Free(s: State, t: nat, lock: Lock) {
    lock in s.locks ==> s.locks[lock] == t
  }

  predicate UuidUnused(s: State, uuid: string) {
    && (forall k | k in s.rows :: s.rows[k].uuid != uuid)
    && (forall u | u in s.txs :: s.txs[u].stage.Inserted? ==> s.txs[u].stage.row.uuid != uuid)
  }

  predicate Enabled(s: State, e: Event) {
    match e
    case Begin(t, _) => t !in s.txs
    case LockUser(t) =>
      && t in s.txs && s.txs[t].stage.Begun?
      && (s.txs[t].request.user in s.authority.users ==> Free(s, t, UserLock(s.txs[t].request.user)))
    case LockConversation(t, sid) =>
      && t in s.txs && s.txs[t].stage.UserLocked? && Picked(s.authority, s.txs[t].request, sid)
      && var place := Locate(s.authority, s.txs[t].request, sid);
      place.Place? ==> Free(s, t, ConversationLock(place.spot.session))
    case CheckUsers(t) => t in s.txs && s.txs[t].stage.Located? && !s.txs[t].request.Sync?
    case Find(t, id) =>
      && t in s.txs && s.txs[t].stage.UsersKnown? && !s.txs[t].request.Sync?
      && ((id in s.rows && Matches(s.rows[id], s.txs[t].request))
          || forall k | k in s.rows :: !Matches(s.rows[k], s.txs[t].request))
    case Insert(t, uuid, _) =>
      && t in s.txs && s.txs[t].stage.Absent? && !s.txs[t].request.Sync?
      && s.lastId < MAX_INT64 && ValidId(uuid, 'M') && UuidUnused(s, uuid)
    case ReadRows(t) => t in s.txs && s.txs[t].stage.Located? && s.txs[t].request.Sync?
    case Commit(t, _) => t in s.txs && (s.txs[t].stage.Found? || s.txs[t].stage.Inserted? || s.txs[t].stage.PageRead?)
    case Abort(t) => t in s.txs
    case Crash => true
    case Change(_) => true
  }

  function Advance(s: State, t: nat, stage: Stage): State
    requires t in s.txs
  {
    s.(txs := s.txs[t := s.txs[t].(stage := stage)])
  }

  /** Commit or rollback: the locks go, and the caller hears `reply`. */
  function End(s: State, t: nat, reply: Reply): State
    requires t in s.txs
  {
    s.(txs := s.txs - {t},
       locks := map l | l in s.locks && s.locks[l] != t :: s.locks[l],
       answers := s.answers + [Answer(s.txs[t].request, reply)])
  }

  function NewRow(s: State, r: Request, spot: Spot, uuid: string, created: int): Row
    requires !r.Sync?
  {
    Row(s.lastId + 1, uuid, spot.session, r.user, spot.receiver, r.content, r.SaveAI?, r.clientId,
        FingerprintOf(r, spot), spot.recipients, created)
  }

  function Bound(limit: nat): nat {
    if limit == 0 then DEFAULT_LIMIT else limit
  }

  /** The page a synchronisation request reads in state `s`. */
  function PageOf(s: State, r: Request): Page
    requires r.Sync?
  {
    ReadPage(s.rows, r.session, r.after, s.lastId, Bound(r.limit))
  }

  function ReplyOf(stage: Stage): Reply
    requires stage.Found? || stage.Inserted? || stage.PageRead?
  {
    match stage
    case Found(row) => Saved(View(row), row.recipients, true)
    case Inserted(row) => Saved(View(row), row.recipients, false)
    case PageRead(page) => Paged(page)
  }

  function OnBegin(s: State, t: nat, r: Request): State {
    if ValidRequest(r) then s.(txs := s.txs[t := Tx(r, Begun)])
    else s.(answers := s.answers + [Answer(r, Failed(Invalid))])
  }

  function OnLockUser(s: State, t: nat): State
    requires t in s.txs
  {
    var user := s.txs[t].request.user;
    if user !in s.authority.users then End(s, t, Failed(Forbidden))
    else Advance(s, t, UserLocked).(locks := s.locks[UserLock(user) := t])
  }

  function OnLockConversation(s: State, t: nat, sid: string): State
    requires t in s.txs
  {
    match Locate(s.authority, s.txs[t].request, sid)
    case Denied(error) => End(s, t, Failed(error))
    case Place(spot) => Advance(s, t, Located(spot)).(locks := s.locks[ConversationLock(spot.session) := t])
  }

  predicate AllUsers(auth: Authority, ids: seq<string>) {
    forall id | id in ids :: id in auth.users
  }

  function OnCheckUsers(s: State, t: nat, spot: Spot): State
    requires t in s.txs
  {
    if AllUsers(s.authority, spot.recipients) then Advance(s, t, UsersKnown(spot)) else End(s, t, Failed(Forbidden))
  }

  function OnFind(s: State, t: nat, id: nat, spot: Spot): State
    requires t in s.txs && !s.txs[t].request.Sync?
  {
    var r := s.txs[t].request;
    if id !in s.rows || !Matches(s.rows[id], r) then Advance(s, t, Absent(spot))
    else if s.rows[id].fingerprint != FingerprintOf(r, spot) then End(s, t, Failed(Conflict))
    else if !ValidSnapshot(s.rows[id].recipients) || !Presentable(s.rows[id]) then End(s, t, Failed(Database))
    else Advance(s, t, Found(s.rows[id]))
  }

  /** The id is taken whether or not the row can be kept. */
  function OnInsert(s: State, t: nat, row: Row): State
    requires t in s.txs
  {
    var taken := s.(lastId := s.lastId + 1);
    if Presentable(row) then Advance(taken, t, Inserted(row)) else End(taken, t, Failed(Database))
  }

  predicate AllPresentable(rows: seq<Row>) {
    forall row | row in rows :: Presentable(row)
  }

  function OnReadRows(s: State, t: nat, page: Page): State
    requires t in s.txs
  {
    if AllPresentable(page.rows) then Advance(s, t, PageRead(page)) else End(s, t, Failed(Database))
  }

  function OnCommit(s: State, t: nat, known: bool): State
    requires t in s.txs && (s.txs[t].stage.Found? || s.txs[t].stage.Inserted? || s.txs[t].stage.PageRead?)
  {
    var stage := s.txs[t].stage;
    var ended := End(s, t, if known then ReplyOf(stage) else Failed(Database));
    if stage.Inserted? then ended.(rows := s.rows[stage.row.id := stage.row]) else ended
  }

  function Next(s: State, e: Event): State
    requires Enabled(s, e)
  {
    match e
    case Begin(t, r) => OnBegin(s, t, r)
    case LockUser(t) => OnLockUser(s, t)
    case LockConversation(t, sid) => OnLockConversation(s, t, sid)
    case CheckUsers(t) => OnCheckUsers(s, t, s.txs[t].stage.spot)
    case Find(t, id) => OnFind(s, t, id, s.txs[t].stage.spot)
    case Insert(t, uuid, created) => OnInsert(s, t, NewRow(s, s.txs[t].request, s.txs[t].stage.spot, uuid, created))
    case ReadRows(t) => OnReadRows(s, t, PageOf(s, s.txs[t].request))
    case Commit(t, known) => OnCommit(s, t, known)
    case Abort(t) => End(s, t, Failed(Database))
    case Crash => s.(txs := map[], locks := map[])
    case Change(authority) => s.(authority := authority)
  }

  function Initial(authority: Authority): State {
    State(map[], 0, map[], map[], authority, [])
  }

  /** Where any list of events leads; an event that cannot happen where it stands changes nothing. */
  function After(s: State, events: seq<Event>): State {
    if events == [] then s
    else
      var before := After(s, events[..|events| - 1]);
      if Enabled(before, events[|events| - 1]) then Next(before, events[|events| - 1]) else before
  }

  // ----- what every reachable state satisfies -----

  predicate Holds(s: State, t: nat, lock: Lock) {
    lock in s.locks && s.locks[lock] == t
  }

  /** What every stored row satisfies; a direct message concerns nobody but its two users. */
  predicate Sane(row: Row) {
    var group := ValidId(row.session, 'G');
    && Presentable(row) && ValidSnapshot(row.recipients)
    && row.fingerprint == Fingerprint(group, row.receiver, row.content, row.ai)
    && (group || forall id | id in row.recipients :: id == row.sender || id == row.receiver)
  }

  /** The row is the one this request asked for. */
  predicate Serves(row: Row, r: Request) {
    && Matches(row, r) && row.content == r.content && row.ai == r.SaveAI?
    && (r.Save? ==> row.receiver == r.receiver && (ValidId(row.session, 'G') <==> r.group))
  }

  predicate SpotOk(r: Request, spot: Spot) {
    if r.Sync? then spot.session == r.session
    else
      && ValidSnapshot(spot.recipients)
      && (if spot.group then ValidId(spot.session, 'G') && spot.receiver == spot.session
          else && ValidId(spot.session, 'S') && ValidId(spot.receiver, 'U') && spot.receiver != r.user
               && forall id | id in spot.recipients :: id == r.user || id == spot.receiver)
      && (if r.Save? then spot.receiver == r.receiver && spot.group == r.group else !spot.group)
  }

  /** Exactly those authority lets the request's message reach in `session`: the sender's group, or the two users. */
  ghost predicate Audience(auth: Authority, r: Request, session: string, ids: seq<string>) {
    && Ascending(ids) && r.user in ids
    && match r
       case Save(user, _, true, receiver, _) =>
         && session == receiver && receiver in auth.groups && auth.groups[receiver].normal
         && auth.groups[receiver].members.Some?
         && (forall id :: id in ids <==> id in auth.groups[receiver].members.value)
       case Save(user, _, false, receiver, _) =>
         && session in auth.directs && Pairs(auth.directs[session], user, receiver)
         && (forall id :: id in ids <==> id == user || id == receiver)
       case SaveAI(user, _, chosen, _) =>
         && session == chosen && session in auth.directs && (user, session) in auth.access
         && (forall id :: id in ids <==> id == auth.directs[session].first || id == auth.directs[session].second)
       case Sync(_, _, _, _, _) => false
  }

  predicate NoMatch(rows: map<nat, Row>, r: Request) {
    forall k | k in rows :: !Matches(rows[k], r)
  }

  predicate StageOk(s: State, t: nat, r: Request, stage: Stage) {
    match stage
    case Begun => true
    case UserLocked => true
    case Located(spot) => SpotOk(r, spot) && Holds(s, t, ConversationLock(spot.session))
    case UsersKnown(spot) => !r.Sync? && SpotOk(r, spot) && Holds(s, t, ConversationLock(spot.session))
    case Absent(spot) =>
      !r.Sync? && SpotOk(r, spot) && Holds(s, t, ConversationLock(spot.session)) && NoMatch(s.rows, r)
    case Found(row) => Serves(row, r) && row.id in s.rows && s.rows[row.id] == row
    case Inserted(row) =>
      && Serves(row, r) && Sane(row) && row.id <= s.lastId && row.id !in s.rows
      && Holds(s, t, ConversationLock(row.session)) && NoMatch(s.rows, r)
    case PageRead(_) => r.Sync? && Holds(s, t, ConversationLock(r.session))
  }

  predicate TxOk(s: State, t: nat)
    requires t in s.txs
  {
    var tx := s.txs[t];
    && ValidRequest(tx.request)
    && (tx.stage.Begun? || Holds(s, t, UserLock(tx.request.user)))
    && StageOk(s, t, tx.request, tx.stage)
  }

  predicate RowsOk(rows: map<nat, Row>, lastId: nat) {
    && (forall k | k in rows :: rows[k].id == k && k <= lastId && Sane(rows[k]))
    && (forall j, k | j in rows && k in rows && j != k ::
          !(rows[j].sender == rows[k].sender && rows[j].clientId == rows[k].clientId))
  }

  /** Insertions under way have different ids. */
  predicate Apart(s: State) {
    forall t, u | t in s.txs && u in s.txs && t != u && s.txs[t].stage.Inserted? && s.txs[u].stage.Inserted? ::
      s.txs[t].stage.row.id != s.txs[u].stage.row.id
  }

  /** A successful save answered with a row that is stored. */
  predicate AnswerOk(rows: map<nat, Row>, a: Answer) {
    a.reply.Saved? ==>
      exists k :: && k in rows && Serves(rows[k], a.request) && View(rows[k]) == a.reply.message
                  && rows[k].recipients == a.reply.recipients
  }

  predicate Inv(s: State) {
    && RowsOk(s.rows, s.lastId)
    && Apart(s)
    && (forall t | t in s.txs :: TxOk(s, t))
    && (forall i | 0 <= i < |s.answers| :: AnswerOk(s.rows, s.answers[i]))
  }

  // ----- each event keeps it -----

  /** A transaction that does not move, and loses no lock, stays as it should be while the rows stay the same. */
  lemma Unmoved(s: State, n: State, u: nat)
    requires u in s.txs && TxOk(s, u) && u in n.txs && n.txs[u] == s.txs[u]
    requires n.rows == s.rows && s.lastId <= n.lastId
    requires forall l | Holds(s, u, l) :: Holds(n, u, l)
    ensures TxOk(n, u)
  {
    hide ValidRequest, Serves, Sane, SpotOk, NoMatch;
  }

  lemma EndKeeps(s: State, t: nat, reply: Reply)
    requires Inv(s) && t in s.txs && AnswerOk(s.rows, Answer(s.txs[t].request, reply))
    ensures Inv(End(s, t, reply))
  {
    hide RowsOk, TxOk, AnswerOk;
    var n := End(s, t, reply);
    forall u | u in n.txs ensures TxOk(n, u) {
      Unmoved(s, n, u);
    }
  }

  /** Moving `t` on, with possibly one more lock and one more id taken. */
  lemma AdvanceKeeps(s: State, n: State, t: nat, stage: Stage)
    requires Inv(s) && t in s.txs
    requires n.rows == s.rows && s.lastId <= n.lastId && n.answers == s.answers
    requires n.txs == s.txs[t := s.txs[t].(stage := stage)]
    requires forall u, l | u in s.txs && Holds(s, u, l) :: Holds(n, u, l)
    requires TxOk(n, t)
    requires stage.Inserted? ==> s.lastId < stage.row.id
    ensures Inv(n)
  {
    hide RowsOk, TxOk, AnswerOk;
    forall u | u in n.txs ensures TxOk(n, u) {
      if u != t {
        Unmoved(s, n, u);
      }
    }
    assert Apart(n) by {
      forall u | u in s.txs && s.txs[u].stage.Inserted? ensures s.txs[u].stage.row.id <= s.lastId {
        assert TxOk(s, u) by {
          assert Inv(s);
        }
        InsertionFacts(s, u);
      }
    }
    assert RowsOk(n.rows, n.lastId) by {
      RowsLater(s.rows, s.lastId, n.lastId);
    }
  }

  lemma InsertionFacts(s: State, u: nat)
    requires u in s.txs && TxOk(s, u) && s.txs[u].stage.Inserted?
    ensures var row := s.txs[u].stage.row; row.id <= s.lastId && Holds(s, u, ConversationLock(row.session))
  {
  }

  lemma RowsLater(rows: map<nat, Row>, lastId: nat, later: nat)
    requires RowsOk(rows, lastId) && lastId <= later
    ensures RowsOk(rows, later)
  {
    hide Sane;
  }

  lemma PairSet(a: string, b: string)
    requires ValidId(a, 'U') && ValidId(b, 'U')
    ensures ValidSnapshot(SortedSet([a, b])) && forall id :: id in SortedSet([a, b]) <==> id == a || id == b
  {
    SortedSetShape([a, b]);
    assert a in [a, b] && b in [a, b];
    assert SortedSet([a, b]) != [] by {
      assert a in SortedSet([a, b]);
    }
  }

  lemma MembersOk(user: string, members: seq<string>)
    requires MembersError(user, members).None?
    ensures ValidSnapshot(SortedSet(members)) && user in SortedSet(members)
    ensures forall id :: id in SortedSet(members) <==> id in members
  {
    hide ValidId;
    SortedSetShape(members);
    assert user in SortedSet(members);
  }

  /** What authority lets through is a sound place for the message, for exactly those it authorises. */
  lemma LocateOk(auth: Authority, r: Request, sid: string)
    requires ValidRequest(r) && Locate(auth, r, sid).Place?
    ensures var spot := Locate(auth, r, sid).spot;
            SpotOk(r, spot) && (!r.Sync? ==> Audience(auth, r, spot.session, spot.recipients))
  {
    hide ValidUuid, MembersError, SortedSet, ValidText, Ascending;
    match r
    case Save(user, _, true, receiver, _) =>
      MembersOk(user, auth.groups[receiver].members.value);
    case Save(user, _, false, receiver, _) => PairSet(user, receiver);
    case SaveAI(user, _, session, _) =>
      var d := auth.directs[session];
      PairSet(user, if d.first == user then d.second else d.first);
    case Sync(_, _, _, _, _) =>
  }

  lemma LockKeepsHolds(s: State, t: nat, lock: Lock)
    requires Free(s, t, lock)
    ensures forall u, l | Holds(s, u, l) :: Holds(s.(locks := s.locks[lock := t]), u, l)
  {
  }

  lemma LockUserKeeps(s: State, t: nat)
    requires Inv(s) && Enabled(s, LockUser(t))
    ensures Inv(Next(s, LockUser(t)))
  {
    hide RowsOk, AnswerOk, Apart;
    var user := s.txs[t].request.user;
    if user !in s.authority.users {
      AnswerFailed(s.rows, s.txs[t].request, Forbidden);
      EndKeeps(s, t, Failed(Forbidden));
    } else {
      LockKeepsHolds(s, t, UserLock(user));
      assert TxOk(s, t);
      AdvanceKeeps(s, Next(s, LockUser(t)), t, UserLocked);
    }
  }

  lemma AnswerFailed(rows: map<nat, Row>, r: Request, error: Error)
    ensures AnswerOk(rows, Answer(r, Failed(error)))
  {
  }

  lemma LockConversationKeeps(s: State, t: nat, sid: string)
    requires Inv(s) && Enabled(s, LockConversation(t, sid))
    ensures Inv(Next(s, LockConversation(t, sid)))
  {
    hide RowsOk, AnswerOk, Apart, Locate, SpotOk, ValidRequest;
    var r := s.txs[t].request;
    var place := Locate(s.authority, r, sid);
    assert TxOk(s, t);
    match place
    case Denied(error) =>
      AnswerFailed(s.rows, r, error);
      EndKeeps(s, t, Failed(error));
    case Place(spot) =>
      LockKeepsHolds(s, t, ConversationLock(spot.session));
      LocateOk(s.authority, r, sid);
      AdvanceKeeps(s, Next(s, LockConversation(t, sid)), t, Located(spot));
  }

  lemma CheckUsersKeeps(s: State, t: nat)
    requires Inv(s) && Enabled(s, CheckUsers(t))
    ensures Inv(Next(s, CheckUsers(t)))
  {
    hide RowsOk, AnswerOk, Apart, SpotOk, ValidRequest;
    assert TxOk(s, t);
    var spot := s.txs[t].stage.spot;
    if AllUsers(s.authority, spot.recipients) {
      AdvanceKeeps(s, Next(s, CheckUsers(t)), t, UsersKnown(spot));
    } else {
      AnswerFailed(s.rows, s.txs[t].request, Forbidden);
      EndKeeps(s, t, Failed(Forbidden));
    }
  }

  /** A row with the request's pair and fingerprint is the row the request asked for. */
  lemma SameFingerprintServes(row: Row, r: Request, spot: Spot)
    requires Sane(row) && !r.Sync? && SpotOk(r, spot) && Matches(row, r) && row.fingerprint == FingerprintOf(r, spot)
    ensures Serves(row, r)
  {
    hide ValidSnapshot, Presentable, ValidId;
  }

  lemma FindKeeps(s: State, t: nat, id: nat)
    requires Inv(s) && Enabled(s, Find(t, id))
    ensures Inv(Next(s, Find(t, id)))
  {
    hide AnswerOk, Apart, SpotOk, ValidRequest, Sane, Serves;
    assert TxOk(s, t);
    var r, spot := s.txs[t].request, s.txs[t].stage.spot;
    if id !in s.rows || !Matches(s.rows[id], r) {
      AdvanceKeeps(s, Next(s, Find(t, id)), t, Absent(spot));
    } else if s.rows[id].fingerprint != FingerprintOf(r, spot) {
      AnswerFailed(s.rows, r, Conflict);
      EndKeeps(s, t, Failed(Conflict));
    } else if !ValidSnapshot(s.rows[id].recipients) || !Presentable(s.rows[id]) {
      AnswerFailed(s.rows, r, Database);
      EndKeeps(s, t, Failed(Database));
    } else {
      SameFingerprintServes(s.rows[id], r, spot);
      AdvanceKeeps(s, Next(s, Find(t, id)), t, Found(s.rows[id]));
    }
  }

  lemma NewRowSane(s: State, r: Request, spot: Spot, uuid: string, created: int)
    requires ValidRequest(r) && !r.Sync? && SpotOk(r, spot) && Presentable(NewRow(s, r, spot, uuid, created))
    ensures Sane(NewRow(s, r, spot, uuid, created)) && Serves(NewRow(s, r, spot, uuid, created), r)
  {
    hide ValidUuid;
  }

  lemma InsertKeeps(s: State, t: nat, uuid: string, created: int)
    requires Inv(s) && Enabled(s, Insert(t, uuid, created))
    ensures Inv(Next(s, Insert(t, uuid, created)))
  {
    hide AnswerOk, Apart, SpotOk, ValidRequest, Sane, Serves, Presentable, ValidId, UuidUnused;
    assert TxOk(s, t);
    var r, spot := s.txs[t].request, s.txs[t].stage.spot;
    var row := NewRow(s, r, spot, uuid, created);
    if Presentable(row) {
      NewRowSane(s, r, spot, uuid, created);
      AdvanceKeeps(s, Next(s, Insert(t, uuid, created)), t, Inserted(row));
    } else {
      AnswerFailed(s.rows, r, Database);
      EndKeeps(s, t, Failed(Database));
      TakeId(End(s, t, Failed(Database)));
    }
  }

  /** An id that leads to no row is simply skipped. */
  lemma TakeId(s: State)
    requires Inv(s)
    ensures Inv(s.(lastId := s.lastId + 1))
  {
    hide AnswerOk, Apart, TxOk, RowsOk;
    var n := s.(lastId := s.lastId + 1);
    RowsLater(s.rows, s.lastId, n.lastId);
    forall u | u in n.txs ensures TxOk(n, u) {
      Unmoved(s, n, u);
    }
    assert Apart(n) by {
      assert Apart(s);
      SameApart(s, n);
    }
  }

  lemma SameApart(s: State, n: State)
    requires Apart(s) && s.txs == n.txs
    ensures Apart(n)
  {
  }

  lemma ReadRowsKeeps(s: State, t: nat)
    requires Inv(s) && Enabled(s, ReadRows(t))
    ensures Inv(Next(s, ReadRows(t)))
  {
    hide RowsOk, AnswerOk, Apart, ValidRequest, AllPresentable, PageOf;
    assert TxOk(s, t);
    var page := PageOf(s, s.txs[t].request);
    if AllPresentable(page.rows) {
      AdvanceKeeps(s, Next(s, ReadRows(t)), t, PageRead(page));
    } else {
      AnswerFailed(s.rows, s.txs[t].request, Database);
      EndKeeps(s, t, Failed(Database));
    }
  }

  /** Two transactions past their user's lock are never for the same user. */
  lemma OneSaveEach(s: State, t: nat, u: nat)
    requires t in s.txs && u in s.txs && TxOk(s, t) && TxOk(s, u)
    requires !s.txs[t].stage.Begun? && !s.txs[u].stage.Begun? && s.txs[t].request.user == s.txs[u].request.user
    ensures t == u
  {
  }

  /** Storing `row` for `t` leaves every other transaction as it should be. */
  lemma OtherAfterStore(s: State, t: nat, u: nat, row: Row)
    requires t in s.txs && u in s.txs && t != u && TxOk(s, t) && TxOk(s, u) && Apart(s)
    requires s.txs[t].stage == Inserted(row)
    ensures TxOk(s.(rows := s.rows[row.id := row]), u)
  {
    hide Sane, ValidRequest, SpotOk;
    if !s.txs[u].stage.Begun? && s.txs[u].request.user == row.sender {
      OneSaveEach(s, t, u);
    }
  }

  lemma StoredRowsOk(s: State, t: nat, row: Row)
    requires t in s.txs && TxOk(s, t) && RowsOk(s.rows, s.lastId) && s.txs[t].stage == Inserted(row)
    ensures RowsOk(s.rows[row.id := row], s.lastId)
  {
    hide Sane, ValidRequest;
  }

  /** A stored row stays an answer's witness when another row is added. */
  lemma AnswerLater(rows: map<nat, Row>, row: Row, a: Answer)
    requires AnswerOk(rows, a) && row.id !in rows
    ensures AnswerOk(rows[row.id := row], a)
  {
    hide Serves, View;
    if a.reply.Saved? {
      var k :| k in rows && Serves(rows[k], a.request) && View(rows[k]) == a.reply.message
          && rows[k].recipients == a.reply.recipients;
      assert rows[row.id := row][k] == rows[k];
    }
  }

  /** Commit in two halves: the row becomes visible, then the transaction ends. */
  lemma CommitKeeps(s: State, t: nat, known: bool)
    requires Inv(s) && Enabled(s, Commit(t, known))
    ensures Inv(Next(s, Commit(t, known)))
  {
    hide RowsOk, AnswerOk, Apart, ValidRequest, Sane, Serves, View;
    var Tx(r, stage) := s.txs[t];
    var reply := if known then ReplyOf(stage) else Failed(Database);
    assert TxOk(s, t);
    if stage.Inserted? {
      var row := stage.row;
      var rows := s.rows[row.id := row];
      StoredRowsOk(s, t, row);
      ReplyServed(rows, r, row, false, known);
      var n := Next(s, Commit(t, known));
      forall u | u in n.txs ensures TxOk(n, u) {
        OtherAfterStore(s, t, u, row);
        Unmoved(s.(rows := rows), n, u);
      }
      forall i | 0 <= i < |n.answers| ensures AnswerOk(n.rows, n.answers[i]) {
        if i < |s.answers| {
          AnswerLater(s.rows, row, s.answers[i]);
        }
      }
      FewerApart(s, n);
    } else {
      if stage.Found? {
        ReplyServed(s.rows, r, stage.row, true, known);
      } else {
        AnswerPaged(s.rows, r, stage.page);
        AnswerFailed(s.rows, r, Database);
      }
      EndKeeps(s, t, reply);
    }
  }

  lemma FewerApart(s: State, n: State)
    requires Apart(s) && n.txs.Keys <= s.txs.Keys && forall u | u in n.txs :: n.txs[u] == s.txs[u]
    ensures Apart(n)
  {
  }

  lemma AnswerPaged(rows: map<nat, Row>, r: Request, page: Page)
    ensures AnswerOk(rows, Answer(r, Paged(page)))
  {
  }

  lemma ReplyServed(rows: map<nat, Row>, r: Request, row: Row, replayed: bool, known: bool)
    requires row.id in rows && rows[row.id] == row && Serves(row, r)
    ensures AnswerOk(rows, Answer(r, if known then Saved(View(row), row.recipients, replayed) else Failed(Database)))
  {
  }

  lemma InvStep(s: State, e: Event)
    requires Inv(s) && Enabled(s, e)
    ensures Inv(Next(s, e))
  {
    hide RowsOk, AnswerOk, TxOk;
    match e
    case Begin(t, r) =>
      AnswerFailed(s.rows, r, Invalid);
      if ValidRequest(r) {
        BeginKeeps(s, t, r);
      } else {
        var n := Next(s, e);
        forall u | u in n.txs ensures TxOk(n, u) {
          Unmoved(s, n, u);
        }
      }
    case LockUser(t) => LockUserKeeps(s, t);
    case LockConversation(t, sid) => LockConversationKeeps(s, t, sid);
    case CheckUsers(t) => CheckUsersKeeps(s, t);
    case Find(t, id) => FindKeeps(s, t, id);
    case Insert(t, uuid, created) => InsertKeeps(s, t, uuid, created);
    case ReadRows(t) => ReadRowsKeeps(s, t);
    case Commit(t, known) => CommitKeeps(s, t, known);
    case Abort(t) =>
      AnswerFailed(s.rows, s.txs[t].request, Database);
      EndKeeps(s, t, Failed(Database));
    case Crash =>
    case Change(authority) =>
      var n := s.(authority := authority);
      forall u | u in n.txs ensures TxOk(n, u) {
        Unmoved(s, n, u);
      }
  }

  lemma BeginKeeps(s: State, t: nat, r: Request)
    requires Inv(s) && t !in s.txs && ValidRequest(r)
    ensures Inv(s.(txs := s.txs[t := Tx(r, Begun)]))
  {
    hide RowsOk, AnswerOk, TxOk;
    var n := s.(txs := s.txs[t := Tx(r, Begun)]);
    forall u | u in n.txs ensures TxOk(n, u) {
      if u == t {
        BegunOk(n, t);
      } else {
        Unmoved(s, n, u);
      }
    }
  }

  lemma BegunOk(s: State, t: nat)
    requires t in s.txs && s.txs[t].stage.Begun? && ValidRequest(s.txs[t].request)
    ensures TxOk(s, t)
  {
  }

  lemma {:induction false} InvAlways(authority: Authority, events: seq<Event>)
    ensures Inv(After(Initial(authority), events))
  {
    if events != [] {
      var n := |events| - 1;
      InvAlways(authority, events[..n]);
      var before := After(Initial(authority), events[..n]);
      if Enabled(before, events[n]) {
        InvStep(before, events[n]);
      }
    }
  }

  lemma {:induction false} InvAfter(s: State, events: seq<Event>)
    requires Inv(s)
    ensures Inv(After(s, events))
  {
    if events != [] {
      var n := |events| - 1;
      InvAfter(s, events[..n]);
      var before := After(s, events[..n]);
      if Enabled(before, events[n]) {
        InvStep(before, events[n]);
      }
    }
  }
}
