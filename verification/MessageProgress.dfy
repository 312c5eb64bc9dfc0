/** That requests can be served: one whose locks are free runs to its answer, and what it leaves is exactly its own. */
module MessageProgress {
  import opened Wrappers
  import opened Identifiers
  import opened Decimal
  import opened ByteOrder
  import opened Paging
  import opened MessageTable
  import MessageRuns
  import P = PushTasks

  lemma AfterMore(s: State, events: seq<Event>, e: Event)
    requires Enabled(After(s, events), e)
    ensures After(s, events + [e]) == Next(After(s, events), e)
  {
    hide Enabled, Next;
    assert (events + [e])[..|events|] == events;
  }

  /** The request holds no lock yet, nobody holds those it needs, and authority lets it through to `spot`. */
  predicate Uncontended(s: State, t: nat, sid: string, spot: Spot) {
    && t in s.txs && s.txs[t].stage.Begun? && s.txs[t].request.user in s.authority.users
    && Picked(s.authority, s.txs[t].request, sid) && Locate(s.authority, s.txs[t].request, sid) == Place(spot)
    && UserLock(s.txs[t].request.user) !in s.locks && ConversationLock(spot.session) !in s.locks
    && forall l | l in s.locks :: s.locks[l] != t
  }

  /** The same state but for the stage of `t` and its two locks. */
  function At(s: State, t: nat, spot: Spot, stage: Stage): State
    requires t in s.txs
  {
    var r := s.txs[t].request;
    s.(txs := s.txs[t := Tx(r, stage)],
       locks := s.locks[UserLock(r.user) := t][ConversationLock(spot.session) := t])
  }

  lemma BothLocked(s: State, t: nat, sid: string, spot: Spot)
    requires Uncontended(s, t, sid, spot)
    ensures After(s, [LockUser(t), LockConversation(t, sid)]) == At(s, t, spot, Located(spot))
  {
    hide Locate, Picked;
    assert After(s, []) == s;
    AfterMore(s, [], LockUser(t));
    assert [] + [LockUser(t)] == [LockUser(t)];
    var n := Next(s, LockUser(t));
    assert After(s, [LockUser(t)]) == n;
    assert Enabled(n, LockConversation(t, sid));
    AfterMore(s, [LockUser(t)], LockConversation(t, sid));
    assert [LockUser(t)] + [LockConversation(t, sid)] == [LockUser(t), LockConversation(t, sid)];
    assert Next(n, LockConversation(t, sid)).txs == At(s, t, spot, Located(spot)).txs;
  }

  lemma RecipientsKnown(s: State, t: nat, sid: string, spot: Spot)
    requires Uncontended(s, t, sid, spot) && !s.txs[t].request.Sync? && AllUsers(s.authority, spot.recipients)
    ensures After(s, [LockUser(t), LockConversation(t, sid), CheckUsers(t)]) == At(s, t, spot, UsersKnown(spot))
  {
    hide Locate, Picked;
    BothLocked(s, t, sid, spot);
    hide After;
    var events := [LockUser(t), LockConversation(t, sid)];
    AfterMore(s, events, CheckUsers(t));
    assert events + [CheckUsers(t)] == [LockUser(t), LockConversation(t, sid), CheckUsers(t)];
    assert At(s, t, spot, Located(spot)).txs[t := Tx(s.txs[t].request, UsersKnown(spot))]
        == At(s, t, spot, UsersKnown(spot)).txs;
  }

  /** Ending `t` gives back its locks, which were free before. */
  lemma EndedAlike(s: State, t: nat, spot: Spot, stage: Stage, reply: Reply)
    requires t in s.txs && UserLock(s.txs[t].request.user) !in s.locks && ConversationLock(spot.session) !in s.locks
    requires forall l | l in s.locks :: s.locks[l] != t
    ensures End(At(s, t, spot, stage), t, reply)
         == s.(txs := s.txs - {t}, answers := s.answers + [Answer(s.txs[t].request, reply)])
  {
    var n := At(s, t, spot, stage);
    assert (map l | l in n.locks && n.locks[l] != t :: n.locks[l]) == s.locks;
    assert n.txs - {t} == s.txs - {t};
  }

  /** What the state becomes when `t` ends with `reply`. */
  predicate Answered(s: State, n: State, t: nat, reply: Reply)
    requires t in s.txs
  {
    && n.answers == s.answers + [Answer(s.txs[t].request, reply)] && n.authority == s.authority
    && n.locks == s.locks && n.txs == s.txs - {t}
  }

  /** The save's own events, up to the search for an earlier row. */
  function Searching(t: nat, sid: string, id: nat): seq<Event> {
    [LockUser(t), LockConversation(t, sid), CheckUsers(t)] + [Find(t, id)]
  }

  function Saving(t: nat, sid: string, uuid: string, created: int): seq<Event> {
    Searching(t, sid, 0) + [Insert(t, uuid, created)] + [Commit(t, true)]
  }

  /** One more row, under the next id, for the sender, conversation and recipients let through; it is the answer. */
  predicate StoresOwn(s: State, n: State, t: nat, spot: Spot)
    requires t in s.txs && !s.txs[t].request.Sync?
  {
    var r, id := s.txs[t].request, s.lastId + 1;
    && id !in s.rows && n.rows.Keys == s.rows.Keys + {id} && n.lastId == id
    && (forall k | k in s.rows :: n.rows[k] == s.rows[k])
    && n.rows[id].sender == r.user && n.rows[id].clientId == r.clientId && n.rows[id].content == r.content
    && n.rows[id].session == spot.session && n.rows[id].receiver == spot.receiver
    && n.rows[id].recipients == spot.recipients
    && Answered(s, n, t, Saved(View(n.rows[id]), spot.recipients, false))
  }

  /**
   An uncontended save that was not made before runs to its acknowledgement; it stores its own row and leaves all other
   rows and locks alone.
   */
  lemma SaveCompletes(s: State, t: nat, sid: string, spot: Spot, uuid: string, created: int)
    requires Inv(s) && Uncontended(s, t, sid, spot) && !s.txs[t].request.Sync?
    requires AllUsers(s.authority, spot.recipients) && NoMatch(s.rows, s.txs[t].request)
    requires s.lastId < MAX_INT64 && ValidId(uuid, 'M') && UuidUnused(s, uuid) && P.ZERO_TIME < created <= P.LAST_TIME
    ensures StoresOwn(s, After(s, Saving(t, sid, uuid, created)), t, spot)
  {
    hide After, Inv, Uncontended, AllUsers, NoMatch, UuidUnused, ValidId, View, Presentable, Saving, FingerprintOf;
    NewRowFits(s, t, sid, spot, uuid, created);
    SaveRuns(s, t, sid, spot, uuid, created);
  }

  /** The state after a save that stored `row`. */
  function Done(s: State, t: nat, row: Row): State
    requires t in s.txs
  {
    s.(rows := s.rows[row.id := row], lastId := s.lastId + 1, txs := s.txs - {t},
       answers := s.answers + [Answer(s.txs[t].request, Saved(View(row), row.recipients, false))])
  }

  lemma SaveRuns(s: State, t: nat, sid: string, spot: Spot, uuid: string, created: int)
    requires Uncontended(s, t, sid, spot) && !s.txs[t].request.Sync?
    requires AllUsers(s.authority, spot.recipients) && NoMatch(s.rows, s.txs[t].request)
    requires s.lastId < MAX_INT64 && ValidId(uuid, 'M') && UuidUnused(s, uuid)
    requires Presentable(NewRow(s, s.txs[t].request, spot, uuid, created))
    ensures After(s, Saving(t, sid, uuid, created)) == Done(s, t, NewRow(s, s.txs[t].request, spot, uuid, created))
  {
    hide After, Enabled, Next, At, AllUsers, NoMatch, UuidUnused, ValidId, FingerprintOf, Locate, Picked, Presentable,
      Searching, Done;
    var row := NewRow(s, s.txs[t].request, spot, uuid, created);
    FindsNone(s, t, spot);
    Searches(s, t, sid, spot, 0);
    Inserts(s, t, spot, uuid, created);
    AfterMore(s, Searching(t, sid, 0), Insert(t, uuid, created));
    Commits(s, t, sid, spot, row);
    AfterMore(s, Searching(t, sid, 0) + [Insert(t, uuid, created)], Commit(t, true));
  }

  lemma Searches(s: State, t: nat, sid: string, spot: Spot, id: nat)
    requires Uncontended(s, t, sid, spot) && !s.txs[t].request.Sync? && AllUsers(s.authority, spot.recipients)
    requires Enabled(At(s, t, spot, UsersKnown(spot)), Find(t, id))
    ensures After(s, Searching(t, sid, id)) == Next(At(s, t, spot, UsersKnown(spot)), Find(t, id))
  {
    hide After, Enabled, Next, At;
    RecipientsKnown(s, t, sid, spot);
    AfterMore(s, [LockUser(t), LockConversation(t, sid), CheckUsers(t)], Find(t, id));
  }

  lemma FindsNone(s: State, t: nat, spot: Spot)
    requires t in s.txs && !s.txs[t].request.Sync? && NoMatch(s.rows, s.txs[t].request)
    ensures Enabled(At(s, t, spot, UsersKnown(spot)), Find(t, 0))
    ensures Next(At(s, t, spot, UsersKnown(spot)), Find(t, 0)) == At(s, t, spot, Absent(spot))
  {
    hide Matches;
    assert At(s, t, spot, UsersKnown(spot)).txs[t := Tx(s.txs[t].request, Absent(spot))]
        == At(s, t, spot, Absent(spot)).txs;
  }

  /** The commit of what was inserted stores it and ends the transaction. */
  lemma Commits(s: State, t: nat, sid: string, spot: Spot, row: Row)
    requires Uncontended(s, t, sid, spot)
    ensures var b := At(s, t, spot, Inserted(row)).(lastId := s.lastId + 1);
            Enabled(b, Commit(t, true)) && Next(b, Commit(t, true)) == Done(s, t, row)
  {
    hide View, Locate, Picked;
    EndedAlike(s, t, spot, Inserted(row), Saved(View(row), row.recipients, false));
  }

  lemma Inserts(s: State, t: nat, spot: Spot, uuid: string, created: int)
    requires t in s.txs && !s.txs[t].request.Sync? && s.lastId < MAX_INT64 && ValidId(uuid, 'M')
    requires UuidUnused(s, uuid) && Presentable(NewRow(s, s.txs[t].request, spot, uuid, created))
    ensures var row, n := NewRow(s, s.txs[t].request, spot, uuid, created), At(s, t, spot, Absent(spot));
            && Enabled(n, Insert(t, uuid, created))
            && Next(n, Insert(t, uuid, created)) == At(s, t, spot, Inserted(row)).(lastId := s.lastId + 1)
  {
    hide Presentable, ValidId, FingerprintOf;
    var row, n := NewRow(s, s.txs[t].request, spot, uuid, created), At(s, t, spot, Absent(spot));
    assert n.txs[t := Tx(s.txs[t].request, Inserted(row))] == At(s, t, spot, Inserted(row)).txs;
  }

  lemma NewRowFits(s: State, t: nat, sid: string, spot: Spot, uuid: string, created: int)
    requires Inv(s) && Uncontended(s, t, sid, spot) && !s.txs[t].request.Sync?
    requires s.lastId < MAX_INT64 && ValidId(uuid, 'M') && P.ZERO_TIME < created <= P.LAST_TIME
    ensures Presentable(NewRow(s, s.txs[t].request, spot, uuid, created)) && s.lastId + 1 !in s.rows
  {
    hide Inv, Locate, Picked, ValidUuid, ValidSnapshot, Audience, FingerprintOf;
    FreshIds(s, t);
    LocateOk(s.authority, s.txs[t].request, sid);
  }

  lemma FreshIds(s: State, t: nat)
    requires Inv(s) && t in s.txs
    ensures ValidRequest(s.txs[t].request) && s.lastId + 1 !in s.rows
  {
    hide ValidRequest, StageOk, Sane, AnswerOk, Apart;
    assert TxOk(s, t);
  }

  // ----- a save made before, and a synchronisation -----

  /** Nothing but the answer comes of it. */
  predicate OnlyAnswers(s: State, n: State, t: nat, reply: Reply)
    requires t in s.txs
  {
    n.rows == s.rows && n.lastId == s.lastId && Answered(s, n, t, reply)
  }

  /** An uncontended retry of the same save gets the stored message and recipients again, and stores nothing. */
  lemma RetryCompletes(s: State, t: nat, sid: string, spot: Spot, id: nat)
    requires Inv(s) && Uncontended(s, t, sid, spot) && !s.txs[t].request.Sync?
    requires AllUsers(s.authority, spot.recipients) && id in s.rows && Matches(s.rows[id], s.txs[t].request)
    requires s.rows[id].fingerprint == FingerprintOf(s.txs[t].request, spot)
    ensures OnlyAnswers(s, After(s, Searching(t, sid, id) + [Commit(t, true)]), t,
                        Saved(View(s.rows[id]), s.rows[id].recipients, true))
  {
    hide After, Inv, Uncontended, AllUsers, View, Presentable, ValidSnapshot, Searching, At, Enabled, Next,
      FingerprintOf, Matches;
    FindsRow(s, t, sid, spot, id);
    Searches(s, t, sid, spot, id);
    AfterMore(s, Searching(t, sid, id), Commit(t, true));
  }

  lemma FindsRow(s: State, t: nat, sid: string, spot: Spot, id: nat)
    requires Inv(s) && Uncontended(s, t, sid, spot) && !s.txs[t].request.Sync?
    requires id in s.rows && Matches(s.rows[id], s.txs[t].request)
    requires s.rows[id].fingerprint == FingerprintOf(s.txs[t].request, spot)
    ensures var found, reply := At(s, t, spot, Found(s.rows[id])), Saved(View(s.rows[id]), s.rows[id].recipients, true);
            && Enabled(At(s, t, spot, UsersKnown(spot)), Find(t, id))
            && Next(At(s, t, spot, UsersKnown(spot)), Find(t, id)) == found
            && Enabled(found, Commit(t, true)) && OnlyAnswers(s, Next(found, Commit(t, true)), t, reply)
  {
    hide Presentable, ValidSnapshot, View, Locate, Picked, FingerprintOf, TxOk, AnswerOk, Apart;
    assert Sane(s.rows[id]);
    assert At(s, t, spot, UsersKnown(spot)).txs[t := Tx(s.txs[t].request, Found(s.rows[id]))]
        == At(s, t, spot, Found(s.rows[id])).txs;
    EndedAlike(s, t, spot, Found(s.rows[id]), Saved(View(s.rows[id]), s.rows[id].recipients, true));
  }

  function Syncing(t: nat, sid: string): seq<Event> {
    [LockUser(t), LockConversation(t, sid)] + [ReadRows(t)] + [Commit(t, true)]
  }

  /** An uncontended synchronisation gets the page of what is stored then, and changes nothing. */
  lemma SyncCompletes(s: State, t: nat, sid: string, spot: Spot)
    requires Inv(s) && Uncontended(s, t, sid, spot) && s.txs[t].request.Sync?
    ensures OnlyAnswers(s, After(s, Syncing(t, sid)), t, Paged(PageOf(s, s.txs[t].request)))
  {
    hide After, Inv, Uncontended, At, Enabled, Next, PageOf;
    BothLocked(s, t, sid, spot);
    ReadsItsPage(s, t, sid, spot);
    AfterMore(s, [LockUser(t), LockConversation(t, sid)], ReadRows(t));
    AfterMore(s, [LockUser(t), LockConversation(t, sid)] + [ReadRows(t)], Commit(t, true));
  }

  lemma ReadsItsPage(s: State, t: nat, sid: string, spot: Spot)
    requires Inv(s) && Uncontended(s, t, sid, spot) && s.txs[t].request.Sync?
    ensures var page := PageOf(s, s.txs[t].request);
            && Enabled(At(s, t, spot, Located(spot)), ReadRows(t))
            && Next(At(s, t, spot, Located(spot)), ReadRows(t)) == At(s, t, spot, PageRead(page))
            && Enabled(At(s, t, spot, PageRead(page)), Commit(t, true))
            && OnlyAnswers(s, Next(At(s, t, spot, PageRead(page)), Commit(t, true)), t, Paged(page))
  {
    hide Inv, AllPresentable, ReadPage, Locate, Picked;
    var page := PageOf(s, s.txs[t].request);
    MessageRuns.PageRowsPresentable(s, s.txs[t].request);
    assert At(s, t, spot, Located(spot)).txs[t := Tx(s.txs[t].request, PageRead(page))]
        == At(s, t, spot, PageRead(page)).txs;
    EndedAlike(s, t, spot, PageRead(page), Paged(page));
  }
}
