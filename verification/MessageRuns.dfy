/** What concurrent saves and synchronisations guarantee over whole runs. */
module MessageRuns {
  import opened Wrappers
  import opened Identifiers
  import opened Decimal
  import opened ByteOrder
  import opened Paging
  import opened MessageTable
  import P = PushTasks

  // ----- exactly-once saving -----

  /**
   Whatever happened in between, all successful saves of one sender and client id were answered with the same message
   and the same recipients, and the message is what every one of those requests asked for: its sender, its destination,
   its content and its origin.
   */
  lemma SavedOnce(authority: Authority, events: seq<Event>, i: nat, j: nat)
    requires var answers := After(Initial(authority), events).answers;
             && i < |answers| && j < |answers| && answers[i].reply.Saved? && answers[j].reply.Saved?
             && answers[i].request.user == answers[j].request.user
             && !answers[i].request.Sync? && !answers[j].request.Sync?
             && answers[i].request.clientId == answers[j].request.clientId
    ensures var answers := After(Initial(authority), events).answers;
            && answers[i].reply.message == answers[j].reply.message
            && answers[i].reply.recipients == answers[j].reply.recipients
            && Carries(answers[i].reply.message, answers[i].request)
            && Carries(answers[i].reply.message, answers[j].request)
  {
    hide View, Sane;
    InvAlways(authority, events);
    var s := After(Initial(authority), events);
    var a, b := s.answers[i], s.answers[j];
    assert AnswerOk(s.rows, a) && AnswerOk(s.rows, b);
    var k :| k in s.rows && Serves(s.rows[k], a.request) && View(s.rows[k]) == a.reply.message
        && s.rows[k].recipients == a.reply.recipients;
    var l :| l in s.rows && Serves(s.rows[l], b.request) && View(s.rows[l]) == b.reply.message
        && s.rows[l].recipients == b.reply.recipients;
    ViewShows(s.rows[k], a.request);
    ViewShows(s.rows[l], b.request);
  }

  /** The message is the request's own. */
  predicate Carries(m: P.Message, r: Request)
    requires !r.Sync?
  {
    && m.sendId == r.user && m.content == r.content && m.origin == (if r.SaveAI? then "ai" else "user")
    && (r.Save? ==> m.receiveId == r.receiver && m.receiveType == if r.group then "group" else "user")
  }

  lemma ViewShows(row: Row, r: Request)
    requires Serves(row, r)
    ensures !r.Sync? && Carries(View(row), r) && View(row).sessionId == row.session
  {
    hide ValidUuid;
  }

  /**
   The look-up under the sender's lock decides: a stored row of the pair is returned exactly if the fingerprints agree
   and refused as a conflict otherwise, an insertion follows only if there is none, and the table is left alone.
   */
  lemma FindDecides(s: State, t: nat, id: nat)
    requires Inv(s) && Enabled(s, Find(t, id))
    ensures var r, spot, n := s.txs[t].request, s.txs[t].stage.spot, Next(s, Find(t, id));
            && n.rows == s.rows
            && (NoMatch(s.rows, r) <==> t in n.txs && n.txs[t].stage == Absent(spot))
            && (forall k | k in s.rows && Matches(s.rows[k], r) ::
                  if s.rows[k].fingerprint == FingerprintOf(r, spot)
                  then t in n.txs && n.txs[t].stage == Found(s.rows[k])
                  else t !in n.txs && n.answers == s.answers + [Answer(r, Failed(Conflict))])
  {
    hide Presentable, ValidSnapshot, FingerprintOf, AnswerOk, TxOk, Apart;
    var r := s.txs[t].request;
    forall k | k in s.rows && Matches(s.rows[k], r) ensures k == id {
      assert RowsOk(s.rows, s.lastId);
    }
    if id in s.rows {
      assert Sane(s.rows[id]);
    }
  }

  // ----- nothing is stored behind a page already read -----

  /** No row of the conversation up to `p` is still on its way. */
  predicate Settled(s: State, session: string, p: nat) {
    && p <= s.lastId
    && forall t | t in s.txs && s.txs[t].stage.Inserted? && s.txs[t].stage.row.session == session ::
         p < s.txs[t].stage.row.id
  }

  /** Whoever holds the conversation's lock and inserts nothing sees every position up to the last id settled. */
  lemma LockSettles(s: State, t: nat, session: string, p: nat)
    requires Inv(s) && t in s.txs && !s.txs[t].stage.Inserted? && Holds(s, t, ConversationLock(session))
               && p <= s.lastId
    ensures Settled(s, session, p)
  {
    hide RowsOk, AnswerOk, Apart, TxOk;
    forall u | u in s.txs && s.txs[u].stage.Inserted? ensures s.txs[u].stage.row.session != session {
      InsertionFacts(s, u);
    }
  }

  lemma ReaderSettles(s: State, t: nat, p: nat)
    requires Inv(s) && Enabled(s, ReadRows(t)) && p <= s.lastId
    ensures Settled(s, s.txs[t].request.session, p)
  {
    hide RowsOk, AnswerOk, Apart, Settled;
    assert TxOk(s, t);
    LockSettles(s, t, s.txs[t].request.session, p);
  }

  /** Insertions under way after a step were so before it, except one that has just taken the next id. */
  predicate Traced(s: State, n: State) {
    && s.lastId <= n.lastId
    && forall t | t in n.txs && n.txs[t].stage.Inserted? ::
         (t in s.txs && n.txs[t] == s.txs[t]) || n.txs[t].stage.row.id == s.lastId + 1
  }

  lemma StepTraced(s: State, e: Event)
    requires Enabled(s, e)
    ensures Traced(s, Next(s, e))
    ensures !e.Commit? ==> Next(s, e).rows == s.rows
  {
    hide Presentable, Locate, ValidRequest, FingerprintOf, PageOf, ReplyOf, ValidSnapshot, Picked, AllPresentable,
      AllUsers, Matches, UuidUnused, ValidId;
  }

  lemma SettledStep(s: State, e: Event, session: string, p: nat)
    requires Inv(s) && Enabled(s, e) && Settled(s, session, p)
    ensures Settled(Next(s, e), session, p)
    ensures SameBehind(s.rows, Next(s, e).rows, session, p)
  {
    hide Inv, Next, ReplyOf;
    StepTraced(s, e);
    if e.Commit? {
      CommittedRow(s, e.t, e.known);
    }
  }

  /** A commit adds at most the row of its own insertion, under an id not in use. */
  lemma CommittedRow(s: State, t: nat, known: bool)
    requires Inv(s) && Enabled(s, Commit(t, known))
    ensures var stage, n := s.txs[t].stage, Next(s, Commit(t, known));
            if stage.Inserted? then stage.row.id !in s.rows && n.rows == s.rows[stage.row.id := stage.row]
            else n.rows == s.rows
  {
    hide RowsOk, AnswerOk, Apart, ReplyOf, Sane, Serves, ValidRequest;
    assert TxOk(s, t);
  }

  lemma SameBehindTransitive(a: map<nat, Row>, b: map<nat, Row>, c: map<nat, Row>, session: string, p: nat)
    requires SameBehind(a, b, session, p) && SameBehind(b, c, session, p)
    ensures SameBehind(a, c, session, p)
  {
  }

  lemma {:induction false} SettledForever(s: State, events: seq<Event>, session: string, p: nat)
    requires Inv(s) && Settled(s, session, p)
    ensures Settled(After(s, events), session, p)
    ensures SameBehind(s.rows, After(s, events).rows, session, p)
  {
    if events != [] {
      var n := |events| - 1;
      SettledForever(s, events[..n], session, p);
      InvAfter(s, events[..n]);
      var before := After(s, events[..n]);
      if Enabled(before, events[n]) {
        SettledStep(before, events[n], session, p);
        SameBehindTransitive(s.rows, before.rows, After(s, events).rows, session, p);
      }
    }
  }

  lemma {:induction false} AfterConcat(s: State, first: seq<Event>, rest: seq<Event>)
    ensures After(s, first + rest) == After(After(s, first), rest)
    decreases |rest|
  {
    if rest == [] {
      assert first + rest == first;
    } else {
      var n := |rest| - 1;
      AfterConcat(s, first, rest[..n]);
      assert (first + rest)[..|first + rest| - 1] == first + rest[..n];
    }
  }

  lemma SettledLater(s0: State, events: seq<Event>, k: nat, later: nat, session: string, p: nat)
    requires k <= later <= |events| && Inv(After(s0, events[..k])) && Settled(After(s0, events[..k]), session, p)
    ensures SameBehind(After(s0, events[..k]).rows, After(s0, events[..later]).rows, session, p)
  {
    hide Inv, Settled, SameBehind, After;
    SettledForever(After(s0, events[..k]), events[k..later], session, p);
    AfterConcat(s0, events[..k], events[k..later]);
    assert events[..k] + events[k..later] == events[..later];
  }

  /** Event `k` of the run reads a page for a synchronisation request. */
  predicate ReadsPage(s: State, events: seq<Event>, k: nat, session: string, after: nat, limit: nat) {
    && k < |events| && events[k].ReadRows?
    && var before := After(s, events[..k]);
    && Enabled(before, events[k])
    && var r := before.txs[events[k].t].request;
    && r.Sync? && r.session == session && r.after == after && r.limit == limit
  }

  /**
   The cursor a page carries is safe for ever, provided the request's own cursor pointed at no id not yet handed out:
   no row of the conversation that becomes visible later lies at or before it.
   */
  lemma NothingLostBehindPage(authority: Authority, events: seq<Event>, k: nat, session: string, after: nat, limit: nat,
                              later: nat)
    requires ReadsPage(Initial(authority), events, k, session, after, limit) && k <= later <= |events|
    requires after <= After(Initial(authority), events[..k]).lastId
    ensures var s := After(Initial(authority), events[..k]);
            var position := ReadPage(s.rows, session, after, s.lastId, Bound(limit)).position;
            && position <= s.lastId
            && SameBehind(s.rows, After(Initial(authority), events[..later]).rows, session, position)
  {
    var s0 := Initial(authority);
    var s := After(s0, events[..k]);
    hide Inv, Settled, SameBehind, After, Keyed, Initial, Collect, ReadPage, Next, Enabled;
    InvAlways(authority, events[..k]);
    KeyedRows(s);
    PageIsRange(s.rows, session, after, s.lastId, Bound(limit));
    var position := ReadPage(s.rows, session, after, s.lastId, Bound(limit)).position;
    ReaderSettles(s, events[k].t, position);
    SettledLater(s0, events, k, later, session, position);
  }

  lemma KeyedRows(s: State)
    requires Inv(s)
    ensures Keyed(s.rows)
  {
    assert RowsOk(s.rows, s.lastId);
  }

  // ----- a client following cursors -----

  /** One page the client fetched: the event that read it, and the limit it asked for. */
  datatype Fetch = Fetch(at: nat, limit: nat)

  function VisitOf(s: State, events: seq<Event>, fetch: Fetch): Visit
    requires fetch.at <= |events|
  {
    var before := After(s, events[..fetch.at]);
    Visit(before.rows, before.lastId, Bound(fetch.limit))
  }

  function Visits(s: State, events: seq<Event>, fetches: seq<Fetch>): (visits: seq<Visit>)
    requires forall f | f in fetches :: f.at <= |events|
    ensures |visits| == |fetches| && forall v | v in visits :: v.limit > 0
  {
    seq(|fetches|, i requires 0 <= i < |fetches| => VisitOf(s, events, fetches[i]))
  }

  /** The client starts without a cursor and asks each time with the cursor of the page before. */
  predicate FollowsCursors(s: State, events: seq<Event>, session: string, fetches: seq<Fetch>) {
    && (forall f | f in fetches :: f.at < |events|)
    && (forall i, j | 0 <= i < j < |fetches| :: fetches[i].at < fetches[j].at)
    && forall i | 0 <= i < |fetches| ::
         ReadsPage(s, events, fetches[i].at, session, Position(Visits(s, events, fetches)[..i], session),
                   fetches[i].limit)
  }

  lemma {:induction false} PositionsTaken(authority: Authority, events: seq<Event>, session: string,
                                          fetches: seq<Fetch>, i: nat)
    requires FollowsCursors(Initial(authority), events, session, fetches) && i <= |fetches|
    ensures i < |fetches| ==>
              Position(Visits(Initial(authority), events, fetches)[..i], session)
              <= After(Initial(authority), events[..fetches[i].at]).lastId
    ensures forall k | 0 <= k < |fetches| && i == k + 1 ::
              var visits := Visits(Initial(authority), events, fetches);
              && Position(visits[..i], session) <= visits[k].top
              && (i < |fetches| ==>
                    SameBehind(visits[k].table, visits[i].table, session, Position(visits[..i], session)))
  {
    hide ReadsPage, SameBehind, ReadPage, After, Initial;
    var s := Initial(authority);
    if i > 0 {
      var k := i - 1;
      PositionsTaken(authority, events, session, fetches, k);
      var visits := Visits(s, events, fetches);
      assert visits[..i][..k] == visits[..k];
      var after := Position(visits[..k], session);
      NothingLostBehindPage(authority, events, fetches[k].at, session, after, fetches[k].limit,
                            if i < |fetches| then fetches[i].at else fetches[k].at);
      if i < |fetches| {
        LastIdGrows(s, events, fetches[k].at, fetches[i].at);
      }
    }
  }

  lemma {:induction false} LastIdGrows(s: State, events: seq<Event>, j: nat, k: nat)
    requires j <= k <= |events|
    ensures After(s, events[..j]).lastId <= After(s, events[..k]).lastId
    decreases k
  {
    if j < k {
      LastIdGrows(s, events, j, k - 1);
      assert events[..k][..k - 1] == events[..k - 1];
      var before := After(s, events[..k - 1]);
      if Enabled(before, events[k - 1]) {
        StepTraced(before, events[k - 1]);
      }
    }
  }

  /**
   Whatever else runs in between, with whatever limits the client asks, its pages together show every row of the
   conversation up to its cursor, each once and in id order; after a page that says there is no more, every row there
   was.
   */
  lemma FollowingShowsEverything(authority: Authority, events: seq<Event>, session: string, fetches: seq<Fetch>)
    requires FollowsCursors(Initial(authority), events, session, fetches) && fetches != []
    ensures var visits := Visits(Initial(authority), events, fetches);
            var last := visits[|visits| - 1];
            var before := Position(visits[..|visits| - 1], session);
            && Shown(visits, session) == Collect(last.table, session, 0, Position(visits, session))
            && (!ReadPage(last.table, session, before, last.top, last.limit).hasMore ==>
                  Shown(visits, session) == Collect(last.table, session, 0, last.top))
  {
    var s := Initial(authority);
    var visits := Visits(s, events, fetches);
    forall v | v in visits ensures Keyed(v.table) {
      var i :| 0 <= i < |visits| && visits[i] == v;
      InvAlways(authority, events[..fetches[i].at]);
      KeyedRows(After(s, events[..fetches[i].at]));
    }
    forall k, n | 0 <= k < |visits| && n == k + 1 < |visits|
      ensures SameBehind(visits[k].table, visits[n].table, session, Position(visits[..n], session))
    {
      PositionsTaken(authority, events, session, fetches, n);
    }
    PositionsTaken(authority, events, session, fetches, |fetches| - 1);
    PagesShowEverything(visits, session);
  }

  /**
   In particular every save acknowledged for the conversation before that last page was read is among the rows shown.
   */
  lemma AcknowledgedIsShown(authority: Authority, events: seq<Event>, session: string, fetches: seq<Fetch>, i: nat)
    requires FollowsCursors(Initial(authority), events, session, fetches) && fetches != []
    requires var visits := Visits(Initial(authority), events, fetches);
             var last := visits[|visits| - 1];
             !ReadPage(last.table, session, Position(visits[..|visits| - 1], session), last.top, last.limit).hasMore
    requires var answers := After(Initial(authority), events[..fetches[|fetches| - 1].at]).answers;
             i < |answers| && answers[i].reply.Saved? && answers[i].reply.message.sessionId == session
    ensures var message := After(Initial(authority), events[..fetches[|fetches| - 1].at]).answers[i].reply.message;
            exists row :: row in Shown(Visits(Initial(authority), events, fetches), session) && View(row) == message
  {
    FetchesInRun(Initial(authority), events, session, fetches);
    hide FollowsCursors, View, Serves, ReadPage, Position, Shown, Sane;
    FollowingShowsEverything(authority, events, session, fetches);
    var visits := Visits(Initial(authority), events, fetches);
    var at := fetches[|fetches| - 1].at;
    assert fetches[|fetches| - 1] in fetches;
    var s := After(Initial(authority), events[..at]);
    InvAlways(authority, events[..at]);
    assert AnswerOk(s.rows, s.answers[i]);
    var k :| k in s.rows && Serves(s.rows[k], s.answers[i].request) && View(s.rows[k]) == s.answers[i].reply.message;
    ViewShows(s.rows[k], s.answers[i].request);
    KeyedRows(s);
    assert visits[|visits| - 1].table == s.rows;
    CollectComplete(s.rows, session, 0, s.lastId);
    assert k <= s.lastId && k > 0 by {
      RowIdInRange(s, k);
    }
    assert s.rows[k] in Shown(visits, session);
  }

  lemma FetchesInRun(s: State, events: seq<Event>, session: string, fetches: seq<Fetch>)
    requires FollowsCursors(s, events, session, fetches)
    ensures forall f | f in fetches :: f.at < |events|
  {
  }

  lemma RowIdInRange(s: State, k: nat)
    requires Inv(s) && k in s.rows
    ensures 0 < k <= s.lastId && s.rows[k].id == k && Presentable(s.rows[k])
  {
    assert RowsOk(s.rows, s.lastId);
    assert Sane(s.rows[k]);
  }

  lemma PageRowsPresentable(s: State, r: Request)
    requires Inv(s) && r.Sync?
    ensures AllPresentable(PageOf(s, r).rows)
  {
    hide Inv, Presentable, Keyed;
    var page := PageOf(s, r);
    KeyedRows(s);
    CollectSound(s.rows, r.session, r.after, s.lastId);
    var found := Collect(s.rows, r.session, r.after, s.lastId);
    forall row | row in page.rows ensures Presentable(row) {
      var i :| 0 <= i < |page.rows| && page.rows[i] == row;
      assert found[i] == row && Belongs(found[i], s.rows, r.session, r.after, s.lastId);
      RowIdInRange(s, row.id);
    }
  }

  /** A page of stored rows can always be shown: the check made on each row never fails one that a save wrote. */
  lemma PageAlwaysShown(s: State, t: nat, r: Request)
    requires t in s.txs && s.txs[t].request == r && r.Sync? && Enabled(s, ReadRows(t))
    requires Inv(s)
    ensures Next(s, ReadRows(t)) == Advance(s, t, PageRead(PageOf(s, r)))
  {
    hide Inv, AllPresentable, PageOf, Advance;
    PageRowsPresentable(s, r);
  }

  // ----- what the push side may rely on -----

  /** A message and its recipients as Job's decoder wants them, whatever the number of recipients. */
  predicate Deliverable(message: P.Message, recipients: seq<string>) {
    && P.ValidMessage(message)
    && recipients != [] && Ascending(recipients)
    && forall id | id in recipients :: P.ValidRecipient(message, id)
  }

  lemma SaneIsDeliverable(row: Row)
    requires Sane(row)
    ensures Deliverable(View(row), row.recipients)
  {
    hide ValidUuid, Less;
    ParseFormat(row.id);
  }

  /** Every acknowledged save, first or repeated, hands the push side a deliverable message. */
  lemma SavedIsDeliverable(authority: Authority, events: seq<Event>, i: nat)
    requires var answers := After(Initial(authority), events).answers;
             i < |answers| && answers[i].reply.Saved?
    ensures var reply := After(Initial(authority), events).answers[i].reply;
            Deliverable(reply.message, reply.recipients)
  {
    hide View, Serves, Sane, Deliverable;
    InvAlways(authority, events);
    var s := After(Initial(authority), events);
    assert AnswerOk(s.rows, s.answers[i]);
    var k :| k in s.rows && View(s.rows[k]) == s.answers[i].reply.message
        && s.rows[k].recipients == s.answers[i].reply.recipients;
    assert RowsOk(s.rows, s.lastId);
    SaneIsDeliverable(s.rows[k]);
  }

  // ----- exactly which cursors are safe -----

  ghost predicate SafeForever(s: State, session: string, p: nat) {
    forall events: seq<Event> :: SameBehind(s.rows, After(s, events).rows, session, p)
  }

  /** Two users, a client id and a message id nobody has used: enough for one more save. */
  datatype Spare = Spare(user: string, peer: string, clientId: string, uuid: string)

  predicate Unused(s: State, spare: Spare) {
    && ValidId(spare.user, 'U') && ValidId(spare.peer, 'U') && spare.user != spare.peer
    && ValidUuid(spare.clientId) && ValidId(spare.uuid, 'M')
    && (forall k | k in s.rows :: s.rows[k].uuid != spare.uuid && s.rows[k].clientId != spare.clientId)
  }

  function OpenTo(session: string, spare: Spare): Authority {
    Authority({spare.user, spare.peer}, map[session := Direct(spare.user, spare.peer)],
              map[session := Group(true, Some([spare.user, spare.peer]))], {})
  }

  function OnePost(session: string, spare: Spare): Request {
    var group := ValidId(session, 'G');
    Save(spare.user, spare.clientId, group, if group then session else spare.peer, "x")
  }

  /** One save from beginning to end, once every transaction under way has been lost. */
  function SaveRun(auth: Authority, r: Request, sid: string, uuid: string): seq<Event> {
    [Crash, Change(auth), Begin(0, r), LockUser(0), LockConversation(0, sid), CheckUsers(0), Find(0, 0),
     Insert(0, uuid, 0),
     Commit(0, true)]
  }

  predicate Chain(states: seq<State>, events: seq<Event>) {
    && |states| == |events| + 1
    && forall i | 0 <= i < |events| :: Enabled(states[i], events[i]) && states[i + 1] == Next(states[i], events[i])
  }

  lemma {:induction false} AfterChain(states: seq<State>, events: seq<Event>)
    requires Chain(states, events)
    ensures After(states[0], events) == states[|events|]
    decreases |events|
  {
    hide Enabled, Next;
    if events != [] {
      var n := |events| - 1;
      AfterChain(states[..n + 1], events[..n]);
      assert Enabled(states[n], events[n]);
    }
  }

  lemma PostAllowed(session: string, spare: Spare)
    requires ValidId(spare.user, 'U') && ValidId(spare.peer, 'U') && spare.user != spare.peer
               && ValidUuid(spare.clientId)
    requires ValidId(session, 'S') || ValidId(session, 'G')
    ensures var r := OnePost(session, spare);
            var place := Locate(OpenTo(session, spare), r, session);
            && ValidRequest(r) && Picked(OpenTo(session, spare), r, session)
            && place.Place? && place.spot.session == session && SpotOk(r, place.spot)
            && AllUsers(OpenTo(session, spare), place.spot.recipients)
  {
    hide ValidUuid, SpotOk, AllUsers, ValidSnapshot;
    var r, auth := OnePost(session, spare), OpenTo(session, spare);
    assert Locate(auth, r, session).Place?;
    LocateOk(auth, r, session);
    PairUsers(auth, spare.user, spare.peer);
  }

  lemma PairUsers(auth: Authority, a: string, b: string)
    requires auth.users == {a, b}
    ensures AllUsers(auth, SortedSet([a, b]))
  {
    SortedSetShape([a, b]);
  }

  /** Once everything under way is lost, a new request reaches the lock of its user. */
  lemma PostBegins(s: State, r: Request)
    requires s.txs == map[] && s.locks == map[] && ValidRequest(r) && r.user in s.authority.users
    ensures After(s, [Begin(0, r), LockUser(0)]) ==
              s.(locks := map[UserLock(r.user) := 0], txs := map[0 := Tx(r, UserLocked)])
  {
    hide ValidRequest, Locate, Picked, Presentable, PageOf, NewRow, UuidUnused;
    var begun := Next(s, Begin(0, r));
    AfterChain([s, begun, Next(begun, LockUser(0))], [Begin(0, r), LockUser(0)]);
  }

  lemma Restart(s: State, auth: Authority)
    ensures After(s, [Crash, Change(auth)]) == State(s.rows, s.lastId, map[], map[], auth, s.answers)
  {
    hide ValidRequest, Locate, Picked, Presentable, PageOf, NewRow, UuidUnused;
    AfterChain([s, Next(s, Crash), Next(Next(s, Crash), Change(auth))], [Crash, Change(auth)]);
  }

  /** From there it finds its place and no earlier row. */
  lemma PostLocates(s: State, r: Request, sid: string)
    requires s.txs == map[0 := Tx(r, UserLocked)] && s.locks == map[UserLock(r.user) := 0]
    requires !r.Sync? && Picked(s.authority, r, sid) && Locate(s.authority, r, sid).Place?
    requires AllUsers(s.authority, Locate(s.authority, r, sid).spot.recipients)
    requires NoMatch(s.rows, r)
    ensures var n := After(s, [LockConversation(0, sid), CheckUsers(0), Find(0, 0)]);
            && n.rows == s.rows && n.lastId == s.lastId
            && n.txs == map[0 := Tx(r, Absent(Locate(s.authority, r, sid).spot))]
  {
    hide Picked, Locate, Matches, AllUsers;
    var located := Next(s, LockConversation(0, sid));
    var known := Next(located, CheckUsers(0));
    AfterChain([s, located, known, Next(known, Find(0, 0))], [LockConversation(0, sid), CheckUsers(0), Find(0, 0)]);
  }

  /** And its insertion takes the next id. */
  lemma PostStores(s: State, r: Request, spot: Spot, uuid: string)
    requires s.txs == map[0 := Tx(r, Absent(spot))] && !r.Sync? && s.lastId < MAX_INT64
    requires ValidId(uuid, 'M') && (forall k | k in s.rows :: s.rows[k].uuid != uuid)
               && Presentable(NewRow(s, r, spot, uuid, 0))
    ensures After(s, [Insert(0, uuid, 0), Commit(0, true)]).rows == s.rows[s.lastId + 1 := NewRow(s, r, spot, uuid, 0)]
  {
    hide Presentable, View, ValidId;
    var inserted := Next(s, Insert(0, uuid, 0));
    AfterChain([s, inserted, Next(inserted, Commit(0, true))], [Insert(0, uuid, 0), Commit(0, true)]);
  }

  lemma PostPresentable(s: State, r: Request, spot: Spot, uuid: string)
    requires ValidRequest(r) && !r.Sync? && SpotOk(r, spot) && ValidId(uuid, 'M') && s.lastId < MAX_INT64
    ensures Presentable(NewRow(s, r, spot, uuid, 0))
  {
    hide ValidUuid;
  }

  /** A save that authority allows gets the next id, in its conversation. */
  lemma SaveRunLands(s: State, auth: Authority, r: Request, sid: string, uuid: string)
    requires ValidRequest(r) && !r.Sync? && r.user in auth.users && NoMatch(s.rows, r) && s.lastId < MAX_INT64
    requires Picked(auth, r, sid) && Locate(auth, r, sid).Place?
    requires AllUsers(auth, Locate(auth, r, sid).spot.recipients)
    requires ValidId(uuid, 'M') && forall k | k in s.rows :: s.rows[k].uuid != uuid
    ensures var rows := After(s, SaveRun(auth, r, sid, uuid)).rows;
            s.lastId + 1 in rows && rows[s.lastId + 1].session == Locate(auth, r, sid).spot.session
  {
    hide ValidId, Locate, Presentable, ValidRequest, NoMatch, SpotOk, Picked, After, AllUsers;
    LocateOk(auth, r, sid);
    var restart, begin, find, store := [Crash, Change(auth)], [Begin(0, r), LockUser(0)],
                                       [LockConversation(0, sid), CheckUsers(0), Find(0, 0)],
                                       [Insert(0, uuid, 0), Commit(0, true)];
    Restart(s, auth);
    var idle := After(s, restart);
    PostBegins(idle, r);
    var locked := After(idle, begin);
    PostLocates(locked, r, sid);
    var absent := After(locked, find);
    var spot := Locate(auth, r, sid).spot;
    PostPresentable(absent, r, spot, uuid);
    PostStores(absent, r, spot, uuid);
    AfterConcat(s, restart, begin);
    AfterConcat(s, restart + begin, find);
    AfterConcat(s, restart + begin + find, store);
    assert restart + begin + find + store == SaveRun(auth, r, sid, uuid);
  }

  lemma OneSaveLands(s: State, session: string, spare: Spare)
    requires Unused(s, spare) && (ValidId(session, 'S') || ValidId(session, 'G')) && s.lastId < MAX_INT64
    ensures exists events :: var rows := After(s, events).rows;
                             s.lastId + 1 in rows && rows[s.lastId + 1].session == session
  {
    var r, auth := OnePost(session, spare), OpenTo(session, spare);
    PostAllowed(session, spare);
    assert NoMatch(s.rows, r);
    hide ValidId, Locate, ValidRequest, NoMatch, SpotOk, Picked, After, SaveRun, AllUsers;
    SaveRunLands(s, auth, r, session, spare.uuid);
  }

  /**
   A page's cursor can never miss a row exactly if the request's cursor named no id beyond the last one handed out. A
   cursor made up by the client that points further lets the very next message slip behind it.
   */
  lemma CursorSafeIff(s: State, t: nat, spare: Spare)
    requires Inv(s) && Enabled(s, ReadRows(t)) && Unused(s, spare)
    requires s.txs[t].request.after <= MAX_INT64
    ensures var r := s.txs[t].request;
            SafeForever(s, r.session, PageOf(s, r).position) <==> r.after <= s.lastId
  {
    hide RowsOk, AnswerOk, Apart, Unused, ValidUuid;
    var r := s.txs[t].request;
    assert ValidId(r.session, if r.group then 'G' else 'S') by {
      assert TxOk(s, t);
    }
    KeyedRows(s);
    PageIsRange(s.rows, r.session, r.after, s.lastId, Bound(r.limit));
    var p := PageOf(s, r).position;
    if r.after <= s.lastId {
      ReaderSettles(s, t, p);
      forall events: seq<Event> ensures SameBehind(s.rows, After(s, events).rows, r.session, p) {
        SettledForever(s, events, r.session, p);
      }
    } else {
      OneSaveLands(s, r.session, spare);
      var events: seq<Event> :| s.lastId + 1 in After(s, events).rows
          && After(s, events).rows[s.lastId + 1].session == r.session;
      if s.lastId + 1 in s.rows {
        RowIdInRange(s, s.lastId + 1);
      }
      assert !SameBehind(s.rows, After(s, events).rows, r.session, p);
    }
  }
}
