/** Who may save and synchronise: each gate of a transaction, exactly, and what a page handed out shows about it. */
module MessageAuthority {
  import opened Wrappers
  import opened Identifiers
  import opened ByteOrder
  import opened Paging
  import opened MessageTable
  import opened MessageAudience

  // ----- what the other services' records say -----

  predicate GroupOpen(auth: Authority, group: string) {
    group in auth.groups && auth.groups[group].normal
  }

  /** The member list is readable: there is somebody, and everybody is a user id. */
  predicate MembersSound(auth: Authority, group: string)
    requires group in auth.groups
  {
    && auth.groups[group].members.Some? && auth.groups[group].members.value != []
    && forall m | m in auth.groups[group].members.value :: ValidId(m, 'U')
  }

  predicate InGroup(auth: Authority, user: string, group: string) {
    GroupOpen(auth, group) && MembersSound(auth, group) && user in auth.groups[group].members.value
  }

  predicate SessionSound(auth: Authority, session: string)
    requires session in auth.directs
  {
    var d := auth.directs[session];
    ValidId(session, 'S') && ValidId(d.first, 'U') && ValidId(d.second, 'U') && d.first != d.second
  }

  predicate OneEnd(auth: Authority, user: string, session: string)
    requires session in auth.directs
  {
    user == auth.directs[session].first || user == auth.directs[session].second
  }

  predicate InSession(auth: Authority, user: string, session: string) {
    session in auth.directs && SessionSound(auth, session) && OneEnd(auth, user, session)
  }

  /** The session joins exactly these two. */
  predicate Joins(auth: Authority, session: string, a: string, b: string) {
    && session in auth.directs
    && ((auth.directs[session].first == a && auth.directs[session].second == b)
        || (auth.directs[session].first == b && auth.directs[session].second == a))
  }

  // ----- the gates -----

  /** The transaction is over, its caller hears the error, and nothing else is different. */
  predicate Refused(s: State, n: State, t: nat, error: Error)
    requires t in s.txs
  {
    && n.txs == s.txs - {t} && n.rows == s.rows && n.lastId == s.lastId && n.authority == s.authority
    && |n.answers| == |s.answers| + 1 && s.answers <= n.answers
    && n.answers[|s.answers|] == Answer(s.txs[t].request, Failed(error))
  }

  /** The transaction goes on, and holds the lock of the conversation. */
  predicate Admitted(s: State, n: State, t: nat, session: string)
    requires t in s.txs
  {
    && t in n.txs && n.txs[t].request == s.txs[t].request && n.txs[t].stage.Located?
    && n.txs[t].stage.spot.session == session && Holds(n, t, ConversationLock(session))
    && n.rows == s.rows && n.lastId == s.lastId && n.answers == s.answers
  }

  /** A user that exists gets its own lock; any other is refused. */
  lemma UserGate(s: State, t: nat)
    requires Enabled(s, LockUser(t))
    ensures var n, user := Next(s, LockUser(t)), s.txs[t].request.user;
            if user in s.authority.users
            then t in n.txs && n.txs[t].stage == UserLocked && Holds(n, t, UserLock(user)) && n.answers == s.answers
            else Refused(s, n, t, Forbidden)
  {
  }

  /** A group is written to and read by its members while it is open. */
  lemma GroupGate(s: State, t: nat, sid: string, group: string)
    requires Enabled(s, LockConversation(t, sid))
    requires var r := s.txs[t].request;
             (r.Save? && r.group && r.receiver == group) || (r.Sync? && r.group && r.session == group)
    ensures var n, user := Next(s, LockConversation(t, sid)), s.txs[t].request.user;
            && (Admitted(s, n, t, group) <==> InGroup(s.authority, user, group))
            && (Refused(s, n, t, Forbidden) <==>
                  || !GroupOpen(s.authority, group)
                  || (MembersSound(s.authority, group) && !InGroup(s.authority, user, group)))
            && (Refused(s, n, t, Database) <==> GroupOpen(s.authority, group) && !MembersSound(s.authority, group))
  {
    hide ValidId, SortedSet, Picked;
  }

  /** A direct session is read by its two ends. */
  lemma SessionGate(s: State, t: nat, sid: string)
    requires Enabled(s, LockConversation(t, sid)) && s.txs[t].request.Sync? && !s.txs[t].request.group
    ensures var n, r := Next(s, LockConversation(t, sid)), s.txs[t].request;
            && (Admitted(s, n, t, r.session) <==> InSession(s.authority, r.user, r.session))
            && (Refused(s, n, t, Forbidden) <==>
                  || r.session !in s.authority.directs
                  || (SessionSound(s.authority, r.session) && !OneEnd(s.authority, r.user, r.session)))
            && (Refused(s, n, t, Database) <==>
                  r.session in s.authority.directs && !SessionSound(s.authority, r.session))
  {
    hide ValidId, SortedSet;
  }

  /** A direct message needs a session of the two, and a sound one. */
  lemma PairGate(s: State, t: nat, sid: string)
    requires Enabled(s, LockConversation(t, sid)) && s.txs[t].request.Save? && !s.txs[t].request.group
    ensures var n, r := Next(s, LockConversation(t, sid)), s.txs[t].request;
            && (Refused(s, n, t, Forbidden) <==> forall x :: !Joins(s.authority, x, r.user, r.receiver))
            && (Admitted(s, n, t, sid) <==>
                  Joins(s.authority, sid, r.user, r.receiver) && SessionSound(s.authority, sid))
            && (Refused(s, n, t, Database) <==>
                  Joins(s.authority, sid, r.user, r.receiver) && !SessionSound(s.authority, sid))
  {
    hide ValidId, SortedSet;
    var auth, r := s.authority, s.txs[t].request;
    forall x
      ensures Joins(auth, x, r.user, r.receiver) <==> x in auth.directs && Pairs(auth.directs[x], r.user, r.receiver)
    {
    }
  }

  /** AI text goes to a session its user is an end of and has granted the AI access to. */
  lemma AccessGate(s: State, t: nat, sid: string)
    requires Enabled(s, LockConversation(t, sid)) && s.txs[t].request.SaveAI?
    ensures var n, r := Next(s, LockConversation(t, sid)), s.txs[t].request;
            && (Admitted(s, n, t, r.session) <==>
                  InSession(s.authority, r.user, r.session) && (r.user, r.session) in s.authority.access)
            && (Refused(s, n, t, Database) <==>
                  r.session in s.authority.directs && !SessionSound(s.authority, r.session))
            && (Refused(s, n, t, Forbidden) <==>
                  || r.session !in s.authority.directs
                  || (SessionSound(s.authority, r.session)
                      && !(OneEnd(s.authority, r.user, r.session) && (r.user, r.session) in s.authority.access)))
  {
    hide ValidId, SortedSet;
  }

  /** A message whose recipients do not all exist is refused; otherwise the save goes on with the same place. */
  lemma RecipientsGate(s: State, t: nat)
    requires Enabled(s, CheckUsers(t))
    ensures var n, spot := Next(s, CheckUsers(t)), s.txs[t].stage.spot;
            if forall id | id in spot.recipients :: id in s.authority.users
            then t in n.txs && n.txs[t] == s.txs[t].(stage := UsersKnown(spot)) && n.answers == s.answers
            else Refused(s, n, t, Forbidden)
  {
  }

  // ----- pages -----

  /** The requester may read the conversation. */
  predicate MayRead(auth: Authority, r: Request) {
    r.Sync? && if r.group then InGroup(auth, r.user, r.session) else InSession(auth, r.user, r.session)
  }

  predicate SyncPlaced(s: State, t: nat) {
    t in s.txs && s.txs[t].request.Sync? && (s.txs[t].stage.Located? || s.txs[t].stage.PageRead?)
  }

  /** The page a request reads of these rows: a hundred unless it asks otherwise. */
  function FreshPage(s: State, r: Request): Page
    requires r.Sync?
  {
    ReadPage(s.rows, r.session, r.after, s.lastId, if r.limit == 0 then 100 else r.limit)
  }

  lemma SyncFrom(s: State, e: Event, t: nat)
    requires Enabled(s, e) && SyncPlaced(Next(s, e), t)
    ensures t in s.txs && s.txs[t].request == Next(s, e).txs[t].request
    ensures if SyncPlaced(s, t)
            then
              || Next(s, e).txs[t].stage == s.txs[t].stage
              || (e == ReadRows(t) && Next(s, e).txs[t].stage == PageRead(FreshPage(s, s.txs[t].request)))
            else e.LockConversation? && e.t == t && Next(s, e).txs[t].stage.Located?
  {
    hide Presentable, Locate, ValidRequest, FingerprintOf, ReplyOf, ValidSnapshot, Picked, AllPresentable, AllUsers,
      Matches, UuidUnused, ValidId, ReadPage;
  }

  /** At event `k` the transaction took its conversation's lock, when its user was allowed to read it. */
  ghost predicate ReaderAt(s: State, events: seq<Event>, t: nat, k: nat, r: Request) {
    && k < |events| && events[k].LockConversation? && events[k].t == t && Enabled(After(s, events[..k]), events[k])
    && Throughout(s, events, t, k, r) && MayRead(After(s, events[..k]).authority, r)
  }

  /** At event `m`, after that, it read the page. */
  ghost predicate PageAt(s: State, events: seq<Event>, t: nat, k: nat, m: nat, r: Request, page: Page) {
    && r.Sync? && k < m < |events| && events[m] == ReadRows(t) && page == FreshPage(After(s, events[..m]), r)
  }

  /** What is known of a synchronisation that has come this far. */
  ghost predicate SyncKnown(s: State, events: seq<Event>, t: nat, k: nat, m: nat, r: Request, stage: Stage) {
    ReaderAt(s, events, t, k, r) && (stage.PageRead? ==> PageAt(s, events, t, k, m, r, stage.page))
  }

  lemma SyncKnownLater(s: State, events: seq<Event>, e: Event, t: nat, k: nat, m: nat, r: Request, stage: Stage)
    requires SyncKnown(s, events, t, k, m, r, stage)
    requires t in After(s, events + [e]).txs && After(s, events + [e]).txs[t].request == r
    ensures SyncKnown(s, events + [e], t, k, m, r, stage)
  {
    ThroughoutLater(s, events, e, t, k, r);
    hide After, Enabled, MayRead, Throughout, FreshPage;
    assert (events + [e])[..k] == events[..k];
    if stage.PageRead? {
      assert (events + [e])[..m] == events[..m];
    }
  }

  lemma LocatedMayRead(s: State, t: nat, sid: string)
    requires Enabled(s, LockConversation(t, sid)) && s.txs[t].request.Sync?
    requires t in Next(s, LockConversation(t, sid)).txs
    ensures MayRead(s.authority, s.txs[t].request)
  {
    var r := s.txs[t].request;
    var n := Next(s, LockConversation(t, sid));
    hide Next, Enabled, InGroup, InSession, GroupOpen, MembersSound, SessionSound, OneEnd, Admitted;
    if r.group {
      GroupGate(s, t, sid, r.session);
      assert !Refused(s, n, t, Forbidden) && !Refused(s, n, t, Database);
      GroupParts(s.authority, r.user, r.session);
    } else {
      SessionGate(s, t, sid);
      assert !Refused(s, n, t, Forbidden) && !Refused(s, n, t, Database);
      SessionParts(s.authority, r.user, r.session);
    }
  }

  lemma GroupParts(auth: Authority, user: string, group: string)
    ensures GroupOpen(auth, group) && MembersSound(auth, group) ==> group in auth.groups
    ensures InGroup(auth, user, group) <==>
              GroupOpen(auth, group) && MembersSound(auth, group) && user in auth.groups[group].members.value
  {
  }

  lemma SessionParts(auth: Authority, user: string, session: string)
    ensures InSession(auth, user, session) <==>
              session in auth.directs && SessionSound(auth, session) && OneEnd(auth, user, session)
  {
  }

  lemma {:induction false} SyncHistory(authority: Authority, events: seq<Event>, t: nat)
    requires SyncPlaced(After(Initial(authority), events), t)
    ensures var tx := After(Initial(authority), events).txs[t];
            exists k: nat, m: nat :: SyncKnown(Initial(authority), events, t, k, m, tx.request, tx.stage)
    decreases |events|
  {
    hide Next, Enabled, MayRead, FreshPage, Throughout;
    var s := Initial(authority);
    if events != [] {
      var front, e := events[..|events| - 1], events[|events| - 1];
      assert front + [e] == events;
      var before, tx := After(s, front), After(s, events).txs[t];
      if Enabled(before, e) {
        SyncFrom(before, e, t);
      }
      if SyncPlaced(before, t) {
        SyncHistory(authority, front, t);
        var k: nat, m: nat :| SyncKnown(s, front, t, k, m, tx.request, before.txs[t].stage);
        SyncKnownLater(s, front, e, t, k, m, tx.request, before.txs[t].stage);
        if tx.stage != before.txs[t].stage {
          assert events[..|front|] == front;
          assert SyncKnown(s, events, t, k, |front|, tx.request, tx.stage);
        }
      } else {
        LocatedMayRead(before, t, e.sid);
        ReaderNow(s, front, e, t);
        assert SyncKnown(s, events, t, |front|, 0, tx.request, tx.stage);
      }
    }
  }

  lemma ReaderNow(s: State, events: seq<Event>, e: Event, t: nat)
    requires var before := After(s, events);
             && t in before.txs && e.LockConversation? && e.t == t && Enabled(before, e)
             && MayRead(before.authority, before.txs[t].request)
    requires t in After(s, events + [e]).txs && After(s, events + [e]).txs[t].request == After(s, events).txs[t].request
    ensures ReaderAt(s, events + [e], t, |events|, After(s, events).txs[t].request)
  {
    hide After, Enabled, MayRead;
    var longer := events + [e];
    assert longer[..|events|] == events && longer[..|longer|] == longer;
    forall i | |events| <= i <= |longer|
      ensures t in After(s, longer[..i]).txs && After(s, longer[..i]).txs[t].request == After(s, events).txs[t].request
    {
      assert i == |events| || i == |longer|;
    }
  }

  lemma PagedFrom(s: State, e: Event, i: nat)
    requires Enabled(s, e) && i < |Next(s, e).answers|
    ensures i < |s.answers| ==> Next(s, e).answers[i] == s.answers[i]
    ensures var a := Next(s, e).answers[i];
            i >= |s.answers| && a.reply.Paged? ==>
              && e.Commit? && e.known && e.t in s.txs && a.request == s.txs[e.t].request
              && s.txs[e.t].stage == PageRead(a.reply.page)
  {
    hide Presentable, Locate, ValidRequest, FingerprintOf, PageOf, ValidSnapshot, Picked, AllPresentable, AllUsers,
      Matches, UuidUnused, ValidId, View;
  }

  /** The answer is the commit at event `j` of a reader admitted at `k`, and shows what it read at `m`. */
  ghost predicate HandedOut(s: State, events: seq<Event>, k: nat, m: nat, j: nat, a: Answer) {
    && k < m < j < |events| && events[k].LockConversation? && events[j] == Commit(events[k].t, true) && a.reply.Paged?
    && ReaderAt(s, events[..j], events[k].t, k, a.request)
    && PageAt(s, events[..j], events[k].t, k, m, a.request, a.reply.page)
  }

  lemma HandedOutLater(s: State, events: seq<Event>, e: Event, k: nat, m: nat, j: nat, a: Answer)
    requires HandedOut(s, events, k, m, j, a)
    ensures HandedOut(s, events + [e], k, m, j, a)
  {
    hide ReaderAt, PageAt;
    assert (events + [e])[..j] == events[..j];
  }

  lemma HandedOutNow(authority: Authority, events: seq<Event>, t: nat, page: Page)
    requires var before := After(Initial(authority), events);
             Enabled(before, Commit(t, true)) && before.txs[t].stage == PageRead(page)
    ensures var a := Answer(After(Initial(authority), events).txs[t].request, Paged(page));
            exists k: nat, m: nat :: HandedOut(Initial(authority), events + [Commit(t, true)], k, m, |events|, a)
  {
    hide After, Initial, SyncKnown, ReaderAt, PageAt, Next;
    var s, longer := Initial(authority), events + [Commit(t, true)];
    InvAlways(authority, events);
    PagesAreSyncs(After(s, events), t);
    hide Inv, Enabled;
    SyncHistory(authority, events, t);
    var r := After(s, events).txs[t].request;
    var k: nat, m: nat :| SyncKnown(s, events, t, k, m, r, PageRead(page));
    SyncKnownParts(s, events, t, k, m, r, page);
    assert longer[..|events|] == events && longer[k] == events[k];
    assert HandedOut(s, longer, k, m, |events|, Answer(r, Paged(page)));
  }

  lemma SyncKnownParts(s: State, events: seq<Event>, t: nat, k: nat, m: nat, r: Request, page: Page)
    requires SyncKnown(s, events, t, k, m, r, PageRead(page))
    ensures ReaderAt(s, events, t, k, r) && PageAt(s, events, t, k, m, r, page)
    ensures k < m < |events| && events[k].LockConversation? && events[k].t == t
  {
    hide Throughout, MayRead, FreshPage, Enabled, After;
  }

  lemma PageNeedsSync(s: State, t: nat)
    requires t in s.txs && TxOk(s, t) && s.txs[t].stage.PageRead?
    ensures SyncPlaced(s, t)
  {
    hide ValidRequest;
  }

  lemma PagesAreSyncs(s: State, t: nat)
    requires Inv(s) && t in s.txs && s.txs[t].stage.PageRead?
    ensures SyncPlaced(s, t)
  {
    hide RowsOk, AnswerOk, Apart, TxOk;
    PageNeedsSync(s, t);
  }

  /**
   Every page handed out was read for somebody who was allowed to when that very transaction took the conversation's
   lock, and shows exactly the rows there were when it read them.
   */
  lemma {:induction false} PageAuthorised(authority: Authority, events: seq<Event>, i: nat)
    requires var answers := After(Initial(authority), events).answers; i < |answers| && answers[i].reply.Paged?
    ensures var a := After(Initial(authority), events).answers[i];
            exists k: nat, m: nat, j: nat :: HandedOut(Initial(authority), events, k, m, j, a)
    decreases |events|
  {
    hide HandedOut, Enabled, Next;
    var s := Initial(authority);
    if events != [] {
      var front, e := events[..|events| - 1], events[|events| - 1];
      assert front + [e] == events;
      var before, a := After(s, front), After(s, events).answers[i];
      if Enabled(before, e) {
        PagedFrom(before, e, i);
      }
      if i < |before.answers| {
        PageAuthorised(authority, front, i);
        var k: nat, m: nat, j: nat :| HandedOut(s, front, k, m, j, a);
        HandedOutLater(s, front, e, k, m, j, a);
      } else {
        HandedOutNow(authority, front, e.t, a.reply.page);
      }
    }
  }
}
