/** Where two parts meet: what one of them sends, the other one's own checks accept. */
module Agreement {
  import opened Wrappers
  import opened Identifiers
  import opened Decimal
  import opened ByteOrder
  import opened RouteToken
  import C = CometHub
  import D = DeliveryEngine
  import E = LeaseEffects
  import H = ChatMerge
  import L = LeaseScript
  import M = MessageTable
  import MessageRuns
  import P = PushTasks
  import R = Paging
  import S = SyncCursor

  // ----- Logic's answers and Job's validators -----

  function ReasonCode(reason: L.OfflineReason): int {
    match reason
    case NoRoute => 1
    case RouteExpired => 2
    case InstanceExpired => 3
  }

  /** One lookup result on the wire. */
  function LookupOnWire(r: L.LookupResult): D.LookupItem {
    match r
    case Online(user, route) => D.LookupItem(user, D.HasRoute(Some(route.id), Some(route.auth), Some(route.deadline)))
    case Offline(user, reason) => D.LookupItem(user, D.IsOffline(ReasonCode(reason)))
  }

  function LookupReply(results: seq<L.LookupResult>): seq<Option<D.LookupItem>> {
    seq(|results|, k requires 0 <= k < |results| => Some(LookupOnWire(results[k])))
  }

  /** Job believes every lookup Logic answers, as long as the routes are still good by Job's own clock. */
  lemma LookupBelieved(st: L.Store, ttl: L.Ttl, now: int, ids: seq<string>, clock: int)
    requires E.Working(st, ttl, now) && L.ValidCommand(L.Lookup(ids))
    requires forall user | user in ids && user in st.routes :: clock < st.routes[user].deadline
    ensures var reply := L.Execute(st, ttl, now, L.Lookup(ids)).1;
            reply.Routes? && D.ValidLookups(Some(LookupReply(reply.routes)), ids, clock)
  {
    hide L.Execute, L.ValidCommand, E.Working, E.LookedUp, L.ValidConnection, L.Intact;
    E.LookupEffect(st, ttl, now, ids);
    LookupFacts(st, ttl, now, ids);
    var rs := L.Execute(st, ttl, now, L.Lookup(ids)).1.routes;
    forall k | 0 <= k < |ids| ensures D.ValidLookupItem(Some(LookupOnWire(rs[k])), ids[k], clock) {
      OneBelieved(st, now, ids[k], rs[k], clock);
    }
  }

  lemma LookupFacts(st: L.Store, ttl: L.Ttl, now: int, ids: seq<string>)
    requires E.Working(st, ttl, now) && L.ValidCommand(L.Lookup(ids))
    ensures var reply := L.Execute(st, ttl, now, L.Lookup(ids)).1;
            && reply.Routes? && |reply.routes| == |ids|
            && forall k | 0 <= k < |ids| && reply.routes[k].Online? ::
                 && reply.routes[k].route.id.user == ids[k] && L.ValidConnection(reply.routes[k].route.id)
                 && reply.routes[k].route.deadline <= reply.routes[k].route.auth
  {
    hide L.Execute, L.ValidCommand, L.Intact, L.ValidConnection;
    L.LookupAnswersItsUsers(st, ttl, now, ids);
  }

  lemma OneBelieved(st: L.Store, now: int, user: string, r: L.LookupResult, clock: int)
    requires E.LookedUp(st, now, user, r) && (user in st.routes ==> clock < st.routes[user].deadline)
    requires r.Online? ==>
               r.route.id.user == user && L.ValidConnection(r.route.id) && r.route.deadline <= r.route.auth
    ensures D.ValidLookupItem(Some(LookupOnWire(r)), user, clock)
  {
    hide L.ValidConnection, E.Accepted;
  }

  function ResolutionOnWire(r: L.Resolution): D.ResolveItem {
    match r
    case Available(id, lease) =>
      D.ResolveItem(id, D.HasLease(Some(D.Lease(lease.instance, lease.boot, lease.address, Some(lease.deadline)))))
    case Missing(id, why) => D.ResolveItem(id, D.IsMissing(if why == L.Unregistered then 1 else 2))
  }

  function ResolveReply(results: seq<L.Resolution>): seq<Option<D.ResolveItem>> {
    seq(|results|, k requires 0 <= k < |results| => Some(ResolutionOnWire(results[k])))
  }

  /** Job believes every resolution Logic answers, as long as the leases are still good by Job's own clock. */
  lemma ResolveBelieved(st: L.Store, ttl: L.Ttl, now: int, ids: seq<string>, clock: int)
    requires E.Working(st, ttl, now) && L.ValidCommand(L.Resolve(ids))
    requires forall id | id in ids && id in st.instances :: clock < st.instances[id].deadline
    ensures var reply := L.Execute(st, ttl, now, L.Resolve(ids)).1;
            reply.Comets? && D.ValidResolutions(Some(ResolveReply(reply.comets)), ids, clock)
  {
    E.ResolveEffect(st, ttl, now, ids);
    hide L.Execute, L.ValidCommand, L.ClockInRange, E.ResolvedTo;
    var rs := L.Execute(st, ttl, now, L.Resolve(ids)).1.comets;
    forall k | 0 <= k < |ids| ensures D.ValidResolveItem(Some(ResolutionOnWire(rs[k])), ids[k], clock) {
      ResolutionBelieved(st, ttl, now, ids[k], rs[k], clock);
    }
  }

  lemma ResolutionBelieved(st: L.Store, ttl: L.Ttl, now: int, id: string, r: L.Resolution, clock: int)
    requires L.Intact(st, ttl, now) && E.ResolvedTo(st, now, id, r)
    requires id in st.instances ==> clock < st.instances[id].deadline
    ensures D.ValidResolveItem(Some(ResolutionOnWire(r)), id, clock)
  {
    hide L.LuaRouteRecord;
    if r.Available? {
      LuaUuidIsValidUuid(r.lease.boot);
    }
    hide LuaUuid, ValidUuid, ValidInstance;
  }

  // ----- Comet's answers and Job's validator -----

  function OutcomeCode(o: C.Outcome): int {
    match o
    case Enqueued => 1
    case NotFound => 3
    case Stale => 4
    case QueueFull => 5
    case DrainOver => 6
  }

  function DeliveryReply(taskId: string, messageId: string, targets: seq<L.Tuple>,
                         outcomes: seq<C.Outcome>): D.DeliverReply
    requires |outcomes| == |targets|
  {
    D.DeliverReply(taskId, messageId,
                   seq(|targets|, k requires 0 <= k < |targets| =>
                         Some(D.TargetResult(Some(targets[k]), OutcomeCode(outcomes[k])))))
  }

  /** Job believes every delivery result of a hub, and takes exactly the enqueued ones as settled. */
  lemma DeliveryBelieved(taskId: string, messageId: string, targets: seq<L.Tuple>, outcomes: seq<C.Outcome>)
    requires |outcomes| == |targets|
    ensures var reply := DeliveryReply(taskId, messageId, targets, outcomes);
            && D.ValidDelivery(Some(reply), taskId, messageId, targets)
            && forall k | 0 <= k < |targets| ::
                 D.OutcomeOf(reply.results[k].value.outcome) ==
                   if outcomes[k] == C.Enqueued then D.Enqueued else D.Unresolved
  {
  }

  // ----- Job's deliveries and Comet's validation -----

  lemma {:induction false} DistinctFits(users: seq<string>, within: set<string>)
    requires L.Distinct(users) && forall u | u in users :: u in within
    ensures |users| <= |within|
  {
    if users != [] {
      var last := |users| - 1;
      assert forall i | 0 <= i < last :: users[i] != users[last];
      DistinctFits(users[..last], within - {users[last]});
    }
  }

  lemma {:induction false} SetOfSeq(s: seq<string>)
    ensures |set u | u in s| <= |s|
  {
    if s != [] {
      var last := |s| - 1;
      SetOfSeq(s[..last]);
      assert (set u | u in s) == (set u | u in s[..last]) + {s[last]};
    }
  }

  /** Every route the engine knows is well formed. */
  lemma KnownIsValid(task: P.PushTask, calls: seq<D.Call>, t: L.Tuple)
    requires D.KnownRoute(task, calls, t) && P.ValidTargets(task.recipients, task.targets)
    ensures L.ValidConnection(t)
  {
    hide L.ValidConnection;
    if !(task.pending.None? && t in task.targets) {
      var a, j: nat :| 0 <= a < |calls| && D.RouteAt(calls[a], j, t);
      var c := calls[a];
      assert D.ValidLookupItem(c.found.value.value[j], c.users[j], c.now);
    }
  }

  lemma DecodedTask(raw: P.Payload)
    requires P.Decode(raw).Some?
    ensures var task := P.Decode(raw).value;
            && P.ValidMessage(task.message) && P.ValidTargets(task.recipients, task.targets)
            && task.taskId == P.TaskId(task.message.messageId, task.chunkIndex) && |P.Scope(task)| <= 100
  {
    hide P.ValidMessage, P.ValidTargets, P.ValidRequestId, P.ValidRecipient, Printable;
    var d := raw.reading.value;
    if d.pending.Given? {
      var pending, all := d.pending.value, set u | u in d.recipients;
      DistinctFits(pending, all);
      SetOfSeq(d.recipients);
    }
  }

  /** No delivery the engine makes for a decoded task fails the hub's checks at the instance it goes to. */
  lemma EngineIsAdmitted(raw: P.Payload, trace: seq<D.Call>, a: nat)
    requires P.Decode(raw).Some? && D.GoodTrace(P.Decode(raw).value, trace) && a < |trace| && trace[a].DeliverCall?
    ensures C.ValidDelivery(trace[a].taskId, P.Decode(raw).value.message, trace[a].targets, trace[a].lease.instance)
  {
    DecodedTask(raw);
    var task, c := P.Decode(raw).value, trace[a];
    hide P.Decode, P.ValidMessage, P.ValidTargets, L.ValidConnection, D.NeverAskedAgain, D.OneRepair, D.OncePerRound,
      D.KnownRoute, D.ResolvedBefore, C.ValidTaskId;
    assert D.NamesOnce(c);
    C.ValidTaskIdMeaning(c.taskId, task.message);
    assert C.ValidTaskId(c.taskId, task.message);
    forall t | t in c.targets ensures C.ValidIdentity(t, c.lease.instance) {
      KnownIsValid(task, trace[..a], t);
    }
    var users := seq(|c.targets|, k requires 0 <= k < |c.targets| => c.targets[k].user);
    forall u | u in users ensures u in set v | v in P.Scope(task) {
      var k :| 0 <= k < |users| && users[k] == u;
      assert c.targets[k] in c.targets;
    }
    DistinctFits(users, set v | v in P.Scope(task));
    SetOfSeq(P.Scope(task));
  }

  /** Whatever hints, routes and pending lists there are, a direct message is sent to none but its two users. */
  lemma DirectStaysPrivate(raw: P.Payload, trace: seq<D.Call>, a: nat, t: L.Tuple)
    requires P.Decode(raw).Some? && D.GoodTrace(P.Decode(raw).value, trace) && a < |trace| && trace[a].DeliverCall?
    requires P.Decode(raw).value.message.receiveType == "user" && t in trace[a].targets
    ensures t.user == P.Decode(raw).value.message.sendId || t.user == P.Decode(raw).value.message.receiveId
  {
    hide P.ValidMessage, P.ValidTargets, D.NeverAskedAgain, D.OneRepair, D.OncePerRound, D.NoClash, D.KnownRoute,
      D.ResolvedBefore, Ascending, Printable, ValidId;
    var task := P.Decode(raw).value;
    assert t.user in P.Scope(task) && t.user in task.recipients;
  }

  // ----- Logic's pages and the browser's checks -----

  /** A row's message as the browser checks it. */
  lemma ViewShown(row: R.Row)
    requires M.Presentable(row)
    ensures H.ValidMessage(M.View(row))
  {
    hide ValidUuid;
    PositionShown(row.id);
  }

  lemma {:induction false} NoLeadingZero(n: nat)
    requires n > 0
    ensures FormatNat(n)[0] != '0'
  {
    if n >= 10 {
      NoLeadingZero(n / 10);
    }
  }

  lemma PositionShown(n: nat)
    requires 0 < n <= MAX_INT64
    ensures H.PositionText(Format(n))
  {
    ParseFormatNat(n);
    NoLeadingZero(n);
    ParseFormat(n);
    P.PositionLength(Format(n));
  }

  /** The page as it is sent: the rows' messages, the next cursor, and whether there is more. */
  function PageOnWire(c: S.Conversation, cursor: string, page: R.Page): H.Page
    requires S.ValidConversation(c)
  {
    H.Page(S.NameOf(c), seq(|page.rows|, k requires 0 <= k < |page.rows| => M.View(page.rows[k])),
           S.NextCursor(c, cursor, page), page.hasMore)
  }

  lemma ViewInConversation(c: S.Conversation, row: R.Row)
    requires S.ValidConversation(c) && row.session == c.id
    ensures M.View(row).conversationId == S.NameOf(c)
  {
    hide ValidUuid;
  }

  /** Only a page with rows says that there is more; one without keeps the cursor. */
  lemma EmptyPages(c: S.Conversation, cursor: string, table: map<nat, R.Row>, after: nat, top: nat, limit: nat)
    requires S.ValidConversation(c) && limit > 0
    ensures var page := R.ReadPage(table, c.id, after, top, limit);
            && (page.rows == [] ==> S.NextCursor(c, cursor, page) == cursor)
            && (page.hasMore ==> page.rows != [])
  {
    hide S.ValidConversation;
  }

  lemma MessagesShown(c: S.Conversation, table: map<nat, R.Row>, after: nat, top: nat, limit: nat)
    requires S.ValidConversation(c) && R.Keyed(table) && limit > 0
    requires forall k | k in table :: M.Presentable(table[k])
    ensures forall row | row in R.ReadPage(table, c.id, after, top, limit).rows ::
              H.ValidMessage(M.View(row)) && M.View(row).conversationId == S.NameOf(c)
  {
    var page := R.ReadPage(table, c.id, after, top, limit);
    R.PageIsRange(table, c.id, after, top, limit);
    R.CollectSound(table, c.id, after, page.position);
    hide R.ReadPage, M.Presentable, M.View, H.ValidMessage, S.NameOf, S.ValidConversation;
    forall row | row in page.rows ensures H.ValidMessage(M.View(row)) && M.View(row).conversationId == S.NameOf(c) {
      var k :| 0 <= k < |page.rows| && page.rows[k] == row;
      assert R.Belongs(page.rows[k], table, c.id, after, page.position);
      ViewShown(row);
      ViewInConversation(c, row);
    }
  }

  /** A page with rows comes with another cursor than the request's, and not an empty one. */
  lemma NextIsNew(parse: seq<Byte> -> Option<S.Fields>, c: S.Conversation, cursor: string, table: map<nat, R.Row>,
                  after: nat, top: nat, limit: nat)
    requires S.ReadsBack(parse) && S.ValidConversation(c) && R.Keyed(table) && limit > 0 && top <= MAX_INT64
    requires S.DecodeCursor(parse, c, cursor) == Some(after)
    ensures var page := R.ReadPage(table, c.id, after, top, limit);
            page.rows != [] ==> S.NextCursor(c, cursor, page) != cursor && S.NextCursor(c, cursor, page) != ""
  {
    var page := R.ReadPage(table, c.id, after, top, limit);
    S.NextCursorIsPosition(parse, c, cursor, table, after, top, limit);
    R.PageIsRange(table, c.id, after, top, limit);
    R.CollectSound(table, c.id, after, page.position);
    if page.rows != [] {
      assert R.Belongs(page.rows[0], table, c.id, after, page.position);
      EmptyIsStart(parse, c);
    }
    hide S.ReadsBack, S.DecodeCursor, S.NextCursor;
  }

  lemma EmptyIsStart(parse: seq<Byte> -> Option<S.Fields>, c: S.Conversation)
    requires S.ValidConversation(c)
    ensures S.DecodeCursor(parse, c, "") == Some(0)
  {
  }

  /**
   The browser accepts every page read for it: of presentable rows, for its own chat, with the cursor it has. So its
   cursor moves on with each page, and never gets stuck on one that Logic can serve.
   */
  lemma PageAdmitted(parse: seq<Byte> -> Option<S.Fields>, c: S.Conversation, chat: H.Chat, table: map<nat, R.Row>,
                     after: nat, top: nat, limit: nat)
    requires S.ReadsBack(parse) && S.ValidConversation(c) && R.Keyed(table) && limit > 0 && top <= MAX_INT64
    requires forall k | k in table :: M.Presentable(table[k])
    requires chat.id == S.NameOf(c) && S.DecodeCursor(parse, c, chat.cursor) == Some(after)
    ensures H.PageAccepted(chat, PageOnWire(c, chat.cursor, R.ReadPage(table, c.id, after, top, limit)))
  {
    NextIsNew(parse, c, chat.cursor, table, after, top, limit);
    MessagesShown(c, table, after, top, limit);
    EmptyPages(c, chat.cursor, table, after, top, limit);
    hide S.ReadsBack, S.DecodeCursor, S.NextCursor, S.ValidConversation, R.ReadPage, R.Keyed, M.Presentable, M.View,
      H.ValidMessage, S.NameOf;
  }

  /** In particular on every reachable table. */
  lemma ReachablePageAdmitted(parse: seq<Byte> -> Option<S.Fields>, c: S.Conversation, chat: H.Chat, s: M.State,
                              after: nat, limit: nat)
    requires S.ReadsBack(parse) && S.ValidConversation(c) && M.Inv(s) && limit > 0 && s.lastId <= MAX_INT64
    requires chat.id == S.NameOf(c) && S.DecodeCursor(parse, c, chat.cursor) == Some(after)
    ensures H.PageAccepted(chat, PageOnWire(c, chat.cursor, R.ReadPage(s.rows, c.id, after, s.lastId, limit)))
  {
    hide S.ReadsBack, S.DecodeCursor, S.ValidConversation, R.ReadPage, H.PageAccepted, PageOnWire;
    MessageRuns.KeyedRows(s);
    forall k | k in s.rows ensures M.Presentable(s.rows[k]) {
      MessageRuns.RowIdInRange(s, k);
    }
    hide M.Inv, M.Presentable, R.Keyed;
    PageAdmitted(parse, c, chat, s.rows, after, s.lastId, limit);
  }
}
