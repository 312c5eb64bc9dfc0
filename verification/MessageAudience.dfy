/** Who gets to see a stored message: those authorised while its own transaction took the conversation's lock. */
module MessageAudience {
  import opened Wrappers
  import opened Identifiers
  import opened Decimal
  import opened ByteOrder
  import opened Paging
  import opened MessageTable
  import P = PushTasks

  predicate Placed(stage: Stage) {
    stage.Located? || stage.UsersKnown? || stage.Absent? || stage.Inserted?
  }

  function SessionOf(stage: Stage): string
    requires Placed(stage)
  {
    match stage
    case Inserted(row) => row.session
    case _ => stage.spot.session
  }

  function RecipientsOf(stage: Stage): seq<string>
    requires Placed(stage)
  {
    match stage
    case Inserted(row) => row.recipients
    case _ => stage.spot.recipients
  }

  predicate SavePlaced(s: State, t: nat) {
    t in s.txs && !s.txs[t].request.Sync? && Placed(s.txs[t].stage)
  }

  /** A step leaves the place of a save alone, or is the one that takes the conversation's lock for it. */
  lemma PlaceFrom(s: State, e: Event, t: nat)
    requires Enabled(s, e) && SavePlaced(Next(s, e), t)
    ensures t in s.txs && s.txs[t].request == Next(s, e).txs[t].request
    ensures var stage := Next(s, e).txs[t].stage;
            if SavePlaced(s, t)
            then SessionOf(s.txs[t].stage) == SessionOf(stage) && RecipientsOf(s.txs[t].stage) == RecipientsOf(stage)
            else
              && e.LockConversation? && e.t == t && Locate(s.authority, s.txs[t].request, e.sid).Place?
              && stage == Located(Locate(s.authority, s.txs[t].request, e.sid).spot)
  {
    hide Presentable, Locate, ValidRequest, FingerprintOf, PageOf, ReplyOf, ValidSnapshot, Picked, AllPresentable,
      AllUsers, Matches, UuidUnused, ValidId;
  }

  /** From event `k` up to the end of the events, `t` is one and the same transaction. */
  ghost predicate Throughout(s: State, events: seq<Event>, t: nat, k: nat, r: Request) {
    forall i | k <= i <= |events| ::
      t in After(s, events[..i]).txs && After(s, events[..i]).txs[t].request == r
  }

  lemma ThroughoutLater(s: State, events: seq<Event>, e: Event, t: nat, k: nat, r: Request)
    requires Throughout(s, events, t, k, r) && k <= |events|
    requires t in After(s, events + [e]).txs && After(s, events + [e]).txs[t].request == r
    ensures Throughout(s, events + [e], t, k, r)
  {
    hide After;
    var longer := events + [e];
    forall i | k <= i <= |longer|
      ensures t in After(s, longer[..i]).txs && After(s, longer[..i]).txs[t].request == r
    {
      if i <= |events| {
        assert longer[..i] == events[..i];
      } else {
        assert longer[..i] == longer;
      }
    }
  }

  /** At event `k` the transaction took its conversation's lock, when `ids` were who authority let it reach. */
  ghost predicate LockedFor(s: State, events: seq<Event>, t: nat, k: nat, r: Request, session: string,
                            ids: seq<string>) {
    && k < |events| && events[k].LockConversation? && events[k].t == t && Enabled(After(s, events[..k]), events[k])
    && Throughout(s, events, t, k, r)
    && Audience(After(s, events[..k]).authority, r, session, ids)
  }

  lemma LockedLater(s: State, events: seq<Event>, e: Event, t: nat, k: nat, r: Request, session: string,
                    ids: seq<string>)
    requires LockedFor(s, events, t, k, r, session, ids)
    requires t in After(s, events + [e]).txs && After(s, events + [e]).txs[t].request == r
    ensures LockedFor(s, events + [e], t, k, r, session, ids)
  {
    ThroughoutLater(s, events, e, t, k, r);
    hide After, Enabled, Audience, Throughout;
    assert (events + [e])[..k] == events[..k];
  }

  lemma LockedNow(s: State, events: seq<Event>, e: Event, t: nat)
    requires var before := After(s, events);
             && Inv(before) && t in before.txs && e.LockConversation? && e.t == t && Enabled(before, e)
             && !before.txs[t].request.Sync? && Locate(before.authority, before.txs[t].request, e.sid).Place?
    requires t in After(s, events + [e]).txs && After(s, events + [e]).txs[t].request == After(s, events).txs[t].request
    ensures var before := After(s, events);
            var spot := Locate(before.authority, before.txs[t].request, e.sid).spot;
            LockedFor(s, events + [e], t, |events|, before.txs[t].request, spot.session, spot.recipients)
  {
    hide After, Enabled, Audience, Locate, RowsOk, AnswerOk, Apart, ValidRequest, StageOk;
    var before, longer := After(s, events), events + [e];
    var r := before.txs[t].request;
    assert TxOk(before, t);
    LocateOk(before.authority, r, e.sid);
    assert longer[..|events|] == events && longer[..|longer|] == longer;
    forall i | |events| <= i <= |longer|
      ensures t in After(s, longer[..i]).txs && After(s, longer[..i]).txs[t].request == r
    {
      assert i == |events| || i == |longer|;
    }
  }

  /** Every save past its conversation's lock has taken it itself, for exactly those authorised at that moment. */
  lemma {:induction false} LockHistory(authority: Authority, events: seq<Event>, t: nat)
    requires SavePlaced(After(Initial(authority), events), t)
    ensures var tx := After(Initial(authority), events).txs[t];
            exists k: nat ::
              LockedFor(Initial(authority), events, t, k, tx.request, SessionOf(tx.stage), RecipientsOf(tx.stage))
    decreases |events|
  {
    hide LockedFor, Inv, Next, Enabled, Locate;
    var s := Initial(authority);
    if events != [] {
      var front, e := events[..|events| - 1], events[|events| - 1];
      assert front + [e] == events;
      var before, tx := After(s, front), After(s, events).txs[t];
      if Enabled(before, e) {
        PlaceFrom(before, e, t);
      }
      if SavePlaced(before, t) {
        LockHistory(authority, front, t);
        var k: nat :| LockedFor(s, front, t, k, tx.request, SessionOf(tx.stage), RecipientsOf(tx.stage));
        LockedLater(s, front, e, t, k, tx.request, SessionOf(tx.stage), RecipientsOf(tx.stage));
      } else {
        InvAlways(authority, front);
        LockedNow(s, front, e, t);
        assert LockedFor(s, events, t, |front|, tx.request, SessionOf(tx.stage), RecipientsOf(tx.stage));
      }
    }
  }

  // ----- the recipients exist -----

  predicate RecipientsChecked(s: State, t: nat) {
    SavePlaced(s, t) && !s.txs[t].stage.Located?
  }

  /** A step leaves checked recipients alone, or is the check itself, made against the users there are. */
  lemma CheckedFrom(s: State, e: Event, t: nat)
    requires Enabled(s, e) && RecipientsChecked(Next(s, e), t)
    ensures t in s.txs && s.txs[t].request == Next(s, e).txs[t].request
    ensures var ids := RecipientsOf(Next(s, e).txs[t].stage);
            if RecipientsChecked(s, t) then RecipientsOf(s.txs[t].stage) == ids
            else e == CheckUsers(t) && forall id | id in ids :: id in s.authority.users
  {
    hide Presentable, Locate, ValidRequest, FingerprintOf, PageOf, ReplyOf, ValidSnapshot, Picked, AllPresentable,
      Matches, UuidUnused, ValidId;
  }

  /** At event `m` the same transaction checked that every one of `ids` is a user. */
  ghost predicate CheckedFor(s: State, events: seq<Event>, t: nat, m: nat, r: Request, ids: seq<string>) {
    && m < |events| && events[m] == CheckUsers(t) && Throughout(s, events, t, m, r)
    && forall id | id in ids :: id in After(s, events[..m]).authority.users
  }

  lemma CheckedLater(s: State, events: seq<Event>, e: Event, t: nat, m: nat, r: Request, ids: seq<string>)
    requires CheckedFor(s, events, t, m, r, ids)
    requires t in After(s, events + [e]).txs && After(s, events + [e]).txs[t].request == r
    ensures CheckedFor(s, events + [e], t, m, r, ids)
  {
    ThroughoutLater(s, events, e, t, m, r);
    hide After, Throughout;
    assert (events + [e])[..m] == events[..m];
  }

  lemma CheckedNow(s: State, events: seq<Event>, e: Event, t: nat, r: Request, ids: seq<string>)
    requires e == CheckUsers(t) && forall id | id in ids :: id in After(s, events).authority.users
    requires t in After(s, events).txs && After(s, events).txs[t].request == r
    requires t in After(s, events + [e]).txs && After(s, events + [e]).txs[t].request == r
    ensures CheckedFor(s, events + [e], t, |events|, r, ids)
  {
    hide After;
    var longer := events + [e];
    assert longer[..|events|] == events && longer[..|longer|] == longer;
    forall i | |events| <= i <= |longer|
      ensures t in After(s, longer[..i]).txs && After(s, longer[..i]).txs[t].request == r
    {
      assert i == |events| || i == |longer|;
    }
  }

  lemma {:induction false} CheckHistory(authority: Authority, events: seq<Event>, t: nat)
    requires RecipientsChecked(After(Initial(authority), events), t)
    ensures var tx := After(Initial(authority), events).txs[t];
            exists m: nat :: CheckedFor(Initial(authority), events, t, m, tx.request, RecipientsOf(tx.stage))
    decreases |events|
  {
    hide CheckedFor, Next, Enabled, SessionOf;
    var s := Initial(authority);
    if events != [] {
      var front, e := events[..|events| - 1], events[|events| - 1];
      assert front + [e] == events;
      var before, tx := After(s, front), After(s, events).txs[t];
      if Enabled(before, e) {
        CheckedFrom(before, e, t);
      }
      if RecipientsChecked(before, t) {
        CheckHistory(authority, front, t);
        var m: nat :| CheckedFor(s, front, t, m, tx.request, RecipientsOf(tx.stage));
        CheckedLater(s, front, e, t, m, tx.request, RecipientsOf(tx.stage));
      } else {
        CheckedNow(s, front, e, t, tx.request, RecipientsOf(tx.stage));
        assert CheckedFor(s, events, t, |front|, tx.request, RecipientsOf(tx.stage));
      }
    }
  }

  // ----- what is stored -----

  /** The commit at event `j` made `row` visible, and was the end of a transaction that was authorised for it. */
  ghost predicate StoredBy(s: State, events: seq<Event>, k: nat, j: nat, known: bool, r: Request, row: Row) {
    && k < j < |events| && events[k].LockConversation? && events[j] == Commit(events[k].t, known)
    && Enabled(After(s, events[..j]), events[j])
    && After(s, events[..j]).txs[events[k].t].stage == Inserted(row)
    && LockedFor(s, events[..j], events[k].t, k, r, row.session, row.recipients)
    && exists m: nat :: CheckedFor(s, events[..j], events[k].t, m, r, row.recipients)
  }

  lemma StoredLater(s: State, events: seq<Event>, e: Event, k: nat, j: nat, known: bool, r: Request, row: Row)
    requires StoredBy(s, events, k, j, known, r, row)
    ensures StoredBy(s, events + [e], k, j, known, r, row)
  {
    hide After, Enabled, LockedFor, CheckedFor;
    assert (events + [e])[..j] == events[..j];
  }

  lemma InsertsASave(s: State, t: nat)
    requires Inv(s) && t in s.txs && s.txs[t].stage.Inserted?
    ensures SavePlaced(s, t)
  {
    hide RowsOk, AnswerOk, Apart, Sane;
    assert TxOk(s, t);
  }

  lemma StoredAt(s: State, events: seq<Event>, t: nat, known: bool, r: Request, row: Row, k: nat, m: nat)
    requires LockedFor(s, events, t, k, r, row.session, row.recipients)
    requires CheckedFor(s, events, t, m, r, row.recipients)
    requires Enabled(After(s, events), Commit(t, known)) && After(s, events).txs[t].stage == Inserted(row)
    ensures StoredBy(s, events + [Commit(t, known)], k, |events|, known, r, row)
  {
    hide After, Throughout, Audience, CheckedFor;
    var longer := events + [Commit(t, known)];
    assert longer[..|events|] == events && longer[k] == events[k];
    assert CheckedFor(s, longer[..|events|], t, m, r, row.recipients);
  }

  lemma StoredNow(authority: Authority, events: seq<Event>, t: nat, known: bool, row: Row)
    requires var before := After(Initial(authority), events);
             Enabled(before, Commit(t, known)) && before.txs[t].stage == Inserted(row)
    ensures var r := After(Initial(authority), events).txs[t].request;
            exists k: nat :: StoredBy(Initial(authority), events + [Commit(t, known)], k, |events|, known, r, row)
  {
    hide Inv, After, LockedFor, StoredBy, Initial, CheckedFor;
    var s := Initial(authority);
    InvAlways(authority, events);
    InsertsASave(After(s, events), t);
    LockHistory(authority, events, t);
    var r := After(s, events).txs[t].request;
    var k: nat :| LockedFor(s, events, t, k, r, row.session, row.recipients);
    CheckHistory(authority, events, t);
    var m: nat :| CheckedFor(s, events, t, m, r, row.recipients);
    StoredAt(s, events, t, known, r, row, k, m);
  }

  /** Every stored row goes to exactly those authorised when its own transaction took the conversation's lock. */
  lemma {:induction false} RowAuthorised(authority: Authority, events: seq<Event>, id: nat)
    requires id in After(Initial(authority), events).rows
    ensures exists k: nat, j: nat, known, r ::
              StoredBy(Initial(authority), events, k, j, known, r, After(Initial(authority), events).rows[id])
    decreases |events|
  {
    hide StoredBy, Inv, Enabled, Next;
    var s := Initial(authority);
    if events != [] {
      var front, e := events[..|events| - 1], events[|events| - 1];
      assert front + [e] == events;
      var before, row := After(s, front), After(s, events).rows[id];
      if Enabled(before, e) {
        RowFrom(before, e, id);
      }
      if id in before.rows && before.rows[id] == row {
        RowAuthorised(authority, front, id);
        var k: nat, j: nat, known, r :| StoredBy(s, front, k, j, known, r, row);
        StoredLater(s, front, e, k, j, known, r, row);
      } else {
        StoredNow(authority, front, e.t, e.known, row);
      }
    }
  }

  lemma RowFrom(s: State, e: Event, id: nat)
    requires Enabled(s, e) && id in Next(s, e).rows
    ensures (id in s.rows && s.rows[id] == Next(s, e).rows[id])
            || (e.Commit? && e.t in s.txs && s.txs[e.t].stage == Inserted(Next(s, e).rows[id]))
  {
    hide Presentable, Locate, ValidRequest, FingerprintOf, PageOf, ReplyOf, ValidSnapshot, Picked, AllPresentable,
      AllUsers, Matches, UuidUnused, ValidId;
  }

  /** A new answer that says "saved, and not before" comes from the commit of the insertion it shows. */
  lemma AnswerFrom(s: State, e: Event, i: nat)
    requires Enabled(s, e) && i < |Next(s, e).answers|
    ensures i < |s.answers| ==> Next(s, e).answers[i] == s.answers[i]
    ensures var a := Next(s, e).answers[i];
            i >= |s.answers| && a.reply.Saved? && !a.reply.replayed ==>
              && e.Commit? && e.known && e.t in s.txs && s.txs[e.t].stage.Inserted? && a.request == s.txs[e.t].request
              && a.reply == Saved(View(s.txs[e.t].stage.row), s.txs[e.t].stage.row.recipients, false)
  {
    hide Presentable, Locate, ValidRequest, FingerprintOf, PageOf, ValidSnapshot, Picked, AllPresentable, AllUsers,
      Matches, UuidUnused, ValidId, View;
  }

  /**
   The first answer to a save names as recipients exactly those authorised when that very transaction took the lock.
   */
  lemma {:induction false} SaveAuthorised(authority: Authority, events: seq<Event>, i: nat)
    requires var answers := After(Initial(authority), events).answers;
             i < |answers| && answers[i].reply.Saved? && !answers[i].reply.replayed
    ensures var a := After(Initial(authority), events).answers[i];
            exists k: nat, j: nat, row ::
              && StoredBy(Initial(authority), events, k, j, true, a.request, row)
              && a.reply == Saved(View(row), row.recipients, false)
    decreases |events|
  {
    hide StoredBy, Inv, Enabled, Next, View;
    var s := Initial(authority);
    if events != [] {
      var front, e := events[..|events| - 1], events[|events| - 1];
      assert front + [e] == events;
      var before, a := After(s, front), After(s, events).answers[i];
      if Enabled(before, e) {
        AnswerFrom(before, e, i);
      }
      if i < |before.answers| {
        SaveAuthorised(authority, front, i);
        var k: nat, j: nat, row :| StoredBy(s, front, k, j, true, a.request, row)
            && a.reply == Saved(View(row), row.recipients, false);
        StoredLater(s, front, e, k, j, true, a.request, row);
      } else {
        StoredNow(authority, front, e.t, e.known, before.txs[e.t].stage.row);
      }
    }
  }
}
