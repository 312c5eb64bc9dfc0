/** Reading a conversation page by page: rows in id order after a position, at most `limit` of them. */
module Paging {
  import opened Wrappers

  /** What identifies a stored message and where it belongs; the rest of the row plays no part in paging. */
  datatype Row = Row(
    id: nat, uuid: string, session: string, sender: string, receiver: string, content: string, ai: bool,
    clientId: string, fingerprint: Fingerprint, recipients: seq<string>, created: int)

  /** SHA-256 of destination, content and origin, taken to be injective. */
  datatype Fingerprint = Fingerprint(group: bool, receiver: string, content: string, ai: bool)

  const DEFAULT_LIMIT := 100
  const MAX_LIMIT := 500

  datatype Page = Page(rows: seq<Row>, position: nat, hasMore: bool)

  /** The rows of one conversation with ids above `lo` and up to `hi`, in id order. */
  function Collect(table: map<nat, Row>, session: string, lo: nat, hi: nat): seq<Row>
    decreases hi
  {
    if hi <= lo then []
    else Collect(table, session, lo, hi - 1) + (if hi in table && table[hi].session == session then [table[hi]] else [])
  }

  /** Each row sits under its own id. */
  predicate Keyed(table: map<nat, Row>) {
    forall k | k in table :: table[k].id == k
  }

  /** The page a synchronisation reads: one row more than the limit tells whether there are further ones. */
  function ReadPage(table: map<nat, Row>, session: string, after: nat, top: nat, limit: nat): Page
    requires limit > 0
  {
    var found := Collect(table, session, after, top);
    var rows := if |found| > limit then found[..limit] else found;
    Page(rows, if rows == [] then after else rows[|rows| - 1].id, |found| > limit)
  }

  /** The loop that turns the rows found into a page: the position follows the last row taken. */
  method BuildPage(table: map<nat, Row>, session: string, after: nat, top: nat, limit: nat) returns (page: Page)
    requires 0 <= limit <= MAX_LIMIT
    ensures page == ReadPage(table, session, after, top, if limit == 0 then DEFAULT_LIMIT else limit)
  {
    var bound := if limit == 0 then DEFAULT_LIMIT else limit;
    var rows := Collect(table, session, after, top);
    var hasMore := |rows| > bound;
    if hasMore {
      rows := rows[..bound];
    }
    var messages: seq<Row> := [];
    var position := after;
    for k := 0 to |rows|
      invariant messages == rows[..k]
      invariant position == if k == 0 then after else rows[k - 1].id
    {
      messages := messages + [rows[k]];
      position := rows[k].id;
    }
    page := Page(messages, position, hasMore);
  }

  /** A row that belongs in the collection between the two positions. */
  predicate Belongs(row: Row, table: map<nat, Row>, session: string, lo: nat, hi: nat) {
    lo < row.id <= hi && row.id in table && table[row.id] == row && row.session == session
  }

  /** Only rows that belong, in strictly ascending id order. */
  predicate Sound(rows: seq<Row>, table: map<nat, Row>, session: string, lo: nat, hi: nat) {
    && (forall i | 0 <= i < |rows| :: Belongs(rows[i], table, session, lo, hi))
    && (forall i, j | 0 <= i < j < |rows| :: rows[i].id < rows[j].id)
  }

  lemma {:induction false} CollectSound(table: map<nat, Row>, session: string, lo: nat, hi: nat)
    requires Keyed(table)
    ensures Sound(Collect(table, session, lo, hi), table, session, lo, hi)
    decreases hi
  {
    if hi > lo {
      CollectSound(table, session, lo, hi - 1);
      var front, rows := Collect(table, session, lo, hi - 1), Collect(table, session, lo, hi);
      assert forall i | 0 <= i < |front| :: rows[i] == front[i] && Belongs(front[i], table, session, lo, hi - 1);
      assert |rows| > |front| ==> rows[|front|] == table[hi] && |rows| == |front| + 1;
    }
  }

  /** Nothing is left out: every row of the conversation in the range is collected. */
  lemma {:induction false} CollectComplete(table: map<nat, Row>, session: string, lo: nat, hi: nat)
    requires Keyed(table)
    ensures forall k | k in table && table[k].session == session && lo < k <= hi ::
              table[k] in Collect(table, session, lo, hi)
    decreases hi
  {
    if hi > lo {
      CollectComplete(table, session, lo, hi - 1);
    }
  }

  lemma {:induction false} CollectSplit(table: map<nat, Row>, session: string, lo: nat, mid: nat, hi: nat)
    requires lo <= mid <= hi
    ensures Collect(table, session, lo, hi) == Collect(table, session, lo, mid) + Collect(table, session, mid, hi)
    decreases hi
  {
    if mid < hi {
      CollectSplit(table, session, lo, mid, hi - 1);
    }
  }

  /** The rows up to the `n`-th of a collection are the collection up to that row's id. */
  lemma {:induction false} CollectPrefix(table: map<nat, Row>, session: string, lo: nat, hi: nat, n: nat)
    requires Keyed(table) && 0 < n <= |Collect(table, session, lo, hi)|
    ensures var rows := Collect(table, session, lo, hi);
            rows[..n] == Collect(table, session, lo, rows[n - 1].id)
    decreases hi
  {
    var rows := Collect(table, session, lo, hi);
    CollectSound(table, session, lo, hi);
    if hi > lo {
      var front := Collect(table, session, lo, hi - 1);
      if n <= |front| {
        CollectPrefix(table, session, lo, hi - 1, n);
        assert rows[..n] == front[..n] && rows[n - 1] == front[n - 1];
      } else {
        assert rows[..n] == rows;
      }
    }
  }

  /** A page is exactly the conversation's rows between the two positions. */
  lemma PageIsRange(table: map<nat, Row>, session: string, after: nat, top: nat, limit: nat)
    requires Keyed(table) && limit > 0
    ensures var page := ReadPage(table, session, after, top, limit);
            && after <= page.position
            && page.rows == Collect(table, session, after, page.position)
            && (page.rows != [] ==> page.position <= top)
            && (!page.hasMore ==> page.rows == Collect(table, session, after, top))
            && (page.hasMore ==> |page.rows| == limit)
  {
    var found := Collect(table, session, after, top);
    CollectSound(table, session, after, top);
    if found != [] {
      CollectPrefix(table, session, after, top, if |found| > limit then limit else |found|);
      assert found[..|found|] == found;
    }
  }

  lemma RestAfterPage(table: map<nat, Row>, session: string, after: nat, top: nat, limit: nat)
    requires Keyed(table) && limit > 0
    ensures var page := ReadPage(table, session, after, top, limit);
            && |page.rows| <= limit
            && (page.hasMore <==> Collect(table, session, page.position, top) != [])
  {
    var page := ReadPage(table, session, after, top, limit);
    PageIsRange(table, session, after, top, limit);
    if page.position <= top {
      CollectSplit(table, session, after, page.position, top);
    }
  }

  /** A page never exceeds its limit, and says that there is more exactly if a further row exists. */
  lemma PageTellsMore(table: map<nat, Row>, session: string, after: nat, top: nat, limit: nat)
    requires Keyed(table) && limit > 0
    ensures var page := ReadPage(table, session, after, top, limit);
            && |page.rows| <= limit
            && (page.hasMore <==>
                  exists k :: k in table && table[k].session == session && page.position < k <= top)
  {
    var page := ReadPage(table, session, after, top, limit);
    var rest := Collect(table, session, page.position, top);
    RestAfterPage(table, session, after, top, limit);
    hide Collect, ReadPage;
    CollectSound(table, session, page.position, top);
    CollectComplete(table, session, page.position, top);
    if page.hasMore {
      assert Belongs(rest[0], table, session, page.position, top);
    }
  }

  /** The conversation's rows up to `p` are the same in both tables. */
  predicate SameBehind(a: map<nat, Row>, b: map<nat, Row>, session: string, p: nat) {
    && (forall k | k in a && k <= p && a[k].session == session :: k in b && b[k] == a[k])
    && (forall k | k in b && k <= p && b[k].session == session :: k in a && a[k] == b[k])
  }

  lemma {:induction false} CollectSameBehind(a: map<nat, Row>, b: map<nat, Row>, session: string, lo: nat, hi: nat)
    requires SameBehind(a, b, session, hi)
    ensures Collect(a, session, lo, hi) == Collect(b, session, lo, hi)
    decreases hi
  {
    if hi > lo {
      CollectSameBehind(a, b, session, lo, hi - 1);
    }
  }

  // ----- following cursors -----

  /** One synchronisation call: the table it found, the highest id then in use, and the limit it asked for. */
  datatype Visit = Visit(table: map<nat, Row>, top: nat, limit: nat)

  /** Where the client stands after following the cursors of all visits, starting from nothing. */
  function Position(visits: seq<Visit>, session: string): nat
    requires forall v | v in visits :: v.limit > 0
  {
    if visits == [] then 0
    else
      var v := visits[|visits| - 1];
      ReadPage(v.table, session, Position(visits[..|visits| - 1], session), v.top, v.limit).position
  }

  /** Everything the pages of all visits showed, in order. */
  function Shown(visits: seq<Visit>, session: string): seq<Row>
    requires forall v | v in visits :: v.limit > 0
  {
    if visits == [] then []
    else
      var v := visits[|visits| - 1];
      Shown(visits[..|visits| - 1], session)
      + ReadPage(v.table, session, Position(visits[..|visits| - 1], session), v.top, v.limit).rows
  }

  /** The tables of a client's visits: well keyed, and each keeps what lay behind the cursor it was reached with. */
  predicate Followed(visits: seq<Visit>, session: string) {
    && (forall v | v in visits :: v.limit > 0 && Keyed(v.table))
    && forall k, n | 0 <= k < |visits| && n == k + 1 < |visits| ::
         SameBehind(visits[k].table, visits[n].table, session, Position(visits[..n], session))
  }

  /**
   Whatever limits are asked for and however the conversation grows in between, the pages together show every row up
   to the current position exactly once, in id order; and all rows there are once a page says there is no more.
   */
  lemma {:induction false} PagesShowEverything(visits: seq<Visit>, session: string)
    requires Followed(visits, session) && visits != []
    ensures var last := visits[|visits| - 1];
            var p := Position(visits, session);
            && Shown(visits, session) == Collect(last.table, session, 0, p)
            && (!ReadPage(last.table, session, Position(visits[..|visits| - 1], session), last.top, last.limit).hasMore
                && Position(visits[..|visits| - 1], session) <= last.top ==>
                  Shown(visits, session) == Collect(last.table, session, 0, last.top))
    decreases |visits|
  {
    var n := |visits| - 1;
    var front, last := visits[..n], visits[n];
    var p := Position(front, session);
    PageIsRange(last.table, session, p, last.top, last.limit);
    var page := ReadPage(last.table, session, p, last.top, last.limit);
    if n > 0 {
      FollowedFront(visits, session);
      PagesShowEverything(front, session);
      assert SameBehind(visits[n - 1].table, visits[n].table, session, Position(visits[..n], session));
      CollectSameBehind(visits[n - 1].table, last.table, session, 0, p);
    }
    CollectSplit(last.table, session, 0, p, page.position);
    if !page.hasMore && p <= last.top {
      CollectSplit(last.table, session, 0, p, last.top);
    }
  }

  lemma FollowedFront(visits: seq<Visit>, session: string)
    requires Followed(visits, session) && visits != []
    ensures Followed(visits[..|visits| - 1], session)
  {
    var front := visits[..|visits| - 1];
    forall k, n | 0 <= k < |front| && n == k + 1 < |front|
      ensures SameBehind(front[k].table, front[n].table, session, Position(front[..n], session))
    {
      assert front[..n] == visits[..n];
    }
  }
}
