/** Listing orders page by page, newest first, with a signed cursor. */
module Portal {
  import opened Base
  import opened Money

  // ---------------------------------------------------------------------------
  // Cursors
  // ---------------------------------------------------------------------------

  /** The instant that stands for no instant. */
  const ZERO_TIME := -62_135_596_800 * SECOND

  /** The library functions under the cursor: time stamps, armour, signature. */
  datatype Codec = Codec(
    formatTime: int -> string, parseTime: string -> Option<int>,
    armour: string -> string, unarmour: string -> Option<string>,
    sign: string -> string, hex: string -> string, unhex: string -> Option<string>)

  /** What they promise: each reading undoes its writing, and neither time stamps nor hexadecimal digits
      hold a bar. */
  ghost predicate Sound(c: Codec) {
    && (forall t: int :: c.parseTime(c.formatTime(t)) == Some(t) && '|' !in c.formatTime(t))
    && (forall s: string :: c.unarmour(c.armour(s)) == Some(s))
    && (forall s: string :: s != "" ==> c.armour(s) != "")
    && (forall s: string :: c.unhex(c.hex(s)) == Some(s) && '|' !in c.hex(s))
  }

  /** `strconv.ParseInt` for 64 bits. */
  function ParseInt64(s: string): Option<int> {
    if s == "" then None
    else
      var digits := if s[0] == '+' || s[0] == '-' then s[1..] else s;
      if digits == "" || !Digits(digits) then None
      else
        var n := if s[0] == '-' then 0 - Value(digits) else Value(digits);
        if -MAX_INT64 - 1 <= n <= MAX_INT64 then Some(n) else None
  }

  function EncodeCursor(c: Codec, at: int, id: int): string {
    var payload := c.formatTime(at) + "|" + FormatInt(id);
    c.armour(payload + "|" + c.hex(c.sign(payload)))
  }

  /** Accepts only three parts whose third signs the first two. */
  function DecodeCursor(c: Codec, cursor: string): Option<(int, int)> {
    match c.unarmour(cursor)
    case None => None
    case Some(raw) =>
      var parts := Split(raw, '|');
      if |parts| != 3 then None
      else if c.unhex(parts[2]) != Some(c.sign(parts[0] + "|" + parts[1])) then None
      else
        match c.parseTime(parts[0])
        case None => None
        case Some(at) =>
          match ParseInt64(parts[1])
          case None => None
          case Some(id) => Some((at, id))
  }

  lemma WrittenInt(n: int)
    requires -MAX_INT64 - 1 <= n <= MAX_INT64
    ensures '|' !in FormatInt(n) && ParseInt64(FormatInt(n)) == Some(n)
  {
    var digits := Natural(if n < 0 then -n else n);
    assert IsDigit(digits[0]);
    if n < 0 {
      assert FormatInt(n)[1..] == digits;
    }
  }

  /** Decoding an encoded cursor gives back its time and id. */
  lemma CursorRoundTrip(c: Codec, at: int, id: int)
    requires Sound(c) && -MAX_INT64 - 1 <= id <= MAX_INT64
    ensures DecodeCursor(c, EncodeCursor(c, at, id)) == Some((at, id)) && EncodeCursor(c, at, id) != ""
  {
    var time, number := c.formatTime(at), FormatInt(id);
    var payload := time + "|" + number;
    var mark := c.hex(c.sign(payload));
    WrittenInt(id);
    var raw := payload + "|" + mark;
    assert raw == time + ['|'] + (number + ['|'] + mark);
    SplitAt(time, '|', number + ['|'] + mark);
    SplitAt(number, '|', mark);
    SplitWhole(mark, '|');
    assert Split(raw, '|') == [time, number, mark];
  }

  /** A cursor that is accepted was signed as it stands: changing the time or the id of one takes another
      signature. */
  lemma CursorIsSigned(c: Codec, cursor: string)
    requires DecodeCursor(c, cursor).Some?
    ensures exists time: string, number: string ::
              && c.parseTime(time) == Some(DecodeCursor(c, cursor).value.0)
              && ParseInt64(number) == Some(DecodeCursor(c, cursor).value.1)
              && exists mark: string ::
                   c.unarmour(cursor) == Some(time + "|" + number + "|" + mark)
                   && c.unhex(mark) == Some(c.sign(time + "|" + number))
  {
    var raw := c.unarmour(cursor).value;
    var parts := Split(raw, '|');
    SplitThree(raw);
    assert c.unarmour(cursor) == Some(parts[0] + "|" + parts[1] + "|" + parts[2]);
  }

  lemma SplitThree(s: string)
    requires |Split(s, '|')| == 3
    ensures s == Split(s, '|')[0] + "|" + Split(s, '|')[1] + "|" + Split(s, '|')[2]
  {
    assert s == [s[0]] + s[1..];
    if s[0] == '|' {
      SplitJoins(s[1..], '|');
    } else {
      SplitThree(s[1..]);
    }
  }

  // ---------------------------------------------------------------------------
  // Rows
  // ---------------------------------------------------------------------------

  datatype OrderRow = OrderRow(id: int, createdAt: int, merchant: int, status: string, channel: string,
                               tradeNo: string, outTradeNo: string, name: string)

  datatype Filter = Filter(merchant: Option<int>, start: Option<int>, end: Option<int>, status: string, channel: string,
                           query: string)

  /** Whether a name holds the text, ignoring case. */
  type Like = (string, string) -> bool

  predicate Matches(o: OrderRow, f: Filter, like: Like) {
    && (f.merchant.None? || o.merchant == f.merchant.value)
    && (f.start.None? || o.createdAt >= f.start.value)
    && (f.end.None? || o.createdAt < f.end.value)
    && (f.status == "" || o.status == f.status)
    && (f.channel == "" || o.channel == f.channel)
    && (f.query == "" || o.tradeNo == f.query || o.outTradeNo == f.query || like(o.name, f.query))
  }

  datatype Key = Key(at: int, id: int)

  function KeyOf(o: OrderRow): Key {
    Key(o.createdAt, o.id)
  }

  /** (created_at, id) < (at, id), compared lexicographically. */
  predicate Older(a: Key, b: Key) {
    a.at < b.at || (a.at == b.at && a.id < b.id)
  }

  predicate Visible(o: OrderRow, f: Filter, like: Like, cursor: Option<Key>) {
    Matches(o, f, like) && (cursor.None? || Older(KeyOf(o), cursor.value))
  }

  function Inserted(rows: seq<OrderRow>, o: OrderRow): seq<OrderRow> {
    if rows == [] || Older(KeyOf(o), KeyOf(rows[|rows| - 1])) then rows + [o]
    else Inserted(rows[..|rows| - 1], o) + [rows[|rows| - 1]]
  }

  /** ORDER BY created_at DESC, id DESC. */
  function Ranked(table: seq<OrderRow>, f: Filter, like: Like, cursor: Option<Key>): seq<OrderRow> {
    if table == [] then []
    else
      var rest := Ranked(table[..|table| - 1], f, like, cursor);
      if Visible(table[|table| - 1], f, like, cursor) then Inserted(rest, table[|table| - 1]) else rest
  }

  function OrderRows(table: seq<OrderRow>, f: Filter, like: Like, cursor: Option<Key>, n: nat): seq<OrderRow> {
    var rows := Ranked(table, f, like, cursor);
    if |rows| > n then rows[..n] else rows
  }

  function CountOrders(table: seq<OrderRow>, f: Filter, like: Like): nat {
    if table == [] then 0
    else CountOrders(table[..|table| - 1], f, like) + (if Matches(table[|table| - 1], f, like) then 1 else 0)
  }

  function Keys(rows: seq<OrderRow>): seq<Key> {
    seq(|rows|, k requires 0 <= k < |rows| => KeyOf(rows[k]))
  }

  predicate Descending(keys: seq<Key>) {
    forall i, j :: 0 <= i < j < |keys| ==> Older(keys[j], keys[i])
  }

  /** Ids are unique and positive, and creation times are real instants. */
  predicate TableOk(table: seq<OrderRow>) {
    && (forall i :: 0 <= i < |table| ==> 0 < table[i].id <= MAX_INT64 && table[i].createdAt != ZERO_TIME)
    && (forall i, j :: 0 <= i < j < |table| ==> table[i].id != table[j].id)
  }

  lemma KeysConcat(a: seq<OrderRow>, b: seq<OrderRow>)
    ensures Keys(a + b) == Keys(a) + Keys(b)
  {
  }

  lemma {:induction false} InsertedIs(rows: seq<OrderRow>, o: OrderRow)
    requires Descending(Keys(rows)) && forall k :: 0 <= k < |rows| ==> rows[k].id != o.id
    ensures Descending(Keys(Inserted(rows, o))) && |Inserted(rows, o)| == |rows| + 1
    ensures forall x :: x in Inserted(rows, o) <==> x in rows || x == o
  {
    var n := |rows| - 1;
    if rows == [] || Older(KeyOf(o), KeyOf(rows[n])) {
      KeysConcat(rows, [o]);
      assert rows != [] ==> Keys(rows)[n] == KeyOf(rows[n]);
    } else {
      var front := rows[..n];
      assert Keys(front) == Keys(rows)[..n];
      InsertedIs(front, o);
      assert rows == front + [rows[n]];
      var r := Inserted(front, o);
      KeysConcat(r, [rows[n]]);
      forall k | 0 <= k < |r| ensures Older(KeyOf(rows[n]), KeyOf(r[k])) {
        assert r[k] in r;
        if r[k] != o {
          var j :| 0 <= j < |front| && front[j] == r[k];
          assert Older(Keys(rows)[n], Keys(rows)[j]);
        }
      }
    }
  }

  /** The ranking holds exactly the visible rows, each once, newest first. */
  lemma {:induction false} RankedIs(table: seq<OrderRow>, f: Filter, like: Like, cursor: Option<Key>)
    requires TableOk(table)
    ensures Descending(Keys(Ranked(table, f, like, cursor)))
    ensures forall o :: o in Ranked(table, f, like, cursor) <==> o in table && Visible(o, f, like, cursor)
    ensures cursor.None? ==> |Ranked(table, f, like, cursor)| == CountOrders(table, f, like)
  {
    if table != [] {
      var n := |table| - 1;
      RankedIs(table[..n], f, like, cursor);
      assert table == table[..n] + [table[n]];
      var rest := Ranked(table[..n], f, like, cursor);
      if Visible(table[n], f, like, cursor) {
        forall k | 0 <= k < |rest| ensures rest[k].id != table[n].id {
          assert rest[k] in rest && rest[k] in table[..n];
        }
        InsertedIs(rest, table[n]);
      }
    }
  }

  lemma {:induction false} DescendingUnique(a: seq<Key>, b: seq<Key>)
    requires Descending(a) && Descending(b) && forall key :: key in a <==> key in b
    ensures a == b
  {
    assert a != [] ==> a[0] in a;
    assert b != [] ==> b[0] in b;
    if a != [] && b != [] {
      var m, n := |a| - 1, |b| - 1;
      assert a[m] in b && b[n] in a;
      assert a[m] == b[n];
      forall key ensures key in a[..m] <==> key in b[..n] {
        assert key in a[..m] <==> key in a && key != a[m];
        assert key in b[..n] <==> key in b && key != b[n];
      }
      DescendingUnique(a[..m], b[..n]);
      assert a == a[..m] + [a[m]] && b == b[..n] + [b[n]];
    }
  }

  // ---------------------------------------------------------------------------
  // One page
  // ---------------------------------------------------------------------------

  datatype Page = Page(items: seq<OrderRow>, total: nat, next: Option<string>)

  const STATUSES := {"", "paid", "pending", "expired", "refunded"}
  const CHANNELS := {"", "alipay", "wxpay", "qqpay"}

  function PageLimit(n: int): (r: Result<nat>)
    ensures r.Ok? ==> 1 <= r.value <= 100
  {
    if n == 0 then Ok(20) else if n < 1 || n > 100 then Err(Validation) else Ok(n)
  }

  function Trimmed(f: Filter): Filter {
    f.(query := TrimSpace(f.query))
  }

  predicate FilterOk(f: Filter) {
    |f.query| <= 100 && f.status in STATUSES && f.channel in CHANNELS
  }

  /** Where a page starts. */
  function Position(c: Codec, cursor: string): Result<Option<Key>> {
    if cursor == "" then Ok(None)
    else
      match DecodeCursor(c, cursor)
      case None => Err(Validation)
      case Some((at, id)) =>
        if id <= 0 then Err(Validation) else Ok(if at == ZERO_TIME then None else Some(Key(at, id)))
  }

  /** A page and its cursor: the first rows after the position, and where the next page starts if there
      is more. */
  function Paged(c: Codec, rows: seq<OrderRow>, total: nat, limit: nat): Page
    requires limit >= 1
  {
    if |rows| > limit then Page(rows[..limit], total, Some(EncodeCursor(c, rows[limit - 1].createdAt, rows[limit - 1].id)))
    else Page(rows, total, None)
  }

  function Listed(c: Codec, like: Like, table: seq<OrderRow>, filter: Filter, cursor: string, limit: nat): Result<Page>
    requires limit >= 1
  {
    var f := Trimmed(filter);
    if !FilterOk(f) then Err(Validation)
    else
      var position :- Position(c, cursor);
      Ok(Paged(c, Ranked(table, f, like, position), CountOrders(table, f, like), limit))
  }

  /** Reads the rows one by one, and trims the one too many. */
  method ReadPage(c: Codec, rows: seq<OrderRow>, total: nat, limit: nat) returns (page: Page)
    requires limit >= 1
    ensures page == Paged(c, rows, total, limit)
  {
    var items: seq<OrderRow> := [];
    var ids: seq<int> := [];
    for k := 0 to |rows|
      invariant items == rows[..k] && |ids| == k && forall j :: 0 <= j < k ==> ids[j] == rows[j].id
    {
      items := items + [rows[k]];
      ids := ids + [rows[k].id];
    }
    assert rows[..|rows|] == rows;
    var next: Option<string> := None;
    if |items| > limit {
      var last := items[limit - 1];
      next := Some(EncodeCursor(c, last.createdAt, ids[limit - 1]));
      items := items[..limit];
    }
    return Page(items, total, next);
  }

  /** One row more than the page holds is enough to know whether there is more. */
  lemma OneMore(c: Codec, rows: seq<OrderRow>, total: nat, limit: nat)
    requires limit >= 1
    ensures Paged(c, if |rows| > limit + 1 then rows[..limit + 1] else rows, total, limit) == Paged(c, rows, total, limit)
  {
    if |rows| > limit + 1 {
      assert rows[..limit + 1][..limit] == rows[..limit];
    }
  }

  method ListOrders(c: Codec, like: Like, table: seq<OrderRow>, filter: Filter, cursor: string, limit: nat)
    returns (r: Result<Page>)
    requires limit >= 1
    ensures r == Listed(c, like, table, filter, cursor, limit)
  {
    var f := Trimmed(filter);
    if |f.query| > 100 { return Err(Validation); }
    if f.status !in STATUSES { return Err(Validation); }
    if f.channel !in CHANNELS { return Err(Validation); }
    var position: Option<Key> := None;
    if cursor != "" {
      var decoded := DecodeCursor(c, cursor);
      if decoded.None? || decoded.value.1 <= 0 { return Err(Validation); }
      if decoded.value.0 != ZERO_TIME { position := Some(Key(decoded.value.0, decoded.value.1)); }
    }
    var total := CountOrders(table, f, like);
    var rows := OrderRows(table, f, like, position, limit + 1);
    OneMore(c, Ranked(table, f, like, position), total, limit);
    var page := ReadPage(c, rows, total, limit);
    return Ok(page);
  }

  // ---------------------------------------------------------------------------
  // Walking through the pages
  // ---------------------------------------------------------------------------

  /** Between pages the listed rows stay listed where they are, and rows that join them are newer. */
  ghost predicate Grown(table: seq<OrderRow>, table': seq<OrderRow>, f: Filter, like: Like) {
    var before, after := Keys(Ranked(table, f, like, None)), Keys(Ranked(table', f, like, None));
    && (forall key :: key in before ==> key in after)
    && (forall key, known :: key in after && key !in before && known in before ==> Older(known, key))
  }

  /** A client that follows the cursors: page `k` is read from the table as it is then. */
  ghost predicate Walk(c: Codec, like: Like, tables: seq<seq<OrderRow>>, filter: Filter, limit: nat, pages: seq<Page>)
    requires limit >= 1
  {
    && |pages| == |tables| >= 1
    && Listed(c, like, tables[0], filter, "", limit) == Ok(pages[0])
    && forall k :: 0 < k < |pages| ==> LeadsTo(c, like, tables, filter, limit, pages, k)
  }

  ghost predicate LeadsTo(c: Codec, like: Like, tables: seq<seq<OrderRow>>, filter: Filter, limit: nat, pages: seq<Page>,
                          k: nat)
    requires limit >= 1 && |tables| == |pages| && 0 < k < |pages|
  {
    pages[k - 1].next.Some? && Listed(c, like, tables[k], filter, pages[k - 1].next.value, limit) == Ok(pages[k])
  }

  ghost predicate TablesOk(like: Like, tables: seq<seq<OrderRow>>, f: Filter) {
    forall k :: 0 <= k < |tables| ==> TableOk(tables[k]) && Grown(tables[0], tables[k], f, like)
  }

  lemma KeyListed(table: seq<OrderRow>, f: Filter, like: Like, cursor: Option<Key>, key: Key)
    requires TableOk(table)
    ensures key in Keys(Ranked(table, f, like, cursor)) <==>
              key in Keys(Ranked(table, f, like, None)) && (cursor.None? || Older(key, cursor.value))
  {
    var rows, all := Ranked(table, f, like, cursor), Ranked(table, f, like, None);
    RankedIs(table, f, like, cursor);
    RankedIs(table, f, like, None);
    if key in Keys(rows) {
      var k :| 0 <= k < |rows| && Keys(rows)[k] == key;
      assert rows[k] in rows && rows[k] in all;
      var j :| 0 <= j < |all| && all[j] == rows[k];
      assert Keys(all)[j] == key;
    }
    if key in Keys(all) && (cursor.None? || Older(key, cursor.value)) {
      var k :| 0 <= k < |all| && Keys(all)[k] == key;
      assert all[k] in all && all[k] in rows;
      var j :| 0 <= j < |rows| && rows[j] == all[k];
      assert Keys(rows)[j] == key;
    }
  }

  /** What a later page reads from the position of row `n - 1`: the rows listed at the start from `n` on,
      whatever joined since. */
  lemma RowsAfter(table: seq<OrderRow>, table': seq<OrderRow>, f: Filter, like: Like, n: nat)
    requires TableOk(table) && TableOk(table') && Grown(table, table', f, like)
    requires 0 < n <= |Ranked(table, f, like, None)|
    ensures var all := Keys(Ranked(table, f, like, None));
            Keys(Ranked(table', f, like, Some(all[n - 1]))) == all[n..]
  {
    var all := Keys(Ranked(table, f, like, None));
    var cursor := all[n - 1];
    var rest := Keys(Ranked(table', f, like, Some(cursor)));
    RankedIs(table, f, like, None);
    RankedIs(table', f, like, Some(cursor));
    forall key ensures key in rest <==> key in all[n..] {
      KeyListed(table', f, like, Some(cursor), key);
      assert cursor in all;
      if key in all[n..] {
        var k :| n <= k < |all| && all[k] == key;
        assert Older(all[k], all[n - 1]);
      }
      if key in rest {
        assert key in all;
        var k :| 0 <= k < |all| && all[k] == key;
        assert all[n..][k - n] == key;
      }
    }
    DescendingUnique(rest, all[n..]);
  }

  /** Where a page of the listing that starts at row `lo` leads on to. */
  ghost predicate NextAt(c: Codec, all: seq<Key>, lo: nat, limit: nat, next: Option<string>) {
    next == if 0 < lo + limit < |all|
            then Some(EncodeCursor(c, all[lo + limit - 1].at, all[lo + limit - 1].id)) else None
  }

  /** The page of the listing that starts at row `lo`. */
  ghost predicate PageAt(c: Codec, all: seq<Key>, lo: nat, limit: nat, page: Page) {
    && lo <= |all|
    && Keys(page.items) == all[lo..if |all| < lo + limit then |all| else lo + limit]
    && NextAt(c, all, lo, limit, page.next)
  }

  lemma PagedAt(c: Codec, rows: seq<OrderRow>, total: nat, limit: nat, all: seq<Key>, lo: nat)
    requires limit >= 1 && lo <= |all| && Keys(rows) == all[lo..]
    ensures PageAt(c, all, lo, limit, Paged(c, rows, total, limit))
  {
    if |rows| > limit {
      assert Keys(rows[..limit]) == Keys(rows)[..limit];
      assert all[lo..][..limit] == all[lo..lo + limit];
      assert KeyOf(rows[limit - 1]) == all[lo..][limit - 1];
    } else {
      assert |rows| == |all| - lo;
      assert all[lo..] == all[lo..|all|];
    }
  }

  /** The cursor of a listed row is the position of that row. */
  lemma NextPosition(c: Codec, like: Like, table: seq<OrderRow>, f: Filter, n: nat)
    requires Sound(c) && TableOk(table) && n < |Ranked(table, f, like, None)|
    ensures var key := Keys(Ranked(table, f, like, None))[n];
            Position(c, EncodeCursor(c, key.at, key.id)) == Ok(Some(key))
  {
    var row := Ranked(table, f, like, None)[n];
    RankedIs(table, f, like, None);
    assert row in table;
    CursorRoundTrip(c, row.createdAt, row.id);
  }

  lemma FirstPage(c: Codec, like: Like, table: seq<OrderRow>, filter: Filter, limit: nat, page: Page)
    requires limit >= 1 && Listed(c, like, table, filter, "", limit) == Ok(page)
    ensures PageAt(c, Keys(Ranked(table, Trimmed(filter), like, None)), 0, limit, page)
    ensures page.total == CountOrders(table, Trimmed(filter), like)
  {
    var rows := Ranked(table, Trimmed(filter), like, None);
    PagedAt(c, rows, page.total, limit, Keys(rows), 0);
  }

  lemma ListedFrom(c: Codec, like: Like, table: seq<OrderRow>, filter: Filter, cursor: string, key: Key, limit: nat, page: Page)
    requires limit >= 1 && Position(c, cursor) == Ok(Some(key)) && Listed(c, like, table, filter, cursor, limit) == Ok(page)
    ensures page == Paged(c, Ranked(table, Trimmed(filter), like, Some(key)), page.total, limit)
  {
  }

  /** The page that follows page `k - 1`, by way of the cursor that one carries. */
  lemma CursorLeads(c: Codec, like: Like, tables: seq<seq<OrderRow>>, filter: Filter, limit: nat, pages: seq<Page>, k: nat,
                    lo: nat)
    requires Sound(c) && limit >= 1 && |tables| == |pages| && 0 < k < |pages| && TableOk(tables[0])
    requires LeadsTo(c, like, tables, filter, limit, pages, k)
    requires NextAt(c, Keys(Ranked(tables[0], Trimmed(filter), like, None)), lo, limit, pages[k - 1].next)
    ensures var f := Trimmed(filter);
            var all := Keys(Ranked(tables[0], f, like, None));
            && lo + limit < |all|
            && pages[k] == Paged(c, Ranked(tables[k], f, like, Some(all[lo + limit - 1])), pages[k].total, limit)
  {
    var all := Keys(Ranked(tables[0], Trimmed(filter), like, None));
    NextPosition(c, like, tables[0], Trimmed(filter), lo + limit - 1);
    ListedFrom(c, like, tables[k], filter, pages[k - 1].next.value, all[lo + limit - 1], limit, pages[k]);
  }

  lemma LaterPage(c: Codec, like: Like, table: seq<OrderRow>, table': seq<OrderRow>, f: Filter, limit: nat, n: nat, page: Page)
    requires limit >= 1 && TableOk(table) && TableOk(table') && Grown(table, table', f, like)
    requires 0 < n < |Ranked(table, f, like, None)|
    requires page == Paged(c, Ranked(table', f, like, Some(Keys(Ranked(table, f, like, None))[n - 1])), page.total, limit)
    ensures PageAt(c, Keys(Ranked(table, f, like, None)), n, limit, page)
  {
    var all := Keys(Ranked(table, f, like, None));
    RowsAfter(table, table', f, like, n);
    PagedAt(c, Ranked(table', f, like, Some(all[n - 1])), page.total, limit, all, n);
  }

  function Times(k: nat, limit: nat): nat {
    if k == 0 then 0 else Times(k - 1, limit) + limit
  }

  lemma {:induction false} TimesIs(k: nat, limit: nat)
    ensures Times(k, limit) == k * limit
  {
    if k > 0 {
      TimesIs(k - 1, limit);
      assert k * limit == (k - 1) * limit + limit;
    }
  }

  lemma StepOfWalk(c: Codec, like: Like, tables: seq<seq<OrderRow>>, filter: Filter, limit: nat, pages: seq<Page>, k: nat)
    requires Sound(c) && limit >= 1 && |tables| == |pages| && 0 < k < |pages|
    requires LeadsTo(c, like, tables, filter, limit, pages, k) && TablesOk(like, tables, Trimmed(filter))
    requires Placed(c, Keys(Ranked(tables[0], Trimmed(filter), like, None)), limit, pages, k - 1)
    ensures Placed(c, Keys(Ranked(tables[0], Trimmed(filter), like, None)), limit, pages, k)
  {
    hide Sound, Position, LeadsTo, NextAt, TableOk, Grown, Ranked;
    var lo := Times(k - 1, limit);
    assert Times(k, limit) == lo + limit;
    assert TableOk(tables[0]) && TableOk(tables[k]) && Grown(tables[0], tables[k], Trimmed(filter), like);
    CursorLeads(c, like, tables, filter, limit, pages, k, lo);
    LaterPage(c, like, tables[0], tables[k], Trimmed(filter), limit, lo + limit, pages[k]);
  }

  ghost predicate Placed(c: Codec, all: seq<Key>, limit: nat, pages: seq<Page>, k: nat)
    requires k < |pages|
  {
    (k == 0 || Times(k, limit) < |all|) && PageAt(c, all, Times(k, limit), limit, pages[k])
  }

  /** The first page starts the listing, and every later one goes on where the one before it ends. */
  ghost predicate Steps(c: Codec, all: seq<Key>, limit: nat, pages: seq<Page>, k: nat)
    requires k < |pages|
  {
    if k == 0 then Placed(c, all, limit, pages, 0)
    else Placed(c, all, limit, pages, k - 1) ==> Placed(c, all, limit, pages, k)
  }

  lemma WalkSteps(c: Codec, like: Like, tables: seq<seq<OrderRow>>, filter: Filter, limit: nat, pages: seq<Page>, k: nat)
    requires Sound(c) && limit >= 1 && Walk(c, like, tables, filter, limit, pages) && k < |pages|
    requires TablesOk(like, tables, Trimmed(filter))
    ensures Steps(c, Keys(Ranked(tables[0], Trimmed(filter), like, None)), limit, pages, k)
  {
    if k == 0 {
      FirstPage(c, like, tables[0], filter, limit, pages[0]);
    } else if Placed(c, Keys(Ranked(tables[0], Trimmed(filter), like, None)), limit, pages, k - 1) {
      assert LeadsTo(c, like, tables, filter, limit, pages, k);
      StepOfWalk(c, like, tables, filter, limit, pages, k);
    }
  }

  ghost predicate AllSteps(c: Codec, all: seq<Key>, limit: nat, pages: seq<Page>) {
    forall k :: 0 <= k < |pages| ==> Steps(c, all, limit, pages, k)
  }

  lemma {:induction false} PageOfSteps(c: Codec, all: seq<Key>, limit: nat, pages: seq<Page>, k: nat)
    requires AllSteps(c, all, limit, pages) && k < |pages|
    ensures Placed(c, all, limit, pages, k)
  {
    assert Steps(c, all, limit, pages, k);
    if k > 0 {
      PageOfSteps(c, all, limit, pages, k - 1);
    }
  }

  function AllItems(pages: seq<Page>): seq<OrderRow> {
    if pages == [] then [] else AllItems(pages[..|pages| - 1]) + pages[|pages| - 1].items
  }

  lemma {:induction false} ItemsOfPages(c: Codec, all: seq<Key>, limit: nat, pages: seq<Page>, n: nat)
    requires AllSteps(c, all, limit, pages) && n <= |pages|
    ensures Keys(AllItems(pages[..n])) == all[..if |all| < Times(n, limit) then |all| else Times(n, limit)]
  {
    if n > 0 {
      ItemsOfPages(c, all, limit, pages, n - 1);
      PageOfSteps(c, all, limit, pages, n - 1);
      assert pages[..n][..n - 1] == pages[..n - 1];
      ItemsJoin(c, all, Times(n - 1, limit), limit, AllItems(pages[..n - 1]), pages[n - 1]);
    }
  }

  lemma ItemsJoin(c: Codec, all: seq<Key>, lo: nat, limit: nat, front: seq<OrderRow>, page: Page)
    requires lo <= |all| && PageAt(c, all, lo, limit, page) && Keys(front) == all[..lo]
    ensures Keys(front + page.items) == all[..if |all| < lo + limit then |all| else lo + limit]
  {
    KeysConcat(front, page.items);
    var hi := if |all| < lo + limit then |all| else lo + limit;
    assert all[..hi] == all[..lo] + all[lo..hi];
  }

  lemma LeadsOn(c: Codec, all: seq<Key>, lo: nat, limit: nat, next: Option<string>)
    requires limit >= 1 && NextAt(c, all, lo, limit, next)
    ensures next.None? <==> |all| <= lo + limit
  {
  }

  lemma LastPage(c: Codec, all: seq<Key>, limit: nat, pages: seq<Page>)
    requires limit >= 1 && |pages| >= 1 && AllSteps(c, all, limit, pages)
    ensures |pages| > 1 ==> (|pages| - 1) * limit < |all|
    ensures pages[|pages| - 1].next.None? <==> |all| <= |pages| * limit
  {
    var n := |pages| - 1;
    PageOfSteps(c, all, limit, pages, n);
    LeadsOn(c, all, Times(n, limit), limit, pages[n].next);
    TimesIs(n, limit);
    TimesIs(n + 1, limit);
  }

  lemma StepsShowAll(c: Codec, all: seq<Key>, limit: nat, pages: seq<Page>)
    requires limit >= 1 && |pages| >= 1 && AllSteps(c, all, limit, pages)
    ensures |pages| > 1 ==> (|pages| - 1) * limit < |all|
    ensures pages[|pages| - 1].next.None? <==> |all| <= |pages| * limit
    ensures pages[|pages| - 1].next.None? ==> Keys(AllItems(pages)) == all
  {
    LastPage(c, all, limit, pages);
    ItemsOfPages(c, all, limit, pages, |pages|);
    TimesIs(|pages|, limit);
    assert pages[..|pages|] == pages && all[..|all|] == all;
  }

  /** Following the cursors ends, after as many pages as the rows at the start fill, and shows every row
      listed at the start exactly once, newest first, however many newer rows join in between. */
  lemma WalkShowsAll(c: Codec, like: Like, tables: seq<seq<OrderRow>>, filter: Filter, limit: nat, pages: seq<Page>)
    requires Sound(c) && limit >= 1 && Walk(c, like, tables, filter, limit, pages)
    requires TablesOk(like, tables, Trimmed(filter))
    ensures var rows := Ranked(tables[0], Trimmed(filter), like, None);
            && (|pages| > 1 ==> (|pages| - 1) * limit < |rows|)
            && (pages[|pages| - 1].next.None? <==> |rows| <= |pages| * limit)
            && (pages[|pages| - 1].next.None? ==> Keys(AllItems(pages)) == Keys(rows))
  {
    var all := Keys(Ranked(tables[0], Trimmed(filter), like, None));
    forall k: nat | k < |pages| ensures Steps(c, all, limit, pages, k) {
      WalkSteps(c, like, tables, filter, limit, pages, k);
    }
    StepsShowAll(c, all, limit, pages);
  }

  /** What a query shows, on the columns: the rows of the merchant, in the half-open interval of time, of the status
      and channel asked for, whose number is the text or whose name holds it, older than the cursor. */
  lemma RankedRows(table: seq<OrderRow>, f: Filter, like: Like, cursor: Option<Key>)
    requires TableOk(table)
    ensures var rows := Ranked(table, f, like, cursor);
            && (forall o :: o in rows <==>
                  && o in table
                  && (f.merchant.Some? ==> o.merchant == f.merchant.value)
                  && (f.start.Some? ==> f.start.value <= o.createdAt) && (f.end.Some? ==> o.createdAt < f.end.value)
                  && (f.status != "" ==> o.status == f.status) && (f.channel != "" ==> o.channel == f.channel)
                  && (f.query != "" ==> f.query == o.tradeNo || f.query == o.outTradeNo || like(o.name, f.query))
                  && (cursor.Some? ==> o.createdAt < cursor.value.at || (o.createdAt == cursor.value.at && o.id < cursor.value.id)))
            && (forall i, j :: 0 <= i < j < |rows| ==>
                  rows[j].createdAt < rows[i].createdAt || (rows[j].createdAt == rows[i].createdAt && rows[j].id < rows[i].id))
  {
    RankedIs(table, f, like, cursor);
    var rows := Ranked(table, f, like, cursor);
    forall i, j | 0 <= i < j < |rows|
      ensures rows[j].createdAt < rows[i].createdAt || (rows[j].createdAt == rows[i].createdAt && rows[j].id < rows[i].id)
    {
      assert Older(Keys(rows)[j], Keys(rows)[i]);
    }
  }

  /** A first page is refused only for a text of more than a hundred characters or an unknown status or channel; page
      sizes run from one to a hundred, twenty when none is given. */
  lemma ListingGuards(c: Codec, like: Like, table: seq<OrderRow>, filter: Filter, limit: nat, asked: int)
    requires limit >= 1
    ensures Listed(c, like, table, filter, "", limit).Ok? <==>
              && |TrimSpace(filter.query)| <= 100
              && (filter.status == "" || filter.status == "paid" || filter.status == "pending" || filter.status == "expired"
                  || filter.status == "refunded")
              && (filter.channel == "" || filter.channel == "alipay" || filter.channel == "wxpay" || filter.channel == "qqpay")
    ensures PageLimit(asked).Ok? <==> 0 <= asked <= 100
    ensures PageLimit(asked).Ok? ==> PageLimit(asked).value == if asked == 0 then 20 else asked
  {
  }

  /** What is listed: exactly the matching rows, each once, newest first, and as many as the page says. */
  lemma ListingIsExact(c: Codec, like: Like, table: seq<OrderRow>, filter: Filter, limit: nat, page: Page)
    requires limit >= 1 && TableOk(table) && Listed(c, like, table, filter, "", limit) == Ok(page)
    ensures var rows := Ranked(table, Trimmed(filter), like, None);
            var query := TrimSpace(filter.query);
            && Descending(Keys(rows))
            && (forall o :: o in rows <==>
                  && o in table
                  && (filter.merchant.Some? ==> o.merchant == filter.merchant.value)
                  && (filter.start.Some? ==> filter.start.value <= o.createdAt)
                  && (filter.end.Some? ==> o.createdAt < filter.end.value)
                  && (filter.status != "" ==> o.status == filter.status)
                  && (filter.channel != "" ==> o.channel == filter.channel)
                  && (query != "" ==> query == o.tradeNo || query == o.outTradeNo || like(o.name, query)))
            && page.total == |rows|
            && page.items == rows[..if |rows| < limit then |rows| else limit]
            && (page.next.Some? <==> |rows| > limit)
  {
    RankedIs(table, Trimmed(filter), like, None);
    RankedRows(table, Trimmed(filter), like, None);
  }
}
