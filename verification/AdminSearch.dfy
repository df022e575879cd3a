/** The admin user list: escaped `LIKE` search is substring search, and the pages add up to the ordered result. */
module AdminSearch {
  import opened Common

  // ---- LIKE --------------------------------------------------------------------------

  function ReplaceChar(s: string, c: char, with: string): string {
    if s == [] then [] else (if s[0] == c then with else [s[0]]) + ReplaceChar(s[1..], c, with)
  }

  function EscapeLike(input: string): string {
    ReplaceChar(ReplaceChar(ReplaceChar(input, '\\', "\\\\"), '%', "\\%"), '_', "\\_")
  }

  /** `text LIKE pattern ESCAPE '\'`, section 9.7.1 of the PostgreSQL manual. */
  predicate Like(pattern: string, text: string)
    decreases |pattern| + |text|
  {
    if pattern == [] then text == []
    else if pattern[0] == '%' then
      Like(pattern[1..], text) || (text != [] && Like(pattern, text[1..]))
    else if pattern[0] == '_' then
      text != [] && Like(pattern[1..], text[1..])
    else if pattern[0] == '\\' then
      |pattern| > 1 && text != [] && text[0] == pattern[1] && Like(pattern[2..], text[1..])
    else
      text != [] && text[0] == pattern[0] && Like(pattern[1..], text[1..])
  }

  /** PostgreSQL raises an error on a pattern that ends with a lone escape character. */
  predicate EndsInLoneEscape(pattern: string) {
    if pattern == [] then false
    else if pattern[0] == '\\' then |pattern| == 1 || EndsInLoneEscape(pattern[2..])
    else EndsInLoneEscape(pattern[1..])
  }

  function SearchPattern(text: string): string {
    "%" + EscapeLike(text) + "%"
  }

  predicate Contains(text: string, part: string) {
    exists k :: 0 <= k <= |text| && part <= text[k..]
  }

  function EscapedChar(c: char): string {
    if c == '\\' || c == '%' || c == '_' then ['\\', c] else [c]
  }

  lemma {:induction false} ReplaceAppend(a: string, b: string, c: char, with: string)
    ensures ReplaceChar(a + b, c, with) == ReplaceChar(a, c, with) + ReplaceChar(b, c, with)
  {
    if a == [] {
      assert a + b == b;
    } else {
      assert (a + b)[1..] == a[1..] + b;
      ReplaceAppend(a[1..], b, c, with);
    }
  }

  /** The three staged replaces amount to escaping character by character. */
  lemma EscapeHead(q: string)
    requires q != []
    ensures EscapeLike(q) == EscapedChar(q[0]) + EscapeLike(q[1..])
  {
    var head, tail := [q[0]], q[1..];
    assert q == head + tail;
    ReplaceAppend(head, tail, '\\', "\\\\");
    var head1, tail1 := ReplaceChar(head, '\\', "\\\\"), ReplaceChar(tail, '\\', "\\\\");
    ReplaceAppend(head1, tail1, '%', "\\%");
    var head2, tail2 := ReplaceChar(head1, '%', "\\%"), ReplaceChar(tail1, '%', "\\%");
    ReplaceAppend(head2, tail2, '_', "\\_");
    assert ReplaceChar(head2, '_', "\\_") == EscapedChar(q[0]) by {
      assert forall x: char, c: char, with: string :: ReplaceChar([x], c, with) == if x == c then with else [x];
      assert forall x: char, y: char, c: char, with: string ::
        ReplaceChar([x, y], c, with) == (if x == c then with else [x]) + (if y == c then with else [y])
      by {
        forall x: char, y: char, c: char, with: string
          ensures ReplaceChar([x, y], c, with) == (if x == c then with else [x]) + (if y == c then with else [y])
        {
          assert [x, y][1..] == [y];
        }
      }
    }
  }

  lemma {:induction false} PercentMatchesAll(text: string)
    ensures Like("%", text)
  {
    if text == [] {
      assert Like("%", text);
    } else {
      PercentMatchesAll(text[1..]);
    }
  }

  lemma {:induction false} LikePrefix(q: string, text: string)
    ensures Like(EscapeLike(q) + "%", text) <==> q <= text
  {
    if q == [] {
      assert EscapeLike(q) + "%" == "%";
      PercentMatchesAll(text);
    } else {
      EscapeHead(q);
      var c, rest := q[0], EscapeLike(q[1..]) + "%";
      var pattern := EscapeLike(q) + "%";
      assert pattern == EscapedChar(c) + rest;
      assert pattern[|EscapedChar(c)|..] == rest;
      assert Like(pattern, text) <==> text != [] && text[0] == c && Like(rest, text[1..]);
      if text != [] {
        LikePrefix(q[1..], text[1..]);
        assert q == [q[0]] + q[1..] && text == [text[0]] + text[1..];
      }
    }
  }

  lemma {:induction false} PercentSkips(rest: string, text: string)
    ensures Like("%" + rest, text) <==> exists k :: 0 <= k <= |text| && Like(rest, text[k..])
  {
    var pattern := "%" + rest;
    assert pattern[1..] == rest && text[0..] == text;
    if text == [] {
      assert Like(pattern, text) == Like(rest, text);
    } else {
      PercentSkips(rest, text[1..]);
      forall k | 0 < k <= |text| ensures text[k..] == text[1..][k - 1..] {}
      if exists k :: 0 <= k <= |text[1..]| && Like(rest, text[1..][k..]) {
        var k :| 0 <= k <= |text[1..]| && Like(rest, text[1..][k..]);
        assert text[k + 1..] == text[1..][k..];
      }
      if exists k :: 0 <= k <= |text| && Like(rest, text[k..]) {
        var k :| 0 <= k <= |text| && Like(rest, text[k..]);
        if k > 0 { assert text[k..] == text[1..][k - 1..]; }
      }
    }
  }

  /** A row matches the built pattern exactly when the search text occurs in it, wildcards and backslashes included. */
  lemma SearchIsSubstring(part: string, text: string)
    ensures Like(SearchPattern(part), text) <==> Contains(text, part)
  {
    var rest := EscapeLike(part) + "%";
    assert SearchPattern(part) == "%" + rest;
    PercentSkips(rest, text);
    forall k | 0 <= k <= |text| ensures Like(rest, text[k..]) <==> part <= text[k..] {
      LikePrefix(part, text[k..]);
    }
  }

  lemma {:induction false} EscapedNeverErrs(q: string)
    ensures !EndsInLoneEscape(EscapeLike(q) + "%")
  {
    if q == [] {
      assert EscapeLike(q) + "%" == "%";
    } else {
      EscapeHead(q);
      EscapedNeverErrs(q[1..]);
      var rest := EscapeLike(q[1..]) + "%";
      assert EscapeLike(q) + "%" == EscapedChar(q[0]) + rest;
      assert (EscapedChar(q[0]) + rest)[|EscapedChar(q[0])|..] == rest;
    }
  }

  /** The pattern never makes the database reject the query. */
  lemma SearchPatternValid(part: string)
    ensures !EndsInLoneEscape(SearchPattern(part))
  {
    EscapedNeverErrs(part);
    assert SearchPattern(part)[1..] == EscapeLike(part) + "%";
  }

  // ---- filter and order --------------------------------------------------------------

  datatype Row = Row(email: string, displayName: Option<string>, createdAt: int, deleted: bool)

  type Table = map<UserId, Row>

  datatype UserSort = CreatedAt | Email

  datatype SortOrder = Asc | Desc

  /** `collate` is the database's order on text. */
  datatype Ordering = Ordering(sort: UserSort, order: SortOrder, collate: (string, string) -> bool)

  datatype Filter = Filter(search: Option<string>, ordering: Ordering, limit: nat, offset: nat)

  ghost predicate TotalOrder(leq: (string, string) -> bool) {
    && (forall a, b :: leq(a, b) || leq(b, a))
    && (forall a, b :: leq(a, b) && leq(b, a) ==> a == b)
    && (forall a, b, c :: leq(a, b) && leq(b, c) ==> leq(a, c))
  }

  /** `WHERE deleted_at IS NULL [AND (email LIKE p OR display_name LIKE p)]`; a NULL name never matches. */
  function Selected(table: Table, pattern: Option<string>): set<UserId> {
    set id | id in table && !table[id].deleted &&
             (pattern.Some? ==> || Like(pattern.value, table[id].email)
                                || (table[id].displayName.Some? && Like(pattern.value, table[id].displayName.value)))
  }

  /** The live users whose email or name contains the search text. */
  function Matching(table: Table, search: Option<string>): set<UserId> {
    set id | id in table && !table[id].deleted &&
             (search.Some? ==> || Contains(table[id].email, search.value)
                               || (table[id].displayName.Some? && Contains(table[id].displayName.value, search.value)))
  }

  lemma SelectedIsMatching(table: Table, search: Option<string>)
    ensures Selected(table, if search.Some? then Some(SearchPattern(search.value)) else None) == Matching(table, search)
  {
    if search.Some? {
      forall id | id in table
        ensures Like(SearchPattern(search.value), table[id].email) == Contains(table[id].email, search.value)
        ensures table[id].displayName.Some? ==>
          Like(SearchPattern(search.value), table[id].displayName.value)
          == Contains(table[id].displayName.value, search.value)
      {
        SearchIsSubstring(search.value, table[id].email);
        if table[id].displayName.Some? { SearchIsSubstring(search.value, table[id].displayName.value); }
      }
    }
  }

  predicate ColumnLeq(table: Table, o: Ordering, a: UserId, b: UserId)
    requires a in table && b in table
  {
    match o.sort
    case CreatedAt => table[a].createdAt <= table[b].createdAt
    case Email => o.collate(table[a].email, table[b].email)
  }

  /** `ORDER BY column direction, id direction`. */
  predicate Precedes(table: Table, o: Ordering, a: UserId, b: UserId)
    requires a in table && b in table
  {
    var (x, y) := if o.order.Asc? then (a, b) else (b, a);
    ColumnLeq(table, o, x, y) && (ColumnLeq(table, o, y, x) ==> x < y)
  }

  ghost predicate Ordered(table: Table, o: Ordering, ids: seq<UserId>) {
    && (forall i :: 0 <= i < |ids| ==> ids[i] in table)
    && (forall i, j :: 0 <= i < j < |ids| ==> Precedes(table, o, ids[i], ids[j]))
  }

  /** `ids` lists exactly the given users, each once, in the requested order. */
  ghost predicate IsListing(table: Table, o: Ordering, ids: seq<UserId>, users: set<UserId>) {
    Ordered(table, o, ids) && (forall id :: id in ids <==> id in users)
  }

  /** Ties in the column are broken by id, so only one order is possible. */
  lemma {:induction false} ListingUnique(
    table: Table, o: Ordering, xs: seq<UserId>, ys: seq<UserId>, users: set<UserId>)
    requires TotalOrder(o.collate)
    requires IsListing(table, o, xs, users) && IsListing(table, o, ys, users)
    ensures xs == ys
    decreases |xs|
  {
    if xs == [] {
      HasMember(ys);
    } else {
      assert xs[0] in users && xs[0] in ys;
      assert ys[0] in users && ys[0] in xs;
      assert xs[0] == ys[0];
      TailListing(table, o, xs, users);
      TailListing(table, o, ys, users);
      ListingUnique(table, o, xs[1..], ys[1..], users - {xs[0]});
    }
  }

  lemma HasMember(ids: seq<UserId>)
    ensures ids == [] || exists id :: id in ids
  {
    if ids != [] { assert ids[0] in ids; }
  }

  lemma TailListing(table: Table, o: Ordering, xs: seq<UserId>, users: set<UserId>)
    requires xs != [] && TotalOrder(o.collate) && IsListing(table, o, xs, users)
    ensures IsListing(table, o, xs[1..], users - {xs[0]})
  {
    forall id ensures id in xs[1..] <==> id in users && id != xs[0] {
      if id in users && id != xs[0] { assert id in xs; }
      if id in xs[1..] {
        var i :| 0 <= i < |xs[1..]| && xs[1..][i] == id;
        assert xs[i + 1] == id && Precedes(table, o, xs[0], xs[i + 1]);
      }
    }
  }

  /** What the four orders mean: by the column asked for, that way round, and by id where the column ties. */
  lemma ListingOrder(table: Table, o: Ordering, ids: seq<UserId>, users: set<UserId>, i: nat, j: nat)
    requires IsListing(table, o, ids, users) && i < j < |ids|
    ensures ids[i] in table && ids[j] in table
    ensures var (first, second) := if o.order == Asc then (ids[i], ids[j]) else (ids[j], ids[i]);
            match o.sort
            case CreatedAt =>
              || table[first].createdAt < table[second].createdAt
              || (table[first].createdAt == table[second].createdAt && first < second)
            case Email =>
              && o.collate(table[first].email, table[second].email)
              && (table[first].email == table[second].email && o.collate(table[first].email, table[first].email) ==>
                    first < second)
  {
    assert Precedes(table, o, ids[i], ids[j]);
  }

  predicate IsLeast(table: Table, o: Ordering, users: set<UserId>, m: UserId)
    requires users <= table.Keys
  {
    m in users && forall x :: x in users && x != m ==> Precedes(table, o, m, x)
  }

  lemma {:induction false} LeastExists(table: Table, o: Ordering, users: set<UserId>)
    requires TotalOrder(o.collate) && users <= table.Keys && users != {}
    ensures exists m :: IsLeast(table, o, users, m)
    decreases |users|
  {
    var u :| u in users;
    var others := users - {u};
    assert forall x :: x in users && x != u ==> x in others;
    if others == {} {
      assert IsLeast(table, o, users, u);
    } else {
      LeastExists(table, o, others);
      var m :| IsLeast(table, o, others, m);
      if Precedes(table, o, u, m) {
        forall x | x in users && x != u ensures Precedes(table, o, u, x) {
          assert x in others;
        }
        assert IsLeast(table, o, users, u);
      } else {
        assert IsLeast(table, o, users, m);
      }
    }
  }

  /** The whole ordered result, before `LIMIT` and `OFFSET`. */
  function Listing(table: Table, o: Ordering, users: set<UserId>): (ids: seq<UserId>)
    requires TotalOrder(o.collate) && users <= table.Keys
    ensures IsListing(table, o, ids, users)
    ensures |ids| == |users|
    decreases |users|
  {
    if users == {} then [] else
      LeastExists(table, o, users);
      var m :| IsLeast(table, o, users, m);
      var rest := Listing(table, o, users - {m});
      ListingCons(table, o, users, m, rest);
      [m] + rest
  }

  lemma ListingCons(table: Table, o: Ordering, users: set<UserId>, m: UserId, rest: seq<UserId>)
    requires users <= table.Keys && IsLeast(table, o, users, m)
    requires IsListing(table, o, rest, users - {m})
    ensures IsListing(table, o, [m] + rest, users)
  {
    var ids := [m] + rest;
    forall i, j | 0 <= i < j < |ids| ensures Precedes(table, o, ids[i], ids[j]) {
      if i == 0 { assert ids[j] in rest; }
    }
  }

  function Window<T>(rows: seq<T>, limit: nat, offset: nat): seq<T> {
    if offset >= |rows| then []
    else if offset + limit <= |rows| then rows[offset..offset + limit] else rows[offset..]
  }

  /** `UsersRepository::list`: the page and the total are those of the substring search. */
  method List(table: Table, filter: Filter) returns (users: seq<UserId>, total: nat)
    requires TotalOrder(filter.ordering.collate)
    ensures total == |Matching(table, filter.search)|
    ensures forall all: seq<UserId> :: IsListing(table, filter.ordering, all, Matching(table, filter.search)) ==>
              users == Window(all, filter.limit, filter.offset)
  {
    var pattern := None;
    if filter.search.Some? {
      pattern := Some("%" + EscapeLike(filter.search.value) + "%");
    }
    var selected := Selected(table, pattern);
    SelectedIsMatching(table, filter.search);
    total := |selected|;
    var rows := Listing(table, filter.ordering, selected);
    users := Window(rows, filter.limit, filter.offset);
    forall all: seq<UserId> | IsListing(table, filter.ordering, all, selected) ensures all == rows {
      ListingUnique(table, filter.ordering, all, rows, selected);
    }
  }

  // ---- pagination --------------------------------------------------------------------

  type U32 = x: int | 0 <= x < 0x1_0000_0000

  const U32_MAX: U32 := 0xFFFF_FFFF
  const I64_MAX: int := 0x7FFF_FFFF_FFFF_FFFF
  const DEFAULT_PER_PAGE: U32 := 20
  const MAX_PER_PAGE: U32 := 100

  datatype Pagination = Pagination(page: U32, perPage: U32) {

    predicate Valid() {
      1 <= page && 1 <= perPage <= MAX_PER_PAGE
    }

    function Limit(): (r: int)
      requires Valid()
      ensures 1 <= r <= 100
    {
      perPage
    }

    /** The 64-bit product and the end of the window never overflow. */
    function Offset(): (r: int)
      requires Valid()
      ensures 0 <= r <= r + Limit() <= I64_MAX
    {
      ProductBound(page - 1, perPage);
      (page - 1) * perPage
    }
  }

  lemma ProductBound(a: nat, b: nat)
    requires b <= 100
    ensures 0 <= a * b <= 100 * a
  {
  }

  function Clamp(x: U32, lo: U32, hi: U32): U32 {
    if x < lo then lo else if x > hi then hi else x
  }

  function NewPagination(page: Option<U32>, perPage: Option<U32>): (p: Pagination)
    ensures p.Valid()
    ensures page.Some? && page.value >= 1 ==> p.page == page.value
    ensures page == None || page == Some(0) ==> p.page == 1
    ensures perPage == None ==> p.perPage == 20
    ensures perPage.Some? && 1 <= perPage.value <= 100 ==> p.perPage == perPage.value
    ensures perPage == Some(0) ==> p.perPage == 1
    ensures perPage.Some? && perPage.value > 100 ==> p.perPage == 100
  {
    var wanted: U32 := if page.Some? then page.value else 1;
    Pagination(if wanted < 1 then 1 else wanted,
               Clamp(if perPage.Some? then perPage.value else DEFAULT_PER_PAGE, 1, MAX_PER_PAGE))
  }

  /** The first `n` pages put one after another. */
  function PagesUpTo<T>(rows: seq<T>, perPage: Option<U32>, n: U32): seq<T> {
    if n == 0 then []
    else
      var p := NewPagination(Some(n), perPage);
      PagesUpTo(rows, perPage, n - 1) + Window(rows, p.Limit(), p.Offset())
  }

  function FirstRows<T>(rows: seq<T>, k: nat): seq<T> {
    if k <= |rows| then rows[..k] else rows
  }

  lemma WindowExtends<T>(rows: seq<T>, k: nat, size: nat)
    ensures FirstRows(rows, k) + Window(rows, size, k) == FirstRows(rows, k + size)
  {
  }

  lemma {:induction false} PagesArePrefix<T>(rows: seq<T>, perPage: Option<U32>, n: U32)
    ensures PagesUpTo(rows, perPage, n) == FirstRows(rows, n * NewPagination(None, perPage).perPage)
  {
    var size := NewPagination(None, perPage).perPage;
    if n == 0 {
      ProductBound(0, size);
    } else {
      PagesArePrefix(rows, perPage, n - 1);
      var p := NewPagination(Some(n), perPage);
      var k := p.Offset();
      assert k == (n - 1) * size;
      WindowExtends(rows, k, size);
      assert k + size == n * size by { NextMultiple(n - 1, size); }
    }
  }

  lemma NextMultiple(a: nat, b: nat)
    ensures a * b + b == (a + 1) * b
  {
  }

  /** Walking the pages shows every row once and in order exactly when the page numbers reach the end. */
  lemma PagesCoverIff<T>(rows: seq<T>, perPage: Option<U32>, n: U32)
    ensures PagesUpTo(rows, perPage, n) == rows <==> n * NewPagination(None, perPage).perPage >= |rows|
  {
    PagesArePrefix(rows, perPage, n);
  }

  /** All the pages there are, from 1 to 2^32 - 1, show everything exactly when the result is not longer than that. */
  lemma AllPagesCoverIff<T>(rows: seq<T>, perPage: Option<U32>)
    ensures PagesUpTo(rows, perPage, U32_MAX) == rows <==> |rows| <= U32_MAX * NewPagination(None, perPage).perPage
  {
    PagesCoverIff(rows, perPage, U32_MAX);
  }

  /** A result that is too long for its pages. */
  lemma SomeResultIsCutOff(perPage: Option<U32>) returns (rows: seq<nat>)
    ensures PagesUpTo(rows, perPage, U32_MAX) != rows
  {
    rows := seq(U32_MAX * NewPagination(None, perPage).perPage + 1, i => i);
    AllPagesCoverIff(rows, perPage);
  }

  /**
   * The pages of a search, concatenated, are the ordered list of live users whose email or name contains the text,
   * whatever the table, the text, the order and the page size; it is the only such list.
   */
  lemma SearchPagesComplete(
    table: Table, search: Option<string>, o: Ordering, perPage: Option<U32>, n: U32, all: seq<UserId>)
    requires TotalOrder(o.collate)
    requires n * NewPagination(None, perPage).perPage >= |Matching(table, search)|
    requires IsListing(table, o, all, Matching(table, search))
    ensures var pattern := if search.Some? then Some(SearchPattern(search.value)) else None;
            PagesUpTo(Listing(table, o, Selected(table, pattern)), perPage, n) == all
  {
    SelectedIsMatching(table, search);
    var rows := Listing(table, o, Matching(table, search));
    ListingUnique(table, o, rows, all, Matching(table, search));
    PagesCoverIff(rows, perPage, n);
  }
}
