/** What the two scoreboards share: rows, board entries, and what sorting entries and numbering them determines. */
module Ranking {
  import opened Basics
  import opened Text
  import opened Verdicts

  /** A submission row of a contest, as the scoreboard query returns it. */
  datatype Sub = Sub(user: nat, problem: nat, status: Status, score: int, at: int)

  datatype Cell = Cell(problem: nat, status: Label, submit: int, score: int, penalty: int)

  datatype Entry = Entry(name: string, ac: int, submit: int, score: int, penalty: int, cells: seq<Cell>, rank: int)

  /** Users by id with their names, and the contest's problems in display order. */
  datatype Roster = Roster(users: map<nat, string>, problems: seq<nat>)

  predicate NamesDistinct(roster: Roster)
  {
    forall u, v | u in roster.users && v in roster.users && u != v :: roster.users[u] != roster.users[v]
  }

  predicate OnBoard(row: Sub, roster: Roster) { row.problem in roster.problems && row.user in roster.users }

  /** The users with a row on the board. */
  function Participants(rows: seq<Sub>, roster: Roster): set<nat>
  {
    set row | row in rows && OnBoard(row, roster) :: row.user
  }

  function Unranked(board: seq<Entry>): seq<Entry>
  {
    seq(|board|, i requires 0 <= i < |board| => board[i].(rank := 0))
  }

  /** A comparator that looks at neither entry's rank. */
  ghost predicate IgnoresRank(before: (Entry, Entry) -> bool)
  {
    forall a: Entry, b: Entry, i, j :: before(a.(rank := i), b.(rank := j)) == before(a, b)
  }

  /** `order` lists the users of `entries`, each once. */
  ghost predicate Lists(order: seq<nat>, entries: map<nat, Entry>)
  {
    NoDup(order) && forall u :: u in order <==> u in entries
  }

  /** `items` are the entries of all users but those left, in the order they were visited. */
  ghost predicate Collected(items: seq<Entry>, order: seq<nat>, entries: map<nat, Entry>, left: set<nat>)
  {
    && NoDup(order) && (forall u :: u in order <==> u in entries && u !in left)
    && items == Lookup(entries, order)
  }

  /** `items` are the entries of all users, each once, in some order. */
  ghost predicate Gathered(items: seq<Entry>, entries: map<nat, Entry>)
  {
    exists order: seq<nat> | Lists(order, entries) :: items == Lookup(entries, order)
  }

  lemma Unnumbered(items: seq<Entry>, entries: map<nat, Entry>)
    requires Gathered(items, entries) && forall u | u in entries :: entries[u].rank == 0
    ensures forall i | 0 <= i < |items| :: items[i].rank == 0
  {
    var order: seq<nat> :| Lists(order, entries) && items == Lookup(entries, order);
    forall i | 0 <= i < |items| ensures items[i].rank == 0 { assert order[i] in order; }
  }

  lemma CollectNone(entries: map<nat, Entry>)
    ensures Collected([], [], entries, entries.Keys)
  {}

  lemma CollectMore(items: seq<Entry>, order: seq<nat>, entries: map<nat, Entry>, left: set<nat>, user: nat,
                    entry: Entry)
    requires Collected(items, order, entries, left) && user in left && user in entries && entry == entries[user]
    ensures Collected(items + [entry], order + [user], entries, left - {user})
  {}

  /** The board lists each entry once, in order, with ranks 1..n. */
  ghost predicate IsBoard(board: seq<Entry>, entries: map<nat, Entry>, before: (Entry, Entry) -> bool)
  {
    && (forall i | 0 <= i < |board| :: board[i].rank == i + 1)
    && SortedBy(before, board)
    && exists order: seq<nat> | Lists(order, entries) :: multiset(Unranked(board)) == multiset(Lookup(entries, order))
  }

  ghost predicate Separates(before: (Entry, Entry) -> bool, entries: map<nat, Entry>)
  {
    && (forall x, y | x in entries.Values && y in entries.Values && x != y :: before(x, y) || before(y, x))
    && (forall x :: !before(x, x))
    && (forall u, v | u in entries && v in entries && u != v :: entries[u] != entries[v])
  }

  /** If the comparator separates any two entries there is only one board, whatever order the entries were
      collected and sorted in. */
  lemma BoardIsUnique(a: seq<Entry>, b: seq<Entry>, entries: map<nat, Entry>, before: (Entry, Entry) -> bool)
    requires IsBoard(a, entries, before) && IsBoard(b, entries, before)
    requires IgnoresRank(before) && Separates(before, entries)
    ensures a == b
  {
    SamePool(a, b, entries, before);
    UnrankedSorted(a, before);
    UnrankedSorted(b, before);
    SortedUnique(before, Unranked(a), Unranked(b));
    assert |a| == |Unranked(a)| == |Unranked(b)| == |b|;
    forall i | 0 <= i < |a| ensures a[i] == b[i] {
      assert Unranked(a)[i] == Unranked(b)[i];
      assert a[i].(rank := 0) == b[i].(rank := 0) && a[i].rank == b[i].rank;
    }
  }

  lemma SamePool(a: seq<Entry>, b: seq<Entry>, entries: map<nat, Entry>, before: (Entry, Entry) -> bool)
    requires IsBoard(a, entries, before) && IsBoard(b, entries, before)
    ensures multiset(Unranked(a)) == multiset(Unranked(b))
    ensures forall x :: x in Unranked(a) ==> x in entries.Values
  {
    var o: seq<nat> :| Lists(o, entries) && multiset(Unranked(a)) == multiset(Lookup(entries, o));
    var p: seq<nat> :| Lists(p, entries) && multiset(Unranked(b)) == multiset(Lookup(entries, p));
    ListingsPermute(o, p);
    MapPermutes(entries, o, p);
    forall x | x in Unranked(a) ensures x in entries.Values {
      assert x in multiset(Unranked(a)) && x in multiset(Lookup(entries, o));
      var i :| 0 <= i < |o| && Lookup(entries, o)[i] == x;
      assert o[i] in entries && entries[o[i]] == x;
    }
  }

  /** The unique board is strictly ordered: no two places tie. */
  lemma BoardIsStrict(board: seq<Entry>, entries: map<nat, Entry>, before: (Entry, Entry) -> bool, i: nat, j: nat)
    requires IsBoard(board, entries, before) && IgnoresRank(before) && Separates(before, entries) && i < j < |board|
    ensures before(board[i], board[j])
  {
    SamePool(board, board, entries, before);
    PlacesDiffer(board, entries, before, i, j);
    var x, y := Unranked(board)[i], Unranked(board)[j];
    assert before(y, x) == before(board[j], board[i]) && before(x, y) == before(board[i], board[j]);
  }

  lemma PlacesDiffer(board: seq<Entry>, entries: map<nat, Entry>, before: (Entry, Entry) -> bool, i: nat, j: nat)
    requires IsBoard(board, entries, before) && Separates(before, entries) && i < j < |board|
    ensures Unranked(board)[i] != Unranked(board)[j]
  {
    var o: seq<nat> :| Lists(o, entries) && multiset(Unranked(board)) == multiset(Lookup(entries, o));
    var x := Unranked(board)[i];
    NoDupCount(Lookup(entries, o), x);
    if Unranked(board)[j] == x { CountTwice(Unranked(board), i, j); }
  }

  lemma UnrankedSorted(board: seq<Entry>, before: (Entry, Entry) -> bool)
    requires SortedBy(before, board) && IgnoresRank(before)
    ensures SortedBy(before, Unranked(board))
  {}

  /** Sort the collected entries and number them. */
  method RankEntries(items: seq<Entry>, before: (Entry, Entry) -> bool) returns (board: seq<Entry>)
    requires StrictWeakOn(before, items) && IgnoresRank(before)
    requires forall i | 0 <= i < |items| :: items[i].rank == 0
    ensures multiset(Unranked(board)) == multiset(items) && SortedBy(before, board)
    ensures forall i | 0 <= i < |board| :: board[i].rank == i + 1
  {
    var sorted := Sort(before, items);
    forall i | 0 <= i < |sorted| ensures sorted[i].rank == 0 {
      assert sorted[i] in multiset(items);
    }
    board := sorted;
    for i := 0 to |board|
      invariant |board| == |sorted|
      invariant forall k | 0 <= k < |board| :: board[k] == if k < i then sorted[k].(rank := k + 1) else sorted[k]
    {
      board := board[i := board[i].(rank := i + 1)];
    }
    assert Unranked(board) == sorted;
    forall i, j | 0 <= i < j < |board| ensures !before(board[j], board[i]) {
      assert before(sorted[j].(rank := j + 1), sorted[i].(rank := i + 1)) == before(sorted[j], sorted[i]);
    }
  }

  /** Every user has a line, and there are no more lines. */
  lemma EveryoneHasALine(board: seq<Entry>, entries: map<nat, Entry>, before: (Entry, Entry) -> bool)
    requires IsBoard(board, entries, before)
    ensures |board| == |entries.Keys|
    ensures forall u | u in entries :: exists i :: 0 <= i < |board| && board[i].name == entries[u].name
  {
    var order: seq<nat> :| Lists(order, entries) && multiset(Unranked(board)) == multiset(Lookup(entries, order));
    assert |Unranked(board)| == |multiset(Unranked(board))| == |multiset(Lookup(entries, order))| == |order|;
    ListedOnce(order, entries.Keys);
    forall u | u in entries ensures exists i :: 0 <= i < |board| && board[i].name == entries[u].name {
      var j :| 0 <= j < |order| && order[j] == u;
      assert Lookup(entries, order)[j] in multiset(Unranked(board));
      var i :| 0 <= i < |board| && Unranked(board)[i] == entries[u];
      assert board[i].name == entries[u].name;
    }
  }

  lemma {:induction false} ListedOnce(order: seq<nat>, users: set<nat>)
    requires NoDup(order) && forall u :: u in order <==> u in users
    ensures |order| == |users|
  {
    if order == [] {
      assert users == {};
    } else {
      var u := order[0];
      assert u in users && |users - {u}| == |users| - 1;
      forall v ensures v in order[1..] <==> v in users - {u} {
        if v in order[1..] { assert v != u; }
        if v in users - {u} { assert v in order && order == [u] + order[1..]; }
      }
      ListedOnce(order[1..], users - {u});
    }
  }

  /** Gathered entries, sorted and numbered, make a board. */
  lemma GatheredIsBoard(board: seq<Entry>, items: seq<Entry>, entries: map<nat, Entry>, before: (Entry, Entry) -> bool)
    requires Gathered(items, entries)
    requires multiset(Unranked(board)) == multiset(items) && SortedBy(before, board)
    requires forall i | 0 <= i < |board| :: board[i].rank == i + 1
    ensures IsBoard(board, entries, before)
  {}

  /** A lexicographic comparator on (key, name) pairs is a strict weak order because byte order on names is. */
  lemma NamesWeak()
    ensures forall a, b, c :: Before(a, b) && Before(b, c) ==> Before(a, c)
    ensures forall a, b :: a == b || Before(a, b) || Before(b, a)
    ensures forall a :: !Before(a, a)
  {
    forall a, b, c | Before(a, b) && Before(b, c) ensures Before(a, c) { BeforeTransitive(a, b, c); }
    forall a, b ensures a == b || Before(a, b) || Before(b, a) { BeforeTotal(a, b); }
    forall a ensures !Before(a, a) { BeforeIrreflexive(a); }
  }
}
