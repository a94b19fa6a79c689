/** The OI scoreboard: best finished score per problem, whatever order the rows come in. */
module OiBoard {
  import opened Basics
  import opened Text
  import opened Verdicts
  import opened Ranking

  /** The running record of one user on one problem. */
  datatype Tally = Tally(score: int, accepted: bool, attempt: nat, done: nat, pending: nat)

  const NO_TALLY := Tally(0, false, 0, 0, 0)

  function Record(t: Tally, row: Sub): Tally
  {
    if Live(row.status) then t.(attempt := t.attempt + 1, pending := t.pending + 1)
    else Tally(if t.done == 0 || row.score > t.score then row.score else t.score,
               t.accepted || row.status.AC?, t.attempt + 1, t.done + 1, t.pending)
  }

  predicate Mine(row: Sub, user: nat, problem: nat) { row.user == user && row.problem == problem }

  function TallyOf(rows: seq<Sub>, user: nat, problem: nat): Tally
  {
    if rows == [] then NO_TALLY
    else
      var t, row := TallyOf(rows[..|rows| - 1], user, problem), rows[|rows| - 1];
      if Mine(row, user, problem) then Record(t, row) else t
  }

  /** Every row of the user on a contest problem, finished or not. */
  function SubmitOf(rows: seq<Sub>, user: nat, roster: Roster): nat
  {
    if rows == [] then 0
    else
      var row := rows[|rows| - 1];
      SubmitOf(rows[..|rows| - 1], user, roster) + if row.user == user && row.problem in roster.problems then 1 else 0
  }

  function LabelOf(t: Tally): Label
  {
    if t.accepted then Accepted
    else if t.done == 0 && t.pending > 0 then Pending
    else if t.attempt > 0 then Tried
    else Untouched
  }

  function CellsOf(rows: seq<Sub>, user: nat, roster: Roster): seq<Cell>
  {
    seq(|roster.problems|, i requires 0 <= i < |roster.problems| =>
      var t := TallyOf(rows, user, roster.problems[i]);
      Cell(roster.problems[i], LabelOf(t), t.attempt, t.score, 0))
  }

  function Scores(cells: seq<Cell>): seq<int> { seq(|cells|, i requires 0 <= i < |cells| => cells[i].score) }

  function AcceptedIn(cells: seq<Cell>): nat
  {
    if cells == [] then 0
    else AcceptedIn(cells[..|cells| - 1]) + if cells[|cells| - 1].status.Accepted? then 1 else 0
  }

  function EntryOf(rows: seq<Sub>, user: nat, roster: Roster): Entry
    requires user in roster.users
  {
    var cells := CellsOf(rows, user, roster);
    Entry(roster.users[user], AcceptedIn(cells), SubmitOf(rows, user, roster), Sum(Scores(cells)), 0, cells, 0)
  }

  function Entries(rows: seq<Sub>, roster: Roster): map<nat, Entry>
  {
    map user | user in Participants(rows, roster) :: EntryOf(rows, user, roster)
  }

  predicate Ahead(a: Entry, b: Entry)
  {
    if a.score != b.score then a.score > b.score else Before(a.name, b.name)
  }

  // ---- the stateful fold --------------------------------------------------

  datatype UserState = UserState(submit: nat, problems: map<nat, Tally>)

  function Held(states: map<nat, UserState>, user: nat, problem: nat): Tally
  {
    if user in states && problem in states[user].problems then states[user].problems[problem] else NO_TALLY
  }

  function HeldSubmit(states: map<nat, UserState>, user: nat): nat
  {
    if user in states then states[user].submit else 0
  }

  ghost predicate Tracks(states: map<nat, UserState>, rows: seq<Sub>, roster: Roster)
  {
    && states.Keys == Participants(rows, roster)
    && (forall user | user in roster.users :: HeldSubmit(states, user) == SubmitOf(rows, user, roster))
    && (forall user, problem | user in roster.users && problem in roster.problems ::
          Held(states, user, problem) == TallyOf(rows, user, problem))
  }

  function Tracked(states: map<nat, UserState>, row: Sub, roster: Roster): map<nat, UserState>
  {
    if !OnBoard(row, roster) then states
    else
      var got := if row.user in states then states[row.user] else UserState(0, map[]);
      states[row.user := UserState(got.submit + 1,
                                   got.problems[row.problem := Record(Held(states, row.user, row.problem), row)])]
  }

  lemma TrackOne(states: map<nat, UserState>, rows: seq<Sub>, row: Sub, roster: Roster)
    requires Tracks(states, rows, roster)
    ensures Tracks(Tracked(states, row, roster), rows + [row], roster)
  {}

  /** The body of the row loop. */
  method TakeRow(states: map<nat, UserState>, row: Sub, roster: Roster) returns (after: map<nat, UserState>)
    ensures after == Tracked(states, row, roster)
  {
    if row.problem !in roster.problems || row.user !in roster.users { return states; }
    var got := if row.user in states then states[row.user] else UserState(0, map[]);
    var t := if row.problem in got.problems then got.problems[row.problem] else NO_TALLY;
    got := got.(submit := got.submit + 1);
    t := t.(attempt := t.attempt + 1);
    if Live(row.status) {
      t := t.(pending := t.pending + 1);
    } else {
      if t.done == 0 || row.score > t.score { t := t.(score := row.score); }
      if row.status.AC? { t := t.(accepted := true); }
      t := t.(done := t.done + 1);
    }
    after := states[row.user := got.(problems := got.problems[row.problem := t])];
  }

  method TallyRows(rows: seq<Sub>, roster: Roster) returns (states: map<nat, UserState>)
    ensures Tracks(states, rows, roster)
  {
    states := map[];
    for i := 0 to |rows|
      invariant Tracks(states, rows[..i], roster)
    {
      assert rows[..i + 1] == rows[..i] + [rows[i]];
      TrackOne(states, rows[..i], rows[i], roster);
      states := TakeRow(states, rows[i], roster);
    }
    assert rows[..|rows|] == rows;
  }

  /** The totals after the first `i` problems. */
  predicate LineSoFar(all: seq<Cell>, i: nat, cells: seq<Cell>, ac: int, score: int)
  {
    i <= |all| && cells == all[..i] && ac == AcceptedIn(cells) && score == Sum(Scores(cells))
  }

  lemma LineMore(all: seq<Cell>, i: nat, cells: seq<Cell>, ac: int, score: int)
    requires LineSoFar(all, i, cells, ac, score) && i < |all|
    ensures LineSoFar(all, i + 1, cells + [all[i]], ac + if all[i].status.Accepted? then 1 else 0, score + all[i].score)
  {
    var more := cells + [all[i]];
    assert all[..i + 1] == more && more[..|cells|] == cells;
    assert Scores(more) == Scores(cells) + [all[i].score];
  }

  /** The status of one problem in a user's line. */
  method StatusOf(t: Tally) returns (status: Label)
    ensures status == LabelOf(t)
  {
    status := Untouched;
    if t.done == 0 && t.pending > 0 {
      status := Pending;
    } else if t.attempt > 0 {
      status := Tried;
    }
    if t.accepted { status := Accepted; }
  }

  lemma CellHeld(states: map<nat, UserState>, rows: seq<Sub>, user: nat, roster: Roster, i: nat)
    requires Tracks(states, rows, roster) && user in roster.users && i < |roster.problems|
    ensures var t := Held(states, user, roster.problems[i]);
            CellsOf(rows, user, roster)[i] == Cell(roster.problems[i], LabelOf(t), t.attempt, t.score, 0)
  {}

  /** One user's line out of the nested maps. */
  method LineOf(states: map<nat, UserState>, user: nat, ghost rows: seq<Sub>, roster: Roster) returns (entry: Entry)
    requires Tracks(states, rows, roster) && user in states && user in roster.users
    ensures entry == EntryOf(rows, user, roster)
  {
    var got := states[user];
    var ac, score, cells := 0, 0, [];
    ghost var all := CellsOf(rows, user, roster);
    for i := 0 to |roster.problems|
      invariant LineSoFar(all, i, cells, ac, score)
    {
      var problem := roster.problems[i];
      var t := if problem in got.problems then got.problems[problem] else NO_TALLY;
      var status := StatusOf(t);
      CellHeld(states, rows, user, roster, i);
      LineMore(all, i, cells, ac, score);
      cells := cells + [Cell(problem, status, t.attempt, t.score, 0)];
      score := score + t.score;
      if status.Accepted? { ac := ac + 1; }
    }
    assert all[..|all|] == all && HeldSubmit(states, user) == SubmitOf(rows, user, roster);
    entry := Entry(roster.users[user], ac, got.submit, score, 0, cells, 0);
  }

  method CollectLines(states: map<nat, UserState>, ghost rows: seq<Sub>, roster: Roster, ghost entries: map<nat, Entry>)
    returns (items: seq<Entry>)
    requires Tracks(states, rows, roster) && states.Keys == entries.Keys
    requires entries == Entries(rows, roster)
    ensures Gathered(items, entries)
  {
    items := [];
    ghost var order: seq<nat> := [];
    var left := states.Keys;
    CollectNone(entries);
    while left != {}
      invariant left <= states.Keys
      invariant Collected(items, order, entries, left)
      decreases left
    {
      var user :| user in left;
      var entry := LineOf(states, user, rows, roster);
      CollectMore(items, order, entries, left, user, entry);
      left, items, order := left - {user}, items + [entry], order + [user];
    }
  }

  lemma BoardLines(board: seq<Entry>, rows: seq<Sub>, roster: Roster)
    requires IsBoard(board, Entries(rows, roster), Ahead)
    ensures |board| == |set r | r in rows && r.problem in roster.problems && r.user in roster.users :: r.user|
    ensures forall r | r in rows && r.problem in roster.problems && r.user in roster.users ::
              exists i :: 0 <= i < |board| && board[i].name == roster.users[r.user]
  {
    hide IsBoard;
    var entries := Entries(rows, roster);
    EveryoneHasALine(board, entries, Ahead);
    var roster := roster;
    assert entries.Keys == set r | r in rows && r.problem in roster.problems && r.user in roster.users :: r.user;
    forall r | r in rows && r.problem in roster.problems && r.user in roster.users
      ensures exists i :: 0 <= i < |board| && board[i].name == roster.users[r.user]
    {
      assert r.user in entries && entries[r.user].name == roster.users[r.user];
    }
  }

  lemma BoardOrder(board: seq<Entry>)
    requires SortedBy(Ahead, board)
    ensures forall i, j | 0 <= i < j < |board| ::
              var a, b := board[i], board[j];
              a.score >= b.score && (a.score == b.score ==> a.name == b.name || Before(a.name, b.name))
  {
    NamesWeak();
    forall i, j | 0 <= i < j < |board| ensures !Ahead(board[j], board[i]) {}
  }

  /** `oiRank`. */
  method OiRank(rows: seq<Sub>, roster: Roster) returns (board: seq<Entry>)
    ensures IsBoard(board, Entries(rows, roster), Ahead)
    // a line for each user with a row on a problem of the contest
    ensures |board| == |set r | r in rows && r.problem in roster.problems && r.user in roster.users :: r.user|
    ensures forall r | r in rows && r.problem in roster.problems && r.user in roster.users ::
              exists i :: 0 <= i < |board| && board[i].name == roster.users[r.user]
    // the higher score first, then the name
    ensures forall i, j | 0 <= i < j < |board| ::
              var a, b := board[i], board[j];
              a.score >= b.score && (a.score == b.score ==> a.name == b.name || Before(a.name, b.name))
  {
    hide Ahead, IsBoard, Gathered;
    var states := TallyRows(rows, roster);
    var items := CollectLines(states, rows, roster, Entries(rows, roster));
    Unnumbered(items, Entries(rows, roster));
    AheadWeak(items);
    board := RankEntries(items, Ahead);
    GatheredIsBoard(board, items, Entries(rows, roster), Ahead);
    BoardLines(board, rows, roster);
    BoardOrder(board);
  }

  lemma AheadWeak(items: seq<Entry>)
    ensures StrictWeakOn(Ahead, items) && IgnoresRank(Ahead)
  {
    NamesWeak();
  }

  // ---- what the fold means ------------------------------------------------

  /** The user's rows on a problem, and how many of some rows are live. */
  function RowsOf(rows: seq<Sub>, user: nat, problem: nat): seq<Sub>
  {
    if rows == [] then []
    else
      var init, row := RowsOf(rows[..|rows| - 1], user, problem), rows[|rows| - 1];
      if Mine(row, user, problem) then init + [row] else init
  }

  function LiveIn(rows: seq<Sub>): (n: nat)
    ensures n <= |rows|
  {
    if rows == [] then 0 else LiveIn(rows[..|rows| - 1]) + if Live(rows[|rows| - 1].status) then 1 else 0
  }

  /** The tally counts the user's rows on the problem, those of them that are live, and the others. */
  lemma {:induction false} TallyCounts(rows: seq<Sub>, user: nat, problem: nat)
    ensures var t, mine := TallyOf(rows, user, problem), RowsOf(rows, user, problem);
            t.attempt == |mine| && t.pending == LiveIn(mine) && t.done == |mine| - LiveIn(mine)
  {
    if rows != [] {
      var init, row := rows[..|rows| - 1], rows[|rows| - 1];
      TallyCounts(init, user, problem);
      var mine := RowsOf(init, user, problem);
      assert (mine + [row])[..|mine|] == mine;
    }
  }

  /** The tally says: the best finished score, or 0 if nothing finished; accepted iff some row is. */
  lemma {:induction false} TallyMeans(rows: seq<Sub>, user: nat, problem: nat)
    ensures var t := TallyOf(rows, user, problem);
            && t.attempt == t.done + t.pending
            && (t.attempt > 0 <==> exists r :: r in rows && Mine(r, user, problem))
            && (t.done > 0 <==> exists r :: r in rows && Mine(r, user, problem) && !Live(r.status))
            && (t.pending > 0 <==> exists r :: r in rows && Mine(r, user, problem) && Live(r.status))
            && (t.accepted <==> exists r :: r in rows && Mine(r, user, problem) && r.status.AC?)
            && (forall r | r in rows && Mine(r, user, problem) && !Live(r.status) :: r.score <= t.score)
            && (t.done > 0 ==> exists r :: r in rows && Mine(r, user, problem) && !Live(r.status) && r.score == t.score)
            && (t.done == 0 ==> t.score == 0)
  {
    if rows != [] {
      var init, row := rows[..|rows| - 1], rows[|rows| - 1];
      TallyMeans(init, user, problem);
      assert forall r :: r in rows <==> r in init || r == row;
    }
  }

  /** A user's line: the accepted cells, the sum of the best scores, the number of rows, a cell a problem. */
  lemma {:induction false} EntryMeans(rows: seq<Sub>, user: nat, roster: Roster)
    requires user in roster.users
    ensures var e, problems := EntryOf(rows, user, roster), roster.problems;
            && e.name == roster.users[user] && |e.cells| == |problems|
            && (forall i | 0 <= i < |problems| ::
                  var t := TallyOf(rows, user, problems[i]);
                  && e.cells[i].problem == problems[i] && e.cells[i].submit == t.attempt && e.cells[i].score == t.score
                  && (e.cells[i].status == Accepted <==> t.accepted))
            && e.ac == |set i | 0 <= i < |problems| && e.cells[i].status == Accepted|
            && e.score == Sum(seq(|problems|, i requires 0 <= i < |problems| => e.cells[i].score))
            && e.submit == |set i | 0 <= i < |rows| && rows[i].user == user && rows[i].problem in problems|
            && e.penalty == 0
  {
    var e := EntryOf(rows, user, roster);
    var p := (c: Cell) => c.status == Accepted;
    AcceptedCells(e.cells, p);
    CountIsCardinality(e.cells, p, set i | 0 <= i < |e.cells| && e.cells[i].status == Accepted);
    SubmitMeans(rows, user, roster);
    assert Scores(e.cells) == seq(|e.cells|, i requires 0 <= i < |e.cells| => e.cells[i].score);
  }

  lemma {:induction false} AcceptedCells(cells: seq<Cell>, p: Cell -> bool)
    requires forall i | 0 <= i < |cells| :: p(cells[i]) <==> cells[i].status == Accepted
    ensures AcceptedIn(cells) == Count(cells, p)
  {
    if cells != [] { AcceptedCells(cells[..|cells| - 1], p); }
  }

  lemma {:induction false} SubmitMeans(rows: seq<Sub>, user: nat, roster: Roster)
    ensures SubmitOf(rows, user, roster)
            == |set i | 0 <= i < |rows| && rows[i].user == user && rows[i].problem in roster.problems|
  {
    var p := (r: Sub) => r.user == user && r.problem in roster.problems;
    SubmitIsCount(rows, user, roster, p);
    CountIsCardinality(rows, p, set i | 0 <= i < |rows| && rows[i].user == user
                                        && rows[i].problem in roster.problems);
  }

  lemma {:induction false} SubmitIsCount(rows: seq<Sub>, user: nat, roster: Roster, p: Sub -> bool)
    requires forall r :: p(r) <==> r.user == user && r.problem in roster.problems
    ensures SubmitOf(rows, user, roster) == Count(rows, p)
  {
    if rows != [] { SubmitIsCount(rows[..|rows| - 1], user, roster, p); }
  }

  lemma RecordsCommute(t: Tally, a: Sub, b: Sub)
    ensures Record(Record(t, a), b) == Record(Record(t, b), a)
  {}

  /** Moving one row to the end changes neither tallies nor submission counts. */
  lemma {:induction false} MoveLast(rows: seq<Sub>, j: nat, user: nat, problem: nat, roster: Roster)
    requires j < |rows|
    ensures var moved := rows[..j] + rows[j + 1..] + [rows[j]];
            TallyOf(rows, user, problem) == TallyOf(moved, user, problem)
            && SubmitOf(rows, user, roster) == SubmitOf(moved, user, roster)
  {
    var moved := rows[..j] + rows[j + 1..] + [rows[j]];
    if j == |rows| - 1 {
      assert moved == rows;
    } else {
      var init, last := rows[..|rows| - 1], rows[|rows| - 1];
      MoveLast(init, j, user, problem, roster);
      var rest := rows[..j] + rows[j + 1..];
      var inner := init[..j] + init[j + 1..];
      assert init[..j] + init[j + 1..] + [init[j]] == inner + [rows[j]];
      assert (inner + [rows[j]])[..|inner|] == inner;
      assert rest == inner + [last] && rest[..|inner|] == inner;
      assert moved == rest + [rows[j]] && moved[..|rest|] == rest;
      RecordsCommute(TallyOf(inner, user, problem), rows[j], last);
    }
  }

  lemma {:induction false} OneMoreRow(rows: seq<Sub>, row: Sub, user: nat, problem: nat, roster: Roster)
    ensures TallyOf(rows + [row], user, problem) ==
              var t := TallyOf(rows, user, problem);
              if Mine(row, user, problem) then Record(t, row) else t
    ensures SubmitOf(rows + [row], user, roster) ==
              SubmitOf(rows, user, roster) + if row.user == user && row.problem in roster.problems then 1 else 0
  {
    assert (rows + [row])[..|rows|] == rows;
  }

  /** The last element of one listing, found and taken out of a permutation of it. */
  lemma MatchLast(a: seq<Sub>, b: seq<Sub>) returns (j: nat)
    requires multiset(a) == multiset(b) && a != []
    ensures j < |b| && b[j] == a[|a| - 1]
    ensures multiset(a[..|a| - 1]) == multiset(b[..j] + b[j + 1..])
  {
    var last := a[|a| - 1];
    assert last in multiset(b);
    j :| 0 <= j < |b| && b[j] == last;
    DropAt(a, |a| - 1);
    DropAt(b, j);
    assert a[..|a| - 1] + a[|a|..] == a[..|a| - 1];
  }

  lemma {:induction false} TallyPermutes(a: seq<Sub>, b: seq<Sub>, user: nat, problem: nat, roster: Roster)
    requires multiset(a) == multiset(b)
    ensures TallyOf(a, user, problem) == TallyOf(b, user, problem)
    ensures SubmitOf(a, user, roster) == SubmitOf(b, user, roster)
    decreases |a|
  {
    if a == [] {
      assert |multiset(b)| == 0;
    } else {
      var init, last := a[..|a| - 1], a[|a| - 1];
      var j := MatchLast(a, b);
      var rest := b[..j] + b[j + 1..];
      TallyPermutes(init, rest, user, problem, roster);
      MoveLast(b, j, user, problem, roster);
      OneMoreRow(init, last, user, problem, roster);
      OneMoreRow(rest, last, user, problem, roster);
      assert a == init + [last];
    }
  }

  lemma EntriesPermute(a: seq<Sub>, b: seq<Sub>, roster: Roster)
    requires multiset(a) == multiset(b)
    ensures Entries(a, roster) == Entries(b, roster)
  {
    assert forall row :: row in a <==> row in multiset(a);
    assert forall row :: row in b <==> row in multiset(b);
    assert Participants(a, roster) == Participants(b, roster);
    forall user | user in Participants(a, roster) ensures EntryOf(a, user, roster) == EntryOf(b, user, roster) {
      EntryPermutes(a, b, user, roster);
    }
  }

  lemma EntryPermutes(a: seq<Sub>, b: seq<Sub>, user: nat, roster: Roster)
    requires multiset(a) == multiset(b) && user in roster.users
    ensures EntryOf(a, user, roster) == EntryOf(b, user, roster)
  {
    TallyPermutes(a, b, user, 0, roster);
    var cells := CellsOf(a, user, roster);
    forall i | 0 <= i < |cells| ensures cells[i] == CellsOf(b, user, roster)[i] {
      TallyPermutes(a, b, user, roster.problems[i], roster);
    }
    assert cells == CellsOf(b, user, roster);
  }

  lemma NamesSeparate(rows: seq<Sub>, roster: Roster)
    requires NamesDistinct(roster)
    ensures Separates(Ahead, Entries(rows, roster)) && IgnoresRank(Ahead)
  {
    NamesWeak();
    var entries := Entries(rows, roster);
    forall u, v | u in entries && v in entries && u != v
      ensures entries[u].name != entries[v].name {}
  }

  /** With distinct names the board depends only on which rows there are, not on their order, on the order users
      left the map, or on the sort; and no two places tie. */
  lemma BoardIsDetermined(a: seq<Sub>, b: seq<Sub>, roster: Roster, boardA: seq<Entry>, boardB: seq<Entry>)
    requires NamesDistinct(roster) && multiset(a) == multiset(b)
    requires IsBoard(boardA, Entries(a, roster), Ahead) && IsBoard(boardB, Entries(b, roster), Ahead)
    ensures boardA == boardB && forall i, j | 0 <= i < j < |boardA| :: Ahead(boardA[i], boardA[j])
  {
    EntriesPermute(a, b, roster);
    NamesSeparate(a, roster);
    BoardIsUnique(boardA, boardB, Entries(a, roster), Ahead);
    forall i, j | 0 <= i < j < |boardA| ensures Ahead(boardA[i], boardA[j]) {
      BoardIsStrict(boardA, Entries(a, roster), Ahead, i, j);
    }
  }
}
