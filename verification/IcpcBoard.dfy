/** The ICPC scoreboard: a fold over the rows in time order, refined from a declarative board, with its freeze. */
module IcpcBoard {
  import opened Basics
  import opened Text
  import opened Verdicts
  import opened Ranking

  const MINUTE := 60 * 1_000_000_000

  /** The running record of one user on one problem. */
  datatype Tally = Tally(wrong: nat, submit: nat, pending: nat, solved: bool, penalty: int)

  const NO_TALLY := Tally(0, 0, 0, false, 0)

  /** Contest start, freeze cutoff for this viewer, roster. */
  datatype Setting = Setting(start: int, freeze: Option<int>, roster: Roster)

  predicate Frozen(row: Sub, freeze: Option<int>) { freeze.Some? && row.at >= freeze.value }

  /** Whole minutes since the start, never negative. */
  function Minutes(at: int, start: int): int { if at < start then 0 else (at - start) / MINUTE }

  function Record(t: Tally, row: Sub, setting: Setting): Tally
  {
    if Frozen(row, setting.freeze) || Live(row.status) then t.(pending := t.pending + 1)
    else if t.solved then t.(submit := t.submit + 1)
    else if row.status.AC? then
      t.(submit := t.submit + 1, solved := true, penalty := Minutes(row.at, setting.start) + t.wrong * 20)
    else if Penalizable(row.status) then t.(submit := t.submit + 1, wrong := t.wrong + 1)
    else t.(submit := t.submit + 1)
  }

  predicate Mine(row: Sub, user: nat, problem: nat) { row.user == user && row.problem == problem }

  function TallyOf(rows: seq<Sub>, user: nat, problem: nat, setting: Setting): Tally
  {
    if rows == [] then NO_TALLY
    else
      var t, row := TallyOf(rows[..|rows| - 1], user, problem, setting), rows[|rows| - 1];
      if Mine(row, user, problem) then Record(t, row, setting) else t
  }

  /** The user's rows on contest problems that are finished and before the freeze. */
  predicate CountsFor(row: Sub, user: nat, setting: Setting)
  {
    row.user == user && row.problem in setting.roster.problems && !Frozen(row, setting.freeze) && !Live(row.status)
  }

  function SubmitOf(rows: seq<Sub>, user: nat, setting: Setting): nat
  {
    if rows == [] then 0
    else SubmitOf(rows[..|rows| - 1], user, setting) + if CountsFor(rows[|rows| - 1], user, setting) then 1 else 0
  }

  function CellOf(problem: nat, t: Tally): Cell
  {
    if t.solved then Cell(problem, Accepted, t.wrong + 1, 1, t.penalty)
    else if t.pending > 0 then Cell(problem, Pending, t.pending, 0, 0)
    else Cell(problem, if t.submit > 0 then Tried else Untouched, t.submit, 0, 0)
  }

  function CellsOf(rows: seq<Sub>, user: nat, setting: Setting): seq<Cell>
  {
    seq(|setting.roster.problems|, i requires 0 <= i < |setting.roster.problems| =>
      CellOf(setting.roster.problems[i], TallyOf(rows, user, setting.roster.problems[i], setting)))
  }

  function Scores(cells: seq<Cell>): seq<int> { seq(|cells|, i requires 0 <= i < |cells| => cells[i].score) }

  function PenaltiesOf(cells: seq<Cell>): seq<int> { seq(|cells|, i requires 0 <= i < |cells| => cells[i].penalty) }

  /** A user's line: totals are sums over the contest's problems. */
  function EntryOf(rows: seq<Sub>, user: nat, setting: Setting): Entry
    requires user in setting.roster.users
  {
    var cells := CellsOf(rows, user, setting);
    Entry(setting.roster.users[user], Sum(Scores(cells)), SubmitOf(rows, user, setting), Sum(Scores(cells)),
          Sum(PenaltiesOf(cells)), cells, 0)
  }

  function Entries(rows: seq<Sub>, setting: Setting): map<nat, Entry>
  {
    map user | user in Participants(rows, setting.roster) :: EntryOf(rows, user, setting)
  }

  predicate Ahead(a: Entry, b: Entry)
  {
    if a.ac != b.ac then a.ac > b.ac
    else if a.penalty != b.penalty then a.penalty < b.penalty
    else if a.submit != b.submit then a.submit < b.submit
    else Before(a.name, b.name)
  }

  // ---- the stateful fold --------------------------------------------------

  datatype UserState = UserState(submit: nat, problems: map<nat, Tally>)

  function Held(states: map<nat, UserState>, user: nat, problem: nat): Tally
  {
    if user in states && problem in states[user].problems then states[user].problems[problem] else NO_TALLY
  }

  function HeldSubmit(states: map<nat, UserState>, user: nat): nat
  {
    if user in states then states[user].submit else 0
  }

  /** The nested maps hold exactly the tallies of the rows read so far. */
  ghost predicate Tracks(states: map<nat, UserState>, rows: seq<Sub>, setting: Setting)
  {
    && states.Keys == Participants(rows, setting.roster)
    && (forall user | user in setting.roster.users :: HeldSubmit(states, user) == SubmitOf(rows, user, setting))
    && (forall user, problem | user in setting.roster.users && problem in setting.roster.problems ::
          Held(states, user, problem) == TallyOf(rows, user, problem, setting))
  }

  /** One row's effect on the nested maps. */
  function Tracked(states: map<nat, UserState>, row: Sub, setting: Setting): map<nat, UserState>
  {
    if !OnBoard(row, setting.roster) then states
    else
      var got := if row.user in states then states[row.user] else UserState(0, map[]);
      var tally := Record(Held(states, row.user, row.problem), row, setting);
      states[row.user := UserState(got.submit + if CountsFor(row, row.user, setting) then 1 else 0,
                                   got.problems[row.problem := tally])]
  }

  lemma TrackOne(states: map<nat, UserState>, rows: seq<Sub>, row: Sub, setting: Setting)
    requires Tracks(states, rows, setting)
    ensures Tracks(Tracked(states, row, setting), rows + [row], setting)
  {}

  /** The body of the row loop. */
  method TakeRow(states: map<nat, UserState>, row: Sub, setting: Setting) returns (after: map<nat, UserState>)
    ensures after == Tracked(states, row, setting)
  {
    if row.problem !in setting.roster.problems || row.user !in setting.roster.users { return states; }
    var got := if row.user in states then states[row.user] else UserState(0, map[]);
    var problem := if row.problem in got.problems then got.problems[row.problem] else NO_TALLY;
    if Frozen(row, setting.freeze) || Live(row.status) {
      problem := problem.(pending := problem.pending + 1);
    } else {
      got := got.(submit := got.submit + 1);
      problem := problem.(submit := problem.submit + 1);
      if !problem.solved {
        if row.status.AC? {
          problem := problem.(solved := true, penalty := Minutes(row.at, setting.start) + problem.wrong * 20);
        } else if Penalizable(row.status) {
          problem := problem.(wrong := problem.wrong + 1);
        }
      }
    }
    after := states[row.user := got.(problems := got.problems[row.problem := problem])];
  }

  method TallyRows(rows: seq<Sub>, setting: Setting) returns (states: map<nat, UserState>)
    ensures Tracks(states, rows, setting)
  {
    states := map[];
    for i := 0 to |rows|
      invariant Tracks(states, rows[..i], setting)
    {
      assert rows[..i + 1] == rows[..i] + [rows[i]];
      TrackOne(states, rows[..i], rows[i], setting);
      states := TakeRow(states, rows[i], setting);
    }
    assert rows[..|rows|] == rows;
  }

  /** The totals after the first `i` problems. */
  predicate LineSoFar(all: seq<Cell>, i: nat, cells: seq<Cell>, ac: int, penalty: int)
  {
    i <= |all| && cells == all[..i] && ac == Sum(Scores(cells)) && penalty == Sum(PenaltiesOf(cells))
  }

  lemma LineMore(all: seq<Cell>, i: nat, cells: seq<Cell>, ac: int, penalty: int)
    requires LineSoFar(all, i, cells, ac, penalty) && i < |all|
    ensures LineSoFar(all, i + 1, cells + [all[i]], ac + all[i].score, penalty + all[i].penalty)
  {
    var more := cells + [all[i]];
    assert all[..i + 1] == more;
    assert Scores(more) == Scores(cells) + [all[i].score] && PenaltiesOf(more) == PenaltiesOf(cells) + [all[i].penalty];
  }

  lemma CellHeld(states: map<nat, UserState>, rows: seq<Sub>, user: nat, setting: Setting, i: nat)
    requires Tracks(states, rows, setting) && user in setting.roster.users && i < |setting.roster.problems|
    ensures CellsOf(rows, user, setting)[i]
            == CellOf(setting.roster.problems[i], Held(states, user, setting.roster.problems[i]))
  {}

  /** One user's line out of the nested maps. */
  method LineOf(states: map<nat, UserState>, user: nat, ghost rows: seq<Sub>, setting: Setting) returns (entry: Entry)
    requires Tracks(states, rows, setting) && user in states && user in setting.roster.users
    ensures entry == EntryOf(rows, user, setting)
  {
    var got := states[user];
    var problems := setting.roster.problems;
    var ac, penalty, cells := 0, 0, [];
    ghost var all := CellsOf(rows, user, setting);
    for i := 0 to |problems|
      invariant LineSoFar(all, i, cells, ac, penalty)
    {
      var cell := CellOf(problems[i], if problems[i] in got.problems then got.problems[problems[i]] else NO_TALLY);
      CellHeld(states, rows, user, setting, i);
      LineMore(all, i, cells, ac, penalty);
      if cell.status.Accepted? {
        ac := ac + 1;
        penalty := penalty + cell.penalty;
      }
      cells := cells + [cell];
    }
    assert all[..|all|] == all && HeldSubmit(states, user) == SubmitOf(rows, user, setting);
    entry := Entry(setting.roster.users[user], ac, got.submit, ac, penalty, cells, 0);
  }

  /** The users leave the map in any order. */
  method CollectLines(states: map<nat, UserState>, ghost rows: seq<Sub>, setting: Setting,
                      ghost entries: map<nat, Entry>)
    returns (items: seq<Entry>)
    requires Tracks(states, rows, setting) && states.Keys == entries.Keys
    requires entries == Entries(rows, setting)
    ensures Gathered(items, entries)
  {
    items := [];
    ghost var order: seq<nat> := [];
    var left := states.Keys;
    CollectNone(entries);
    while left != {}
      invariant left <= states.Keys
      invariant Collected(items, order, entries, left)
      decreases left
    {
      var user :| user in left;
      var entry := LineOf(states, user, rows, setting);
      CollectMore(items, order, entries, left, user, entry);
      left, items, order := left - {user}, items + [entry], order + [user];
    }
  }

  lemma BoardLines(board: seq<Entry>, rows: seq<Sub>, setting: Setting)
    requires IsBoard(board, Entries(rows, setting), Ahead)
    ensures |board|
            == |set r | r in rows && r.problem in setting.roster.problems && r.user in setting.roster.users :: r.user|
    ensures forall r | r in rows && r.problem in setting.roster.problems && r.user in setting.roster.users ::
              exists i :: 0 <= i < |board| && board[i].name == setting.roster.users[r.user]
  {
    hide IsBoard;
    var entries := Entries(rows, setting);
    EveryoneHasALine(board, entries, Ahead);
    var roster := setting.roster;
    assert entries.Keys == set r | r in rows && r.problem in roster.problems && r.user in roster.users :: r.user;
    forall r | r in rows && r.problem in roster.problems && r.user in roster.users
      ensures exists i :: 0 <= i < |board| && board[i].name == roster.users[r.user]
    {
      assert r.user in entries && entries[r.user].name == roster.users[r.user];
    }
  }

  lemma BoardOrder(board: seq<Entry>)
    requires SortedBy(Ahead, board)
    ensures forall i, j | 0 <= i < j < |board| ::
              var a, b := board[i], board[j];
              && a.ac >= b.ac && (a.ac == b.ac ==> a.penalty <= b.penalty)
              && (a.ac == b.ac && a.penalty == b.penalty ==> a.submit <= b.submit)
              && (a.ac == b.ac && a.penalty == b.penalty && a.submit == b.submit ==>
                    a.name == b.name || Before(a.name, b.name))
  {
    NamesWeak();
    forall i, j | 0 <= i < j < |board| ensures !Ahead(board[j], board[i]) {}
  }

  /** `icpcRank`: fold the rows into nested maps, take the users out of the map in any order, sort, number. */
  method IcpcRank(rows: seq<Sub>, setting: Setting) returns (board: seq<Entry>)
    ensures IsBoard(board, Entries(rows, setting), Ahead)
    // a line for each user with a row on a problem of the contest
    ensures |board|
            == |set r | r in rows && r.problem in setting.roster.problems && r.user in setting.roster.users :: r.user|
    ensures forall r | r in rows && r.problem in setting.roster.problems && r.user in setting.roster.users ::
              exists i :: 0 <= i < |board| && board[i].name == setting.roster.users[r.user]
    // more problems solved first; then less penalty; then fewer submissions; then the name
    ensures forall i, j | 0 <= i < j < |board| ::
              var a, b := board[i], board[j];
              && a.ac >= b.ac && (a.ac == b.ac ==> a.penalty <= b.penalty)
              && (a.ac == b.ac && a.penalty == b.penalty ==> a.submit <= b.submit)
              && (a.ac == b.ac && a.penalty == b.penalty && a.submit == b.submit ==>
                    a.name == b.name || Before(a.name, b.name))
  {
    hide Ahead, IsBoard, Gathered, CellsOf, SubmitOf, Sum, Tracks;
    var states := TallyRows(rows, setting);
    var items := CollectLines(states, rows, setting, Entries(rows, setting));
    Unnumbered(items, Entries(rows, setting));
    AheadWeak(items);
    board := RankEntries(items, Ahead);
    GatheredIsBoard(board, items, Entries(rows, setting), Ahead);
    BoardLines(board, rows, setting);
    BoardOrder(board);
  }

  lemma AheadWeak(items: seq<Entry>)
    ensures StrictWeakOn(Ahead, items) && IgnoresRank(Ahead)
  {
    NamesWeak();
  }

  // ---- the declarative board ----------------------------------------------

  /** The finished rows of a user on a problem that were sent before the freeze, in order. */
  function Counted(rows: seq<Sub>, user: nat, problem: nat, freeze: Option<int>): seq<Sub>
  {
    if rows == [] then []
    else
      var init, row := Counted(rows[..|rows| - 1], user, problem, freeze), rows[|rows| - 1];
      if Mine(row, user, problem) && !Frozen(row, freeze) && !Live(row.status) then init + [row] else init
  }

  function Uncounted(rows: seq<Sub>, user: nat, problem: nat, freeze: Option<int>): nat
  {
    if rows == [] then 0
    else
      var row := rows[|rows| - 1];
      Uncounted(rows[..|rows| - 1], user, problem, freeze)
      + if Mine(row, user, problem) && (Frozen(row, freeze) || Live(row.status)) then 1 else 0
  }

  /** The position of the first accepted row, or the length if there is none. */
  function FirstAc(rows: seq<Sub>): (k: nat)
    ensures k <= |rows| && (k < |rows| ==> rows[k].status.AC?)
    ensures forall i | 0 <= i < k :: !rows[i].status.AC?
  {
    if rows == [] || rows[0].status.AC? then 0 else 1 + FirstAc(rows[1..])
  }

  function PenalizableRows(rows: seq<Sub>): (n: nat)
    ensures n == |set i | 0 <= i < |rows| && rows[i].status !in {AC, CE, SE}|
  {
    if rows == [] then 0
    else
      var init, last := rows[..|rows| - 1], |rows| - 1;
      assert (set i | 0 <= i < |rows| && rows[i].status !in {AC, CE, SE})
             == (set i | 0 <= i < |init| && init[i].status !in {AC, CE, SE})
                + if rows[last].status !in {AC, CE, SE} then {last} else {};
      PenalizableRows(init) + if Penalizable(rows[last].status) then 1 else 0
  }

  /** The tally says: solved iff some counted row is accepted; the penalty is the minutes to the first accepted row
      plus 20 for each penalizable row before it; everything else waits. */
  lemma {:induction false} TallyMeans(rows: seq<Sub>, user: nat, problem: nat, setting: Setting)
    ensures var t := TallyOf(rows, user, problem, setting);
            var c := Counted(rows, user, problem, setting.freeze);
            var k := FirstAc(c);
            && t.submit == |c| && t.pending == Uncounted(rows, user, problem, setting.freeze)
            && (t.solved <==> exists i | 0 <= i < |c| :: c[i].status.AC?)
            && t.wrong == PenalizableRows(c[..k])
            && t.penalty == if t.solved then Minutes(c[k].at, setting.start) + 20 * PenalizableRows(c[..k]) else 0
  {
    if rows != [] {
      var row := rows[|rows| - 1];
      TallyMeans(rows[..|rows| - 1], user, problem, setting);
      var c := Counted(rows[..|rows| - 1], user, problem, setting.freeze);
      if Mine(row, user, problem) && !Frozen(row, setting.freeze) && !Live(row.status) {
        FirstAcMore(c, row);
        var k := FirstAc(c);
        if k < |c| {
          assert (c + [row])[..k] == c[..k];
        } else {
          assert c[..k] == c && (c + [row])[..k] == c;
          assert (c + [row])[..|c| + 1] == c + [row] && (c + [row])[..|c|] == c;
          assert (c + [row])[|c|] == row;
        }
      }
    }
  }

  /** A cell says: accepted iff some counted row is, after as many tries as penalizable rows before it and one;
      otherwise pending with the number of waiting rows if there are any; otherwise the number of counted rows. */
  lemma {:induction false} CellMeans(rows: seq<Sub>, user: nat, problem: nat, setting: Setting)
    ensures var cell := CellOf(problem, TallyOf(rows, user, problem, setting));
            var c := Counted(rows, user, problem, setting.freeze);
            var waiting := Uncounted(rows, user, problem, setting.freeze);
            var accepted := exists i | 0 <= i < |c| :: c[i].status.AC?;
            && (cell.status.Accepted? <==> accepted)
            && (cell.status.Pending? <==> !accepted && waiting > 0)
            && (cell.status.Tried? <==> !accepted && waiting == 0 && c != [])
            && cell.submit == (if accepted then PenalizableRows(c[..FirstAc(c)]) + 1
                               else if waiting > 0 then waiting else |c|)
            && cell.score == (if accepted then 1 else 0)
            && cell.penalty == (if accepted then Max(0, (c[FirstAc(c)].at - setting.start) / 60_000_000_000)
                                                 + 20 * PenalizableRows(c[..FirstAc(c)]) else 0)
  {
    TallyMeans(rows, user, problem, setting);
  }

  lemma {:induction false} FirstAcMore(c: seq<Sub>, row: Sub)
    ensures FirstAc(c + [row]) ==
            if FirstAc(c) < |c| then FirstAc(c) else if row.status.AC? then |c| else |c| + 1
  {
    if c == [] {
      assert c + [row] == [row];
    } else {
      assert (c + [row])[1..] == c[1..] + [row];
      if !c[0].status.AC? { FirstAcMore(c[1..], row); }
    }
  }

  /** Rows after the first accepted one never change what the problem cost. */
  lemma {:induction false} SolvedIsFinal(rows: seq<Sub>, more: seq<Sub>, user: nat, problem: nat, setting: Setting)
    requires TallyOf(rows, user, problem, setting).solved
    ensures var t, u := TallyOf(rows, user, problem, setting), TallyOf(rows + more, user, problem, setting);
            u.solved && u.penalty == t.penalty && u.wrong == t.wrong
  {
    if more == [] {
      assert rows + more == rows;
    } else {
      SolvedIsFinal(rows, more[..|more| - 1], user, problem, setting);
      assert (rows + more)[..|rows + more| - 1] == rows + more[..|more| - 1];
    }
  }

  // ---- one board, and what the freeze hides -------------------------------

  lemma NamesSeparate(rows: seq<Sub>, setting: Setting)
    requires NamesDistinct(setting.roster)
    ensures Separates(Ahead, Entries(rows, setting)) && IgnoresRank(Ahead)
  {
    hide CellsOf, SubmitOf, Sum;
    NamesWeak();
    var entries := Entries(rows, setting);
    forall u | u in entries ensures u in setting.roster.users && entries[u].name == setting.roster.users[u] {}
  }

  /** With distinct names the board is determined by the rows, and no two places tie. */
  lemma BoardIsDetermined(rows: seq<Sub>, setting: Setting, a: seq<Entry>, b: seq<Entry>)
    requires NamesDistinct(setting.roster)
    requires IsBoard(a, Entries(rows, setting), Ahead) && IsBoard(b, Entries(rows, setting), Ahead)
    ensures a == b && forall i, j | 0 <= i < j < |a| :: Ahead(a[i], a[j])
  {
    NamesSeparate(rows, setting);
    BoardIsUnique(a, b, Entries(rows, setting), Ahead);
    forall i, j | 0 <= i < j < |a| ensures Ahead(a[i], a[j]) {
      BoardIsStrict(a, Entries(rows, setting), Ahead, i, j);
    }
  }

  /** The same submissions in the same order, with the same results before the freeze. */
  predicate SameBeforeFreeze(a: seq<Sub>, b: seq<Sub>, freeze: int)
  {
    |a| == |b| && forall i | 0 <= i < |a| ::
      && a[i].user == b[i].user && a[i].problem == b[i].problem && a[i].at == b[i].at
      && (a[i].at < freeze ==> a[i] == b[i])
  }

  lemma {:induction false} FreezeHidesTally(a: seq<Sub>, b: seq<Sub>, user: nat, problem: nat, setting: Setting)
    requires setting.freeze.Some? && SameBeforeFreeze(a, b, setting.freeze.value)
    ensures TallyOf(a, user, problem, setting) == TallyOf(b, user, problem, setting)
    ensures SubmitOf(a, user, setting) == SubmitOf(b, user, setting)
  {
    if a != [] {
      FreezeHidesTally(a[..|a| - 1], b[..|b| - 1], user, problem, setting);
      var x, y := a[|a| - 1], b[|b| - 1];
      assert x.user == y.user && x.problem == y.problem && x.at == y.at;
    }
  }

  /** Non-interference: results after the freeze cannot be read off the frozen board. */
  lemma FreezeHides(a: seq<Sub>, b: seq<Sub>, setting: Setting, boardA: seq<Entry>, boardB: seq<Entry>)
    requires setting.freeze.Some? && SameBeforeFreeze(a, b, setting.freeze.value) && NamesDistinct(setting.roster)
    requires IsBoard(boardA, Entries(a, setting), Ahead) && IsBoard(boardB, Entries(b, setting), Ahead)
    ensures boardA == boardB
  {
    FreezeHidesEntries(a, b, setting);
    BoardIsDetermined(a, setting, boardA, boardB);
  }

  lemma FreezeHidesEntries(a: seq<Sub>, b: seq<Sub>, setting: Setting)
    requires setting.freeze.Some? && SameBeforeFreeze(a, b, setting.freeze.value)
    ensures Entries(a, setting) == Entries(b, setting)
  {
    SameParticipants(a, b, setting.roster, setting.freeze.value);
    SameParticipants(b, a, setting.roster, setting.freeze.value);
    forall user | user in Participants(a, setting.roster)
      ensures EntryOf(a, user, setting) == EntryOf(b, user, setting)
    {
      FreezeHidesEntry(a, b, user, setting);
    }
  }

  lemma FreezeHidesEntry(a: seq<Sub>, b: seq<Sub>, user: nat, setting: Setting)
    requires setting.freeze.Some? && SameBeforeFreeze(a, b, setting.freeze.value) && user in setting.roster.users
    ensures EntryOf(a, user, setting) == EntryOf(b, user, setting)
  {
    FreezeHidesTally(a, b, user, 0, setting);
    var cells := CellsOf(a, user, setting);
    forall i | 0 <= i < |cells| ensures cells[i] == CellsOf(b, user, setting)[i] {
      FreezeHidesTally(a, b, user, setting.roster.problems[i], setting);
    }
    assert cells == CellsOf(b, user, setting);
  }

  lemma SameParticipants(a: seq<Sub>, b: seq<Sub>, roster: Roster, freeze: int)
    requires SameBeforeFreeze(a, b, freeze)
    ensures Participants(a, roster) <= Participants(b, roster)
  {}

  function Early(rows: seq<Sub>, freeze: int): seq<Sub>
  {
    if rows == [] then []
    else Early(rows[..|rows| - 1], freeze) + if rows[|rows| - 1].at < freeze then [rows[|rows| - 1]] else []
  }

  predicate SameButPending(t: Tally, e: Tally)
  {
    t.solved == e.solved && t.wrong == e.wrong && t.penalty == e.penalty && t.submit == e.submit
  }

  lemma RecordEarly(t: Tally, e: Tally, row: Sub, setting: Setting, freeze: int)
    requires setting.freeze == Some(freeze) && SameButPending(t, e)
    ensures row.at < freeze ==> SameButPending(Record(t, row, setting), Record(e, row, setting.(freeze := None)))
    ensures row.at >= freeze ==> SameButPending(Record(t, row, setting), e)
  {}

  lemma {:induction false} OneMoreRow(rows: seq<Sub>, row: Sub, user: nat, problem: nat, setting: Setting)
    ensures TallyOf(rows + [row], user, problem, setting) ==
              var t := TallyOf(rows, user, problem, setting);
              if Mine(row, user, problem) then Record(t, row, setting) else t
    ensures SubmitOf(rows + [row], user, setting) ==
              SubmitOf(rows, user, setting) + if CountsFor(row, user, setting) then 1 else 0
  {}

  lemma {:induction false} FrozenTallyIsEarly(rows: seq<Sub>, user: nat, problem: nat, setting: Setting, freeze: int)
    requires setting.freeze == Some(freeze)
    ensures SameButPending(TallyOf(rows, user, problem, setting),
                           TallyOf(Early(rows, freeze), user, problem, setting.(freeze := None)))
    ensures SubmitOf(rows, user, setting) == SubmitOf(Early(rows, freeze), user, setting.(freeze := None))
  {
    hide Record;
    if rows != [] {
      var init, row := rows[..|rows| - 1], rows[|rows| - 1];
      var early := Early(init, freeze);
      FrozenTallyIsEarly(init, user, problem, setting, freeze);
      RecordEarly(TallyOf(init, user, problem, setting), TallyOf(early, user, problem, setting.(freeze := None)),
                  row, setting, freeze);
      if row.at < freeze { OneMoreRow(early, row, user, problem, setting.(freeze := None)); }
      assert Early(rows, freeze) == if row.at < freeze then early + [row] else early;
    }
  }

  /** The frozen line of a user has the accepted count, penalty and submission count of the board computed from
      the rows before the freeze alone. */
  lemma {:induction false} FrozenTotalsAreEarly(rows: seq<Sub>, user: nat, setting: Setting, freeze: int)
    requires setting.freeze == Some(freeze) && user in setting.roster.users
    ensures var e, f := EntryOf(rows, user, setting), EntryOf(Early(rows, freeze), user, setting.(freeze := None));
            e.ac == f.ac && e.score == f.score && e.penalty == f.penalty && e.submit == f.submit
  {
    FrozenTallyIsEarly(rows, user, 0, setting, freeze);
    var a := CellsOf(rows, user, setting);
    var b := CellsOf(Early(rows, freeze), user, setting.(freeze := None));
    forall i | 0 <= i < |a| ensures a[i].score == b[i].score && a[i].penalty == b[i].penalty {
      FrozenTallyIsEarly(rows, user, setting.roster.problems[i], setting, freeze);
    }
    assert Scores(a) == Scores(b) && PenaltiesOf(a) == PenaltiesOf(b);
  }

  // ---- a line of the board, and who has one -------------------------------

  /** A user's line: the accepted cells, the sum of their penalties, the number of counted rows, a cell a problem. */
  lemma {:induction false} EntryMeans(rows: seq<Sub>, user: nat, setting: Setting)
    requires user in setting.roster.users
    ensures var e, problems := EntryOf(rows, user, setting), setting.roster.problems;
            && e.name == setting.roster.users[user] && |e.cells| == |problems|
            && (forall i | 0 <= i < |problems| ::
                  e.cells[i] == CellOf(problems[i], TallyOf(rows, user, problems[i], setting))
                  && e.cells[i].problem == problems[i])
            && e.ac == e.score == |set i | 0 <= i < |problems| && e.cells[i].status == Accepted|
            && e.penalty == Sum(seq(|problems|, i requires 0 <= i < |problems| => e.cells[i].penalty))
            && e.submit == |set i | 0 <= i < |rows| && rows[i].user == user && rows[i].problem in problems
                                    && !Live(rows[i].status)
                                    && (setting.freeze.Some? ==> rows[i].at < setting.freeze.value)|
  {
    var e := EntryOf(rows, user, setting);
    var p := (c: Cell) => c.status == Accepted;
    AcceptedCells(e.cells, p);
    CountIsCardinality(e.cells, p, set i | 0 <= i < |e.cells| && e.cells[i].status == Accepted);
    SubmitMeans(rows, user, setting);
    assert PenaltiesOf(e.cells) == seq(|e.cells|, i requires 0 <= i < |e.cells| => e.cells[i].penalty);
  }

  lemma {:induction false} AcceptedCells(cells: seq<Cell>, p: Cell -> bool)
    requires forall i | 0 <= i < |cells| :: cells[i].score == if p(cells[i]) then 1 else 0
    ensures Sum(Scores(cells)) == Count(cells, p)
  {
    if cells != [] {
      AcceptedCells(cells[..|cells| - 1], p);
      assert Scores(cells)[..|cells| - 1] == Scores(cells[..|cells| - 1]);
    }
  }

  lemma {:induction false} SubmitMeans(rows: seq<Sub>, user: nat, setting: Setting)
    ensures SubmitOf(rows, user, setting)
            == |set i | 0 <= i < |rows| && rows[i].user == user && rows[i].problem in setting.roster.problems
                        && !Live(rows[i].status) && (setting.freeze.Some? ==> rows[i].at < setting.freeze.value)|
  {
    var p := (r: Sub) => CountsFor(r, user, setting);
    SubmitIsCount(rows, user, setting, p);
    CountIsCardinality(rows, p, set i | 0 <= i < |rows| && rows[i].user == user
                                        && rows[i].problem in setting.roster.problems && !Live(rows[i].status)
                                        && (setting.freeze.Some? ==> rows[i].at < setting.freeze.value));
  }

  lemma {:induction false} SubmitIsCount(rows: seq<Sub>, user: nat, setting: Setting, p: Sub -> bool)
    requires forall r :: p(r) <==> CountsFor(r, user, setting)
    ensures SubmitOf(rows, user, setting) == Count(rows, p)
  {
    if rows != [] { SubmitIsCount(rows[..|rows| - 1], user, setting, p); }
  }

  // ---- solving never costs places -----------------------------------------

  /** The user has an accepted row on the problem that counts: one sent before the freeze, if there is one. */
  predicate Solves(rows: seq<Sub>, user: nat, problem: nat, setting: Setting)
  {
    exists r | r in rows :: r.user == user && r.problem == problem && r.status == AC
                            && (setting.freeze.Some? ==> r.at < setting.freeze.value)
  }

  lemma {:induction false} SolvedMeans(rows: seq<Sub>, user: nat, problem: nat, setting: Setting)
    ensures TallyOf(rows, user, problem, setting).solved <==> Solves(rows, user, problem, setting)
  {
    if rows != [] {
      var init, row := rows[..|rows| - 1], rows[|rows| - 1];
      SolvedMeans(init, user, problem, setting);
      assert forall r :: r in rows <==> r in init || r == row;
    }
  }

  lemma {:induction false} OthersRowsDoNotCount(rows: seq<Sub>, more: seq<Sub>, user: nat, problem: nat,
                                                setting: Setting)
    requires forall r | r in more :: r.user != user
    ensures TallyOf(rows + more, user, problem, setting) == TallyOf(rows, user, problem, setting)
    ensures SubmitOf(rows + more, user, setting) == SubmitOf(rows, user, setting)
  {
    if more == [] {
      assert rows + more == rows;
    } else {
      var init, last := more[..|more| - 1], more[|more| - 1];
      assert last in more && forall r | r in init :: r in more;
      OthersRowsDoNotCount(rows, init, user, problem, setting);
      assert rows + more == rows + init + [last];
      OneMoreRow(rows + init, last, user, problem, setting);
    }
  }

  lemma OthersKeepTheirLine(rows: seq<Sub>, more: seq<Sub>, user: nat, setting: Setting)
    requires user in setting.roster.users && forall r | r in more :: r.user != user
    ensures EntryOf(rows + more, user, setting) == EntryOf(rows, user, setting)
  {
    OthersRowsDoNotCount(rows, more, user, 0, setting);
    var cells := CellsOf(rows + more, user, setting);
    forall i | 0 <= i < |cells| ensures cells[i] == CellsOf(rows, user, setting)[i] {
      OthersRowsDoNotCount(rows, more, user, setting.roster.problems[i], setting);
    }
    assert cells == CellsOf(rows, user, setting);
  }

  lemma {:induction false} SumGrows(a: seq<int>, b: seq<int>)
    requires |a| == |b| && forall i | 0 <= i < |a| :: a[i] <= b[i]
    ensures Sum(a) <= Sum(b) && ((exists i | 0 <= i < |a| :: a[i] < b[i]) ==> Sum(a) < Sum(b))
  {
    if a != [] { SumGrows(a[..|a| - 1], b[..|b| - 1]); }
  }

  lemma SolvingAddsAc(rows: seq<Sub>, more: seq<Sub>, user: nat, problem: nat, setting: Setting)
    requires user in setting.roster.users && problem in setting.roster.problems
    requires !Solves(rows, user, problem, setting) && Solves(more, user, problem, setting)
    ensures EntryOf(rows, user, setting).ac < EntryOf(rows + more, user, setting).ac
  {
    var problems := setting.roster.problems;
    var a, b := Scores(CellsOf(rows, user, setting)), Scores(CellsOf(rows + more, user, setting));
    forall i | 0 <= i < |problems|
      ensures a[i] == (if Solves(rows, user, problems[i], setting) then 1 else 0) <= b[i]
      ensures b[i] == if Solves(rows + more, user, problems[i], setting) then 1 else 0
    {
      SolvedMeans(rows, user, problems[i], setting);
      SolvedMeans(rows + more, user, problems[i], setting);
    }
    var k :| 0 <= k < |problems| && problems[k] == problem;
    assert a[k] < b[k];
    SumGrows(a, b);
  }

  /** A line of the board is its user's. */
  lemma LineIsEntry(board: seq<Entry>, rows: seq<Sub>, setting: Setting, i: nat, user: nat)
    requires NamesDistinct(setting.roster) && IsBoard(board, Entries(rows, setting), Ahead) && i < |board|
    requires user in setting.roster.users && board[i].name == setting.roster.users[user]
    ensures board[i].(rank := 0) == EntryOf(rows, user, setting)
  {
    var entries := Entries(rows, setting);
    SamePool(board, board, entries, Ahead);
    assert Unranked(board)[i] in entries.Values;
    var w :| w in entries && entries[w] == Unranked(board)[i];
    assert setting.roster.users[w] == setting.roster.users[user];
  }

  lemma BoardsAreSorted(before: seq<Entry>, after: seq<Entry>, rows: seq<Sub>, more: seq<Sub>, setting: Setting)
    requires IsBoard(before, Entries(rows, setting), Ahead) && IsBoard(after, Entries(rows + more, setting), Ahead)
    ensures SortedBy(Ahead, before) && SortedBy(Ahead, after)
  {}

  /** Whoever solves a further problem stays above everyone who sends nothing and was below. */
  lemma SolvingNeverDrops(rows: seq<Sub>, more: seq<Sub>, setting: Setting, before: seq<Entry>, after: seq<Entry>,
                          user: nat, problem: nat, other: nat, i: nat, j: nat, k: nat, l: nat)
    requires NamesDistinct(setting.roster) && user in setting.roster.users && other in setting.roster.users
    requires IsBoard(before, Entries(rows, setting), Ahead) && IsBoard(after, Entries(rows + more, setting), Ahead)
    requires problem in setting.roster.problems && (forall r | r in more :: r.user != other)
    requires !Solves(rows, user, problem, setting) && Solves(more, user, problem, setting)
    requires i < j < |before| && k < |after| && l < |after|
    requires before[i].name == after[k].name == setting.roster.users[user]
    requires before[j].name == after[l].name == setting.roster.users[other]
    ensures k < l
  {
    hide IsBoard, Entries, EntryOf, Solves;
    assert SortedBy(Ahead, before) && SortedBy(Ahead, after) by { BoardsAreSorted(before, after, rows, more, setting); }
    LineIsEntry(before, rows, setting, i, user);
    LineIsEntry(before, rows, setting, j, other);
    LineIsEntry(after, rows + more, setting, k, user);
    LineIsEntry(after, rows + more, setting, l, other);
    SolvingAddsAc(rows, more, user, problem, setting);
    OthersKeepTheirLine(rows, more, other, setting);
    assert !Ahead(before[j], before[i]);
  }
}
