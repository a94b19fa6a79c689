/** Who may see a verdict. The rule exists three times in the source, and the label of a problem twice; here they
    are shown to agree. */
module Visibility {
  import opened Basics
  import opened Verdicts
  import Ranking
  import OiBoard

  datatype Contest = Contest(kind: string, endAt: int, freezeAt: Option<int>, deleted: bool)

  datatype Row = Row(user: nat, problem: nat, contest: Option<nat>, public: bool, status: Status, score: int, at: int)

  /** A request: the viewer (0 for a guest), whether an administrator, the contests, the problems of unfinished
      contests, and the time. */
  datatype Request = Request(viewer: nat, admin: bool, contests: map<nat, Contest>, unfinished: set<nat>, now: int)

  datatype View = View(result: bool, code: bool)

  // ---- the three rules ----------------------------------------------------

  predicate FrozenRow(row: Row, contest: Contest) { contest.freezeAt.Some? && row.at >= contest.freezeAt.value }

  /** `visibleSubmissionResultSQL`, as the filters apply it: administrators are not filtered. */
  predicate SqlVisible(row: Row, request: Request)
  {
    request.admin ||
    !(exists id | id in request.contests ::
        && row.contest == Some(id) && !request.contests[id].deleted && request.contests[id].endAt > request.now
        && (request.contests[id].kind == "OI"
            || (request.contests[id].kind == "ICPC" && FrozenRow(row, request.contests[id])
                && (request.viewer == 0 || row.user != request.viewer))))
  }

  predicate SqlHidden(row: Row, request: Request) { !request.admin && !SqlVisible(row, request) }

  /** The contest a row was sent in, if the query for it still finds one. */
  function ContestOf(row: Row, contests: map<nat, Contest>): Option<Contest>
  {
    if row.contest.Some? && row.contest.value in contests && !contests[row.contest.value].deleted
    then Some(contests[row.contest.value]) else None
  }

  predicate Running(contest: Option<Contest>, now: int) { contest.Some? && now < contest.value.endAt }

  function ViewOf(row: Row, request: Request): View
  {
    if request.admin then View(true, true)
    else
      var owner := request.viewer != 0 && request.viewer == row.user;
      var contest := ContestOf(row, request.contests);
      var running := Running(contest, request.now);
      View(!(running && (contest.value.kind == "OI" || (!owner && FrozenRow(row, contest.value)))),
           if row.problem in request.unfinished || running then owner else owner || row.public)
  }

  /** `assignmentProgressResultHidden`. */
  predicate ProgressHidden(row: Row, request: Request)
  {
    var contest := ContestOf(row, request.contests);
    && !request.admin && Running(contest, request.now)
    && (contest.value.kind == "OI" || (request.viewer != row.user && FrozenRow(row, contest.value)))
  }

  /** A verdict is shown to administrators; once the contest is over or gone; and while it runs, except on OI contests,
      to the owner, and to others if the row was sent before the freeze. Code is shown to administrators and the owner;
      to others if it is public and no contest with the problem is running. */
  lemma ViewMeans(row: Row, request: Request)
    ensures ViewOf(row, request).result <==>
      || request.admin || row.contest.None? || row.contest.value !in request.contests
      || request.contests[row.contest.value].deleted || request.contests[row.contest.value].endAt <= request.now
      || (request.contests[row.contest.value].kind != "OI"
          && ((request.viewer == row.user && request.viewer != 0) || request.contests[row.contest.value].freezeAt.None?
              || row.at < request.contests[row.contest.value].freezeAt.value))
    ensures ViewOf(row, request).code <==>
      || request.admin || (request.viewer == row.user && request.viewer != 0)
      || (row.public && row.problem !in request.unfinished
          && (row.contest.None? || row.contest.value !in request.contests
              || request.contests[row.contest.value].deleted
              || request.contests[row.contest.value].endAt <= request.now))
  {}

  /** `submissionViews`: the contests of the rows are looked up first, then each row is judged in place. */
  method SubmissionViews(rows: seq<Row>, request: Request) returns (views: seq<View>)
    ensures |views| == |rows| && forall i | 0 <= i < |rows| :: views[i] == ViewOf(rows[i], request)
    // on a running ICPC contest others see a verdict exactly if the row was sent before the freeze
    ensures forall i | 0 <= i < |rows| && !request.admin && request.viewer != rows[i].user ::
      var row := rows[i];
      row.contest.Some? && row.contest.value in request.contests ==>
        var contest := request.contests[row.contest.value];
        !contest.deleted && request.now < contest.endAt && contest.kind == "ICPC" && contest.freezeAt.Some? ==>
          (views[i].result <==> row.at < contest.freezeAt.value)
    // on a running OI contest nobody but administrators sees one
    ensures forall i | 0 <= i < |rows| && !request.admin ::
      var row := rows[i];
      row.contest.Some? && row.contest.value in request.contests ==>
        var contest := request.contests[row.contest.value];
        !contest.deleted && request.now < contest.endAt && contest.kind == "OI" ==> !views[i].result
  {
    views := seq(|rows|, _ => View(false, false));
    if request.admin {
      for i := 0 to |views|
        invariant |views| == |rows| && forall k | 0 <= k < i :: views[k] == View(true, true)
      {
        views := views[i := View(true, true)];
      }
      return;
    }
    var found: map<nat, Contest> := map[];
    for i := 0 to |rows|
      invariant forall id :: id in found <==>
        id in request.contests && !request.contests[id].deleted && exists k | 0 <= k < i :: rows[k].contest == Some(id)
      invariant forall id | id in found :: found[id] == request.contests[id]
    {
      var contest := ContestOf(rows[i], request.contests);
      if contest.Some? { found := found[rows[i].contest.value := contest.value]; }
    }
    for i := 0 to |rows|
      invariant |views| == |rows| && forall k | 0 <= k < i :: views[k] == ViewOf(rows[k], request)
    {
      var row := rows[i];
      var owner := request.viewer != 0 && request.viewer == row.user;
      var view := View(true, owner);
      var sourceLocked := row.problem in request.unfinished;
      if row.contest.Some? && row.contest.value in found {
        var contest := found[row.contest.value];
        if request.now < contest.endAt {
          sourceLocked := true;
          if contest.kind == "OI" || (!owner && contest.freezeAt.Some? && row.at >= contest.freezeAt.value) {
            view := view.(result := false);
          }
        }
      }
      if !sourceLocked { view := view.(code := owner || row.public); }
      views := views[i := view];
    }
  }

  /** The kinds `validContestKind` lets a contest have. */
  predicate RealKinds(contests: map<nat, Contest>) { forall id | id in contests :: contests[id].kind in {"OI", "ICPC"} }

  /** The row's contest is running, of a kind that is neither OI nor ICPC, and its freeze covers the row for this
      viewer. */
  predicate OddlyFrozen(row: Row, request: Request)
  {
    var contest := ContestOf(row, request.contests);
    && !request.admin && Running(contest, request.now) && contest.value.kind !in {"OI", "ICPC"}
    && FrozenRow(row, contest.value) && (request.viewer == 0 || row.user != request.viewer)
  }

  /** The SQL text and `submissionViews` agree on a row exactly when no contest of another kind freezes it; the
      progress rule always agrees with `submissionViews` (no user has id 0). */
  lemma RulesAgree(row: Row, request: Request)
    requires row.user != 0
    ensures SqlVisible(row, request) == ViewOf(row, request).result <==> !OddlyFrozen(row, request)
    ensures ProgressHidden(row, request) == !ViewOf(row, request).result
  {}

  /** So on contests as they can be created the three rules are one, for every row and viewer. */
  lemma RulesAreOne(row: Row, request: Request)
    requires row.user != 0 && RealKinds(request.contests)
    ensures SqlVisible(row, request) == ViewOf(row, request).result == !ProgressHidden(row, request)
  {
    RulesAgree(row, request);
  }

  /** While a contest that has the problem runs, only the owner and administrators see the code, public or not. */
  lemma CodeStaysClosed(row: Row, request: Request)
    requires Running(ContestOf(row, request.contests), request.now) || row.problem in request.unfinished
    ensures ViewOf(row, request).code ==> request.admin || (request.viewer == row.user && request.viewer != 0)
  {}

  // ---- labels -------------------------------------------------------------

  predicate Belongs(row: Row, user: nat, problem: nat) { row.user == user && row.problem == problem }

  predicate Shown(row: Row, request: Request) { ViewOf(row, request).result }

  /** The label as a join over the rows, whatever their order: accepted if an accepted row is shown; else pending if
      any row is hidden or live; else tried if there is a row. */
  function LabelOf(rows: seq<Row>, user: nat, problem: nat, request: Request): Label
  {
    if exists r | r in rows :: Belongs(r, user, problem) && Shown(r, request) && r.status.AC? then Accepted
    else if exists r | r in rows :: Belongs(r, user, problem) && (!Shown(r, request) || Live(r.status)) then Pending
    else if exists r | r in rows :: Belongs(r, user, problem) then Tried
    else Untouched
  }

  function Marked(labels: map<nat, Label>, problem: nat): Label
  {
    if problem in labels then labels[problem] else Untouched
  }

  lemma OneMoreRow(rows: seq<Row>, row: Row, user: nat, problem: nat, request: Request)
    ensures LabelOf(rows + [row], user, problem, request) ==
            var was := LabelOf(rows, user, problem, request);
            if !Belongs(row, user, problem) || was.Accepted? then was
            else if !Shown(row, request) || Live(row.status) then Pending
            else if row.status.AC? then Accepted
            else if was.Untouched? then Tried else was
  {}

  /** `fillProblemUserState`: the status map after the loop over the viewer's rows. */
  method FillProblemUserState(rows: seq<Row>, request: Request) returns (labels: map<nat, Label>)
    requires forall r | r in rows :: r.user == request.viewer
    ensures forall problem :: Marked(labels, problem) == LabelOf(rows, request.viewer, problem, request)
  {
    var views := SubmissionViews(rows, request);
    labels := map[];
    for i := 0 to |rows|
      invariant forall problem :: Marked(labels, problem) == LabelOf(rows[..i], request.viewer, problem, request)
    {
      var row := rows[i];
      assert row in rows && rows[..i + 1] == rows[..i] + [row];
      forall problem { OneMoreRow(rows[..i], row, request.viewer, problem, request); }
      var status := Marked(labels, row.problem);
      if !views[i].result || Live(row.status) {
        if !status.Accepted? { labels := labels[row.problem := Pending]; }
      } else if row.status.AC? {
        labels := labels[row.problem := Accepted];
      } else if status.Untouched? {
        labels := labels[row.problem := Tried];
      }
    }
    assert rows[..|rows|] == rows;
  }

  /** The same rows for all that may be shown: they differ in status and score only where the contest is running and is
      an OI contest, or has been frozen when the row was sent by somebody else. */
  predicate SameToViewer(a: seq<Row>, b: seq<Row>, request: Request)
  {
    |a| == |b| && forall i | 0 <= i < |a| ::
      || a[i] == b[i]
      || (&& b[i] == a[i].(status := b[i].status, score := b[i].score)
          && !request.admin && a[i].contest.Some? && a[i].contest.value in request.contests
          && var contest := request.contests[a[i].contest.value];
             && !contest.deleted && request.now < contest.endAt
             && (contest.kind == "OI" || (contest.freezeAt.Some? && a[i].at >= contest.freezeAt.value
                                          && (request.viewer == 0 || request.viewer != a[i].user))))
  }

  /** Non-interference: no view, no shown row and no label depends on what may not be shown. */
  lemma SecretsStaySecret(a: seq<Row>, b: seq<Row>, user: nat, problem: nat, request: Request)
    requires SameToViewer(a, b, request)
    ensures forall i | 0 <= i < |a| ::
              ViewOf(a[i], request) == ViewOf(b[i], request) && (ViewOf(a[i], request).result ==> a[i] == b[i])
    ensures LabelOf(a, user, problem, request) == LabelOf(b, user, problem, request)
  {
    forall i | 0 <= i < |a|
      ensures ViewOf(a[i], request) == ViewOf(b[i], request) && (ViewOf(a[i], request).result ==> a[i] == b[i])
    {
      ViewMeans(a[i], request);
      ViewMeans(b[i], request);
    }
    LabelSeesShown(a, b, user, problem, request);
    LabelSeesShown(b, a, user, problem, request);
  }

  /** The label's three questions, asked of the rows a viewer cannot tell from these. */
  lemma LabelSeesShown(a: seq<Row>, b: seq<Row>, user: nat, problem: nat, request: Request)
    requires |a| == |b| && forall i | 0 <= i < |a| ::
               && ViewOf(a[i], request) == ViewOf(b[i], request) && a[i].user == b[i].user
               && a[i].problem == b[i].problem && (ViewOf(a[i], request).result ==> a[i] == b[i])
    ensures (exists r | r in a :: Belongs(r, user, problem) && Shown(r, request) && r.status.AC?) ==>
              exists r | r in b :: Belongs(r, user, problem) && Shown(r, request) && r.status.AC?
    ensures (exists r | r in a :: Belongs(r, user, problem) && (!Shown(r, request) || Live(r.status))) ==>
              exists r | r in b :: Belongs(r, user, problem) && (!Shown(r, request) || Live(r.status))
    ensures (exists r | r in a :: Belongs(r, user, problem)) ==> exists r | r in b :: Belongs(r, user, problem)
  {
    hide ViewOf;
    forall r | r in a
      ensures exists s | s in b :: s.user == r.user && s.problem == r.problem && Shown(s, request) == Shown(r, request)
                                   && (Shown(r, request) ==> s == r)
    {
      var i :| 0 <= i < |a| && a[i] == r;
      assert b[i] in b;
    }
  }

  // ---- filters ------------------------------------------------------------

  predicate AnyDone(rows: seq<Row>, problem: nat, request: Request, acOnly: bool)
  {
    exists r | r in rows :: Belongs(r, request.viewer, problem) && !Live(r.status) && (acOnly ==> r.status.AC?)
                            && SqlVisible(r, request)
  }

  predicate AnyLive(rows: seq<Row>, problem: nat, request: Request)
  {
    exists r | r in rows :: Belongs(r, request.viewer, problem) && Live(r.status)
  }

  predicate AnyHidden(rows: seq<Row>, problem: nat, request: Request)
  {
    exists r | r in rows :: Belongs(r, request.viewer, problem) && !Live(r.status) && SqlHidden(r, request)
  }

  /** `applyProblemStatusFilter` for a signed-in viewer: whether the problem is listed under a status. */
  predicate Listed(status: Label, rows: seq<Row>, problem: nat, request: Request)
  {
    match status
    case Accepted => AnyDone(rows, problem, request, true)
    case Pending =>
      !AnyDone(rows, problem, request, true) && (AnyLive(rows, problem, request) || AnyHidden(rows, problem, request))
    case Tried =>
      && AnyDone(rows, problem, request, false) && !AnyDone(rows, problem, request, true)
      && !AnyLive(rows, problem, request) && !AnyHidden(rows, problem, request)
    case Untouched =>
      !AnyDone(rows, problem, request, false) && !AnyLive(rows, problem, request) && !AnyHidden(rows, problem, request)
  }

  /** The four filters partition the problems, and each lists exactly the problems that carry its label: a viewer's own
      rows are never oddly frozen. */
  lemma FiltersMatchLabels(rows: seq<Row>, problem: nat, request: Request, status: Label)
    requires request.viewer != 0
    ensures Listed(status, rows, problem, request) <==> LabelOf(rows, request.viewer, problem, request) == status
  {}

  // ---- assignment progress ------------------------------------------------

  /** `assignmentProgress`: one status per user and problem, updated row by row in the order the database likes. */
  method AssignmentProgress(rows: seq<Row>, users: set<nat>, problems: set<nat>, request: Request)
    returns (status: map<(nat, nat), Label>)
    requires forall r | r in rows :: r.user != 0
    ensures status.Keys == set u, p | u in users && p in problems :: (u, p)
    ensures forall u, p | u in users && p in problems :: status[(u, p)] == LabelOf(rows, u, p, request)
  {
    hide ViewOf, SqlVisible;
    status := map u, p | u in users && p in problems :: (u, p) := Untouched;
    for i := 0 to |rows|
      invariant status.Keys == set u, p | u in users && p in problems :: (u, p)
      invariant forall u, p | u in users && p in problems :: status[(u, p)] == LabelOf(rows[..i], u, p, request)
    {
      var row := rows[i];
      assert row in rows && rows[..i + 1] == rows[..i] + [row];
      forall u, p { OneMoreRow(rows[..i], row, u, p, request); }
      RulesAgree(row, request);
      var key := (row.user, row.problem);
      if key in status {
        if ProgressHidden(row, request) || Live(row.status) {
          if !status[key].Accepted? { status := status[key := Pending]; }
        } else if status[key].Pending? && !row.status.AC? {
          // stays pending
        } else if row.status.AC? {
          status := status[key := Accepted];
        } else if !status[key].Accepted? {
          status := status[key := Tried];
        }
      }
    }
    assert rows[..|rows|] == rows;
  }

  // ---- labels inside an OI contest ----------------------------------------

  function ToSub(row: Row): Ranking.Sub { Ranking.Sub(row.user, row.problem, row.status, row.score, row.at) }

  function ToSubs(rows: seq<Row>): seq<Ranking.Sub>
  {
    seq(|rows|, i requires 0 <= i < |rows| => ToSub(rows[i]))
  }

  /** The label the OI scoreboard gives a user on a problem. */
  function BoardLabel(subs: seq<Ranking.Sub>, user: nat, problem: nat): Label
  {
    OiBoard.LabelOf(OiBoard.TallyOf(subs, user, problem))
  }

  predicate Finished(row: Row, request: Request) { Shown(row, request) && !Live(row.status) }

  /** The label inside a contest. On OI contests any shown finished row outranks a hidden or live one; elsewhere the
      newest row decides between pending and tried. */
  function ContestLabel(rows: seq<Row>, oi: bool, user: nat, problem: nat, request: Request): Label
  {
    if exists r | r in rows :: Belongs(r, user, problem) && Finished(r, request) && r.status.AC? then Accepted
    else if !oi then NewestLabel(rows, user, problem, request)
    else if exists r | r in rows :: Belongs(r, user, problem) && Finished(r, request) then Tried
    else if exists r | r in rows :: Belongs(r, user, problem) then Pending
    else Untouched
  }

  function NewestLabel(rows: seq<Row>, user: nat, problem: nat, request: Request): Label
  {
    if rows == [] then Untouched
    else if Belongs(rows[0], user, problem) then if Finished(rows[0], request) then Tried else Pending
    else NewestLabel(rows[1..], user, problem, request)
  }

  lemma {:induction false} NewestMore(rows: seq<Row>, row: Row, user: nat, problem: nat, request: Request)
    ensures NewestLabel(rows + [row], user, problem, request) ==
            if (exists r | r in rows :: Belongs(r, user, problem)) || !Belongs(row, user, problem)
            then NewestLabel(rows, user, problem, request)
            else if Finished(row, request) then Tried else Pending
    ensures NewestLabel(rows, user, problem, request).Untouched? <==> !exists r | r in rows :: Belongs(r, user, problem)
  {
    if rows == [] {
      assert rows + [row] == [row];
    } else {
      assert (rows + [row])[1..] == rows[1..] + [row] && rows[0] in rows;
      assert forall r :: r in rows <==> r == rows[0] || r in rows[1..];
      NewestMore(rows[1..], row, user, problem, request);
    }
  }

  /** Elsewhere than on OI contests, unless an accepted row is shown: the newest row decides, tried if it is shown and
      finished, else pending. */
  lemma {:induction false} NewestDecides(rows: seq<Row>, user: nat, problem: nat, request: Request, k: nat)
    requires k < |rows| && rows[k].user == user && rows[k].problem == problem
    requires forall i | 0 <= i < k :: rows[i].user != user || rows[i].problem != problem
    ensures NewestLabel(rows, user, problem, request) == if Shown(rows[k], request) && !Live(rows[k].status) then Tried
                                                         else Pending
  {
    if k > 0 { NewestDecides(rows[1..], user, problem, request, k - 1); }
  }

  lemma OneMoreInContest(rows: seq<Row>, oi: bool, row: Row, user: nat, problem: nat, request: Request)
    ensures ContestLabel(rows + [row], oi, user, problem, request) ==
            var was := ContestLabel(rows, oi, user, problem, request);
            if !Belongs(row, user, problem) || was.Accepted? then was
            else if !Finished(row, request) then if was.Untouched? then Pending else was
            else if row.status.AC? then Accepted
            else if oi || was.Untouched? then Tried else was
  {
    assert forall r :: r in rows + [row] <==> r in rows || r == row;
    NewestMore(rows, row, user, problem, request);
  }

  /** `fillProblemUserStateInContest` for one contest, rows newest first. */
  method FillProblemUserStateInContest(rows: seq<Row>, kind: string, request: Request) returns (labels: map<nat, Label>)
    requires forall r | r in rows :: r.user == request.viewer
    ensures forall problem ::
              Marked(labels, problem) == ContestLabel(rows, kind == "OI", request.viewer, problem, request)
  {
    var views := SubmissionViews(rows, request);
    var oi := kind == "OI";
    labels := map[];
    for i := 0 to |rows|
      invariant forall problem ::
        Marked(labels, problem) == ContestLabel(rows[..i], oi, request.viewer, problem, request)
    {
      var row := rows[i];
      assert row in rows && rows[..i + 1] == rows[..i] + [row];
      forall problem { OneMoreInContest(rows[..i], oi, row, request.viewer, problem, request); }
      var status := Marked(labels, row.problem);
      if !views[i].result || Live(row.status) {
        if status.Untouched? { labels := labels[row.problem := Pending]; }
      } else if oi {
        if row.status.AC? {
          labels := labels[row.problem := Accepted];
        } else if !status.Accepted? {
          labels := labels[row.problem := Tried];
        }
      } else if !status.Accepted? {
        if row.status.AC? {
          labels := labels[row.problem := Accepted];
        } else if status.Untouched? {
          labels := labels[row.problem := Tried];
        }
      }
    }
    assert rows[..|rows|] == rows;
  }

  /** On OI contests whose results the viewer may see, the label is the scoreboard's. */
  lemma OiLabelIsBoardLabel(rows: seq<Row>, user: nat, problem: nat, request: Request)
    requires forall r | r in rows :: Shown(r, request)
    ensures ContestLabel(rows, true, user, problem, request) == BoardLabel(ToSubs(rows), user, problem)
  {
    OiBoard.TallyMeans(ToSubs(rows), user, problem);
    forall r | r in rows ensures ToSub(r) in ToSubs(rows) {
      var i :| 0 <= i < |rows| && rows[i] == r;
      assert ToSubs(rows)[i] == ToSub(r);
    }
    forall s | s in ToSubs(rows) ensures exists r | r in rows :: ToSub(r) == s {
      var i :| 0 <= i < |rows| && ToSubs(rows)[i] == s;
      assert rows[i] in rows;
    }
  }

  /** The scoreboard reads all users' rows oldest first, the label reads one user's newest first: it does not matter. */
  lemma BoardLabelByRows(a: seq<Ranking.Sub>, b: seq<Ranking.Sub>, user: nat, problem: nat)
    requires forall r | OiBoard.Mine(r, user, problem) :: r in a <==> r in b
    ensures BoardLabel(a, user, problem) == BoardLabel(b, user, problem)
  {
    OiBoard.TallyMeans(a, user, problem);
    OiBoard.TallyMeans(b, user, problem);
  }

  /** The label a user sees in an OI contest whose results are shown is the status in the user's cell of the scoreboard
      over everybody's rows, whatever the order of either. */
  lemma LabelIsCell(rows: seq<Row>, subs: seq<Ranking.Sub>, user: nat, roster: Ranking.Roster, i: nat, request: Request)
    requires user in roster.users && i < |roster.problems| && forall r | r in rows :: Shown(r, request)
    requires forall r | OiBoard.Mine(r, user, roster.problems[i]) :: r in subs <==> r in ToSubs(rows)
    ensures OiBoard.EntryOf(subs, user, roster).cells[i].status
            == ContestLabel(rows, true, user, roster.problems[i], request)
  {
    BoardLabelByRows(subs, ToSubs(rows), user, roster.problems[i]);
    OiLabelIsBoardLabel(rows, user, roster.problems[i], request);
  }
}
