/** internal/experiment/state.go, UpdateState of internal/storage/postgres.go and transitionState of manager.go:
    the eight-state lifecycle and what one row remembers of it. */
module Lifecycle {
  import opened CapacityModel
  import opened Executions

  datatype ExperimentState = Created | Planned | Running | Stopping | Analyzing | Reporting | Completed | Aborted

  function ValidTargets(current: ExperimentState): set<ExperimentState> {
    match current
    case Created => {Planned, Aborted}
    case Planned => {Running, Aborted}
    case Running => {Stopping, Aborted}
    case Stopping => {Analyzing, Aborted}
    case Analyzing => {Reporting, Aborted}
    case Reporting => {Completed, Aborted}
    case Completed => {}
    case Aborted => {}
  }

  predicate CanTransition(current: ExperimentState, target: ExperimentState) {
    target in ValidTargets(current)
  }

  predicate IsTerminal(s: ExperimentState) {
    s == Completed || s == Aborted
  }

  /** Position along the nominal flow; both terminal states come last. */
  function Rank(s: ExperimentState): nat {
    match s
    case Created => 0
    case Planned => 1
    case Running => 2
    case Stopping => 3
    case Analyzing => 4
    case Reporting => 5
    case Completed => 6
    case Aborted => 6
  }

  datatype Config = Config(policy: SafetyPolicy, recoveryWindowSec: int)

  datatype Row = Row(config: Config, state: ExperimentState, stopReason: string, startedAt: Option<int>,
                     endedAt: Option<int>)

  function NewRow(config: Config): Row {
    Row(config, Created, "", None, None)
  }

  /** One executed UPDATE. */
  datatype Write = Write(target: ExperimentState, reason: string, now: int)

  function Updated(row: Row, w: Write): Row {
    row.(state := w.target,
         stopReason := if w.reason != "" then w.reason else row.stopReason,
         startedAt := if w.target == Running && row.startedAt.None? then Some(w.now) else row.startedAt,
         endedAt := if IsTerminal(w.target) && row.endedAt.None? then Some(w.now) else row.endedAt)
  }

  // ---------------------------------------------------------------- histories

  function Replay(row: Row, ws: seq<Write>): Row {
    if ws == [] then row else Updated(Replay(row, ws[..|ws| - 1]), ws[|ws| - 1])
  }

  function FinalState(start: ExperimentState, ws: seq<Write>): ExperimentState {
    if ws == [] then start else ws[|ws| - 1].target
  }

  /** The writes follow the transition table, one after another. */
  ghost predicate IsHistory(start: ExperimentState, ws: seq<Write>) {
    forall i {:trigger ws[i].target} :: 0 <= i < |ws| ==> CanTransition(FinalState(start, ws[..i]), ws[i].target)
  }

  function LastReason(ws: seq<Write>): string {
    if ws == [] then ""
    else if ws[|ws| - 1].reason != "" then ws[|ws| - 1].reason
    else LastReason(ws[..|ws| - 1])
  }

  lemma HistoryPrefix(start: ExperimentState, ws: seq<Write>, n: nat)
    requires IsHistory(start, ws) && n <= |ws|
    ensures IsHistory(start, ws[..n])
  {
    forall i | 0 <= i < n ensures CanTransition(FinalState(start, ws[..n][..i]), ws[..n][i].target) {
      assert ws[..n][..i] == ws[..i];
      assert CanTransition(FinalState(start, ws[..i]), ws[i].target);
    }
  }

  lemma HistoryGrows(start: ExperimentState, ws: seq<Write>, w: Write)
    requires IsHistory(start, ws) && CanTransition(FinalState(start, ws), w.target)
    ensures IsHistory(start, ws + [w])
  {
    var after := ws + [w];
    forall i | 0 <= i < |after| ensures CanTransition(FinalState(start, after[..i]), after[i].target) {
      assert after[..i] == ws[..i];
      if i < |ws| {
        assert CanTransition(FinalState(start, ws[..i]), ws[i].target);
      } else {
        assert ws[..i] == ws;
      }
    }
  }

  lemma TransitionRises(s: ExperimentState, t: ExperimentState)
    requires CanTransition(s, t)
    ensures Rank(s) < Rank(t) <= 6 && !IsTerminal(s)
  {
  }

  /** The rank of the k-th write has risen at least k + 1 above the start. */
  lemma {:induction false} RankRises(start: ExperimentState, ws: seq<Write>, k: nat)
    requires IsHistory(start, ws) && k < |ws|
    ensures Rank(ws[k].target) >= Rank(start) + k + 1
  {
    assert CanTransition(FinalState(start, ws[..k]), ws[k].target);
    TransitionRises(FinalState(start, ws[..k]), ws[k].target);
    if k > 0 {
      RankRises(start, ws, k - 1);
    }
  }

  lemma {:induction false} RankOrdered(start: ExperimentState, ws: seq<Write>, i: nat, j: nat)
    requires IsHistory(start, ws) && i < j < |ws|
    ensures Rank(ws[i].target) < Rank(ws[j].target)
  {
    assert CanTransition(FinalState(start, ws[..j]), ws[j].target);
    TransitionRises(FinalState(start, ws[..j]), ws[j].target);
    if i < j - 1 {
      RankOrdered(start, ws, i, j - 1);
    }
  }

  /** Shape of every history: strictly rising ranks, at most six writes, terminal states only at the end. */
  lemma HistoryShape(start: ExperimentState, ws: seq<Write>)
    requires IsHistory(start, ws)
    ensures forall i, j :: 0 <= i < j < |ws| ==> Rank(ws[i].target) < Rank(ws[j].target)
    ensures |ws| + Rank(start) <= 6
    ensures forall i :: 0 <= i < |ws| - 1 ==> !IsTerminal(ws[i].target)
    ensures IsTerminal(start) ==> ws == []
  {
    forall i, j | 0 <= i < j < |ws| ensures Rank(ws[i].target) < Rank(ws[j].target) {
      RankOrdered(start, ws, i, j);
    }
    if ws != [] {
      RankRises(start, ws, |ws| - 1);
      assert CanTransition(FinalState(start, ws[..0]), ws[0].target);
    }
  }

  /** What the columns of a row say about the writes it has seen since it was created. */
  lemma {:induction false} ColumnsTellHistory(config: Config, ws: seq<Write>)
    requires IsHistory(Created, ws)
    ensures var row := Replay(NewRow(config), ws);
      && row.config == config
      && row.state == FinalState(Created, ws)
      && row.stopReason == LastReason(ws)
      && (row.startedAt.None? <==> forall i :: 0 <= i < |ws| ==> ws[i].target != Running)
      && (forall i :: 0 <= i < |ws| && ws[i].target == Running ==> row.startedAt == Some(ws[i].now))
      && (row.endedAt.None? <==> !IsTerminal(row.state))
      && (IsTerminal(row.state) ==> row.endedAt == Some(ws[|ws| - 1].now))
  {
    if ws != [] {
      var n := |ws| - 1;
      var init := ws[..n];
      HistoryPrefix(Created, ws, n);
      ColumnsTellHistory(config, init);
      HistoryShape(Created, ws);
      forall i | 0 <= i < n ensures ws[i] == init[i] {}
      assert CanTransition(FinalState(Created, init), ws[n].target);
    }
  }

  // ---------------------------------------------------------------- transitionState

  /** How the repository answers inside one call of transitionState; a failed UPDATE may still have been applied. */
  datatype Io = IoOk | ReadFails | WriteFails(applied: bool)

  datatype Verdict = Verdict(ok: bool, write: Option<Write>)

  function Decide(rows: map<string, Row>, id: string, target: ExperimentState, reason: string, now: int,
                  io: Io): Verdict {
    if io.ReadFails? || id !in rows then Verdict(false, None)
    else if rows[id].state == target then Verdict(true, None)
    else if !CanTransition(rows[id].state, target) then Verdict(false, None)
    else if io.IoOk? then Verdict(true, Some(Write(target, reason, now)))
    else Verdict(false, if io.applied then Some(Write(target, reason, now)) else None)
  }

  function ApplyWrite(rows: map<string, Row>, id: string, write: Option<Write>): map<string, Row> {
    if write.Some? && id in rows then rows[id := Updated(rows[id], write.value)] else rows
  }

  /** The experiments table, one row per id. */
  class ExperimentTable {
    var rows: map<string, Row>

    constructor ()
      ensures rows == map[]
    {
      rows := map[];
    }

    method GetByID(id: string, fails: bool) returns (ok: bool, row: Option<Row>)
      ensures ok <==> !fails && id in rows
      ensures ok ==> row == Some(rows[id])
    {
      if fails || id !in rows {
        return false, None;
      }
      return true, Some(rows[id]);
    }

    method UpdateState(id: string, target: ExperimentState, reason: string, now: int, io: Io) returns (ok: bool)
      requires !io.ReadFails?
      modifies this
      ensures ok <==> io.IoOk? && id in old(rows)
      ensures rows == if id in old(rows) && (io.IoOk? || io.applied)
                      then old(rows)[id := Updated(old(rows)[id], Write(target, reason, now))] else old(rows)
    {
      if id in rows && (io.IoOk? || io.applied) {
        var row := rows[id];
        if reason != "" {
          row := row.(stopReason := reason);
        }
        if target == Running && row.startedAt.None? {
          row := row.(startedAt := Some(now));
        }
        if IsTerminal(target) && row.endedAt.None? {
          row := row.(endedAt := Some(now));
        }
        ok := io.IoOk?;
        rows := rows[id := row.(state := target)];
      } else {
        ok := false;
      }
    }
  }

  /** transitionState, which runs under stateMu from its first read to its last write. */
  method TransitionState(table: ExperimentTable, id: string, target: ExperimentState, reason: string, now: int, io: Io)
    returns (ok: bool)
    modifies table
    ensures var verdict := Decide(old(table.rows), id, target, reason, now, io);
      ok == verdict.ok && table.rows == ApplyWrite(old(table.rows), id, verdict.write)
  {
    var found, row := table.GetByID(id, io.ReadFails?);
    if !found {
      return false;
    }
    if row.value.state == target {
      return true;
    }
    if !CanTransition(row.value.state, target) {
      return false;
    }
    ok := table.UpdateState(id, target, reason, now, io);
  }
}
