/** The running state of one account and the sync decision
    (src/modules/account/status.rs, src/modules/cache/sync_type.rs). Times are
    milliseconds; every clock reading is a parameter. */
module SyncState {
  import opened Wrappers

  const DEFAULT_FULL_SYNC_INTERVAL_MIN: int := 30
  const ERROR_COUNT_PER_ACCOUNT: nat := 20

  datatype AccountError = AccountError(error: string, at: int)

  datatype RunningState = RunningState(
    lastFullStart: int, lastFullEnd: Option<int>, lastIncrementalStart: int, lastIncrementalEnd: Option<int>,
    errors: seq<AccountError>, initialCompleted: bool, initialFolders: seq<string>,
    currentFolder: Option<string>, currentBatch: Option<nat>, totalBatches: Option<nat>,
    initialStart: Option<int>, initialEnd: Option<int>)

  datatype MailerType = ImapSmtp | GmailApi | GraphApi

  datatype Account = Account(mailerType: MailerType, fullIntervalMin: Option<int>, incrementalIntervalSec: int)

  datatype SyncType = FullSync | IncrementalSync | SkipSync

  predicate TimeForFull(account: Account, now: int, lastStart: int) {
    var minutes := match account.fullIntervalMin case Some(m) => m case None => DEFAULT_FULL_SYNC_INTERVAL_MIN;
    now - lastStart > minutes * 60 * 1000
  }

  predicate TimeForIncremental(account: Account, now: int, lastStart: int) {
    now - lastStart > account.incrementalIntervalSec * 1000
  }

  function NewState(now: int): RunningState {
    RunningState(now, None, 0, None, [], false, [], None, None, None, None, None)
  }

  // ----- updates other than the decision

  /** The setters called while a sync runs. `at` and `later` are the clock readings. */
  datatype Update =
    | InitialFolders(folders: seq<string>)
    | InitialCompleted
    | BatchNumber(number: nat)
    | SyncingFolder(folder: string, batches: Option<nat>)
    | FullEnd
    | IncrementalEnd
    | AppendError(error: string)

  function LastN<T>(s: seq<T>, n: nat): seq<T> {
    if |s| <= n then s else s[|s| - n..]
  }

  /** What an update leaves in the row. */
  function Updated(s: RunningState, u: Update, at: int, later: int): RunningState {
    match u
    case InitialFolders(folders) => s.(initialFolders := folders, initialStart := Some(at))
    case InitialCompleted => s.(initialCompleted := true, lastFullEnd := Some(at), initialEnd := Some(later))
    case BatchNumber(n) => s.(currentBatch := Some(n))
    case SyncingFolder(folder, batches) => s.(currentFolder := Some(folder), totalBatches := batches)
    case FullEnd => s.(lastFullEnd := Some(at))
    case IncrementalEnd => s.(lastIncrementalEnd := Some(at))
    case AppendError(error) => s.(errors := Appended(s.errors, AccountError(error, at)))
  }

  function Appended(errors: seq<AccountError>, e: AccountError): seq<AccountError> {
    if |errors| + 1 > ERROR_COUNT_PER_ACCOUNT then errors[1..] + [e] else errors + [e]
  }

  // ----- the decision

  function Decision(row: Option<RunningState>, account: Account, now: int): SyncType {
    if row.None? then FullSync
    else if account.mailerType.ImapSmtp? && TimeForFull(account, now, row.value.lastFullStart) then FullSync
    else if TimeForIncremental(account, now, row.value.lastIncrementalStart) then IncrementalSync
    else SkipSync
  }

  /** The decision is recorded with a second, later clock reading. */
  function Recorded(row: Option<RunningState>, sync: SyncType, recordedAt: int): Option<RunningState> {
    if row.None? then Some(NewState(recordedAt))
    else match sync
         case FullSync => Some(row.value.(lastFullStart := recordedAt))
         case IncrementalSync => Some(row.value.(lastIncrementalStart := recordedAt))
         case SkipSync => row
  }

  class RunningStateRow {
    var row: Option<RunningState>

    constructor ()
      ensures row == None
    {
      row := None;
    }

    /** A setter on an account without a row fails and changes nothing. */
    method Update(u: Update, at: int, later: int) returns (found: bool)
      modifies this
      ensures found <==> old(row).Some?
      ensures row == if found then Some(Updated(old(row).value, u, at, later)) else None
      ensures found ==>
                var before := old(row).value;
                match u
                case InitialFolders(folders) =>
                  row == Some(before.(initialFolders := folders, initialStart := Some(at)))
                case InitialCompleted =>
                  row == Some(before.(initialCompleted := true, lastFullEnd := Some(at), initialEnd := Some(later)))
                case BatchNumber(n) => row == Some(before.(currentBatch := Some(n)))
                case SyncingFolder(folder, batches) =>
                  row == Some(before.(currentFolder := Some(folder), totalBatches := batches))
                case FullEnd => row == Some(before.(lastFullEnd := Some(at)))
                case IncrementalEnd => row == Some(before.(lastIncrementalEnd := Some(at)))
                case AppendError(error) =>
                  row == Some(before.(errors := (if |before.errors| < 20 then before.errors else before.errors[1..])
                                                  + [AccountError(error, at)]))
    {
      if row.None? {
        return false;
      }
      var updated := row.value;
      match u {
        case InitialFolders(folders) =>
          updated := updated.(initialFolders := folders);
          updated := updated.(initialStart := Some(at));
        case InitialCompleted =>
          updated := updated.(initialCompleted := true);
          updated := updated.(lastFullEnd := Some(at));
          updated := updated.(initialEnd := Some(later));
        case BatchNumber(n) => updated := updated.(currentBatch := Some(n));
        case SyncingFolder(folder, batches) =>
          updated := updated.(currentFolder := Some(folder));
          updated := updated.(totalBatches := batches);
        case FullEnd => updated := updated.(lastFullEnd := Some(at));
        case IncrementalEnd => updated := updated.(lastIncrementalEnd := Some(at));
        case AppendError(error) =>
          var log := AppendErrorLog(updated.errors, error, at);
          updated := updated.(errors := log);
      }
      row := Some(updated);
      found := true;
    }

    /** Push, then drop the oldest entry if the log has outgrown its limit. */
    method AppendErrorLog(errors: seq<AccountError>, error: string, at: int) returns (log: seq<AccountError>)
      ensures log == Appended(errors, AccountError(error, at))
      ensures log == if |errors| < 20 then errors + [AccountError(error, at)]
                     else errors[1..] + [AccountError(error, at)]
    {
      log := errors + [AccountError(error, at)];
      if |log| > ERROR_COUNT_PER_ACCOUNT {
        log := log[1..];
      }
    }

    /** A poll is skipped only when neither interval that applies to the account has
        elapsed, and a full sync goes first when both have. */
    method DetermineSyncType(account: Account, now: int, recordedAt: int) returns (sync: SyncType)
      modifies this
      ensures sync == Decision(old(row), account, now)
      ensures row == Recorded(old(row), sync, recordedAt)
      ensures var minutes := if account.fullIntervalMin.Some? then account.fullIntervalMin.value else 30;
              && (sync == FullSync <==>
                    || old(row).None?
                    || (account.mailerType.ImapSmtp? && now - old(row).value.lastFullStart > 60_000 * minutes))
              && (sync == IncrementalSync <==>
                    && old(row).Some?
                    && !(account.mailerType.ImapSmtp? && now - old(row).value.lastFullStart > 60_000 * minutes)
                    && now - old(row).value.lastIncrementalStart > 1000 * account.incrementalIntervalSec)
      ensures old(row).None? ==>
                row == Some(RunningState(recordedAt, None, 0, None, [], false, [], None, None, None, None, None))
      ensures old(row).Some? ==>
                row == if sync == FullSync then Some(old(row).value.(lastFullStart := recordedAt))
                       else if sync == IncrementalSync then Some(old(row).value.(lastIncrementalStart := recordedAt))
                       else old(row)
    {
      if row.None? {
        row := Some(NewState(recordedAt));
        return FullSync;
      }
      var info := row.value;
      var incremental := TimeForIncremental(account, now, info.lastIncrementalStart);
      match account.mailerType {
        case ImapSmtp =>
          if TimeForFull(account, now, info.lastFullStart) {
            row := Some(info.(lastFullStart := recordedAt));
            return FullSync;
          } else if incremental {
            row := Some(info.(lastIncrementalStart := recordedAt));
            return IncrementalSync;
          }
          return SkipSync;
        case _ =>
          if incremental {
            row := Some(info.(lastIncrementalStart := recordedAt));
            return IncrementalSync;
          }
          return SkipSync;
      }
    }
  }

  // ----- runs

  datatype Event =
    | Poll(account: Account, at: int, later: int)
    | Change(update: Update, at: int, later: int)

  function Next(row: Option<RunningState>, e: Event): Option<RunningState> {
    match e
    case Poll(account, now, recordedAt) => Recorded(row, Decision(row, account, now), recordedAt)
    case Change(u, at, later) => if row.None? then None else Some(Updated(row.value, u, at, later))
  }

  /** The row after the first n events. */
  function RowAt(row: Option<RunningState>, events: seq<Event>, n: nat): Option<RunningState>
    requires n <= |events|
  {
    if n == 0 then row else Next(RowAt(row, events, n - 1), events[n - 1])
  }

  /** The clock never goes back, within an event or between events. */
  ghost predicate ClockMonotone(events: seq<Event>) {
    && (forall i :: 0 <= i < |events| ==> events[i].at <= events[i].later)
    && (forall i, j :: 0 <= i < j < |events| ==> events[i].later <= events[j].at)
  }

  ghost predicate Decides(row: Option<RunningState>, events: seq<Event>, i: nat, sync: SyncType) {
    i < |events| && events[i].Poll? && Decision(RowAt(row, events, i), events[i].account, events[i].at) == sync
  }

  /** A recorded start is never set back. */
  lemma {:induction false} StartsRemembered(row: Option<RunningState>, events: seq<Event>, i: nat, k: nat)
    requires ClockMonotone(events) && i < k <= |events|
    ensures Decides(row, events, i, FullSync) ==>
              RowAt(row, events, k).Some? && RowAt(row, events, k).value.lastFullStart >= events[i].later
    ensures Decides(row, events, i, IncrementalSync) ==>
              RowAt(row, events, k).Some? && RowAt(row, events, k).value.lastIncrementalStart >= events[i].later
    decreases k
  {
    if k > i + 1 {
      StartsRemembered(row, events, i, k - 1);
      assert events[i].later <= events[k - 1].at <= events[k - 1].later;
    }
  }

  /** In milliseconds: the configured minutes, or half an hour. */
  function FullInterval(account: Account): int {
    if account.fullIntervalMin.Some? then 60_000 * account.fullIntervalMin.value else 1_800_000
  }

  /** Full syncs of an account are more than its full interval apart, measured from the
      recorded start of any earlier one. Only an IMAP account ever has a second one. */
  lemma FullSyncsSpaced(row: Option<RunningState>, events: seq<Event>, i: nat, j: nat)
    requires ClockMonotone(events) && i < j
    requires Decides(row, events, i, FullSync) && Decides(row, events, j, FullSync)
    ensures events[j].account.mailerType.ImapSmtp?
    ensures events[j].at - events[i].at >= events[j].at - events[i].later > FullInterval(events[j].account)
  {
    StartsRemembered(row, events, i, j);
  }

  /** And incremental syncs more than their interval. */
  lemma IncrementalSyncsSpaced(row: Option<RunningState>, events: seq<Event>, i: nat, j: nat)
    requires ClockMonotone(events) && i < j
    requires Decides(row, events, i, IncrementalSync) && Decides(row, events, j, IncrementalSync)
    ensures events[j].at - events[i].at >= events[j].at - events[i].later >
            1000 * events[j].account.incrementalIntervalSec
  {
    StartsRemembered(row, events, i, j);
  }

  // ----- the completed-sync baseline

  function Later(a: Option<int>, b: Option<int>): Option<int> {
    if a.None? then b
    else if b.None? then a
    else if a.value >= b.value then a
    else b
  }

  predicate NotBefore(a: Option<int>, b: Option<int>) {
    b.Some? ==> a.Some? && a.value >= b.value
  }

  /** The most recent completion of any kind, if any. */
  function LastCompletedSyncAt(s: RunningState): (r: Option<int>)
    ensures NotBefore(r, s.lastFullEnd) && NotBefore(r, s.lastIncrementalEnd) && NotBefore(r, s.initialEnd)
    ensures r == s.lastFullEnd || r == s.lastIncrementalEnd || r == s.initialEnd
  {
    Later(Later(s.lastFullEnd, s.lastIncrementalEnd), s.initialEnd)
  }

  predicate NotLater(a: Option<int>, t: int) {
    a.Some? ==> a.value <= t
  }

  predicate EndsBy(s: RunningState, t: int) {
    NotLater(s.lastFullEnd, t) && NotLater(s.lastIncrementalEnd, t) && NotLater(s.initialEnd, t)
  }

  predicate EndsNotBefore(s': RunningState, s: RunningState) {
    && NotBefore(s'.lastFullEnd, s.lastFullEnd)
    && NotBefore(s'.lastIncrementalEnd, s.lastIncrementalEnd)
    && NotBefore(s'.initialEnd, s.initialEnd)
  }

  /** No event clears an end timestamp or sets one back. */
  lemma NextKeepsEnds(s: RunningState, e: Event)
    requires EndsBy(s, e.at) && e.at <= e.later
    ensures Next(Some(s), e).Some?
    ensures EndsBy(Next(Some(s), e).value, e.later)
    ensures EndsNotBefore(Next(Some(s), e).value, s)
  {
    if e.Change? {
      match e.update
      case InitialCompleted =>
      case _ =>
    }
  }

  lemma NextKeepsBaseline(s: RunningState, e: Event)
    requires EndsBy(s, e.at) && e.at <= e.later
    ensures Next(Some(s), e).Some?
    ensures EndsBy(Next(Some(s), e).value, e.later)
    ensures NotBefore(LastCompletedSyncAt(Next(Some(s), e).value), LastCompletedSyncAt(s))
  {
    NextKeepsEnds(s, e);
    BaselineOfEnds(Next(Some(s), e).value, s);
  }

  lemma BaselineOfEnds(s': RunningState, s: RunningState)
    requires EndsNotBefore(s', s)
    ensures NotBefore(LastCompletedSyncAt(s'), LastCompletedSyncAt(s))
  {
  }

  lemma {:induction false} EndsByNow(row: Option<RunningState>, events: seq<Event>, n: nat)
    requires ClockMonotone(events) && 0 < n <= |events|
    requires row.Some? ==> EndsBy(row.value, events[0].at)
    ensures RowAt(row, events, n).Some? ==> EndsBy(RowAt(row, events, n).value, events[n - 1].later)
  {
    if n > 1 {
      EndsByNow(row, events, n - 1);
      assert events[n - 2].later <= events[n - 1].at;
    }
    var before := RowAt(row, events, n - 1);
    if before.Some? {
      assert EndsBy(before.value, events[n - 1].at);
      NextKeepsBaseline(before.value, events[n - 1]);
    }
  }

  /** From creation on, whatever syncs start, fail or finish, the last completed sync never
      disappears and never moves back. */
  lemma {:induction false} BaselineNeverMovesBack(row: Option<RunningState>, events: seq<Event>, m: nat, n: nat)
    requires ClockMonotone(events) && m <= n <= |events|
    requires row.Some? && |events| > 0 ==> EndsBy(row.value, events[0].at)
    requires RowAt(row, events, m).Some?
    ensures RowAt(row, events, n).Some?
    ensures NotBefore(LastCompletedSyncAt(RowAt(row, events, n).value),
                      LastCompletedSyncAt(RowAt(row, events, m).value))
    decreases n
  {
    if m < n {
      BaselineNeverMovesBack(row, events, m, n - 1);
      if n > 1 {
        EndsByNow(row, events, n - 1);
        assert events[n - 2].later <= events[n - 1].at;
      }
      NextKeepsBaseline(RowAt(row, events, n - 1).value, events[n - 1]);
    }
  }

  // ----- the error log

  /** All errors appended by the first n events. */
  function ErrorsOf(events: seq<Event>, n: nat): seq<AccountError>
    requires n <= |events|
  {
    if n == 0 then []
    else ErrorsOf(events, n - 1) +
         (if events[n - 1].Change? && events[n - 1].update.AppendError?
          then [AccountError(events[n - 1].update.error, events[n - 1].at)] else [])
  }

  lemma AppendedIsLastN(all: seq<AccountError>, e: AccountError)
    ensures Appended(LastN(all, ERROR_COUNT_PER_ACCOUNT), e) == LastN(all + [e], ERROR_COUNT_PER_ACCOUNT)
  {
  }

  /** The error log of an account is always the last min(n, 20) of the n errors appended
      since its row was created. */
  lemma {:induction false} ErrorLogIsRecent(created: int, events: seq<Event>, n: nat)
    requires n <= |events|
    ensures RowAt(Some(NewState(created)), events, n).Some?
    ensures RowAt(Some(NewState(created)), events, n).value.errors ==
            LastN(ErrorsOf(events, n), ERROR_COUNT_PER_ACCOUNT)
  {
    if n > 0 {
      ErrorLogIsRecent(created, events, n - 1);
      var e := events[n - 1];
      if e.Change? && e.update.AppendError? {
        AppendedIsLastN(ErrorsOf(events, n - 1), AccountError(e.update.error, e.at));
      } else {
        assert ErrorsOf(events, n) == ErrorsOf(events, n - 1);
      }
    }
  }
}
