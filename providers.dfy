/**
 * The application root's network-change handler: it records connectivity in the
 * UI store and, on reconnect, runs the sync manager and reports its outcome
 * through `syncStatus`; the offline banner follows `isOnline`.
 */
module Providers {
  import opened AppStore
  import opened OfflineStorage

  /** The banner "You're offline" is rendered. */
  predicate OfflineBannerShown(ui: UIStore)
    reads ui
  {
    !ui.isOnline
  }

  /** The status the `.then` / `.catch` continuation of the sync sets. */
  function StatusAfterSync(report: SyncReport): (s: SyncStatus)
    ensures s == Idle <==> report.Completed? && report.failed == 0
    ensures s == SyncError <==> report.Rejected? || (report.Completed? && report.failed > 0)
    ensures s != Syncing
  {
    match report
    case Rejected => SyncError
    case Completed(_, failed) => if failed > 0 then SyncError else Idle
  }

  /** The synchronous part of the handler: record connectivity; on reconnect mark the sync as started. */
  method BeginNetworkChange(ui: UIStore, online: bool) returns (startSync: bool)
    modifies ui`isOnline, ui`syncStatus
    ensures ui.isOnline == online
    ensures startSync == online
    ensures online ==> ui.syncStatus == Syncing
    ensures !online ==> ui.syncStatus == old(ui.syncStatus)
  {
    ui.SetOnline(online);
    if online {
      ui.SetSyncStatus(Syncing);
    }
    return online;
  }

  /** The continuation that runs once `syncPendingChanges` settles. */
  method FinishSync(ui: UIStore, report: SyncReport)
    modifies ui`syncStatus
    ensures ui.syncStatus == StatusAfterSync(report)
  {
    if report.Rejected? {
      ui.SetSyncStatus(SyncError);
    } else if report.failed > 0 {
      ui.SetSyncStatus(SyncError);
    } else {
      ui.SetSyncStatus(Idle);
    }
  }

  /**
   * The whole `onNetworkChange` callback, with the sync running to completion
   * before its continuation (storeOk, remoteOk and clearOk as for the sync manager).
   */
  method OnNetworkChange(ui: UIStore, db: OfflineDb, online: bool, storeOk: bool, remoteOk: seq<bool>, clearOk: seq<bool>)
    returns (calls: seq<RemoteCall>)
    requires db.Valid()
    requires |remoteOk| == |db.pendingActions| && |clearOk| == |db.pendingActions|
    modifies ui`isOnline, ui`syncStatus, db`pendingActions
    ensures db.Valid()
    ensures ui.isOnline == online
    ensures OfflineBannerShown(ui) <==> !online
    ensures !online ==> ui.syncStatus == old(ui.syncStatus) && db.pendingActions == old(db.pendingActions) && calls == []
    ensures online && !storeOk ==> ui.syncStatus == SyncError && db.pendingActions == old(db.pendingActions)
    ensures online && storeOk ==> calls == Sent(old(db.pendingActions))
    ensures online && storeOk ==> db.pendingActions == Survivors(old(db.pendingActions), remoteOk, clearOk)
    ensures online && storeOk ==> (ui.syncStatus == Idle <==> db.pendingActions == [])
    ensures online ==> ui.syncStatus != Syncing
  {
    var startSync := BeginNetworkChange(ui, online);
    calls := [];
    if startSync {
      var report;
      report, calls := db.SyncPendingChanges(storeOk, remoteOk, clearOk);
      FinishSync(ui, report);
    }
  }
}
