/** The two snapshots of the build poll, run on the same reports: they agree
    wherever alppb returns or is still waiting, and where alppb exits on a
    failed build, alpaca keeps polling as if that report had not been seen. */
module PollSnapshots {
  import opened Aws
  import Alppb = AlppbCodeBuild
  import Alpaca = AlpacaCodeBuild

  lemma {:induction false} SnapshotsCompared(id: BuildId, reports: seq<BuildReport>, i: nat)
    requires i <= |reports|
    ensures var a := Alppb.WaitFrom(id, reports, i);
      var b := Alpaca.WaitFrom(reports, i);
      && (a.Completed? ==> b == Alpaca.Completed(a.polls))
      && (a.Pending? ==> b == Alpaca.Pending(a.polls))
      && (a.Failed? ==> a.polls <= |reports| && b == Alpaca.WaitFrom(reports, a.polls))
    decreases |reports| - i
  {
    if i < |reports| && reports[i].status == IN_PROGRESS {
      SnapshotsCompared(id, reports, i + 1);
    }
  }

  /** A FAILED build after some IN_PROGRESS polls: alppb exits with code 1
      on it, alpaca polls on. */
  lemma FailedBuildDiverges(id: BuildId, reports: seq<BuildReport>, k: nat)
    requires k < |reports| && reports[k].status == "FAILED"
    requires forall j | 0 <= j < k :: reports[j].status == IN_PROGRESS
    ensures Alppb.WaitFrom(id, reports, 0) == Alppb.Failed("FAILED", id, k + 1)
    ensures Alpaca.WaitFrom(reports, 0) == Alpaca.WaitFrom(reports, k + 1)
  {
    Alppb.WaitFromDecides(id, reports, 0);
    SnapshotsCompared(id, reports, 0);
  }
}
