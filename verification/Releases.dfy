/** Releases, their versions, and the compare-and-swap of the release phase in AFTER triggers. */
module Releases {
  import opened Basics

  datatype Phase =
    | Draft | Validating | Ready | Generating | Reviewing | Approved | Rendering
    | ReadyToPublish | Publishing | Published | Paused | Cancelled

  datatype Release = Release(phase: Phase, currentVersionNo: int, lockVersion: int)

  datatype Version = Version(release: Id, no: int)

  type ReleaseTable = map<Id, Release>
  type VersionTable = map<Id, Version>

  /** The version exists, is its release's current one, and the release is in the phase. */
  predicate CurrentIn(releases: ReleaseTable, versions: VersionTable, version: Id, phase: Phase) {
    && version in versions
    && versions[version].release in releases
    && releases[versions[version].release].currentVersionNo == versions[version].no
    && releases[versions[version].release].phase == phase
  }

  /** The rows the UPDATE of an AFTER trigger selects. */
  function SwapRows(releases: ReleaseTable, versions: VersionTable, version: Id, from: Phase): set<Id> {
    set r | r in releases && releases[r].phase == from
            && version in versions && versions[version].release == r
            && versions[version].no == releases[r].currentVersionNo
  }

  /** The compare-and-swap; None when the trigger aborts because it did not change exactly one row. */
  function Swap(releases: ReleaseTable, versions: VersionTable, version: Id, from: Phase, to: Phase): Option<ReleaseTable>
  {
    var rows := SwapRows(releases, versions, version, from);
    if |rows| != 1 then None
    else Some(map r | r in releases ::
                if r in rows then Release(to, releases[r].currentVersionNo, releases[r].lockVersion + 1) else releases[r])
  }

  /** The swap succeeds exactly when the release of the version is current and in the old phase. */
  lemma SwapSucceeds(releases: ReleaseTable, versions: VersionTable, version: Id, from: Phase, to: Phase)
    ensures Swap(releases, versions, version, from, to).Some? <==> CurrentIn(releases, versions, version, from)
    ensures CurrentIn(releases, versions, version, from) ==>
              var id := versions[version].release;
              Swap(releases, versions, version, from, to)
              == Some(releases[id := Release(to, releases[id].currentVersionNo, releases[id].lockVersion + 1)])
  {
    var rows := SwapRows(releases, versions, version, from);
    if CurrentIn(releases, versions, version, from) {
      var id := versions[version].release;
      assert rows == {id} && |rows| == 1;
      var swapped := Swap(releases, versions, version, from, to).value;
      assert swapped == releases[id := Release(to, releases[id].currentVersionNo, releases[id].lockVersion + 1)];
    } else {
      assert rows == {};
    }
  }
}
