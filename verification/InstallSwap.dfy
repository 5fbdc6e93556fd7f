/** The staged refresh of a managed skill tree: build aside, swap by rename, roll back, recover.
  *
  * The model is one run at a time (the install lock gives that) over the directory that holds
  * `summon`, `summon.previous` and the `summon.staging-*` directories.  A Weather fixes which
  * calls of a run raise OSError, what an interrupted or partly failed rmtree leaves behind, and
  * where the run crashes.
  */
module InstallSwap {
  import Runs

  // id tells apart different contents; complete means every payload file of that version.
  datatype Content = Empty | Files(id: nat, complete: bool)

  // owned is the verdict of _owned: a manifest that parses and names summon.
  datatype Entry = Absent | File | Dir(owned: bool, content: Content)

  datatype Tree = Tree(dest: Entry, backup: Entry, others: map<nat, Entry>)

  // What rmtree leaves: it may stop anywhere, also after the manifest is gone.
  datatype Rubble = Gone | Untouched | Emptied | Torn(markerLeft: bool, left: nat)

  function Residue(e: Entry, r: Rubble): (left: Entry)
    requires e.Dir?
    ensures left.Dir? && left.owned ==> e.owned
  {
    match r
    case Gone => Absent
    case Untouched => e
    case Emptied => Dir(false, Empty)
    case Torn(markerLeft, left) => Dir(e.owned && markerLeft, Files(left, false))
  }

  datatype Staged = MarkerFails | BuildFails(left: nat) | ManifestFails(left: nat) | AllWritten

  // The run dies just before the named call.
  datatype Death =
    | Survives | AtRecovery | AtReap | AtBackupReap | AtStaging | AtSetAside | AtSwapIn
    | AtCleanup | AtRollback | AtDiscard

  datatype Weather = Weather(
    version: nat,
    name: nat,                  // the name mkdtemp picks
    recovers: bool,             // install.py:382-386, the rename that puts the backup back
    lists: bool,                // os.listdir
    reaps: map<nat, Rubble>,    // stale staging directories; missing means Gone
    reapsBackup: Rubble,
    makes: bool,                // mkdtemp
    stages: Staged,
    setsAside: bool,            // rename(dest, backup)
    swapsIn: bool,              // rename(staging, dest)
    cleans: Rubble,
    rollsBack: bool,
    discards: Rubble,
    death: Death)

  datatype Outcome = Installed | Refused | Failed | Crashed

  predicate OwnedDir(e: Entry) {
    e.Dir? && e.owned
  }

  // rename(2) of a directory replaces nothing but an empty directory.
  predicate RenameTarget(e: Entry) {
    e.Absent? || (e.Dir? && e.content.Empty?)
  }

  // ---------------------------------------------------------------------------------------
  // The run as a function
  // ---------------------------------------------------------------------------------------

  function Recovered(t: Tree, w: Weather): Tree {
    if !t.dest.Dir? && OwnedDir(t.backup) && RenameTarget(t.dest) && w.recovers
    then t.(dest := t.backup, backup := Absent) else t
  }

  function ReapOne(e: Entry, r: Rubble): Entry {
    if OwnedDir(e) then Residue(e, r) else e
  }

  function RubbleOf(w: Weather, n: nat): Rubble {
    if n in w.reaps then w.reaps[n] else Gone
  }

  function Reaped(t: Tree, w: Weather): Tree {
    t.(others := map n | n in t.others && !Vanishes(t.others[n], RubbleOf(w, n)) :: ReapOne(t.others[n], RubbleOf(w, n)))
  }

  predicate Vanishes(e: Entry, r: Rubble) {
    OwnedDir(e) && Residue(e, r) == Absent
  }

  function BackupReaped(t: Tree, w: Weather): Tree {
    t.(backup := ReapOne(t.backup, w.reapsBackup))
  }

  function StagedEntry(w: Weather): Entry {
    match w.stages
    case MarkerFails => Dir(false, Files(0, false))
    case BuildFails(left) => Dir(true, Files(left, false))
    case ManifestFails(left) => Dir(false, Files(left, false))
    case AllWritten => Dir(true, Files(w.version, true))
  }

  // The handler of OSError; `staging` says whether a staging directory of this run is left.
  function RolledBack(t: Tree, w: Weather): Tree {
    if !t.dest.Dir? && OwnedDir(t.backup) && RenameTarget(t.dest) && w.rollsBack
    then t.(dest := t.backup, backup := Absent) else t
  }

  function Put(t: Tree, n: nat, e: Entry): Tree {
    t.(others := if e == Absent then t.others - {n} else t.others[n := e])
  }

  function Handle(t: Tree, w: Weather, staging: bool): (Tree, Outcome) {
    if w.death == AtRollback then (t, Crashed)
    else
      var r := RolledBack(t, w);
      if w.death == AtDiscard then (r, Crashed)
      else if staging && w.name in r.others && r.others[w.name].Dir?
      then (Put(r, w.name, Residue(r.others[w.name], w.discards)), Failed)
      else (r, Failed)
  }

  function Swap(t: Tree, w: Weather): (Tree, Outcome)
    requires w.name in t.others
  {
    if w.death == AtSetAside then (t, Crashed)
    else if t.dest.Dir? && !(w.setsAside && RenameTarget(t.backup)) then Handle(t, w, true)
    else
      var aside := if t.dest.Dir? then t.(dest := Absent, backup := t.dest) else t;
      if w.death == AtSwapIn then (aside, Crashed)
      else if !(w.swapsIn && RenameTarget(aside.dest)) then Handle(aside, w, true)
      else
        var swapped := aside.(dest := aside.others[w.name], others := aside.others - {w.name});
        if w.death == AtCleanup then (swapped, Crashed)
        else (swapped.(backup := ReapOne(swapped.backup, w.cleans)), Installed)
  }

  function Build(t: Tree, w: Weather): (Tree, Outcome) {
    if w.death == AtStaging then (t, Crashed)
    else if !w.makes || w.name in t.others then Handle(t, w, false)
    else
      var staged := Put(t, w.name, StagedEntry(w));
      if w.stages == AllWritten then Swap(staged, w) else Handle(staged, w, true)
  }

  function Install(t: Tree, w: Weather): (Tree, Outcome) {
    if w.death == AtRecovery then (t, Crashed)
    else
      var r := Recovered(t, w);
      if r.dest.Dir? && !r.dest.owned then (r, Refused)
      else if w.death == AtReap then (r, Crashed)
      else if !w.lists then Handle(r, w, false)
      else
        var c := Reaped(r, w);
        if w.death == AtBackupReap then (c, Crashed) else Build(BackupReaped(c, w), w)
  }

  datatype Removal = NothingThere | Declined | Removed | Raised

  // uninstall_skill under the lock: rmtree(dest), whose OSError is not caught.
  function Uninstall(t: Tree, r: Rubble): (Tree, Removal) {
    if !t.dest.Dir? then (t, NothingThere)
    else if !t.dest.owned then (t, Declined)
    else if r == Gone then (t.(dest := Absent), Removed)
    else (t.(dest := Residue(t.dest, r)), Raised)
  }

  function AfterInstall(t: Tree, w: Weather): Tree {
    Install(t, w).0
  }

  function Installs(t: Tree, ws: seq<Weather>): Tree {
    Runs.Run(AfterInstall, t, ws)
  }

  // A run of the installer or of the uninstaller.
  datatype Command = Refresh(weather: Weather) | Remove(rubble: Rubble)

  function Perform(t: Tree, c: Command): Tree {
    match c
    case Refresh(w) => Install(t, w).0
    case Remove(r) => Uninstall(t, r).0
  }

  // ---------------------------------------------------------------------------------------
  // The run as install_skill performs it
  // ---------------------------------------------------------------------------------------

  // The loop over os.listdir(parent), one entry at a time.
  method ReapAll(entries: map<nat, Entry>, w: Weather) returns (left: map<nat, Entry>)
    ensures left == Reaped(Tree(Absent, Absent, entries), w).others
  {
    ghost var final := Reaped(Tree(Absent, Absent, entries), w).others;
    var todo := entries.Keys;
    left := entries;
    while todo != {}
      invariant todo <= entries.Keys && final.Keys <= left.Keys <= entries.Keys
      invariant forall n :: n in left ==> n in todo || n in final
      invariant forall n :: n in todo ==> n in left
      invariant forall n :: n in left ==> left[n] == if n in todo then entries[n] else final[n]
      decreases |todo|
    {
      var n :| n in todo;
      todo := todo - {n};
      if Vanishes(left[n], RubbleOf(w, n)) {
        left := left - {n};
      } else {
        left := left[n := ReapOne(left[n], RubbleOf(w, n))];
      }
    }
  }

  class Skills {
    var dest: Entry
    var backup: Entry
    var others: map<nat, Entry>

    function Contents(): Tree
      reads this
    {
      Tree(dest, backup, others)
    }

    constructor (t: Tree)
      ensures Contents() == t
    {
      dest, backup, others := t.dest, t.backup, t.others;
    }

    method RestoreBackup(succeeds: bool)
      modifies this
      ensures Contents() ==
              if !old(dest).Dir? && OwnedDir(old(backup)) && RenameTarget(old(dest)) && succeeds
              then old(Contents()).(dest := old(backup), backup := Absent) else old(Contents())
    {
      if !dest.Dir? && OwnedDir(backup) {
        if succeeds && RenameTarget(dest) {
          dest, backup := backup, Absent;
        }
      }
    }

    method ReapStaging(w: Weather)
      modifies this`others
      ensures Contents() == Reaped(old(Contents()), w)
    {
      var left := ReapAll(others, w);
      others := left;
    }

    method HandleOsError(w: Weather, staging: bool) returns (out: Outcome)
      modifies this
      ensures (Contents(), out) == Handle(old(Contents()), w, staging)
    {
      if w.death == AtRollback { return Crashed; }
      RestoreBackup(w.rollsBack);
      if w.death == AtDiscard { return Crashed; }
      if staging && w.name in others && others[w.name].Dir? {
        var left := Residue(others[w.name], w.discards);
        others := if left == Absent then others - {w.name} else others[w.name := left];
      }
      return Failed;
    }

    method InstallSkill(w: Weather) returns (out: Outcome)
      modifies this
      ensures (Contents(), out) == Install(old(Contents()), w)
    {
      if w.death == AtRecovery { return Crashed; }
      RestoreBackup(w.recovers);
      if dest.Dir? && !dest.owned { return Refused; }
      if w.death == AtReap { return Crashed; }
      if !w.lists { out := HandleOsError(w, false); return; }
      ReapStaging(w);
      if w.death == AtBackupReap { return Crashed; }
      if OwnedDir(backup) { backup := Residue(backup, w.reapsBackup); }
      if w.death == AtStaging { return Crashed; }
      if !w.makes || w.name in others { out := HandleOsError(w, false); return; }
      others := others[w.name := StagedEntry(w)];
      if w.stages != AllWritten { out := HandleOsError(w, true); return; }
      if w.death == AtSetAside { return Crashed; }
      if dest.Dir? {
        if !w.setsAside || !RenameTarget(backup) { out := HandleOsError(w, true); return; }
        dest, backup := Absent, dest;
      }
      if w.death == AtSwapIn { return Crashed; }
      if !w.swapsIn || !RenameTarget(dest) { out := HandleOsError(w, true); return; }
      dest, others := others[w.name], others - {w.name};
      if w.death == AtCleanup { return Crashed; }
      if OwnedDir(backup) { backup := Residue(backup, w.cleans); }
      return Installed;
    }
  }

  // ---------------------------------------------------------------------------------------
  // Crash consistency
  // ---------------------------------------------------------------------------------------

  predicate Good(e: Entry) {
    e.Dir? && e.owned && e.content.Files? && e.content.complete
  }

  predicate Kept(t: Tree) {
    Good(t.dest) || Good(t.backup)
  }

  // A complete tree is installed, or waits as the backup while dest is missing.
  predicate Consistent(t: Tree) {
    Good(t.dest) || (t.dest.Absent? && Good(t.backup))
  }

  lemma InstallKeepsConsistent(t: Tree, w: Weather)
    requires Consistent(t) && (Good(t.dest) || w.recovers)
    ensures Consistent(Install(t, w).0)
  {}

  // Every crash point and every OSError of every sequence of runs leaves a complete owned tree,
  // given that the recovery rename succeeds when it is tried.
  lemma {:induction false} RefreshIsCrashConsistent(t: Tree, ws: seq<Weather>)
    requires Consistent(t) && forall w :: w in ws ==> w.recovers
    ensures Consistent(Installs(t, ws)) && Kept(Installs(t, ws))
    decreases |ws|
  {
    if ws == [] {
    } else {
      InstallKeepsConsistent(t, ws[0]);
      RefreshIsCrashConsistent(Install(t, ws[0]).0, ws[1..]);
    }
  }

  const FAIR := Weather(0, 0, true, true, map[], Gone, true, AllWritten, true, true, Gone, true, Gone, Survives)

  // The assumption about the recovery rename is exact: a run is safe whatever else happens if and
  // only if dest is in place or the rename succeeds.
  lemma RecoveryRenameDecides(t: Tree, recovers: bool)
    requires Consistent(t)
    ensures (forall w: Weather :: w.recovers == recovers ==> Kept(Install(t, w).0)) <==> Good(t.dest) || recovers
  {
    if Good(t.dest) || recovers {
      forall w: Weather | w.recovers == recovers ensures Kept(Install(t, w).0) { InstallKeepsConsistent(t, w); }
    } else {
      var w := FAIR.(recovers := recovers, death := AtStaging);
      assert !Kept(Install(t, w).0);
    }
  }

  // ---------------------------------------------------------------------------------------
  // What each outcome means
  // ---------------------------------------------------------------------------------------

  // A successful return leaves exactly the new tree at dest, whatever was there before.
  lemma InstalledMeansNew(t: Tree, w: Weather)
    requires Install(t, w).1 == Installed
    ensures Install(t, w).0.dest == Dir(true, Files(w.version, true)) && w.name !in Install(t, w).0.others
  {}

  // It leaves no staging directory of its own, and of owned leftovers, backup included, only those
  // that rmtree did not remove.
  lemma InstalledRunTidies(t: Tree, w: Weather)
    requires Install(t, w).1 == Installed
    ensures var u := Install(t, w).0;
            && u.others.Keys <= t.others.Keys
            && (forall n :: n in u.others && u.others[n].Dir? && u.others[n].owned ==>
                  n in w.reaps && w.reaps[n] != Gone)
            && (u.backup.Dir? && u.backup.owned ==> w.cleans != Gone)
  {
    var c := BackupReaped(Reaped(Recovered(t, w), w), w);
    assert w.name !in c.others && Put(c, w.name, StagedEntry(w)).others - {w.name} == c.others;
  }

  // When no call fails, the whole directory is known: the new tree, no owned leftover, no backup but
  // one that was not summon's where there was no tree to set aside, and all else as it was.
  lemma CalmRunLeaves(t: Tree, version: nat, name: nat)
    requires name !in t.others && Install(t, FAIR.(version := version, name := name)).1 == Installed
    ensures var u := Install(t, FAIR.(version := version, name := name)).0;
            && u.dest == Dir(true, Files(version, true))
            && u.backup == (if OwnedDir(t.dest) || OwnedDir(t.backup) then Absent else t.backup)
            && u.others == map n | n in t.others && !(t.others[n].Dir? && t.others[n].owned) :: t.others[n]
  {
    var w := FAIR.(version := version, name := name);
    var c := BackupReaped(Reaped(Recovered(t, w), w), w);
    assert name !in c.others && Put(c, name, StagedEntry(w)).others - {name} == c.others;
  }

  // A run that fails after it made its staging directory discards it, if rmtree does.
  lemma FailedRunDiscards(t: Tree, w: Weather)
    requires Install(t, w).1 == Failed && w.name !in t.others && w.discards == Gone
    ensures w.name !in Install(t, w).0.others
  {}

  // A run refuses a directory without a summon manifest, and nothing else, and changes nothing.
  lemma RefusedIff(t: Tree, w: Weather)
    ensures Install(t, w).1 == Refused <==> w.death != AtRecovery && t.dest.Dir? && !t.dest.owned
    ensures Install(t, w).1 == Refused ==> Install(t, w).0 == t
  {}

  // "previous copy left in place" is true of a failed refresh except when dest was already set
  // aside, the swap failed, and the rollback rename failed too; then the copy is the backup.
  lemma FailedLeavesPrevious(t: Tree, w: Weather)
    requires Install(t, w).1 == Failed && Good(t.dest)
    ensures var u := Install(t, w).0;
            var reachedSwap := w.lists && w.makes && w.name !in Reaped(t, w).others && w.stages == AllWritten
                               && w.setsAside && RenameTarget(ReapOne(t.backup, w.reapsBackup));
            && (u.dest == t.dest <==> !reachedSwap || w.rollsBack)
            && (u.dest != t.dest ==> u.dest == Absent && u.backup == t.dest)
  {}

  // That happens: from any complete tree whose backup name is free.
  lemma FailedSwapLosesDest(t: Tree) returns (w: Weather)
    requires Good(t.dest) && !Foreign(t.backup) && 0 !in t.others
    ensures Install(t, w).1 == Failed
    ensures Install(t, w).0.dest == Absent && Install(t, w).0.backup == t.dest
  {
    w := FAIR.(swapsIn := false, rollsBack := false);
    assert 0 !in Reaped(t, w).others;
  }

  // Something a run must never move or delete: a file, or a directory with content and no valid
  // summon manifest.
  predicate Foreign(e: Entry) {
    e.File? || (e.Dir? && !e.owned && !e.content.Empty?)
  }

  // own is the run's own staging name, the one entry a run may discard at will.
  ghost predicate KeepsForeign(t: Tree, u: Tree, own: nat) {
    && (Foreign(t.dest) ==> u.dest == t.dest)
    && (Foreign(t.backup) ==> u.backup == t.backup)
    && (forall n :: n in t.others && n != own && Foreign(t.others[n]) ==> n in u.others && u.others[n] == t.others[n])
  }

  lemma SwapKeepsForeign(t: Tree, w: Weather)
    requires w.name in t.others && OwnedDir(t.others[w.name]) && (t.dest.Dir? ==> t.dest.owned)
    ensures KeepsForeign(t, Swap(t, w).0, w.name)
  {}

  lemma BuildKeepsForeign(t: Tree, w: Weather)
    requires t.dest.Dir? ==> t.dest.owned
    ensures KeepsForeign(t, Build(t, w).0, w.name)
    ensures w.name in t.others ==> w.name in Build(t, w).0.others && Build(t, w).0.others[w.name] == t.others[w.name]
  {
    if w.name !in t.others && w.stages == AllWritten { SwapKeepsForeign(Put(t, w.name, StagedEntry(w)), w); }
  }

  lemma InstallKeepsForeign(t: Tree, w: Weather)
    ensures KeepsForeign(t, Install(t, w).0, w.name)
    ensures w.name in t.others && Foreign(t.others[w.name]) ==>
              w.name in Install(t, w).0.others && Install(t, w).0.others[w.name] == t.others[w.name]
  {
    var c := BackupReaped(Reaped(Recovered(t, w), w), w);
    assert KeepsForeign(t, c, w.name);
    if c.dest.Dir? ==> c.dest.owned { BuildKeepsForeign(c, w); }
  }

  // An uninstall touches nothing but an owned dest.
  lemma UninstallKeepsForeign(t: Tree, r: Rubble)
    ensures var u := Uninstall(t, r).0;
            u.backup == t.backup && u.others == t.others && (!OwnedDir(t.dest) ==> u.dest == t.dest)
  {}

  ghost predicate KeepsAllForeign(t: Tree, u: Tree) {
    && (Foreign(t.dest) ==> u.dest == t.dest)
    && (Foreign(t.backup) ==> u.backup == t.backup)
    && (forall n :: n in t.others && Foreign(t.others[n]) ==> n in u.others && u.others[n] == t.others[n])
  }

  // No sequence of installer and uninstaller runs ever moves or deletes a foreign entry, at dest,
  // at the backup name or at any staging name.
  lemma ForeignSurvives(t: Tree, commands: seq<Command>)
    ensures KeepsAllForeign(t, Runs.Run(Perform, t, commands))
  {
    forall u, c | KeepsAllForeign(t, u) ensures KeepsAllForeign(t, Perform(u, c)) {
      match c
      case Refresh(w) => InstallKeepsForeign(u, w);
      case Remove(r) => UninstallKeepsForeign(u, r);
    }
    Runs.Invariant(Perform, u => KeepsAllForeign(t, u), t, commands);
  }

  // ---------------------------------------------------------------------------------------
  // When a refresh can succeed at all
  // ---------------------------------------------------------------------------------------

  // Without any failing call, a run installs exactly when dest is not foreign and the backup name
  // is free to take the old tree.
  lemma FairRunInstallsIff(t: Tree, version: nat, name: nat)
    requires name !in t.others
    ensures var w := FAIR.(version := version, name := name);
            Install(t, w).1 == Installed <==>
            !t.dest.File? && (t.dest.Dir? ==> t.dest.owned && !(Foreign(t.backup)))
  {
    var w := FAIR.(version := version, name := name);
    var c := BackupReaped(Reaped(Recovered(t, w), w), w);
    assert name !in c.others;
  }

  // A foreign backup cannot be replaced and an installed tree is never dropped without one, so no
  // run, whatever happens in it, ever installs again.
  lemma BlockedByForeignBackup(t: Tree, w: Weather)
    requires OwnedDir(t.dest) && Foreign(t.backup)
    ensures Install(t, w).1 != Installed
    ensures Install(t, w).0.dest == t.dest && Install(t, w).0.backup == t.backup
  {}

  predicate StillBlocked(t: Tree, u: Tree) {
    u.dest == t.dest && u.backup == t.backup && OwnedDir(u.dest) && Foreign(u.backup)
  }

  lemma BlockedForever(t: Tree, ws: seq<Weather>, w: Weather)
    requires OwnedDir(t.dest) && Foreign(t.backup)
    ensures Install(Installs(t, ws), w).1 != Installed && Installs(t, ws).dest == t.dest
  {
    forall u, v | StillBlocked(t, u) ensures StillBlocked(t, AfterInstall(u, v)) { BlockedByForeignBackup(u, v); }
    Runs.Invariant(AfterInstall, u => StillBlocked(t, u), t, ws);
    BlockedByForeignBackup(Installs(t, ws), w);
  }

  // A refresh that installs but tears the backup while removing it leads there: from any complete
  // tree, the run after it and all later ones fail.
  lemma TornBackupBlocks(t: Tree, left: nat) returns (w: Weather)
    requires Good(t.dest) && !Foreign(t.backup) && 0 !in t.others
    ensures w == FAIR.(cleans := Torn(false, left)) && Install(t, w).1 == Installed
    ensures forall ws, v :: Install(Installs(Install(t, w).0, ws), v).1 != Installed
  {
    w := FAIR.(cleans := Torn(false, left));
    var u := Install(t, w).0;
    assert u.backup == Dir(false, Files(left, false));
    forall ws, v ensures Install(Installs(u, ws), v).1 != Installed { BlockedForever(u, ws, v); }
  }

  // ---------------------------------------------------------------------------------------
  // Uninstall
  // ---------------------------------------------------------------------------------------

  // An uninstall whose rmtree stops leaves what is left at dest; without its manifest that is not
  // summon's any more, so no later run replaces it.
  lemma TornUninstallBlocks(t: Tree, markerLeft: bool, left: nat, w: Weather)
    requires OwnedDir(t.dest)
    ensures Uninstall(t, Torn(markerLeft, left)) == (t.(dest := Dir(markerLeft, Files(left, false))), Raised)
    ensures !markerLeft ==> Install(Uninstall(t, Torn(markerLeft, left)).0, w).1 != Installed
  {}

  // An installed tree is removed by an undisturbed uninstall, and a following fair install of
  // any version brings a complete tree back unless a foreign file took the place of dest.
  lemma UninstallThenInstall(t: Tree, w: Weather, v: Weather)
    requires Install(t, w).1 == Installed
    requires v == FAIR.(version := v.version, name := v.name) && v.name !in Install(t, w).0.others
    ensures var u := Uninstall(Install(t, w).0, Gone);
            && u.1 == Removed
            && u.0 == Install(t, w).0.(dest := Absent)
            && Install(u.0, v).1 == Installed && Good(Install(u.0, v).0.dest)
  {
    InstalledMeansNew(t, w);
    var u := Uninstall(Install(t, w).0, Gone).0;
    FairRunInstallsIff(u, v.version, v.name);
    InstalledMeansNew(u, v);
  }
}
