/**
 * Bringing shipped defaults into an existing house (cli/adopt.ts over
 * core/config/defaults-drift.ts): only what is absent is written, and what is copied is
 * registered as it was read back. Two files are compared by their hashes; here, by their
 * bytes.
 */
module Reconcile {

  import opened Common

  type Path = string
  type Bytes = seq<bv8>
  type Files = map<Path, Bytes>

  datatype Status = UpToDate | Adoptable | OwnerModified | Missing | Unknown

  /** Did this checkout's history ever ship these bytes at this path? */
  datatype History = HistoryError | Shipped | NeverShipped

  /** What the outside does: git history, copies, reads. */
  datatype CopyEnd = Copied(content: Bytes) | CopyThrew(left: Option<Bytes>)

  /** A checkout's log for a path: unreadable, or what each commit had there. */
  datatype Log = Unreadable | Log(commits: seq<Option<Bytes>>)

  datatype Outside = Outside(shallow: bool, log: Path -> Log, copy: Path -> CopyEnd, readsBack: Path -> bool)

  /** `findInHistory`: a shallow checkout cannot answer, and neither can an unreadable log. */
  function Searched(out: Outside, p: Path, content: Bytes): History {
    if out.shallow || out.log(p).Unreadable? then HistoryError
    else if Some(content) in out.log(p).commits then Shipped
    else NeverShipped
  }

  method FindInHistory(out: Outside, p: Path, content: Bytes) returns (h: History)
    ensures h == Searched(out, p, content)
    ensures h.HistoryError? <==> out.shallow || out.log(p).Unreadable?
    ensures h.Shipped? <==> !out.shallow && out.log(p).Log? && exists i :: 0 <= i < |out.log(p).commits| && out.log(p).commits[i] == Some(content)
  {
    if out.shallow { return HistoryError; }
    var log := out.log(p);
    if log.Unreadable? { return HistoryError; }
    var i := 0;
    while i < |log.commits|
      invariant 0 <= i <= |log.commits| && Some(content) !in log.commits[..i]
    {
      if log.commits[i] == Some(content) { return Shipped; }
      i := i + 1;
    }
    h := NeverShipped;
  }

  predicate Sealed(p: Path) { |p| >= 4 && p[..4] == "rot/" }

  /** `diagnoseOne`: HEAD first, then the registry, then the history. */
  function Diagnose(files: Files, registry: Files, checkout: Option<Files>, out: Outside, p: Path): Status {
    if p !in files then Missing
    else if checkout.Some? && p in checkout.value && files[p] == checkout.value[p] then UpToDate
    else if p in registry then
      (if files[p] != registry[p] then OwnerModified else if checkout.None? then Unknown else Adoptable)
    else if checkout.None? then Unknown
    else
      match Searched(out, p, files[p])
      case HistoryError => Unknown
      case Shipped => Adoptable
      case NeverShipped => OwnerModified
  }

  /** A registered file unchanged since it was installed, or one this checkout shipped before, may be brought up to date. */
  lemma DiagnosisIs(files: Files, registry: Files, checkout: Option<Files>, out: Outside, p: Path)
    ensures var st := Diagnose(files, registry, checkout, out, p);
            var here := p in files;
            var head := here && checkout.Some? && p in checkout.value && checkout.value[p] == files[p];
            var readable := checkout.Some? && !out.shallow && out.log(p).Log?;
            var shipped := here && readable && Some(files[p]) in out.log(p).commits;
            && (st == Missing <==> !here)
            && (st == UpToDate <==> here && head)
            && (st == Adoptable <==> here && !head && checkout.Some? && if p in registry then registry[p] == files[p] else shipped)
            && (st == OwnerModified <==> here && !head && if p in registry then registry[p] != files[p] else readable && !shipped)
            && (st == Unknown <==> here && !head && if p in registry then registry[p] == files[p] && checkout.None? else !readable)
  {
  }

  datatype Outcome = Outcome(
    installed: seq<Path>,
    failed: seq<Path>,
    sealed: seq<Path>,
    ownerModified: seq<Path>,
    unknown: seq<Path>,
    adoptable: seq<Path>)

  predicate NoRepeats(ps: seq<Path>) { forall i, j | 0 <= i < j < |ps| :: ps[i] != ps[j] }

  /** The file arrived and could be read back. */
  predicate Lands(checkout: Files, out: Outside, p: Path) { p in checkout && out.copy(p).Copied? && out.readsBack(p) }

  /** The copy wrote something, whether or not it finished. */
  predicate LeavesFile(out: Outside, p: Path) { out.copy(p).Copied? || out.copy(p).left.Some? }

  /** The paths whose copy lands, or those whose copy does not, in order. */
  function Landing(checkout: Files, out: Outside, paths: seq<Path>, lands: bool): seq<Path> {
    if paths == [] then []
    else Landing(checkout, out, paths[..|paths| - 1], lands) + if Lands(checkout, out, paths[|paths| - 1]) == lands then [paths[|paths| - 1]] else []
  }

  lemma {:induction false} InLanding(checkout: Files, out: Outside, paths: seq<Path>, lands: bool)
    ensures forall p :: p in Landing(checkout, out, paths, lands) <==> p in paths && Lands(checkout, out, p) == lands
    ensures NoRepeats(paths) ==> NoRepeats(Landing(checkout, out, paths, lands))
    decreases |paths|
  {
    if paths != [] {
      var front, last := paths[..|paths| - 1], paths[|paths| - 1];
      InLanding(checkout, out, front, lands);
      assert paths == front + [last];
      assert NoRepeats(paths) ==> last !in front;
    }
  }

  /** The paths with one diagnosis, in order. */
  function WithStatus(files: Files, registry: Files, checkout: Option<Files>, out: Outside, paths: seq<Path>, st: Status): seq<Path> {
    if paths == [] then []
    else WithStatus(files, registry, checkout, out, paths[..|paths| - 1], st) + if Diagnose(files, registry, checkout, out, paths[|paths| - 1]) == st then [paths[|paths| - 1]] else []
  }

  lemma {:induction false} InWithStatus(files: Files, registry: Files, checkout: Option<Files>, out: Outside, paths: seq<Path>, st: Status)
    ensures forall p :: p in WithStatus(files, registry, checkout, out, paths, st) <==> p in paths && Diagnose(files, registry, checkout, out, p) == st
    ensures NoRepeats(paths) ==> NoRepeats(WithStatus(files, registry, checkout, out, paths, st))
    decreases |paths|
  {
    if paths != [] {
      var front, last := paths[..|paths| - 1], paths[|paths| - 1];
      InWithStatus(files, registry, checkout, out, front, st);
      assert paths == front + [last];
      assert NoRepeats(paths) ==> last !in front;
    }
  }

  /** The absent paths in the seal, or out of it, in order. */
  function Absent(files: Files, paths: seq<Path>, sealed: bool): seq<Path> {
    if paths == [] then []
    else Absent(files, paths[..|paths| - 1], sealed) + if paths[|paths| - 1] !in files && Sealed(paths[|paths| - 1]) == sealed then [paths[|paths| - 1]] else []
  }

  lemma {:induction false} InAbsent(files: Files, paths: seq<Path>, sealed: bool)
    ensures forall p :: p in Absent(files, paths, sealed) <==> p in paths && p !in files && Sealed(p) == sealed
    ensures NoRepeats(paths) ==> NoRepeats(Absent(files, paths, sealed))
    decreases |paths|
  {
    if paths != [] {
      var front, last := paths[..|paths| - 1], paths[|paths| - 1];
      InAbsent(files, front, sealed);
      assert paths == front + [last];
      assert NoRepeats(paths) ==> last !in front;
    }
  }

  /** Every list stands in the order of the paths. */
  lemma ListedInOrder(files: Files, registry: Files, checkout: Option<Files>, out: Outside, paths: seq<Path>, p: Path, st: Status, sealed: bool)
    ensures Absent(files, [], sealed) == [] && WithStatus(files, registry, checkout, out, [], st) == []
    ensures Absent(files, paths + [p], sealed) == Absent(files, paths, sealed) + if p !in files && Sealed(p) == sealed then [p] else []
    ensures WithStatus(files, registry, checkout, out, paths + [p], st)
            == WithStatus(files, registry, checkout, out, paths, st) + if Diagnose(files, registry, checkout, out, p) == st then [p] else []
  {
    assert (paths + [p])[..|paths + [p]| - 1] == paths;
  }

  /** Landed and failed copies alike. */
  lemma LandedInOrder(checkout: Files, out: Outside, paths: seq<Path>, p: Path, lands: bool)
    ensures Landing(checkout, out, [], lands) == []
    ensures Landing(checkout, out, paths + [p], lands) == Landing(checkout, out, paths, lands) + if Lands(checkout, out, p) == lands then [p] else []
  {
    assert (paths + [p])[..|paths + [p]| - 1] == paths;
  }

  /** What is installed, or fails to be: the absent unsealed paths, by whether their copy lands. */
  function Installs(files: Files, checkout: Option<Files>, paths: seq<Path>, out: Outside, lands: bool): seq<Path> {
    if checkout.Some? then Landing(checkout.value, out, Absent(files, paths, false), lands)
    else if lands then [] else Absent(files, paths, false)
  }

  lemma InInstalls(files: Files, checkout: Option<Files>, paths: seq<Path>, out: Outside, lands: bool)
    ensures forall p :: p in Installs(files, checkout, paths, out, lands)
                   <==> p in paths && p !in files && !Sealed(p) && (checkout.Some? && Lands(checkout.value, out, p)) == lands
    ensures NoRepeats(paths) ==> NoRepeats(Installs(files, checkout, paths, out, lands))
  {
    InAbsent(files, paths, false);
    if checkout.Some? { InLanding(checkout.value, out, Absent(files, paths, false), lands); }
  }

  /** The diagnosis of every path, sorted by what may be done about it. */
  method Survey(files: Files, registry: Files, checkout: Option<Files>, paths: seq<Path>, out: Outside)
    returns (r: Outcome, install: seq<Path>)
    ensures install == Absent(files, paths, false)
    ensures r == Outcome([], [], Absent(files, paths, true),
                         WithStatus(files, registry, checkout, out, paths, OwnerModified),
                         WithStatus(files, registry, checkout, out, paths, Unknown),
                         WithStatus(files, registry, checkout, out, paths, Adoptable))
  {
    r := Outcome([], [], [], [], [], []);
    install := [];
    var i := 0;
    while i < |paths|
      invariant 0 <= i <= |paths| && r.installed == [] && r.failed == []
      invariant install == Absent(files, paths[..i], false) && r.sealed == Absent(files, paths[..i], true)
      invariant r.ownerModified == WithStatus(files, registry, checkout, out, paths[..i], OwnerModified)
      invariant r.unknown == WithStatus(files, registry, checkout, out, paths[..i], Unknown)
      invariant r.adoptable == WithStatus(files, registry, checkout, out, paths[..i], Adoptable)
    {
      var p := paths[i];
      assert paths[..i + 1][..i] == paths[..i];
      match Diagnose(files, registry, checkout, out, p) {
        case Missing =>
          if Sealed(p) { r := r.(sealed := r.sealed + [p]); } else { install := install + [p]; }
        case OwnerModified => r := r.(ownerModified := r.ownerModified + [p]);
        case Unknown => r := r.(unknown := r.unknown + [p]);
        case Adoptable => r := r.(adoptable := r.adoptable + [p]);
        case UpToDate =>
      }
      i := i + 1;
    }
    assert paths[..i] == paths;
  }

  class House {
    var files: Files
    var registry: Files

    constructor (files: Files, registry: Files)
      ensures this.files == files && this.registry == registry
    {
      this.files, this.registry := files, registry;
    }

    /** The one place that copies, so that whoever copies also registers. */
    method CopyAndRecord(checkout: Files, chosen: seq<Path>, out: Outside) returns (copied: seq<Path>, failed: seq<Path>)
      requires NoRepeats(chosen)
      modifies this
      ensures copied == Landing(checkout, out, chosen, true) && failed == Landing(checkout, out, chosen, false)
      ensures forall p | p !in chosen :: (p in files <==> p in old(files)) && (p in files ==> files[p] == old(files)[p])
      ensures forall p | p in copied :: Lands(checkout, out, p) && p in files && files[p] == out.copy(p).content && p in registry && registry[p] == files[p]
      ensures forall p | p in chosen :: p in files <==> p in old(files) || (p in checkout && LeavesFile(out, p))
      ensures forall p | p !in copied :: (p in registry <==> p in old(registry)) && (p in registry ==> registry[p] == old(registry)[p])
    {
      copied, failed := [], [];
      var record: Files := map[];
      var i := 0;
      while i < |chosen|
        modifies this`files
        invariant 0 <= i <= |chosen| && (forall p | p in record :: p in chosen[..i] && Lands(checkout, out, p))
        invariant copied == Landing(checkout, out, chosen[..i], true) && failed == Landing(checkout, out, chosen[..i], false)
        invariant forall p | p !in chosen[..i] :: (p in files <==> p in old(files)) && (p in files ==> files[p] == old(files)[p])
        invariant forall p | p in chosen[..i] && Lands(checkout, out, p) :: p in files && files[p] == out.copy(p).content && p in record && record[p] == files[p]
        invariant forall p | p in chosen[..i] :: p in files <==> p in old(files) || (p in checkout && LeavesFile(out, p))
      {
        var p := chosen[i];
        assert p !in chosen[..i];
        assert chosen[..i + 1] == chosen[..i] + [p] && chosen[..i + 1][..i] == chosen[..i];
        i := i + 1;
        if p !in checkout {
          failed := failed + [p];
          continue;
        }
        match out.copy(p) {
          case CopyThrew(left) =>
            if left.Some? { files := files[p := left.value]; }
            failed := failed + [p];
          case Copied(content) =>
            files := files[p := content];
            if !out.readsBack(p) {
              failed := failed + [p];
            } else {
              record := record[p := files[p]];
              copied := copied + [p];
            }
        }
      }
      assert chosen[..i] == chosen;
      InLanding(checkout, out, chosen, true);
      registry := registry + record;
    }

    /** `reconcileDefaults` over the shipped paths, diagnosed before anything is written. */
    method ReconcileDefaults(checkout: Option<Files>, paths: seq<Path>, out: Outside) returns (r: Outcome)
      requires NoRepeats(paths)
      modifies this
      // Every file that was there is there, byte for byte.
      ensures forall p | p in old(files) :: p in files && files[p] == old(files)[p]
      // What is new was absent, is shipped, and is outside the seal.
      ensures forall p | p in files && p !in old(files) :: p in paths && !Sealed(p) && (p in r.installed || p in r.failed)
      // Each absent path is in exactly one list, each other one not at HEAD where its diagnosis puts it, in order.
      ensures r.sealed == Absent(old(files), paths, true)
      ensures forall p :: p in r.sealed <==> p in paths && p !in old(files) && |p| >= 4 && p[..4] == "rot/"
      ensures forall p :: p in r.installed || p in r.failed <==> p in paths && p !in old(files) && !(|p| >= 4 && p[..4] == "rot/")
      ensures r.installed == Installs(old(files), checkout, paths, out, true)
      ensures r.failed == Installs(old(files), checkout, paths, out, false)
      ensures r.ownerModified == WithStatus(old(files), old(registry), checkout, out, paths, OwnerModified)
      ensures r.unknown == WithStatus(old(files), old(registry), checkout, out, paths, Unknown)
      ensures r.adoptable == WithStatus(old(files), old(registry), checkout, out, paths, Adoptable)
      // A failed path is still absent exactly when nothing was left behind there.
      ensures forall p | p in r.failed :: p in files <==> checkout.Some? && p in checkout.value && LeavesFile(out, p)
      // What was installed is registered as it now stands; nothing else is.
      ensures forall p | p in r.installed :: checkout.Some? && Lands(checkout.value, out, p) && p in files && p in registry && registry[p] == files[p] == out.copy(p).content
      ensures forall p | p !in r.installed :: (p in registry <==> p in old(registry)) && (p in registry ==> registry[p] == old(registry)[p])
    {
      var install;
      r, install := Survey(files, registry, checkout, paths, out);
      InAbsent(files, paths, false);
      InAbsent(files, paths, true);
      if install == [] { return; }
      if checkout.None? {
        r := r.(failed := install);
        return;
      }
      InInstalls(files, checkout, paths, out, true);
      InInstalls(files, checkout, paths, out, false);
      var copied, failed := CopyAndRecord(checkout.value, install, out);
      r := r.(installed := copied, failed := failed);
    }

    /** A second run installs exactly what the first failed to copy without a trace, if its copy lands this time. */
    method ReconcileTwice(checkout: Option<Files>, paths: seq<Path>, out: Outside, out': Outside) returns (r: Outcome, r': Outcome)
      requires NoRepeats(paths)
      modifies this
      ensures r.failed == [] ==> r'.installed == [] && r'.failed == []
      ensures forall p :: p in r'.installed <==>
                p in r.failed && checkout.Some? && !(p in checkout.value && LeavesFile(out, p)) && Lands(checkout.value, out', p)
      ensures forall p | p in old(files) :: p in files && files[p] == old(files)[p]
    {
      r := ReconcileDefaults(checkout, paths, out);
      ghost var between := files;
      InInstalls(old(files), checkout, paths, out, true);
      InInstalls(old(files), checkout, paths, out, false);
      r' := ReconcileDefaults(checkout, paths, out');
      InInstalls(between, checkout, paths, out', true);
      InInstalls(between, checkout, paths, out', false);
      if r.failed == [] {
        assert forall p | p in paths && !Sealed(p) && p !in old(files) :: p in r.installed;
        NoneLeft(between, paths);
      }
    }
  }

  lemma {:induction false} NoneLeft(files: Files, paths: seq<Path>)
    requires forall p | p in paths && !Sealed(p) :: p in files
    ensures Absent(files, paths, false) == []
    decreases |paths|
  {
    if paths != [] { NoneLeft(files, paths[..|paths| - 1]); }
  }

  /** A default just installed is never mistaken for the owner's own. */
  lemma InstalledIsNotTheOwners(files: Files, registry: Files, checkout: Option<Files>, out: Outside, p: Path)
    requires p in files && p in registry && registry[p] == files[p] && checkout.Some?
    ensures Diagnose(files, registry, checkout, out, p) in {UpToDate, Adoptable}
  {
  }
}
