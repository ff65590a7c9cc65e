/** Resolving copy conflicts (porthmos-core/src/transfer/conflicts/mod.rs and the marking of
    conflicts in porthmos-core/src/transfer/plan/mod.rs). */
module Conflicts {
  import opened Ordered
  import opened FreshNames

  const PART_SUFFIX := ".part"

  datatype ExistingFile = ExistingFile(size: nat, modified: Option<nat>, isDir: bool)

  /** A destination path: a name in a folder, or a path such as a root that has no file name. */
  datatype Place = InFolder(parent: string, name: string) | NoName(path: string)

  datatype PlannedFile = PlannedFile(
    source: string,
    destination: Place,
    displayName: seq<string>,
    size: nat,
    existing: Option<ExistingFile>,
    sourceModified: Option<nat>,
    partial: Option<ExistingFile>,
    resume: bool)
  {
    predicate IsConflict() {
      existing.Some? || partial.Some?
    }

    predicate IsBlocked() {
      existing.Some? && existing.value.isDir
    }
  }

  datatype Resolution = Overwrite | Skip | Rename | Resume

  datatype ConflictPolicy = AskPolicy | OverwritePolicy | SkipPolicy | RenamePolicy

  /** The answer a policy gives for a file, if it does not ask. */
  function ResolutionFor(policy: ConflictPolicy, file: PlannedFile): Option<Resolution> {
    if policy.AskPolicy? then None
    else if file.existing.None? then
      if file.partial.Some? && file.partial.value.size >= file.size then Some(Overwrite) else Some(Resume)
    else match policy
      case OverwritePolicy => if file.partial.Some? then Some(Resume) else Some(Overwrite)
      case SkipPolicy => Some(Skip)
      case _ => Some(Rename)
  }

  type TakenNames = map<string, set<string>>

  function NamesIn(taken: TakenNames, parent: string): set<string> {
    if parent in taken then taken[parent] else {}
  }

  datatype ResolvedPlan = ResolvedPlan(
    files: seq<PlannedFile>, skipped: nat, skippedPartials: nat, blockedByFolder: nat)

  // ----- marking conflicts -----

  type Listing = map<string, ExistingFile>

  ghost function Listed(listings: map<string, Listing>, place: Place): Option<ExistingFile> {
    if place.InFolder? && place.parent in listings && place.name in listings[place.parent]
    then Some(listings[place.parent][place.name]) else None
  }

  ghost function Partial(listings: map<string, Listing>, place: Place): Option<ExistingFile> {
    if place.NoName? then None else
      var part := Listed(listings, InFolder(place.parent, place.name + PART_SUFFIX));
      if part.Some? && part.value.isDir then None else part
  }

  ghost function Marked(file: PlannedFile, listings: map<string, Listing>): PlannedFile {
    if file.destination.NoName? then file
    else file.(existing := Listed(listings, file.destination), partial := Partial(listings, file.destination))
  }

  /** Look every planned destination up in its folder's listing; a folder in the place of a part file
      is no partial. */
  method MarkConflicts(files: array<PlannedFile>, listings: map<string, Listing>)
    modifies files
    ensures forall i :: 0 <= i < files.Length ==> files[i] == Marked(old(files[i]), listings)
  {
    for i := 0 to files.Length
      invariant forall k :: i <= k < files.Length ==> files[k] == old(files[k])
      invariant forall k :: 0 <= k < i ==> files[k] == Marked(old(files[k]), listings)
    {
      var place := files[i].destination;
      if place.InFolder? {
        var listing := if place.parent in listings then listings[place.parent] else map[];
        var existing := if place.name in listing then Some(listing[place.name]) else None;
        var part := place.name + PART_SUFFIX;
        var partial :=
          if part in listing && !listing[part].isDir then Some(listing[part]) else None;
        files[i] := files[i].(existing := existing, partial := partial);
      }
    }
  }

  /** The names no renamed file may take: everything listed and everything planned, per folder. */
  ghost predicate IsTakenNames(files: seq<PlannedFile>, listings: map<string, Listing>, taken: TakenNames) {
    forall parent: string, name: string :: name in NamesIn(taken, parent) <==>
      (parent in listings && name in listings[parent]) || IsPlanned(files, parent, name)
  }

  ghost predicate IsPlanned(files: seq<PlannedFile>, parent: string, name: string) {
    exists i :: 0 <= i < |files| && files[i].destination == InFolder(parent, name)
  }

  method CollectTakenNames(files: seq<PlannedFile>, listings: map<string, Listing>) returns (taken: TakenNames)
    ensures IsTakenNames(files, listings, taken)
  {
    taken := map parent | parent in listings :: listings[parent].Keys;
    for i := 0 to |files|
      invariant forall parent: string, name: string :: name in NamesIn(taken, parent) <==>
        (parent in listings && name in listings[parent]) || IsPlanned(files[..i], parent, name)
    {
      var place := files[i].destination;
      if place.InFolder? {
        taken := taken[place.parent := NamesIn(taken, place.parent) + {place.name}];
      }
      forall parent: string, name: string
        ensures IsPlanned(files[..i + 1], parent, name) <==>
          IsPlanned(files[..i], parent, name) || place == InFolder(parent, name)
      {
        PlannedStep(files, i, parent, name);
      }
    }
    assert files[..|files|] == files;
  }

  lemma PlannedStep(files: seq<PlannedFile>, i: nat, parent: string, name: string)
    requires i < |files|
    ensures IsPlanned(files[..i + 1], parent, name) <==>
      IsPlanned(files[..i], parent, name) || files[i].destination == InFolder(parent, name)
  {
    if IsPlanned(files[..i], parent, name) {
      var k :| 0 <= k < i && files[..i][k].destination == InFolder(parent, name);
      assert files[..i + 1][k] == files[k];
    }
    if files[i].destination == InFolder(parent, name) {
      assert files[..i + 1][i] == files[i];
    }
    if IsPlanned(files[..i + 1], parent, name) {
      var k :| 0 <= k < i + 1 && files[..i + 1][k].destination == InFolder(parent, name);
      assert k < i ==> files[..i][k] == files[k];
    }
  }

  // ----- resolving -----

  datatype Verdict = Keep(file: PlannedFile) | Skipped | SkippedPartial | Blocked

  /** The display name with its last part replaced. */
  function WithFileName(display: seq<string>, name: string): seq<string> {
    (if display == [] then [] else display[..|display| - 1]) + [name]
  }

  ghost function Renamed(file: PlannedFile, taken: TakenNames): PlannedFile {
    match file.destination
    case NoName(_) => file
    case InFolder(parent, name) =>
      var found := UniqueNameOf(name, NamesIn(taken, parent));
      file.(destination := InFolder(parent, found), displayName := WithFileName(file.displayName, found))
  }

  ghost function TakenAfter(file: PlannedFile, taken: TakenNames): TakenNames {
    match file.destination
    case NoName(_) => taken
    case InFolder(parent, name) =>
      taken[parent := NamesIn(taken, parent) + {UniqueNameOf(name, NamesIn(taken, parent))}]
  }

  ghost predicate IsRenamed(file: PlannedFile, answer: Resolution) {
    answer.Rename? && file.existing.Some?
  }

  /** What becomes of one conflicting file. */
  ghost function Judge(file: PlannedFile, answer: Resolution, taken: TakenNames): Verdict {
    if (answer.Overwrite? || answer.Resume?) && file.IsBlocked() then Blocked
    else match answer
      case Resume => Keep(file.(resume := true))
      case Overwrite => Keep(file.(resume := false))
      case Skip => if file.existing.Some? then Skipped else SkippedPartial
      case Rename =>
        if file.existing.None? then Keep(file.(resume := true)) else Keep(Renamed(file, taken).(resume := false))
  }

  method RenameDestination(file: PlannedFile, taken: TakenNames) returns (renamed: PlannedFile, taken': TakenNames)
    ensures renamed == Renamed(file, taken) && taken' == TakenAfter(file, taken)
  {
    renamed, taken' := file, taken;
    if file.destination.InFolder? {
      var parent := file.destination.parent;
      var names := NamesIn(taken, parent);
      var found := UniqueName(file.destination.name, names);
      taken' := taken[parent := names + {found}];
      renamed := file.(
        destination := InFolder(parent, found), displayName := WithFileName(file.displayName, found));
    }
  }

  /** How many of the files are conflicts: the position of the next answer. */
  ghost function ConflictCount(files: seq<PlannedFile>): nat {
    if files == [] then 0
    else ConflictCount(files[..|files| - 1]) + if files[|files| - 1].IsConflict() then 1 else 0
  }

  /** The k-th conflict gets the k-th answer; missing answers mean Skip. */
  ghost function AnswerFor(files: seq<PlannedFile>, answers: seq<Resolution>, i: nat): Resolution
    requires i <= |files|
  {
    var k := ConflictCount(files[..i]);
    if k < |answers| then answers[k] else Skip
  }

  /** The names taken by the time file `i` is looked at. */
  ghost function TakenBefore(files: seq<PlannedFile>, answers: seq<Resolution>, taken: TakenNames, i: nat): TakenNames
    requires i <= |files|
  {
    if i == 0 then taken
    else
      var before, file := TakenBefore(files, answers, taken, i - 1), files[i - 1];
      if file.IsConflict() && IsRenamed(file, AnswerFor(files, answers, i - 1)) then TakenAfter(file, before)
      else before
  }

  /** What becomes of file `i`. */
  ghost function VerdictFor(
    files: seq<PlannedFile>, answers: seq<Resolution>, taken: TakenNames, i: nat): Verdict
    requires i < |files|
  {
    if !files[i].IsConflict() then Keep(files[i])
    else Judge(files[i], AnswerFor(files, answers, i), TakenBefore(files, answers, taken, i))
  }

  ghost function Verdicts(files: seq<PlannedFile>, answers: seq<Resolution>, taken: TakenNames, n: nat): seq<Verdict>
    requires n <= |files|
  {
    seq(n, i requires 0 <= i < n => VerdictFor(files, answers, taken, i))
  }

  /** The kept files in order. */
  ghost function Kept(verdicts: seq<Verdict>): seq<PlannedFile> {
    if verdicts == [] then []
    else
      var last := verdicts[|verdicts| - 1];
      Kept(verdicts[..|verdicts| - 1]) + if last.Keep? then [last.file] else []
  }

  ghost function Tally(verdicts: seq<Verdict>, of: Verdict): nat {
    if verdicts == [] then 0
    else Tally(verdicts[..|verdicts| - 1], of) + if verdicts[|verdicts| - 1] == of then 1 else 0
  }

  lemma VerdictsPush(files: seq<PlannedFile>, answers: seq<Resolution>, taken: TakenNames, n: nat)
    requires n < |files|
    ensures var before, after := Verdicts(files, answers, taken, n), Verdicts(files, answers, taken, n + 1);
      var verdict := VerdictFor(files, answers, taken, n);
      && after == before + [verdict]
      && Kept(after) == Kept(before) + (if verdict.Keep? then [verdict.file] else [])
      && (forall of :: Tally(after, of) == Tally(before, of) + if verdict == of then 1 else 0)
  {
    var before, after := Verdicts(files, answers, taken, n), Verdicts(files, answers, taken, n + 1);
    assert after == before + [VerdictFor(files, answers, taken, n)];
    assert after[..n] == before;
  }

  lemma CountPush(files: seq<PlannedFile>, i: nat)
    requires i < |files|
    ensures ConflictCount(files[..i + 1]) == ConflictCount(files[..i]) + if files[i].IsConflict() then 1 else 0
  {
    assert files[..i + 1][..i] == files[..i];
  }

  method Resolve(files: seq<PlannedFile>, takenNames: TakenNames, answers: seq<Resolution>)
    returns (plan: ResolvedPlan)
    ensures var verdicts := Verdicts(files, answers, takenNames, |files|);
      && plan.files == Kept(verdicts)
      && plan.skipped == Tally(verdicts, Skipped)
      && plan.skippedPartials == Tally(verdicts, SkippedPartial)
      && plan.blockedByFolder == Tally(verdicts, Blocked)
    ensures IsResolved(files, answers, plan)
  {
    ResolvedPlainly(files, answers, takenNames);
    hide Verdicts, VerdictFor, IsResolved;
    var resolved: seq<PlannedFile> := [];
    var skipped, skippedPartials, blockedByFolder, answered := 0, 0, 0, 0;
    var taken := takenNames;
    NoVerdicts(files, answers, takenNames);
    for i := 0 to |files|
      invariant answered == ConflictCount(files[..i]) && taken == TakenBefore(files, answers, takenNames, i)
      invariant resolved == Kept(Verdicts(files, answers, takenNames, i))
      invariant skipped == Tally(Verdicts(files, answers, takenNames, i), Skipped)
      invariant skippedPartials == Tally(Verdicts(files, answers, takenNames, i), SkippedPartial)
      invariant blockedByFolder == Tally(Verdicts(files, answers, takenNames, i), Blocked)
    {
      hide Kept, Tally, Renamed, TakenAfter, TakenBefore;
      VerdictsPush(files, answers, takenNames, i);
      CountPush(files, i);
      TakenStep(files, answers, takenNames, i);
      VerdictIs(files, answers, takenNames, i);
      var file := files[i];
      if !file.IsConflict() {
        resolved := resolved + [file];
        continue;
      }
      var answer := if answered < |answers| then answers[answered] else Skip;
      answered := answered + 1;
      if (answer.Overwrite? || answer.Resume?) && file.IsBlocked() {
        blockedByFolder := blockedByFolder + 1;
      } else if answer.Resume? {
        resolved := resolved + [file.(resume := true)];
      } else if answer.Overwrite? {
        resolved := resolved + [file.(resume := false)];
      } else if answer.Skip? && file.existing.Some? {
        skipped := skipped + 1;
      } else if answer.Skip? {
        skippedPartials := skippedPartials + 1;
      } else if file.existing.None? {
        resolved := resolved + [file.(resume := true)];
      } else {
        var renamed;
        renamed, taken := RenameDestination(file, taken);
        resolved := resolved + [renamed.(resume := false)];
      }
    }
    plan := ResolvedPlan(resolved, skipped, skippedPartials, blockedByFolder);
  }

  // ----- the result in plain terms -----

  ghost predicate InConflict(file: PlannedFile) {
    file.existing.Some? || file.partial.Some?
  }

  ghost predicate OnAFolder(file: PlannedFile) {
    file.existing.Some? && file.existing.value.isDir
  }

  ghost function ConflictsAmong(files: seq<PlannedFile>, i: nat): set<nat>
    requires i <= |files|
  {
    set j | 0 <= j < i && InConflict(files[j])
  }

  /** The k-th file in conflict gets the k-th answer, and Skip if there is none. */
  ghost function AnswerOf(files: seq<PlannedFile>, answers: seq<Resolution>, i: nat): Resolution
    requires i < |files|
  {
    var k := |ConflictsAmong(files, i)|;
    if k < |answers| then answers[k] else Skip
  }

  /** A file is returned if it is not in conflict, is renamed, or is written or resumed where no folder is. */
  ghost predicate IsReturned(files: seq<PlannedFile>, answers: seq<Resolution>, i: nat)
    requires i < |files|
  {
    var answer := AnswerOf(files, answers, i);
    !InConflict(files[i]) || answer.Rename? || ((answer.Overwrite? || answer.Resume?) && !OnAFolder(files[i]))
  }

  /** What a returned file looks like. */
  ghost predicate ReturnsAs(file: PlannedFile, answer: Resolution, result: PlannedFile) {
    if !InConflict(file) then result == file
    else if answer.Overwrite? then result == file.(resume := false)
    else if answer.Resume? || file.existing.None? then result == file.(resume := true)
    else
      && result == file.(resume := false, destination := result.destination, displayName := result.displayName)
      && (file.destination.InFolder? ==>
            && result.destination.InFolder? && result.destination.parent == file.destination.parent
            && |result.displayName| == (if file.displayName == [] then 1 else |file.displayName|)
            && result.displayName[|result.displayName| - 1] == result.destination.name
            && forall k :: 0 <= k < |result.displayName| - 1 ==> result.displayName[k] == file.displayName[k])
      && (file.destination.NoName? ==> result == file.(resume := false))
  }

  /** The returned files, in order, are these results, and each counter is the number of files left out for
      its reason. */
  ghost predicate IsResolved(files: seq<PlannedFile>, answers: seq<Resolution>, plan: ResolvedPlan) {
    && (exists origins: seq<nat> :: ReturnsFrom(files, answers, plan.files, origins))
    && plan.skipped == |set i | 0 <= i < |files| && IsSkipped(files, answers, i) && files[i].existing.Some?|
    && plan.skippedPartials == |set i | 0 <= i < |files| && IsSkipped(files, answers, i) && files[i].existing.None?|
    && plan.blockedByFolder == |set i | 0 <= i < |files| && IsOnAFolder(files, answers, i)|
  }

  ghost predicate IsSkipped(files: seq<PlannedFile>, answers: seq<Resolution>, i: nat)
    requires i < |files|
  {
    InConflict(files[i]) && AnswerOf(files, answers, i).Skip?
  }

  ghost predicate IsOnAFolder(files: seq<PlannedFile>, answers: seq<Resolution>, i: nat)
    requires i < |files|
  {
    OnAFolder(files[i]) && (AnswerOf(files, answers, i).Overwrite? || AnswerOf(files, answers, i).Resume?)
  }

  ghost predicate ReturnsFrom(
    files: seq<PlannedFile>, answers: seq<Resolution>, results: seq<PlannedFile>, origins: seq<nat>)
  {
    && |origins| == |results| && Increasing(origins)
    && (forall i :: 0 <= i < |files| ==> (i in origins <==> IsReturned(files, answers, i)))
    && forall k :: 0 <= k < |origins| ==>
         origins[k] < |files| && ReturnsAs(files[origins[k]], AnswerOf(files, answers, origins[k]), results[k])
  }

  lemma {:induction false} CountIsSize(files: seq<PlannedFile>, i: nat)
    requires i <= |files|
    ensures ConflictCount(files[..i]) == |ConflictsAmong(files, i)|
  {
    if i > 0 {
      CountIsSize(files, i - 1);
      CountPush(files, i - 1);
      assert ConflictsAmong(files, i) ==
        ConflictsAmong(files, i - 1) + (if InConflict(files[i - 1]) then {i - 1} else {});
    }
  }

  lemma VerdictPlainly(files: seq<PlannedFile>, answers: seq<Resolution>, taken: TakenNames, i: nat)
    requires i < |files|
    ensures var verdict := VerdictFor(files, answers, taken, i);
      && (verdict.Keep? <==> IsReturned(files, answers, i))
      && (verdict.Keep? ==> ReturnsAs(files[i], AnswerOf(files, answers, i), verdict.file))
      && (verdict.Skipped? <==> IsSkipped(files, answers, i) && files[i].existing.Some?)
      && (verdict.SkippedPartial? <==> IsSkipped(files, answers, i) && files[i].existing.None?)
      && (verdict.Blocked? <==> IsOnAFolder(files, answers, i))
  {
    CountIsSize(files, i);
    assert AnswerFor(files, answers, i) == AnswerOf(files, answers, i);
    hide AnswerFor, AnswerOf, TakenBefore;
  }

  ghost function PlacesOf(verdicts: seq<Verdict>, of: Verdict): set<nat> {
    set i | 0 <= i < |verdicts| && verdicts[i] == of
  }

  lemma {:induction false} TallyIsSize(verdicts: seq<Verdict>, of: Verdict)
    ensures Tally(verdicts, of) == |PlacesOf(verdicts, of)|
  {
    if verdicts != [] {
      var n := |verdicts| - 1;
      TallyIsSize(verdicts[..n], of);
      OnePlaceMore(verdicts, of);
      hide PlacesOf;
    }
  }

  lemma OnePlaceMore(verdicts: seq<Verdict>, of: Verdict)
    requires verdicts != []
    ensures var n := |verdicts| - 1;
      PlacesOf(verdicts, of) == PlacesOf(verdicts[..n], of) + (if verdicts[n] == of then {n} else {})
      && n !in PlacesOf(verdicts[..n], of)
  {
    var n := |verdicts| - 1;
    assert forall i :: 0 <= i < n ==> verdicts[..n][i] == verdicts[i];
  }

  lemma ResolvedPlainly(files: seq<PlannedFile>, answers: seq<Resolution>, taken: TakenNames)
    ensures var verdicts := Verdicts(files, answers, taken, |files|);
      IsResolved(files, answers,
        ResolvedPlan(Kept(verdicts), Tally(verdicts, Skipped), Tally(verdicts, SkippedPartial), Tally(verdicts, Blocked)))
  {
    var verdicts := Verdicts(files, answers, taken, |files|);
    KeptInOrder(verdicts);
    forall i | 0 <= i < |files|
      ensures verdicts[i] == VerdictFor(files, answers, taken, i)
      ensures verdicts[i].Keep? <==> IsReturned(files, answers, i)
      ensures verdicts[i].Keep? ==> ReturnsAs(files[i], AnswerOf(files, answers, i), verdicts[i].file)
      ensures verdicts[i].Skipped? <==> IsSkipped(files, answers, i) && files[i].existing.Some?
      ensures verdicts[i].SkippedPartial? <==> IsSkipped(files, answers, i) && files[i].existing.None?
      ensures verdicts[i].Blocked? <==> IsOnAFolder(files, answers, i)
    {
      VerdictPlainly(files, answers, taken, i);
    }
    assert |verdicts| == |files|;
    hide VerdictFor, Verdicts, IsReturned, ReturnsAs, IsSkipped, IsOnAFolder, AnswerOf, Kept, Origins;
    CountersPlainly(files, answers, verdicts);
    assert ReturnsFrom(files, answers, Kept(verdicts), Origins(verdicts));
  }

  lemma CountersPlainly(files: seq<PlannedFile>, answers: seq<Resolution>, verdicts: seq<Verdict>)
    requires |verdicts| == |files|
    requires forall i :: 0 <= i < |files| ==>
      && (verdicts[i].Skipped? <==> IsSkipped(files, answers, i) && files[i].existing.Some?)
      && (verdicts[i].SkippedPartial? <==> IsSkipped(files, answers, i) && files[i].existing.None?)
      && (verdicts[i].Blocked? <==> IsOnAFolder(files, answers, i))
    ensures Tally(verdicts, Skipped) == |set i | 0 <= i < |files| && IsSkipped(files, answers, i) && files[i].existing.Some?|
    ensures Tally(verdicts, SkippedPartial) ==
      |set i | 0 <= i < |files| && IsSkipped(files, answers, i) && files[i].existing.None?|
    ensures Tally(verdicts, Blocked) == |set i | 0 <= i < |files| && IsOnAFolder(files, answers, i)|
  {
    hide IsSkipped, IsOnAFolder;
    TallyIsSize(verdicts, Skipped);
    TallyIsSize(verdicts, SkippedPartial);
    TallyIsSize(verdicts, Blocked);
    assert PlacesOf(verdicts, Skipped) ==
      set i | 0 <= i < |files| && IsSkipped(files, answers, i) && files[i].existing.Some?;
    assert PlacesOf(verdicts, SkippedPartial) ==
      set i | 0 <= i < |files| && IsSkipped(files, answers, i) && files[i].existing.None?;
    assert PlacesOf(verdicts, Blocked) ==
      set i | 0 <= i < |files| && IsOnAFolder(files, answers, i);
  }

  lemma NoVerdicts(files: seq<PlannedFile>, answers: seq<Resolution>, taken: TakenNames)
    ensures Verdicts(files, answers, taken, 0) == []
  {
  }

  lemma TakenStep(files: seq<PlannedFile>, answers: seq<Resolution>, taken: TakenNames, i: nat)
    requires i < |files|
    ensures TakenBefore(files, answers, taken, i + 1) ==
      if files[i].IsConflict() && IsRenamed(files[i], AnswerFor(files, answers, i))
      then TakenAfter(files[i], TakenBefore(files, answers, taken, i))
      else TakenBefore(files, answers, taken, i)
  {
  }

  lemma VerdictIs(files: seq<PlannedFile>, answers: seq<Resolution>, taken: TakenNames, i: nat)
    requires i < |files|
    ensures VerdictFor(files, answers, taken, i) ==
      if !files[i].IsConflict() then Keep(files[i])
      else Judge(files[i], AnswerFor(files, answers, i), TakenBefore(files, answers, taken, i))
  {
  }

  // ----- what that means for the caller -----

  /** Nothing is lost: every file is returned or counted, exactly once. */
  lemma {:induction false} EveryFileIsAccountedFor(verdicts: seq<Verdict>)
    ensures |Kept(verdicts)| + Tally(verdicts, Skipped) + Tally(verdicts, SkippedPartial) + Tally(verdicts, Blocked)
      == |verdicts|
  {
    if verdicts == [] {
    } else {
      EveryFileIsAccountedFor(verdicts[..|verdicts| - 1]);
    }
  }

  /** Where a kept file came from: its position among the inputs. */
  ghost function Origins(verdicts: seq<Verdict>): seq<nat> {
    if verdicts == [] then []
    else
      var n := |verdicts| - 1;
      Origins(verdicts[..n]) + if verdicts[n].Keep? then [n] else []
  }

  /** These positions, in order, are those of the Keep verdicts, and these are their files. */
  ghost predicate AreKept(verdicts: seq<Verdict>, origins: seq<nat>, kept: seq<PlannedFile>) {
    && |origins| == |kept| && Increasing(origins)
    && (forall k :: 0 <= k < |kept| ==> origins[k] < |verdicts| && verdicts[origins[k]] == Keep(kept[k]))
    && forall i :: 0 <= i < |verdicts| ==> (i in origins <==> verdicts[i].Keep?)
  }

  /** The kept files are the Keep verdicts in input order, each once. */
  lemma {:induction false} KeptInOrder(verdicts: seq<Verdict>)
    ensures AreKept(verdicts, Origins(verdicts), Kept(verdicts))
  {
    if verdicts == [] {
    } else {
      hide AreKept;
      var n := |verdicts| - 1;
      KeptInOrder(verdicts[..n]);
      assert verdicts == verdicts[..n] + [verdicts[n]];
      if verdicts[n].Keep? {
        OneMoreKept(verdicts[..n], Origins(verdicts[..n]), Kept(verdicts[..n]), verdicts[n].file);
      } else {
        NoMoreKept(verdicts[..n], Origins(verdicts[..n]), Kept(verdicts[..n]), verdicts[n]);
        assert Origins(verdicts) == Origins(verdicts[..n]) && Kept(verdicts) == Kept(verdicts[..n]);
      }
    }
  }

  lemma OneMoreKept(verdicts: seq<Verdict>, origins: seq<nat>, kept: seq<PlannedFile>, file: PlannedFile)
    requires AreKept(verdicts, origins, kept)
    ensures AreKept(verdicts + [Keep(file)], origins + [|verdicts|], kept + [file])
  {
    forall k | 0 <= k < |origins| ensures origins[k] < |verdicts| {
    }
  }

  lemma NoMoreKept(verdicts: seq<Verdict>, origins: seq<nat>, kept: seq<PlannedFile>, verdict: Verdict)
    requires AreKept(verdicts, origins, kept) && !verdict.Keep?
    ensures AreKept(verdicts + [verdict], origins, kept)
  {
    forall k | 0 <= k < |origins| ensures origins[k] < |verdicts| {
    }
  }

  /** A kept file is the input it came from: untouched if it was no conflict, and otherwise with only
      its resume flag, or for a renamed file its name in the same folder, set by its answer. */
  lemma KeptFilesFollowTheirAnswers(
    files: seq<PlannedFile>, answers: seq<Resolution>, taken: TakenNames, i: nat)
    requires i < |files| && VerdictFor(files, answers, taken, i).Keep?
    ensures var file, kept, answer :=
        files[i], VerdictFor(files, answers, taken, i).file, AnswerFor(files, answers, i);
      && kept.source == file.source && kept.size == file.size && kept.existing == file.existing
      && kept.partial == file.partial && kept.sourceModified == file.sourceModified
      && (!file.IsConflict() ==> kept == file)
      && (file.IsConflict() ==> !answer.Skip?)
      && (file.IsConflict() ==>
            (kept.resume <==> answer.Resume? || (answer.Rename? && file.existing.None?)))
      && (file.IsConflict() && !IsRenamed(file, answer) ==>
            kept.destination == file.destination && kept.displayName == file.displayName && !file.IsBlocked())
      && (file.IsConflict() && IsRenamed(file, answer) && file.destination.InFolder? ==>
            kept.destination.InFolder? && kept.destination.parent == file.destination.parent)
      && (kept.destination == file.destination && file.destination.InFolder? && IsRenamed(file, answer) ==>
            file.destination.name !in NamesIn(TakenBefore(files, answers, taken, i), file.destination.parent))
  {
  }

  lemma {:induction false} TakenGrows(
    files: seq<PlannedFile>, answers: seq<Resolution>, taken: TakenNames, i: nat, j: nat, parent: string)
    requires i <= j <= |files|
    ensures NamesIn(TakenBefore(files, answers, taken, i), parent)
      <= NamesIn(TakenBefore(files, answers, taken, j), parent)
    decreases j
  {
    if i == j {
    } else {
      TakenGrows(files, answers, taken, i, j - 1, parent);
    }
  }

  lemma RenamedIsNew(files: seq<PlannedFile>, answers: seq<Resolution>, taken: TakenNames, i: nat)
    requires i < |files|
    requires files[i].IsConflict() && IsRenamed(files[i], AnswerFor(files, answers, i))
    requires files[i].destination.InFolder?
    ensures var verdict, before := VerdictFor(files, answers, taken, i), TakenBefore(files, answers, taken, i);
      && verdict.Keep? && verdict.file.destination.InFolder?
      && verdict.file.destination.parent == files[i].destination.parent
      && verdict.file.destination.name !in NamesIn(before, files[i].destination.parent)
      && verdict.file.destination.name in
           NamesIn(TakenBefore(files, answers, taken, i + 1), files[i].destination.parent)
  {
  }

  /** A renamed file gets a destination that is not listed, not planned, and not given to any other
      file that is kept. */
  lemma RenamedDestinationsAreFree(
    files: seq<PlannedFile>, listings: map<string, Listing>, answers: seq<Resolution>, taken: TakenNames, i: nat)
    requires IsTakenNames(files, listings, taken)
    requires i < |files| && files[i].destination.InFolder?
    requires files[i].IsConflict() && IsRenamed(files[i], AnswerFor(files, answers, i))
    ensures VerdictFor(files, answers, taken, i).Keep?
    ensures var place := VerdictFor(files, answers, taken, i).file.destination;
      && Listed(listings, place) == None
      && (forall j :: 0 <= j < |files| ==> files[j].destination != place)
      && (forall j :: 0 <= j < |files| && j != i && VerdictFor(files, answers, taken, j).Keep? ==>
            VerdictFor(files, answers, taken, j).file.destination != place)
  {
    RenamedIsNew(files, answers, taken, i);
    var place := VerdictFor(files, answers, taken, i).file.destination;
    TakenGrows(files, answers, taken, 0, i, place.parent);
    assert place.name !in NamesIn(taken, place.parent);
    assert !IsPlanned(files, place.parent, place.name);
    forall j | 0 <= j < |files| && j != i && VerdictFor(files, answers, taken, j).Keep?
      ensures VerdictFor(files, answers, taken, j).file.destination != place
    {
      OtherDestination(files, answers, taken, i, j);
    }
  }

  lemma OtherDestination(
    files: seq<PlannedFile>, answers: seq<Resolution>, taken: TakenNames, i: nat, j: nat)
    requires i < |files| && j < |files| && i != j && files[i].destination.InFolder?
    requires files[i].IsConflict() && IsRenamed(files[i], AnswerFor(files, answers, i))
    requires VerdictFor(files, answers, taken, j).Keep?
    requires VerdictFor(files, answers, taken, i).Keep?
    requires VerdictFor(files, answers, taken, i).file.destination != files[j].destination
    ensures VerdictFor(files, answers, taken, j).file.destination != VerdictFor(files, answers, taken, i).file.destination
  {
    var place := VerdictFor(files, answers, taken, i).file.destination;
    if files[j].IsConflict() && IsRenamed(files[j], AnswerFor(files, answers, j)) && files[j].destination.InFolder? {
      RenamedIsNew(files, answers, taken, i);
      RenamedIsNew(files, answers, taken, j);
      if i < j {
        TakenGrows(files, answers, taken, i + 1, j, place.parent);
      } else {
        TakenGrows(files, answers, taken, j + 1, i, place.parent);
      }
    }
  }

  /** The files are as MarkConflicts leaves them. */
  ghost predicate AreMarked(files: seq<PlannedFile>, listings: map<string, Listing>) {
    forall i :: 0 <= i < |files| && files[i].destination.InFolder? ==>
      files[i].existing == Listed(listings, files[i].destination) &&
      files[i].partial == Partial(listings, files[i].destination)
  }

  /** Whatever the answers, no returned file is aimed at an existing folder. */
  lemma NothingKeptIsAimedAtAFolder(
    files: seq<PlannedFile>, listings: map<string, Listing>, answers: seq<Resolution>, taken: TakenNames, i: nat)
    requires AreMarked(files, listings) && IsTakenNames(files, listings, taken)
    requires i < |files| && VerdictFor(files, answers, taken, i).Keep?
    ensures var there := Listed(listings, VerdictFor(files, answers, taken, i).file.destination);
      there.Some? ==> !there.value.isDir
  {
    if files[i].destination.NoName? {
      assert VerdictFor(files, answers, taken, i).file.destination == files[i].destination;
    } else if files[i].IsConflict() && IsRenamed(files[i], AnswerFor(files, answers, i)) {
      RenamedDestinationsAreFree(files, listings, answers, taken, i);
    } else {
      KeptFilesFollowTheirAnswers(files, answers, taken, i);
    }
  }

  ghost predicate AnsweredBy(policy: ConflictPolicy, files: seq<PlannedFile>, answers: seq<Resolution>) {
    forall i :: 0 <= i < |files| && files[i].IsConflict() ==>
      ResolutionFor(policy, files[i]) == Some(AnswerFor(files, answers, i))
  }

  ghost predicate IsPartResumed(file: PlannedFile, policy: ConflictPolicy) {
    file.partial.Some? && (if file.existing.Some? then policy.OverwritePolicy? else file.partial.value.size < file.size)
  }

  /** What each policy comes to for a file in conflict. Overwriting leaves out exactly the files aimed at a
      folder, skipping those with something at their destination, renaming none. A part file is resumed unless
      there is nothing at the destination and the part is no shorter than the file; where nothing but the part
      is there the destination stays. */
  lemma PolicyOutcome(
    files: seq<PlannedFile>, answers: seq<Resolution>, policy: ConflictPolicy, i: nat, result: PlannedFile)
    requires AnsweredBy(policy, files, answers) && i < |files| && InConflict(files[i]) && policy != AskPolicy
    ensures policy.OverwritePolicy? ==> (IsReturned(files, answers, i) <==> !OnAFolder(files[i]))
    ensures policy.SkipPolicy? ==> (IsReturned(files, answers, i) <==> files[i].existing.None?)
    ensures policy.RenamePolicy? ==> IsReturned(files, answers, i)
    ensures IsReturned(files, answers, i) && ReturnsAs(files[i], AnswerOf(files, answers, i), result) ==>
      && (result.resume <==> IsPartResumed(files[i], policy))
      && (policy.OverwritePolicy? || files[i].existing.None? ==> result.destination == files[i].destination)
  {
    CountIsSize(files, i);
    assert AnswerFor(files, answers, i) == AnswerOf(files, answers, i);
    hide AnswerFor, AnswerOf;
    assert files[i].IsConflict();
  }

  /** Under the Skip and Rename policies no returned destination is a listed name. */
  lemma SafePoliciesOverwriteNothing(
    files: seq<PlannedFile>, listings: map<string, Listing>, answers: seq<Resolution>, taken: TakenNames,
    policy: ConflictPolicy, i: nat)
    requires policy.SkipPolicy? || policy.RenamePolicy?
    requires AreMarked(files, listings) && IsTakenNames(files, listings, taken)
    requires AnsweredBy(policy, files, answers)
    requires i < |files| && VerdictFor(files, answers, taken, i).Keep?
    ensures Listed(listings, VerdictFor(files, answers, taken, i).file.destination) == None
  {
    if files[i].destination.NoName? {
      assert VerdictFor(files, answers, taken, i).file.destination == files[i].destination;
    } else if files[i].IsConflict() && files[i].existing.Some? {
      assert ResolutionFor(policy, files[i]) == Some(AnswerFor(files, answers, i));
      RenamedDestinationsAreFree(files, listings, answers, taken, i);
    }
  }
}
