/** Copying one file with resume (porthmos-core/src/transfer/execute/mod.rs). */
module Resume {
  import opened Ordered

  const CHUNK_SIZE := 256 * 1024
  const PROGRESS_STEP_BYTES := 64 * 1024
  const CLOCK_SKEW_TOLERANCE_SECS := 120
  const PART_SUFFIX := ".part"

  newtype Byte = x | 0 <= x < 256

  type Bytes = seq<Byte>

  datatype FileState = FileState(data: Bytes, modified: Option<nat>)

  datatype Outcome = Completed | Cancelled | Failed

  function PartPath(path: string): string {
    path + PART_SUFFIX
  }

  /** Where to go on: from the start unless both times are known, the part is no longer than the source
      and the source was not changed after it; then a little before the part's end. */
  function ResumeOffset(
    partLength: nat, sourceLength: nat, partModified: Option<nat>, sourceModified: Option<nat>, backoff: nat)
    : (offset: nat)
    ensures offset <= partLength && offset <= sourceLength
    ensures offset > 0 ==> offset + backoff == partLength
    ensures offset > 0 <==>
      && partModified.Some? && sourceModified.Some? && partLength <= sourceLength
      && sourceModified.value <= partModified.value + CLOCK_SKEW_TOLERANCE_SECS && backoff < partLength
  {
    if partModified.None? || sourceModified.None? then 0
    else if partLength > sourceLength || sourceModified.value > partModified.value + CLOCK_SKEW_TOLERANCE_SECS then 0
    else if partLength < backoff then 0 else partLength - backoff
  }

  /** Both times are known, and the source was not changed later than the part, give or take the clock
      skew. */
  ghost predicate TimesFit(part: Option<nat>, source: Option<nat>) {
    part.Some? && source.Some? && source.value <= part.value + CLOCK_SKEW_TOLERANCE_SECS
  }

  /** A part file that an attempt to resume builds on. */
  ghost predicate IsUsable(part: FileState, source: FileState) {
    TimesFit(part.modified, source.modified) && |part.data| <= |source.data|
  }

  /** Everything one attempt cannot foresee: which calls succeed, where the writer really opens, when
      the cancel flag is seen, how many bytes each read gives (None when it fails), for a failing write how
      many bytes still reached the file, and the time the part file will show. */
  datatype Env = Env(
    statSource: bool, statPart: bool, openWrite: bool, opensAt: nat, openRead: bool, cancelled: nat -> bool,
    read: nat -> Option<nat>, write: nat -> Option<nat>, flush: bool, shutdown: bool, rename: bool,
    setModified: bool, stamp: Option<nat>)

  ghost predicate NeverDecreases(progress: seq<nat>) {
    forall i, j :: 0 <= i <= j < |progress| ==> progress[i] <= progress[j]
  }

  lemma OneChunkMore(kept: Bytes, source: Bytes, start: nat, at: nat, size: nat, reached: nat)
    requires start <= at && reached <= size && at + size <= |source|
    ensures kept + source[start..at] + source[at..at + size][..reached] == kept + source[start..at + reached]
  {
    assert source[at..at + size][..reached] == source[at..at + reached];
    assert source[start..at] + source[at..at + reached] == source[start..at + reached];
  }

  // ----- what one attempt does -----

  /** How much one read gives: never nothing before the end. */
  function ReadSize(asked: nat, left: nat): nat {
    Min(Min(if asked == 0 then 1 else asked, CHUNK_SIZE), left)
  }

  /** How far a copy gets from a position, and how it ends. */
  ghost function CopyEnd(size: nat, at: nat, turn: nat, env: Env): (end: (nat, Outcome))
    requires at <= size
    ensures at <= end.0 <= size && (end.1.Completed? ==> end.0 == size)
    decreases size - at
  {
    if env.cancelled(turn) then (at, Cancelled)
    else if env.read(turn).None? then (at, Failed)
    else
      var n := ReadSize(env.read(turn).value, size - at);
      if n == 0 then (at, if env.flush then Completed else Failed)
      else if env.write(turn).Some? then (at + Min(env.write(turn).value, n), Failed)
      else CopyEnd(size, at + n, turn + 1, env)
  }

  /** The beginning of the part file that an attempt keeps: exactly up to where the writer opens. */
  ghost function Kept(source: FileState, backoff: nat, resume: bool, env: Env, part: Option<FileState>): Bytes {
    if !resume || !env.statPart || part.None? then []
    else
      var offset := ResumeOffset(|part.value.data|, |source.data|, part.value.modified, source.modified, backoff);
      part.value.data[..Min(env.opensAt, offset)]
  }

  /** The part file and the contents of the destination, if they exist. */
  datatype Pair = Pair(part: Option<FileState>, final: Option<Bytes>)

  ghost function StateOf(files: map<string, FileState>, path: string): Pair {
    Pair(
      if PartPath(path) in files then Some(files[PartPath(path)]) else None,
      if path in files then Some(files[path].data) else None)
  }

  ghost predicate Opens(env: Env) {
    env.statSource && env.openWrite
  }

  /** What one attempt leaves, and its outcome. */
  ghost function Executed(source: FileState, backoff: nat, resume: bool, env: Env, s: Pair): (Pair, Outcome) {
    if !Opens(env) then (s, Failed)
    else
      var kept := Kept(source, backoff, resume, env, s.part);
      if !env.openRead then (s.(part := Some(FileState(kept, env.stamp))), Failed)
      else
        var end := CopyEnd(|source.data|, |kept|, 0, env);
        var now := kept + source.data[|kept|..end.0];
        if !end.1.Completed? then (s.(part := Some(FileState(now, env.stamp))), end.1)
        else if !env.shutdown || !env.rename then (s.(part := Some(FileState(now, env.stamp))), Failed)
        else (Pair(None, Some(now)), Completed)
  }

  /** The destination file system. */
  class FileStore {
    var files: map<string, FileState>

    /** Copy what the source has from `start` on to the end of the part file. */
    method CopyWithProgress(source: Bytes, part: string, start: nat, env: Env)
      returns (outcome: Outcome, progress: seq<nat>)
      requires part in files && |files[part].data| == start <= |source|
      modifies this
      ensures part in old(files)
      ensures var end := CopyEnd(|source|, start, 0, env);
        outcome == end.1 &&
        files == old(files)[part := old(files)[part].(data := old(files)[part].data + source[start..end.0])]
      ensures progress != [] && progress[0] == start && NeverDecreases(progress)
      ensures outcome.Completed? ==> progress[|progress| - 1] == |source|
    {
      var transferred, sinceLastReport, turn := start, 0, 0;
      progress := [start];
      ghost var kept := files[part];
      assert kept.data + source[start..start] == kept.data;
      while true
        invariant start <= transferred <= |source| && part in files
        invariant files == old(files)[part := kept.(data := kept.data + source[start..transferred])]
        invariant CopyEnd(|source|, start, 0, env) == CopyEnd(|source|, transferred, turn, env)
        invariant progress != [] && progress[0] == start && progress[|progress| - 1] <= transferred
        invariant NeverDecreases(progress)
        decreases |source| - transferred
      {
        ghost var rest := CopyEnd(|source|, transferred, turn, env);
        if env.cancelled(turn) {
          return Cancelled, progress;
        }
        var got := env.read(turn);
        if got.None? {
          return Failed, progress;
        }
        var bytesRead := ReadSize(got.value, |source| - transferred);
        if bytesRead == 0 {
          break;
        }
        var chunk := source[transferred..transferred + bytesRead];
        var lost := env.write(turn);
        if lost.Some? {
          var reached := Min(lost.value, bytesRead);
          OneChunkMore(kept.data, source, start, transferred, bytesRead, reached);
          assert rest == (transferred + reached, Failed);
          files := files[part := files[part].(data := files[part].data + chunk[..reached])];
          return Failed, progress;
        }
        OneChunkMore(kept.data, source, start, transferred, bytesRead, bytesRead);
        assert chunk[..bytesRead] == chunk;
        files := files[part := files[part].(data := files[part].data + chunk)];
        transferred := transferred + bytesRead;
        sinceLastReport := sinceLastReport + bytesRead;
        if sinceLastReport >= PROGRESS_STEP_BYTES {
          progress := progress + [transferred];
          sinceLastReport := 0;
        }
        turn := turn + 1;
      }
      if !env.flush {
        return Failed, progress;
      }
      progress := progress + [transferred];
      return Completed, progress;
    }

    /** One attempt. It leaves part file and destination exactly as Executed says, and nothing else is
        touched. */
    method Execute(
      source: FileState, path: string, resume: bool, backoff: nat, keepModified: Option<nat>, env: Env)
      returns (outcome: Outcome, timesKept: bool, progress: seq<nat>)
      modifies this
      ensures (StateOf(files, path), outcome) == Executed(source, backoff, resume, env, StateOf(old(files), path))
      ensures forall other :: other != path && other != PartPath(path) ==>
        (other in files <==> other in old(files)) && (other in files ==> files[other] == old(files)[other])
      ensures NeverDecreases(progress)
      ensures outcome.Completed? ==> progress != [] && progress[|progress| - 1] == |source.data|
      ensures !timesKept <==> outcome.Completed? && keepModified.Some? && !env.setModified
      ensures outcome.Completed? && timesKept && keepModified.Some? ==>
        path in files && files[path].modified == keepModified
    {
      timesKept, progress := true, [];
      var part := PartPath(path);
      assert |part| == |path| + |PART_SUFFIX|;
      ghost var was := StateOf(files, path);
      if !env.statSource {
        return Failed, timesKept, progress;
      }
      var offset := 0;
      if resume && env.statPart && part in files {
        offset := ResumeOffset(|files[part].data|, |source.data|, files[part].modified, source.modified, backoff);
      }
      if !env.openWrite {
        return Failed, timesKept, progress;
      }
      offset := Min(env.opensAt, offset);
      var kept := if part in files then files[part].data[..offset] else [];
      assert kept == Kept(source, backoff, resume, env, was.part);
      files := files[part := FileState(kept, env.stamp)];
      if !env.openRead {
        return Failed, timesKept, progress;
      }
      hide Kept, CopyEnd;
      outcome, progress := CopyWithProgress(source.data, part, offset, env);
      if outcome.Completed? && !env.shutdown {
        outcome := Failed;
      }
      if outcome.Completed? {
        if !env.rename {
          return Failed, timesKept, progress;
        }
        files := (files - {part})[path := files[part]];
        if keepModified.Some? {
          timesKept := env.setModified;
          if timesKept {
            files := files[path := files[path].(modified := keepModified)];
          }
        }
      }
    }
  }

  // ----- over many attempts -----

  /** Whether an attempt is to resume, and whether it gets as far as opening the part file. */
  datatype Ask = Ask(resume: bool, opens: bool)

  /** Some way such an attempt can go. */
  ghost predicate Attempt(source: FileState, backoff: nat, ask: Ask, s: Pair, s': Pair, outcome: Outcome) {
    exists env: Env :: Opens(env) == ask.opens && Executed(source, backoff, ask.resume, env, s) == (s', outcome)
  }

  /** Two files have the same bytes up to a position. */
  ghost predicate AgreeUpTo(part: Bytes, source: Bytes, end: int) {
    forall i :: 0 <= i < end && i < |part| && i < |source| ==> part[i] == source[i]
  }

  /** The part file is absent, or refused for its time, or what the source has wherever an attempt could
      build on it, now or after losing its end. */
  ghost predicate IsSound(source: FileState, backoff: nat, part: Option<FileState>) {
    part.Some? && TimesFit(part.value.modified, source.modified) ==>
      AgreeUpTo(part.value.data, source.data, Min(|part.value.data|, |source.data|) - backoff)
  }

  /** Before an attempt a part file may vanish, lose its end, have its last `backoff` bytes spoilt, and its
      time may no longer be known. */
  ghost predicate Damaged(backoff: nat, s: Pair, s': Pair) {
    && s'.final == s.final
    && (s'.part.Some? ==>
          && s.part.Some? && |s'.part.value.data| <= |s.part.value.data|
          && (s'.part.value.modified == s.part.value.modified || s'.part.value.modified == None)
          && AgreeUpTo(s'.part.value.data, s.part.value.data, |s'.part.value.data| - backoff))
  }

  lemma DamageStaysSound(source: FileState, backoff: nat, s: Pair, s': Pair)
    requires IsSound(source, backoff, s.part) && Damaged(backoff, s, s')
    ensures IsSound(source, backoff, s'.part)
  {
  }

  /** What is kept of a sound part, and what a fresh start keeps, is a beginning of the source. */
  lemma KeptIsRight(source: FileState, backoff: nat, resume: bool, env: Env, part: Option<FileState>)
    requires !resume || IsSound(source, backoff, part)
    ensures var kept := Kept(source, backoff, resume, env, part);
      |kept| <= |source.data| && kept == source.data[..|kept|]
  {
  }

  lemma PrefixIsSound(source: FileState, backoff: nat, data: Bytes, stamp: Option<nat>)
    requires |data| <= |source.data| && data == source.data[..|data|]
    ensures IsSound(source, backoff, Some(FileState(data, stamp)))
  {
  }

  /** An attempt that opens a sound part, or starts over, leaves a sound one; one that completes leaves
      the source as the destination. */
  lemma AttemptStaysSound(source: FileState, backoff: nat, ask: Ask, s: Pair, s': Pair, outcome: Outcome)
    requires Attempt(source, backoff, ask, s, s', outcome)
    requires IsSound(source, backoff, s.part) || (ask.opens && !ask.resume)
    ensures IsSound(source, backoff, s'.part)
    ensures outcome.Completed? ==> s' == Pair(None, Some(source.data))
  {
    var env: Env :| Opens(env) == ask.opens && Executed(source, backoff, ask.resume, env, s) == (s', outcome);
    hide IsSound, Executed;
    if Opens(env) {
      OpenedStaysSound(source, backoff, ask.resume, env, s);
    } else {
      UnopenedChangesNothing(source, backoff, ask.resume, env, s);
    }
  }

  lemma UnopenedChangesNothing(source: FileState, backoff: nat, resume: bool, env: Env, s: Pair)
    requires !Opens(env)
    ensures Executed(source, backoff, resume, env, s) == (s, Failed)
  {
  }

  lemma OpenedStaysSound(source: FileState, backoff: nat, resume: bool, env: Env, s: Pair)
    requires Opens(env) && (!resume || IsSound(source, backoff, s.part))
    ensures var (s', outcome) := Executed(source, backoff, resume, env, s);
      IsSound(source, backoff, s'.part) && (outcome.Completed? ==> s' == Pair(None, Some(source.data)))
  {
    KeptIsRight(source, backoff, resume, env, s.part);
    var kept := Kept(source, backoff, resume, env, s.part);
    hide Kept, IsSound, CopyEnd;
    PrefixIsSound(source, backoff, kept, env.stamp);
    if env.openRead {
      var n := CopyEnd(|source.data|, |kept|, 0, env).0;
      assert kept + source.data[|kept|..n] == source.data[..n];
      PrefixIsSound(source, backoff, source.data[..n], env.stamp);
      NoPartIsSound(source, backoff);
      assert source.data[..|source.data|] == source.data;
    }
  }

  /** How many bytes of a part file an attempt keeps: none unless it is to resume, finds the part, knows both
      times and sees neither a longer part nor a source changed later; and no more than up to where the
      writer opens. */
  ghost predicate KeepsOf(source: FileState, backoff: nat, resume: bool, env: Env, part: Option<FileState>, n: nat) {
    if resume && env.statPart && part.Some? && IsUsable(part.value, source) && backoff < |part.value.data|
    then n == Min(env.opensAt, |part.value.data| - backoff)
    else n == 0
  }

  /** An attempt that opens the part and is then broken off leaves a part file the next one can build on: a
      beginning of the source, no shorter than what was kept of the part before. The destination stays. */
  lemma BrokenOffLeavesABeginning(source: FileState, backoff: nat, resume: bool, env: Env, s: Pair, n: nat)
    requires Opens(env) && (!resume || IsSound(source, backoff, s.part))
    requires KeepsOf(source, backoff, resume, env, s.part, n)
    ensures var (s', outcome) := Executed(source, backoff, resume, env, s);
      !outcome.Completed? ==>
        && s'.final == s.final && s'.part.Some? && s'.part.value.modified == env.stamp
        && n <= |s'.part.value.data| <= |source.data|
        && s'.part.value.data == source.data[..|s'.part.value.data|]
  {
    KeptIsRight(source, backoff, resume, env, s.part);
    var kept := Kept(source, backoff, resume, env, s.part);
    assert |kept| == n;
    hide Kept, IsSound, CopyEnd;
    if env.openRead {
      var reached := CopyEnd(|source.data|, n, 0, env).0;
      assert kept + source.data[n..reached] == source.data[..reached];
    }
  }

  /** A cancelled attempt's part, if it is dated no more than the clock skew before the source, is taken up by
      the next attempt to resume: that one, too, never falls back by more than `backoff` bytes. */
  lemma CancelledWorkIsBuiltOn(
    source: FileState, backoff: nat, resume: bool, env: Env, s: Pair, next: Env)
    requires Opens(env) && (!resume || IsSound(source, backoff, s.part))
    requires Executed(source, backoff, resume, env, s).1.Cancelled? && TimesFit(env.stamp, source.modified)
    requires Opens(next) && next.statPart && next.opensAt >= |source.data|
    ensures var s1 := Executed(source, backoff, resume, env, s).0;
      var (s2, outcome) := Executed(source, backoff, true, next, s1);
      && s1.part.Some?
      && (outcome.Completed? ==> s2 == Pair(None, Some(source.data)))
      && (!outcome.Completed? ==>
            && s2.part.Some? && |s1.part.value.data| <= |s2.part.value.data| + backoff
            && s2.part.value.data == source.data[..|s2.part.value.data|])
  {
    var n := |Kept(source, backoff, resume, env, s.part)|;
    BrokenOffLeavesABeginning(source, backoff, resume, env, s, n);
    var s1 := Executed(source, backoff, resume, env, s).0;
    OpenedStaysSound(source, backoff, resume, env, s);
    OpenedStaysSound(source, backoff, true, next, s1);
    hide Executed, IsSound, Kept;
    var data := s1.part.value.data;
    BrokenOffLeavesABeginning(source, backoff, true, next, s1, if backoff < |data| then |data| - backoff else 0);
  }

  /** A turn of the copy in which nothing goes wrong. */
  ghost predicate Goes(env: Env, turn: nat) {
    !env.cancelled(turn) && env.read(turn).Some? && env.write(turn).None?
  }

  /** Why a copy ends at this turn. */
  ghost predicate EndsBy(env: Env, stop: nat, size: nat, end: (nat, Outcome)) {
    match end.1
    case Cancelled => env.cancelled(stop)
    case Failed =>
      !env.cancelled(stop) && (env.read(stop).None? || env.write(stop).Some? || (end.0 == size && !env.flush))
    case Completed => !env.cancelled(stop) && env.read(stop).Some? && end.0 == size && env.flush
  }

  /** A copy goes on until the first turn in which the cancel flag is seen, a call fails, or nothing is left;
      each turn before copies at least one byte. */
  lemma {:induction false} CopyEndsForAReason(size: nat, at: nat, turn: nat, env: Env) returns (stop: nat)
    requires at <= size
    ensures turn <= stop && (forall t :: turn <= t < stop ==> Goes(env, t))
    ensures EndsBy(env, stop, size, CopyEnd(size, at, turn, env))
    ensures at + (stop - turn) <= CopyEnd(size, at, turn, env).0
    decreases size - at
  {
    stop := turn;
    if Goes(env, turn) && at < size {
      stop := CopyEndsForAReason(size, at + ReadSize(env.read(turn).value, size - at), turn + 1, env);
    }
  }

  /** A copy in which nothing fails and no cancel is seen completes. */
  lemma UndisturbedAttemptCompletes(source: FileState, backoff: nat, resume: bool, env: Env, s: Pair)
    requires Opens(env) && env.openRead && env.flush && env.shutdown && env.rename
    requires forall turn: nat :: Goes(env, turn)
    ensures Executed(source, backoff, resume, env, s).1.Completed?
  {
    var kept := Kept(source, backoff, resume, env, s.part);
    var stop := CopyEndsForAReason(|source.data|, |kept|, 0, env);
    assert Goes(env, stop);
    hide Kept, CopyEnd;
  }

  lemma NoPartIsSound(source: FileState, backoff: nat)
    ensures IsSound(source, backoff, None)
  {
  }

  lemma UnfinishedKeepsFinal(source: FileState, backoff: nat, ask: Ask, s: Pair, s': Pair, outcome: Outcome)
    requires Attempt(source, backoff, ask, s, s', outcome) && !outcome.Completed?
    ensures s'.final == s.final
  {
    hide Kept, CopyEnd;
  }

  /** An attempt that completes without a part it may build on leaves the source. */
  lemma UnusablePartIsIgnored(source: FileState, backoff: nat, resume: bool, env: Env, s: Pair)
    requires resume && s.part.Some? ==> !IsUsable(s.part.value, source)
    ensures var (s', outcome) := Executed(source, backoff, resume, env, s);
      outcome.Completed? ==> s' == Pair(None, Some(source.data))
  {
    assert Kept(source, backoff, resume, env, s.part) == [];
    hide Kept, CopyEnd;
    assert [] + source.data[0..|source.data|] == source.data;
  }

  /** One attempt of a run: what was asked, the state it found after whatever damage was done since the
      one before, the state it left, and its outcome. */
  datatype Try = Try(ask: Ask, found: Pair, left: Pair, outcome: Outcome)

  ghost predicate Run(source: FileState, backoff: nat, start: Pair, tries: seq<Try>) {
    forall k :: 0 <= k < |tries| ==> Tried(source, backoff, Before(start, tries, k), tries[k])
  }

  ghost predicate Tried(source: FileState, backoff: nat, before: Pair, t: Try) {
    Damaged(backoff, before, t.found) && Attempt(source, backoff, t.ask, t.found, t.left, t.outcome)
  }

  /** One more attempt, whatever happened to the part file before it. */
  lemma TryStaysSound(source: FileState, backoff: nat, before: Pair, t: Try)
    requires Tried(source, backoff, before, t)
    ensures !t.outcome.Completed? ==> t.left.final == before.final
    ensures IsSound(source, backoff, before.part) || (t.ask.opens && !t.ask.resume) ==>
      IsSound(source, backoff, t.left.part) && (t.outcome.Completed? ==> t.left == Pair(None, Some(source.data)))
  {
    hide IsSound, Attempt;
    if !t.outcome.Completed? {
      UnfinishedKeepsFinal(source, backoff, t.ask, t.found, t.left, t.outcome);
    }
    if IsSound(source, backoff, before.part) {
      DamageStaysSound(source, backoff, before, t.found);
    }
    if IsSound(source, backoff, before.part) || (t.ask.opens && !t.ask.resume) {
      AttemptStaysSound(source, backoff, t.ask, t.found, t.left, t.outcome);
    }
  }

  ghost function Before(start: Pair, tries: seq<Try>, k: nat): Pair
    requires k < |tries|
  {
    if k == 0 then start else tries[k - 1].left
  }

  ghost function AsksOf(tries: seq<Try>): seq<Ask> {
    seq(|tries|, i requires 0 <= i < |tries| => tries[i].ask)
  }

  /** Some attempt that was not to resume got as far as opening the part file. */
  ghost predicate StartsOver(asks: seq<Ask>) {
    exists j :: 0 <= j < |asks| && asks[j].opens && !asks[j].resume
  }

  /** Attempts that do not complete never touch the destination; and from a sound part, or once one of
      them has started over, they leave a sound part. */
  lemma {:induction false} InterruptionsAreHarmless(
    source: FileState, backoff: nat, start: Pair, tries: seq<Try>, k: nat)
    requires Run(source, backoff, start, tries)
    requires k < |tries| && forall i :: 0 <= i <= k ==> !tries[i].outcome.Completed?
    ensures tries[k].left.final == start.final
    ensures IsSound(source, backoff, start.part) || StartsOver(AsksOf(tries[..k + 1])) ==>
      IsSound(source, backoff, tries[k].left.part)
  {
    hide IsSound, Tried, StartsOver, AsksOf;
    assert Tried(source, backoff, Before(start, tries, k), tries[k]);
    TryStaysSound(source, backoff, Before(start, tries, k), tries[k]);
    StartsOverLater(tries, k);
    if k == 0 {
      NobodyStartedOver(tries);
    } else {
      InterruptionsAreHarmless(source, backoff, start, tries, k - 1);
    }
  }

  lemma NobodyStartedOver(tries: seq<Try>)
    ensures !StartsOver(AsksOf(tries[..0]))
  {
  }

  lemma StartsOverLater(tries: seq<Try>, k: nat)
    requires k < |tries|
    ensures StartsOver(AsksOf(tries[..k + 1])) <==>
      StartsOver(AsksOf(tries[..k])) || (tries[k].ask.opens && !tries[k].ask.resume)
  {
    var before, after := AsksOf(tries[..k]), AsksOf(tries[..k + 1]);
    assert after == before + [tries[k].ask];
    if StartsOver(before) {
      var j :| 0 <= j < |before| && before[j].opens && !before[j].resume;
      assert after[j] == before[j];
    }
    assert after[k] == tries[k].ask;
  }

  /** The attempts were asked for like this, and the last is the first to complete. */
  ghost predicate CompletesLast(source: FileState, backoff: nat, start: Pair, asks: seq<Ask>, tries: seq<Try>) {
    && Run(source, backoff, start, tries) && AsksOf(tries) == asks && tries != []
    && tries[|tries| - 1].outcome.Completed?
    && forall i :: 0 <= i < |tries| - 1 ==> !tries[i].outcome.Completed?
  }

  /** Any number of interrupted attempts, with damage to the end of the part file before each, leaves the
      destination alone. If the part was sound at first, or some attempt started over, the attempt that
      completes makes the destination equal to the source. */
  lemma CopyIsExactAfterInterruptions(
    source: FileState, backoff: nat, start: Pair, asks: seq<Ask>, tries: seq<Try>)
    requires CompletesLast(source, backoff, start, asks, tries)
    ensures forall i :: 0 <= i < |tries| - 1 ==> tries[i].left.final == start.final
    ensures IsSound(source, backoff, start.part) || StartsOver(asks) ==>
      tries[|tries| - 1].left == Pair(None, Some(source.data))
  {
    hide IsSound, Tried, StartsOver;
    var k := |tries| - 1;
    forall i | 0 <= i < k ensures tries[i].left.final == start.final {
      InterruptionsAreHarmless(source, backoff, start, tries, i);
    }
    assert Tried(source, backoff, Before(start, tries, k), tries[k]);
    TryStaysSound(source, backoff, Before(start, tries, k), tries[k]);
    StartsOverLater(tries, k);
    assert tries[..k + 1] == tries;
    if k == 0 {
      NobodyStartedOver(tries);
    } else {
      InterruptionsAreHarmless(source, backoff, start, tries, k - 1);
    }
  }

  // ----- and otherwise it need not be -----

  /** An attempt in which nothing fails, but the flush if it is not to complete. */
  ghost function Smooth(source: FileState, completes: bool): Env {
    Env(true, true, true, |source.data|, true, _ => false, _ => Some(CHUNK_SIZE), _ => None, completes, true, true,
        true, source.modified)
  }

  lemma {:induction false} SmoothReachesTheEnd(source: FileState, completes: bool, at: nat, turn: nat)
    requires at <= |source.data|
    ensures CopyEnd(|source.data|, at, turn, Smooth(source, completes)) ==
      (|source.data|, if completes then Completed else Failed)
    decreases |source.data| - at
  {
    if at == |source.data| {
    } else {
      SmoothReachesTheEnd(source, completes, at + ReadSize(CHUNK_SIZE, |source.data| - at), turn + 1);
    }
  }

  /** The part cut to the source's length, and what an attempt that builds on it makes of it. */
  ghost function Cut(source: FileState, part: FileState): FileState {
    part.(data := part.data[..Min(|part.data|, |source.data|)])
  }

  ghost function Rebuilt(source: FileState, backoff: nat, part: FileState): Bytes
    requires backoff < |Cut(source, part).data|
  {
    var cut := Cut(source, part).data;
    cut[..|cut| - backoff] + source.data[|cut| - backoff..]
  }

  lemma UnsoundStaysUnsound(source: FileState, backoff: nat, part: FileState)
    requires !IsSound(source, backoff, Some(part))
    ensures TimesFit(part.modified, source.modified) && backoff < |Cut(source, part).data|
    ensures Rebuilt(source, backoff, part) != source.data
    ensures !IsSound(source, backoff, Some(FileState(Rebuilt(source, backoff, part), source.modified)))
  {
    var i :| 0 <= i < Min(|part.data|, |source.data|) - backoff && part.data[i] != source.data[i];
    assert Rebuilt(source, backoff, part)[i] == part.data[i];
  }

  lemma CuttingIsDamage(source: FileState, backoff: nat, part: FileState, final: Option<Bytes>)
    ensures Damaged(backoff, Pair(Some(part), final), Pair(Some(Cut(source, part)), final))
  {
  }

  /** An attempt that resumes on an unsound part builds on it. */
  lemma BuildsOn(source: FileState, backoff: nat, part: FileState, final: Option<Bytes>, completes: bool)
    requires TimesFit(part.modified, source.modified) && backoff < |Cut(source, part).data|
    ensures var now := Rebuilt(source, backoff, part);
      Executed(source, backoff, true, Smooth(source, completes), Pair(Some(Cut(source, part)), final)) ==
      if completes then (Pair(None, Some(now)), Completed)
      else (Pair(Some(FileState(now, source.modified)), final), Failed)
  {
    var cut := Cut(source, part);
    assert Kept(source, backoff, true, Smooth(source, completes), Some(cut)) == cut.data[..|cut.data| - backoff];
    SmoothReachesTheEnd(source, completes, |cut.data| - backoff, 0);
    hide CopyEnd, Kept;
    assert source.data[|cut.data| - backoff..|source.data|] == source.data[|cut.data| - backoff..];
  }

  lemma SpoiltOnce(source: FileState, backoff: nat, start: Pair, ask: Ask, completes: bool) returns (t: Try)
    requires !IsSound(source, backoff, start.part) && (ask.opens ==> ask.resume) && (completes ==> ask.opens)
    ensures t.ask == ask && Tried(source, backoff, start, t) && t.outcome.Completed? == completes
    ensures if completes then t.left.final != Some(source.data) else !IsSound(source, backoff, t.left.part)
  {
    var part := start.part.value;
    UnsoundStaysUnsound(source, backoff, part);
    hide IsSound, Executed;
    if !ask.opens {
      NeverOpened(source, backoff, ask, start);
      t := Try(ask, start, start, Failed);
    } else {
      CuttingIsDamage(source, backoff, part, start.final);
      BuildsOn(source, backoff, part, start.final, completes);
      var now := Rebuilt(source, backoff, part);
      assert Opens(Smooth(source, completes));
      hide Damaged;
      t := Try(Ask(true, true), Pair(Some(Cut(source, part)), start.final),
        if completes then Pair(None, Some(now)) else Pair(Some(FileState(now, source.modified)), start.final),
        if completes then Completed else Failed);
    }
  }

  lemma NeverOpened(source: FileState, backoff: nat, ask: Ask, s: Pair)
    requires !ask.opens
    ensures Damaged(backoff, s, s) && Attempt(source, backoff, ask, s, s, Failed)
  {
    var env := Smooth(source, true).(statSource := false);
    assert Executed(source, backoff, ask.resume, env, s) == (s, Failed);
  }

  lemma FirstAsk(asks: seq<Ask>)
    requires asks != [] && !StartsOver(asks)
    ensures (asks[0].opens ==> asks[0].resume) && !StartsOver(asks[1..])
  {
    assert forall j :: 0 <= j < |asks[1..]| ==> asks[1..][j] == asks[j + 1];
    assert !(asks[0].opens && !asks[0].resume);
  }

  /** From an unsound part, attempts of which every one that opens it resumes can end in something other
      than the source. */
  lemma {:induction false} UnsoundPartMaySpoil(source: FileState, backoff: nat, start: Pair, asks: seq<Ask>)
    returns (tries: seq<Try>)
    requires !IsSound(source, backoff, start.part) && !StartsOver(asks)
    requires asks != [] && asks[|asks| - 1].opens
    ensures CompletesLast(source, backoff, start, asks, tries)
    ensures tries[|tries| - 1].left.final != Some(source.data)
    decreases |asks|
  {
    hide IsSound, Tried, StartsOver;
    FirstAsk(asks);
    var first := SpoiltOnce(source, backoff, start, asks[0], |asks| == 1);
    if |asks| == 1 {
      tries := [first];
      assert AsksOf(tries) == asks;
    } else {
      assert asks[1..][|asks| - 2] == asks[|asks| - 1];
      var rest := UnsoundPartMaySpoil(source, backoff, first.left, asks[1..]);
      TriedFirst(source, backoff, start, asks, first, rest);
      tries := [first] + rest;
    }
  }

  lemma TriedFirst(source: FileState, backoff: nat, start: Pair, asks: seq<Ask>, first: Try, rest: seq<Try>)
    requires asks != [] && CompletesLast(source, backoff, first.left, asks[1..], rest)
    requires first.ask == asks[0] && !first.outcome.Completed? && Tried(source, backoff, start, first)
    ensures CompletesLast(source, backoff, start, asks, [first] + rest)
  {
    hide Tried;
    var tries := [first] + rest;
    forall k | 0 <= k < |tries| ensures Tried(source, backoff, Before(start, tries, k), tries[k]) {
      if k > 0 {
        assert Before(start, tries, k) == Before(first.left, rest, k - 1);
        assert Tried(source, backoff, Before(first.left, rest, k - 1), rest[k - 1]);
      }
    }
    assert AsksOf(tries) == [first.ask] + AsksOf(rest);
    assert asks == [asks[0]] + asks[1..];
  }

  /** The copy is exact if and only if the part file was sound at first or some attempt started over. */
  lemma ExactlyWhenSoundOrStartedOver(source: FileState, backoff: nat, start: Pair, asks: seq<Ask>)
    requires asks != [] && asks[|asks| - 1].opens
    ensures IsSound(source, backoff, start.part) || StartsOver(asks) <==>
      forall tries: seq<Try> :: CompletesLast(source, backoff, start, asks, tries) ==>
        tries[|tries| - 1].left.final == Some(source.data)
  {
    hide IsSound, StartsOver, CompletesLast;
    if IsSound(source, backoff, start.part) || StartsOver(asks) {
      forall tries: seq<Try> | CompletesLast(source, backoff, start, asks, tries)
        ensures tries != [] && tries[|tries| - 1].left.final == Some(source.data)
      {
        CompletingTries(source, backoff, start, asks, tries);
        CopyIsExactAfterInterruptions(source, backoff, start, asks, tries);
      }
    } else {
      var tries := UnsoundPartMaySpoil(source, backoff, start, asks);
      CompletingTries(source, backoff, start, asks, tries);
    }
  }

  lemma CompletingTries(source: FileState, backoff: nat, start: Pair, asks: seq<Ask>, tries: seq<Try>)
    requires CompletesLast(source, backoff, start, asks, tries)
    ensures tries != []
  {
  }

  /** An attempt that is not to resume cannot read the source's size and fails before it opens the part file
      another copy left; the queue tries again with `resume` set, and the second attempt builds on the
      foreign part, which is younger than the source. */
  lemma ForeignPartIsBuiltOn()
    ensures var source, start := FileState([1, 2], Some(1000)), Pair(Some(FileState([9], Some(2000))), None);
      var unread := Smooth(source, true).(statSource := false);
      && Executed(source, 0, false, unread, start) == (start, Failed)
      && Executed(source, 0, true, Smooth(source, true), start) == (Pair(None, Some([9, 2])), Completed)
  {
    var source, part := FileState([1, 2], Some(1000)), FileState([9], Some(2000));
    BuildsOn(source, 0, part, None, true);
    assert Cut(source, part) == part && Rebuilt(source, 0, part) == [9, 2];
  }
}
