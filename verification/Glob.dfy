/** The file name matcher of the search (porthmos-vfs/src/search/mod.rs, match_from). */
module Glob {
  import opened Ordered

  /** What a pattern means: `?` is any one character, `*` any run of characters, anything else
      itself. */
  ghost predicate Matches(pattern: string, name: string)
    decreases |pattern|
  {
    if pattern == "" then name == ""
    else if pattern[0] == '*' then exists k :: 0 <= k <= |name| && Matches(pattern[1..], name[k..])
    else name != "" && (pattern[0] == '?' || pattern[0] == name[0]) && Matches(pattern[1..], name[1..])
  }

  ghost predicate StarFree(text: string) {
    '*' !in text
  }

  // ----- the matcher as it runs -----

  /** The positions in pattern and name, and the last star with the name position it is tried at. */
  datatype Position = Position(p: nat, n: nat, star: Option<(nat, nat)>)

  predicate InRange(pattern: string, name: string, at: Position) {
    && at.p <= |pattern| && at.n <= |name|
    && (at.star.Some? ==> at.star.value.0 < at.p && at.star.value.1 <= at.n && at.star.value.0 < |pattern|)
    && (at.star.Some? ==> at.n - at.star.value.1 == at.p - at.star.value.0 - 1)
  }

  /** One turn of the main loop; None when the matcher gives up. */
  function Turn(pattern: string, name: string, at: Position): (next: Option<Position>)
    requires InRange(pattern, name, at) && at.n < |name|
    ensures next.Some? ==> InRange(pattern, name, next.value)
    ensures next.Some? ==> 0 <= Left(pattern, name, next.value) < Left(pattern, name, at)
  {
    if at.p < |pattern| && (pattern[at.p] == '?' || pattern[at.p] == name[at.n]) then
      Some(Position(at.p + 1, at.n + 1, at.star))
    else if at.p < |pattern| && pattern[at.p] == '*' then
      Some(Position(at.p + 1, at.n, Some((at.p, at.n))))
    else if at.star.Some? then
      LeftShrinks(pattern, name, at);
      Some(Position(at.star.value.0 + 1, at.star.value.1 + 1, Some((at.star.value.0, at.star.value.1 + 1))))
    else None
  }

  /** An upper bound on the turns still to come. */
  function Left(pattern: string, name: string, at: Position): int {
    var starAt := if at.star.Some? then at.star.value.1 else -1;
    (|name| - starAt) * (|pattern| + 1) + (|pattern| - at.p)
  }

  lemma LeftShrinks(pattern: string, name: string, at: Position)
    requires InRange(pattern, name, at) && at.n < |name| && at.star.Some?
    ensures var (starP, starN) := at.star.value;
      0 <= Left(pattern, name, Position(starP + 1, starN + 1, Some((starP, starN + 1)))) < Left(pattern, name, at)
  {
    var (starP, starN) := at.star.value;
    var a, b := |name| - starN - 1, |pattern| + 1;
    assert (a + 1) * b == a * b + b;
    assert a * b >= 0;
  }

  predicate OnlyStarsLeft(pattern: string, p: nat)
    requires p <= |pattern|
  {
    forall i :: p <= i < |pattern| ==> pattern[i] == '*'
  }

  /** Running the matcher from a position to its answer. */
  ghost predicate Run(pattern: string, name: string, at: Position)
    requires InRange(pattern, name, at)
    decreases Left(pattern, name, at)
  {
    if at.n == |name| then OnlyStarsLeft(pattern, at.p)
    else
      var next := Turn(pattern, name, at);
      next.Some? && Run(pattern, name, next.value)
  }

  const START := Position(0, 0, None)

  ghost predicate Greedy(pattern: string, name: string) {
    Run(pattern, name, START)
  }

  // ----- why one remembered star is enough -----

  /** Some later start for the last star would do. */
  ghost predicate LaterStart(pattern: string, name: string, starP: nat, starN: nat)
    requires starP < |pattern|
  {
    exists k :: starN < k <= |name| && Matches(pattern[starP + 1..], name[k..])
  }

  /** What the matcher still has to decide at a position. */
  ghost predicate Goal(pattern: string, name: string, at: Position)
    requires InRange(pattern, name, at)
  {
    || Matches(pattern[at.p..], name[at.n..])
    || (at.star.Some? && LaterStart(pattern, name, at.star.value.0, at.star.value.1))
  }

  /** Between the last star and the current place the pattern has no further star. */
  ghost predicate SegmentStarFree(pattern: string, at: Position)
    requires at.p <= |pattern|
  {
    var from := if at.star.Some? then at.star.value.0 + 1 else 0;
    forall i :: from <= i < at.p ==> pattern[i] != '*'
  }

  lemma Unfold(pattern: string, name: string, p: nat, n: nat)
    requires p < |pattern| && n <= |name| && pattern[p] != '*'
    ensures Matches(pattern[p..], name[n..]) <==>
      n < |name| && (pattern[p] == '?' || pattern[p] == name[n]) && Matches(pattern[p + 1..], name[n + 1..])
  {
    assert pattern[p..][1..] == pattern[p + 1..];
    assert n < |name| ==> name[n..][1..] == name[n + 1..];
  }

  lemma UnfoldStar(pattern: string, name: string, p: nat, n: nat)
    requires p < |pattern| && n <= |name| && pattern[p] == '*'
    ensures Matches(pattern[p..], name[n..]) <==> exists k :: n <= k <= |name| && Matches(pattern[p + 1..], name[k..])
  {
    assert pattern[p..][1..] == pattern[p + 1..];
    if Matches(pattern[p..], name[n..]) {
      var j :| 0 <= j <= |name[n..]| && Matches(pattern[p..][1..], name[n..][j..]);
      assert name[n..][j..] == name[n + j..];
    }
    if k :| n <= k <= |name| && Matches(pattern[p + 1..], name[k..]) {
      assert name[n..][k - n..] == name[k..];
    }
  }

  /** A star-free stretch of the pattern uses up exactly as many characters of the name. */
  lemma {:induction false} SegmentConsumes(pattern: string, name: string, p: nat, q: nat, n: nat)
    requires p <= q <= |pattern| && n <= |name|
    requires forall i :: p <= i < q ==> pattern[i] != '*'
    requires Matches(pattern[p..], name[n..])
    ensures n + (q - p) <= |name| && Matches(pattern[q..], name[n + (q - p)..])
    decreases q - p
  {
    if p == q {
    } else {
      Unfold(pattern, name, p, n);
      SegmentConsumes(pattern, name, p + 1, q, n + 1);
    }
  }

  /** The end of the name is matched exactly by stars. */
  lemma {:induction false} EmptyTail(pattern: string, name: string, p: nat)
    requires p <= |pattern|
    ensures Matches(pattern[p..], name[|name|..]) <==> OnlyStarsLeft(pattern, p)
    decreases |pattern| - p
  {
    if p == |pattern| {
      assert name[|name|..] == "";
    } else if pattern[p] == '*' {
      UnfoldStar(pattern, name, p, |name|);
      EmptyTail(pattern, name, p + 1);
    } else {
      Unfold(pattern, name, p, |name|);
    }
  }

  /** No turn reaches a position that promises more than the one before. */
  lemma TurnIsSound(pattern: string, name: string, at: Position)
    requires InRange(pattern, name, at) && at.n < |name|
    requires var next := Turn(pattern, name, at); next.Some? && Goal(pattern, name, next.value)
    ensures Goal(pattern, name, at)
  {
    if at.p < |pattern| && pattern[at.p] == '*' {
      UnfoldStar(pattern, name, at.p, at.n);
      if pattern[at.p] == name[at.n] {
        UnfoldStar(pattern, name, at.p, at.n);
      }
    } else if at.p < |pattern| {
      Unfold(pattern, name, at.p, at.n);
    }
  }

  /** No turn gives a match away, when the name has no star. */
  lemma TurnIsComplete(pattern: string, name: string, at: Position)
    requires InRange(pattern, name, at) && at.n < |name|
    requires StarFree(name) && SegmentStarFree(pattern, at)
    requires Goal(pattern, name, at)
    ensures var next := Turn(pattern, name, at);
      next.Some? && Goal(pattern, name, next.value) && SegmentStarFree(pattern, next.value)
  {
    assert name[at.n] in name;
    if at.p < |pattern| && pattern[at.p] == '*' {
      UnfoldStar(pattern, name, at.p, at.n);
      if at.star.Some? {
        StarKeepsGoal(pattern, name, at);
      }
    } else if at.p < |pattern| {
      Unfold(pattern, name, at.p, at.n);
    }
  }

  /** The key step: at a new star, any later start for the old one can be replaced by letting the
      new star take more, so the old star may be forgotten. */
  lemma StarKeepsGoal(pattern: string, name: string, at: Position)
    requires InRange(pattern, name, at) && at.star.Some?
    requires at.p < |pattern| && pattern[at.p] == '*' && SegmentStarFree(pattern, at)
    requires Goal(pattern, name, at)
    ensures Matches(pattern[at.p..], name[at.n..])
  {
    hide Matches;
    var (starP, starN) := at.star.value;
    if LaterStart(pattern, name, starP, starN) {
      var k :| starN < k <= |name| && Matches(pattern[starP + 1..], name[k..]);
      SegmentConsumes(pattern, name, starP + 1, at.p, k);
      StarTakesMore(pattern, name, at.p, at.n, k + (at.p - starP - 1));
    }
  }

  lemma StarTakesMore(pattern: string, name: string, p: nat, n: nat, later: nat)
    requires p < |pattern| && pattern[p] == '*' && n <= later <= |name|
    requires Matches(pattern[p..], name[later..])
    ensures Matches(pattern[p..], name[n..])
  {
    UnfoldStar(pattern, name, p, later);
    UnfoldStar(pattern, name, p, n);
    hide Matches;
  }

  lemma {:induction false} RunIsSound(pattern: string, name: string, at: Position)
    requires InRange(pattern, name, at) && Run(pattern, name, at)
    ensures Goal(pattern, name, at)
    decreases Left(pattern, name, at)
  {
    if at.n == |name| {
      EmptyTail(pattern, name, at.p);
    } else {
      RunIsSound(pattern, name, Turn(pattern, name, at).value);
      TurnIsSound(pattern, name, at);
    }
  }

  lemma {:induction false} RunIsComplete(pattern: string, name: string, at: Position)
    requires InRange(pattern, name, at) && StarFree(name) && SegmentStarFree(pattern, at)
    requires Goal(pattern, name, at)
    ensures Run(pattern, name, at)
    decreases Left(pattern, name, at)
  {
    if at.n == |name| {
      EmptyTail(pattern, name, at.p);
      if at.star.Some? && LaterStart(pattern, name, at.star.value.0, at.star.value.1) {
        var (starP, starN) := at.star.value;
        var k :| starN < k <= |name| && Matches(pattern[starP + 1..], name[k..]);
        SegmentConsumes(pattern, name, starP + 1, at.p, k);
      }
    } else {
      TurnIsComplete(pattern, name, at);
      RunIsComplete(pattern, name, Turn(pattern, name, at).value);
    }
  }

  /** The matcher never accepts a name the pattern does not mean. */
  lemma GreedyIsSound(pattern: string, name: string)
    requires Greedy(pattern, name)
    ensures Matches(pattern, name)
  {
    RunIsSound(pattern, name, START);
    assert pattern[0..] == pattern && name[0..] == name;
  }

  /** For a name without `*` it accepts every name the pattern means. */
  lemma GreedyIsComplete(pattern: string, name: string)
    requires StarFree(name) && Matches(pattern, name)
    ensures Greedy(pattern, name)
  {
    assert pattern[0..] == pattern && name[0..] == name;
    RunIsComplete(pattern, name, START);
  }

  // ----- where the matcher and the meaning part -----

  /** Equal characters are consumed as they stand, a `*` in the name included. */
  lemma {:induction false} LiteralPrefix(pattern: string, name: string, i: nat, at: nat)
    requires i <= at && at <= |pattern| && at <= |name|
    requires pattern[..at] == name[..at]
    ensures Run(pattern, name, Position(i, i, None)) == Run(pattern, name, Position(at, at, None))
    decreases at - i
  {
    if i == at {
    } else {
      assert pattern[i] == pattern[..at][i] == name[..at][i] == name[i];
      LiteralPrefix(pattern, name, i + 1, at);
    }
  }

  lemma {:induction false} NoStarNoSlack(pattern: string, name: string, at: Position)
    requires InRange(pattern, name, at) && at.star == None
    requires forall i :: at.p <= i < |pattern| ==> pattern[i] != '*'
    requires |pattern| - at.p != |name| - at.n
    ensures !Run(pattern, name, at)
    decreases |name| - at.n
  {
    assert at.p < |pattern| ==> pattern[at.p] != '*';
    if at.n < |name| && at.p < |pattern| && (pattern[at.p] == '?' || pattern[at.p] == name[at.n]) {
      NoStarNoSlack(pattern, name, Position(at.p + 1, at.n + 1, None));
    }
  }

  lemma {:induction false} PrefixMatches(prefix: string, pattern: string, name: string)
    requires Matches(pattern, name)
    ensures Matches(prefix + pattern, prefix + name)
  {
    if prefix == "" {
      assert prefix + pattern == pattern && prefix + name == name;
    } else {
      assert (prefix + pattern)[1..] == prefix[1..] + pattern;
      assert (prefix + name)[1..] == prefix[1..] + name;
      PrefixMatches(prefix[1..], pattern, name);
    }
  }

  lemma {:induction false} QuestionMarksMatch(name: string)
    ensures Matches(seq(|name|, _ => '?'), name)
  {
    if name == "" {
    } else {
      assert seq(|name|, _ => '?')[1..] == seq(|name[1..]|, _ => '?');
      QuestionMarksMatch(name[1..]);
    }
  }

  lemma StarSkips(pattern: string, name: string, k: nat)
    requires k <= |name| && Matches(pattern, name[k..])
    ensures Matches("*" + pattern, name)
  {
    assert ("*" + pattern)[1..] == pattern;
  }

  /** A pattern whose last star stands at `i` is refused when the name repeats it up to and
      including that star and is not equally long. */
  lemma StarTakenLiterally(pattern: string, name: string, i: nat)
    requires i < |pattern| && i < |name| && |pattern| != |name|
    requires pattern[..i + 1] == name[..i + 1]
    requires forall j :: i < j < |pattern| ==> pattern[j] != '*'
    ensures !Greedy(pattern, name)
  {
    LiteralPrefix(pattern, name, 0, i + 1);
    NoStarNoSlack(pattern, name, Position(i + 1, i + 1, None));
  }

  /** The literal test comes before the star test: the pattern `*` refuses the name `*a`. */
  lemma StarRefusesStarA()
    ensures Matches("*", "*a") && !Greedy("*", "*a")
  {
    assert "*a"[2..] == "" && "*"[1..] == "";
    StarSkips("", "*a", 2);
    assert "*" + "" == "*";
    StarTakenLiterally("*", "*a", 0);
  }

  /** A name is judged rightly by every pattern exactly when it has no `*`. */
  lemma AgreesOnName(name: string)
    ensures (forall pattern: string :: Greedy(pattern, name) <==> Matches(pattern, name)) <==> StarFree(name)
  {
    if StarFree(name) {
      forall pattern: string ensures Greedy(pattern, name) <==> Matches(pattern, name) {
        if Greedy(pattern, name) {
          GreedyIsSound(pattern, name);
        }
        if Matches(pattern, name) {
          GreedyIsComplete(pattern, name);
        }
      }
    } else {
      var i :| 0 <= i < |name| && name[i] == '*';
      var marks := seq(|name| - i, _ => '?');
      var pattern := name[..i] + ("*" + marks);
      QuestionMarksMatch(name[i..]);
      assert name[i..][0..] == name[i..];
      StarSkips(marks, name[i..], 0);
      PrefixMatches(name[..i], "*" + marks, name[i..]);
      assert name[..i] + name[i..] == name;
      assert pattern[..i + 1] == name[..i + 1];
      StarTakenLiterally(pattern, name, i);
      assert Matches(pattern, name) && !Greedy(pattern, name);
    }
  }

  /** A pattern judges every name rightly exactly when it has no `*`. */
  lemma AgreesForPattern(pattern: string)
    ensures (forall name: string :: Greedy(pattern, name) <==> Matches(pattern, name)) <==> StarFree(pattern)
  {
    if StarFree(pattern) {
      forall name: string ensures Greedy(pattern, name) <==> Matches(pattern, name) {
        if Greedy(pattern, name) {
          GreedyIsSound(pattern, name);
        }
        if Matches(pattern, name) {
          NoStarMatches(pattern, name);
        }
      }
    } else {
      var name := MisjudgedName(pattern);
    }
  }

  lemma MisjudgedName(pattern: string) returns (name: string)
    requires !StarFree(pattern)
    ensures Matches(pattern, name) && !Greedy(pattern, name)
  {
    hide Matches, Greedy;
    var i := LastStar(pattern);
    var tail := pattern[i + 1..];
    name := pattern[..i] + ("*x" + tail);
    ItselfMatches(tail);
    assert ("*x" + tail)[2..] == tail;
    StarSkips(tail, "*x" + tail, 2);
    PrefixMatches(pattern[..i], "*" + tail, "*x" + tail);
    assert pattern[..i] + ("*" + tail) == pattern;
    assert pattern[..i + 1] == name[..i + 1];
    StarTakenLiterally(pattern, name, i);
  }

  lemma ItselfMatches(text: string)
    ensures Matches(text, text)
  {
    PrefixMatches(text, "", "");
    assert text + "" == text;
  }

  lemma NoStarMatches(pattern: string, name: string)
    requires StarFree(pattern) && Matches(pattern, name)
    ensures Greedy(pattern, name)
  {
    assert pattern[0..] == pattern && name[0..] == name;
    NoStarRuns(pattern, name, 0);
  }

  lemma {:induction false} NoStarRuns(pattern: string, name: string, i: nat)
    requires i <= |pattern| && i <= |name| && StarFree(pattern)
    requires Matches(pattern[i..], name[i..])
    ensures Run(pattern, name, Position(i, i, None))
    decreases |pattern| - i
  {
    if i == |pattern| {
    } else {
      assert pattern[i] in pattern;
      Unfold(pattern, name, i, i);
      NoStarRuns(pattern, name, i + 1);
    }
  }

  lemma {:induction false} LastStar(pattern: string) returns (i: nat)
    requires !StarFree(pattern)
    ensures i < |pattern| && pattern[i] == '*' && forall j :: i < j < |pattern| ==> pattern[j] != '*'
  {
    var end := |pattern| - 1;
    i := end;
    if pattern[end] == '*' {
    } else {
      assert pattern == pattern[..end] + [pattern[end]];
      i := LastStar(pattern[..end]);
    }
  }

  /** The loop is at a position that leads to the right answer, and has taken no more turns than allowed. */
  ghost predicate OnTrack(pattern: string, name: string, at: Position, turns: nat) {
    && InRange(pattern, name, at)
    && Greedy(pattern, name) == Run(pattern, name, at)
    && turns + Left(pattern, name, at) <= Left(pattern, name, START) && Left(pattern, name, at) >= 0
  }

  lemma StartsOnTrack(pattern: string, name: string)
    ensures OnTrack(pattern, name, START, 0)
  {
  }

  lemma TurnStaysOnTrack(pattern: string, name: string, at: Position, turns: nat)
    requires OnTrack(pattern, name, at, turns) && at.n < |name|
    ensures var next := Turn(pattern, name, at);
      && (next.None? ==> !Greedy(pattern, name) && turns + 1 <= (|name| + 2) * (|pattern| + 1))
      && (next.Some? ==>
            && OnTrack(pattern, name, next.value, turns + 1)
            && Left(pattern, name, next.value) < Left(pattern, name, at))
  {
    var next := Turn(pattern, name, at);
    assert Run(pattern, name, at) == (next.Some? && Run(pattern, name, next.value));
    hide Turn, Run, Greedy;
    if next.None? {
      StartsWithin(pattern, name, at, turns + 1);
    }
  }

  lemma EndsOnTrack(pattern: string, name: string, at: Position, turns: nat)
    requires OnTrack(pattern, name, at, turns) && at.n == |name|
    ensures Greedy(pattern, name) == OnlyStarsLeft(pattern, at.p)
    ensures turns <= (|name| + 2) * (|pattern| + 1)
  {
    hide Turn, Greedy;
    StartsWithin(pattern, name, at, turns);
  }

  /** The loop itself. It takes at most quadratically many turns. */
  method MatchFrom(pattern: string, name: string) returns (matched: bool, ghost turns: nat)
    ensures matched == Greedy(pattern, name)
    ensures matched ==> Matches(pattern, name)
    ensures StarFree(name) ==> (matched <==> Matches(pattern, name))
    ensures turns <= (|name| + 2) * (|pattern| + 1)
  {
    hide Matches, StarFree, Greedy;
    Judgement(pattern, name);
    var p, n := 0, 0;
    var star: Option<(nat, nat)> := None;
    turns := 0;
    StartsOnTrack(pattern, name);
    while n < |name|
      invariant n <= |name| && OnTrack(pattern, name, Position(p, n, star), turns)
      decreases Left(pattern, name, Position(p, n, star))
    {
      hide Run, Left;
      TurnStaysOnTrack(pattern, name, Position(p, n, star), turns);
      hide OnTrack;
      turns := turns + 1;
      if p < |pattern| && (pattern[p] == '?' || pattern[p] == name[n]) {
        p := p + 1;
        n := n + 1;
      } else if p < |pattern| && pattern[p] == '*' {
        star := Some((p, n));
        p := p + 1;
      } else if star.Some? {
        var (starP, starN) := star.value;
        p := starP + 1;
        n := starN + 1;
        star := Some((starP, n));
      } else {
        return false, turns;
      }
    }
    EndsOnTrack(pattern, name, Position(p, n, star), turns);
    hide Run, Left;
    while p < |pattern| && pattern[p] == '*'
      invariant p <= |pattern|
      invariant Greedy(pattern, name) == OnlyStarsLeft(pattern, p)
    {
      p := p + 1;
    }
    matched := p == |pattern|;
  }

  lemma Judgement(pattern: string, name: string)
    ensures Greedy(pattern, name) ==> Matches(pattern, name)
    ensures StarFree(name) && Matches(pattern, name) ==> Greedy(pattern, name)
  {
    if Greedy(pattern, name) {
      GreedyIsSound(pattern, name);
    }
    if StarFree(name) && Matches(pattern, name) {
      GreedyIsComplete(pattern, name);
    }
  }

  lemma StartsWithin(pattern: string, name: string, at: Position, turns: nat)
    requires Left(pattern, name, at) >= 0
    requires turns + Left(pattern, name, at) <= Left(pattern, name, START) + 1
    ensures turns <= (|name| + 2) * (|pattern| + 1)
  {
  }
}
