/** Finding an unused name (porthmos-core/src/transfer/conflicts/mod.rs, unique_name). */
module FreshNames {

  function Digits(n: nat): (text: string)
    ensures text != "" && forall c :: c in text ==> '0' <= c <= '9'
  {
    if n < 10 then ['0' + n as char] else Digits(n / 10) + ['0' + (n % 10) as char]
  }

  ghost function ValueOf(text: string): nat {
    if text == "" then 0
    else
      var last := text[|text| - 1];
      ValueOf(text[..|text| - 1]) * 10 + if '0' <= last <= '9' then (last - '0') as nat else 0
  }

  lemma {:induction false} DigitsReadBack(n: nat)
    ensures ValueOf(Digits(n)) == n
  {
    if n >= 10 {
      DigitsReadBack(n / 10);
      assert Digits(n)[..|Digits(n)| - 1] == Digits(n / 10);
    } else {
      assert Digits(n)[..0] == "";
    }
  }

  /** The place of the last dot; a dot in front does not count. */
  function ExtensionAt(name: string): (at: nat)
    ensures at <= |name|
  {
    var dot := LastDot(name, |name|);
    if dot <= 0 then |name| else dot
  }

  function LastDot(name: string, end: nat): (at: int)
    requires end <= |name|
    ensures -1 <= at < end && (at >= 0 ==> name[at] == '.')
    ensures forall i :: at < i < end ==> name[i] != '.'
  {
    if end == 0 then -1 else if name[end - 1] == '.' then end - 1 else LastDot(name, end - 1)
  }

  /** `stem (counter).extension` */
  function Candidate(name: string, counter: nat): string {
    name[..ExtensionAt(name)] + " (" + Digits(counter) + ")" + name[ExtensionAt(name)..]
  }

  /** The text from the last dot on is the ending; a name without a dot, or with one in front only, has
      none. */
  ghost predicate EndsAt(name: string, at: nat) {
    if at < |name| then at > 0 && name[at] == '.' && forall i :: at < i < |name| ==> name[i] != '.'
    else at == |name| && forall i :: 0 < i < |name| ==> name[i] != '.'
  }

  /** A candidate keeps the ending and has the counter in decimal, in brackets, in front of it. */
  lemma CandidateKeepsTheEnding(name: string, counter: nat) returns (at: nat)
    ensures at <= |name| && EndsAt(name, at) && IsCounted(name[..at], name[at..], counter, Candidate(name, counter))
    ensures forall other: nat :: EndsAt(name, other) ==> other == at
  {
    at := ExtensionAt(name);
    DigitsReadBack(counter);
    NoLeadingZero(counter);
    assert Candidate(name, counter) == name[..at] + " (" + Digits(counter) + ")" + name[at..];
  }

  ghost predicate IsCounted(stem: string, ending: string, counter: nat, candidate: string) {
    exists digits: string ::
      && candidate == stem + " (" + digits + ")" + ending
      && digits != "" && (forall c :: c in digits ==> '0' <= c <= '9') && ValueOf(digits) == counter
      && (counter > 0 ==> digits[0] != '0')
  }

  lemma {:induction false} NoLeadingZero(n: nat)
    ensures n > 0 ==> Digits(n)[0] != '0'
  {
    if n >= 10 {
      NoLeadingZero(n / 10);
    }
  }

  lemma CandidatesDiffer(name: string, a: nat, b: nat)
    requires a != b
    ensures Candidate(name, a) != Candidate(name, b)
  {
    if Candidate(name, a) == Candidate(name, b) {
      var stem, extension := name[..ExtensionAt(name)] + " (", ")" + name[ExtensionAt(name)..];
      assert Candidate(name, a) == stem + Digits(a) + extension;
      assert Candidate(name, b) == stem + Digits(b) + extension;
      assert |Digits(a)| == |Digits(b)|;
      assert Digits(a) == Candidate(name, a)[|stem|..|stem| + |Digits(a)|];
      assert Digits(b) == Candidate(name, b)[|stem|..|stem| + |Digits(b)|];
      DigitsReadBack(a);
      DigitsReadBack(b);
    }
  }

  ghost predicate AllTaken(name: string, taken: set<string>, below: nat) {
    forall c :: 1 <= c < below ==> Candidate(name, c) in taken
  }

  /** Pigeonhole: distinct candidates cannot outnumber the taken names. */
  lemma {:induction false} TakenOutnumber(name: string, taken: set<string>, below: nat)
    requires below >= 1 && AllTaken(name, taken, below)
    ensures below - 1 <= |taken|
    decreases below
  {
    if below == 1 {
    } else {
      var last := Candidate(name, below - 1);
      forall c | 1 <= c < below - 1 ensures Candidate(name, c) in taken - {last} {
        CandidatesDiffer(name, c, below - 1);
      }
      TakenOutnumber(name, taken - {last}, below - 1);
    }
  }

  /** `found` is the candidate with the least counter that is not taken. */
  ghost predicate IsUniqueName(name: string, taken: set<string>, found: string) {
    found !in taken &&
    exists c :: 1 <= c <= |taken| + 1 && found == Candidate(name, c) && AllTaken(name, taken, c)
  }

  ghost function FirstFree(name: string, taken: set<string>, from: nat): (found: string)
    requires from >= 1 && AllTaken(name, taken, from)
    ensures IsUniqueName(name, taken, found)
    decreases |taken| + 1 - from
  {
    TakenOutnumber(name, taken, from);
    if Candidate(name, from) in taken then
      assert AllTaken(name, taken, from + 1);
      TakenOutnumber(name, taken, from + 1);
      FirstFree(name, taken, from + 1)
    else Candidate(name, from)
  }

  /** The name the search must settle on. */
  ghost function UniqueNameOf(name: string, taken: set<string>): (found: string)
    ensures IsUniqueName(name, taken, found)
  {
    FirstFree(name, taken, 1)
  }

  /** There is only one. */
  lemma UniqueNameIsUnique(name: string, taken: set<string>, a: string, b: string)
    requires IsUniqueName(name, taken, a) && IsUniqueName(name, taken, b)
    ensures a == b
  {
    var i :| 1 <= i <= |taken| + 1 && a == Candidate(name, i) && AllTaken(name, taken, i);
    var j :| 1 <= j <= |taken| + 1 && b == Candidate(name, j) && AllTaken(name, taken, j);
  }

  /** Counting up from 1 stops, after at most one more try than there are taken names. */
  method UniqueName(name: string, taken: set<string>) returns (found: string)
    ensures found == UniqueNameOf(name, taken)
    ensures IsUniqueName(name, taken, found)
  {
    var counter := 1;
    while Candidate(name, counter) in taken
      invariant counter >= 1 && AllTaken(name, taken, counter)
      decreases |taken| + 1 - counter
    {
      assert AllTaken(name, taken, counter + 1);
      TakenOutnumber(name, taken, counter + 1);
      counter := counter + 1;
    }
    TakenOutnumber(name, taken, counter);
    found := Candidate(name, counter);
    UniqueNameIsUnique(name, taken, found, UniqueNameOf(name, taken));
  }
}
