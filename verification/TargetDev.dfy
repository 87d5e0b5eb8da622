/** The choice of a disk's target device: getNextAvailableTargetDev of internal/action/domain.go. */
module TargetDev {

  const LETTERS: string := "abcdefghijklmnopqrstuvwxyz"

  /** The n-th candidate: sda to sdz, sdza to sdzz, sdzza and so on. */
  function Name(n: nat): string { "sd" + Suffix(n) }

  function Suffix(n: nat): string {
    seq(n / 26, _ => 'z') + [LETTERS[n % 26]]
  }

  lemma LetterAt(i: nat)
    requires i < 26
    ensures LETTERS[i] as int == 'a' as int + i
  {
  }

  /** The name letter by letter: as many z as there are full rounds of the alphabet, and then the letter of this one. */
  lemma NameSpelled(n: nat)
    ensures |Name(n)| == n / 26 + 3 && Name(n)[..2] == "sd"
    ensures forall i :: 2 <= i < n / 26 + 2 ==> Name(n)[i] == 'z'
    ensures Name(n)[n / 26 + 2] as int == 'a' as int + n % 26
  {
    LetterAt(n % 26);
    assert Name(n) == "sd" + Suffix(n);
  }

  lemma LettersDiffer(i: nat, j: nat)
    requires i < 26 && j < 26 && LETTERS[i] == LETTERS[j]
    ensures i == j
  {
  }

  /** No two candidates have the same name. */
  lemma NamesDiffer(m: nat, n: nat)
    ensures Name(m) == Name(n) <==> m == n
  {
    if Name(m) == Name(n) {
      assert Suffix(m) == Name(m)[2..] && Suffix(n) == Name(n)[2..];
      assert |Suffix(m)| == m / 26 + 1 && |Suffix(n)| == n / 26 + 1;
      assert Suffix(m)[m / 26] == LETTERS[m % 26] && Suffix(n)[n / 26] == LETTERS[n % 26];
      LettersDiffer(m % 26, n % 26);
    }
  }

  /** The first `n` names take up `n` places. */
  lemma {:induction false} Pigeonhole(n: nat, used: set<string>)
    requires forall m: nat :: m < n ==> Name(m) in used
    ensures n <= |used|
    decreases n
  {
    if n > 0 {
      forall m: nat | m < n - 1
        ensures Name(m) in used - {Name(n - 1)}
      {
        NamesDiffer(m, n - 1);
        assert Name(m) in used;
      }
      Pigeonhole(n - 1, used - {Name(n - 1)});
      assert Name(n - 1) in used;
    }
  }

  /** `n` names the least unused device. */
  ghost predicate IsNext(used: seq<string>, n: nat) {
    Name(n) !in used && forall m: nat :: m < n ==> Name(m) in used
  }

  lemma NextUnique(used: seq<string>, m: nat, n: nat)
    requires IsNext(used, m) && IsNext(used, n)
    ensures m == n
  {
  }

  lemma UsedFits(n: nat, used: seq<string>)
    requires forall m: nat :: m < n ==> Name(m) in used
    ensures n <= |used|
  {
    Pigeonhole(n, set d | d in used);
    SetFits(used);
  }

  lemma {:induction false} SetFits(used: seq<string>)
    ensures |set d | d in used| <= |used|
    decreases |used|
  {
    if used == [] {
      assert (set d | d in used) == {};
    } else {
      SetFits(used[1..]);
      assert (set d | d in used) == (set d | d in used[1..]) + {used[0]};
    }
  }

  /** The position of a letter. */
  method Index(letter: char) returns (i: nat)
    requires letter in LETTERS
    ensures i < 26 && LETTERS[i] == letter
  {
    i := 0;
    while LETTERS[i] != letter
      invariant i < 26 && forall j :: 0 <= j < i ==> LETTERS[j] != letter
      decreases 26 - i
    {
      i := i + 1;
    }
  }

  /** The next candidate after the n-th: the last letter moves on, or another one is appended. */
  method Advance(id: string, ghost n: nat) returns (next: string)
    requires id == Suffix(n)
    ensures next == Suffix(n + 1)
  {
    var last := |id| - 1;
    assert last == n / 26 && id[last] == LETTERS[n % 26];
    var index := Index(id[last]);
    LettersDiffer(index, n % 26);
    if index != 25 {
      next := id[last := LETTERS[index + 1]];
      assert (n + 1) / 26 == n / 26 && (n + 1) % 26 == n % 26 + 1;
    } else {
      next := id + [LETTERS[0]];
      assert id[last] == 'z';
      assert (n + 1) / 26 == n / 26 + 1 && (n + 1) % 26 == 0;
    }
  }

  /** Tries the candidates in order; the least unused one is among the first |used| + 1. */
  method Next(used: seq<string>) returns (dev: string, tries: nat)
    ensures 0 < tries <= |used| + 1
    ensures dev == Name(tries - 1) && IsNext(used, tries - 1)
  {
    ghost var n: nat := 0;
    var id := [LETTERS[0]];
    dev, tries := "sd" + id, 1;
    while dev in used
      invariant id == Suffix(n) && dev == Name(n) && tries == n + 1
      invariant forall m: nat :: m < n ==> Name(m) in used
      invariant n <= |used|
      decreases |used| - n
    {
      UsedFits(n + 1, used);
      id := Advance(id, n);
      n, tries := n + 1, tries + 1;
      dev := "sd" + id;
    }
    UsedFits(n, used);
  }

  /** The targets handed out one after the other, starting from no disk. */
  predicate InOrder(used: seq<string>) {
    forall i :: 0 <= i < |used| ==> used[i] == Name(i)
  }

  /** Disks that came one after the other are named in order, and so stay pairwise distinct. */
  lemma OrderKept(used: seq<string>, n: nat)
    requires InOrder(used) && IsNext(used, n)
    ensures n == |used| && InOrder(used + [Name(n)])
    ensures forall i, j :: 0 <= i < j < |used| + 1 ==> (used + [Name(n)])[i] != (used + [Name(n)])[j]
  {
    forall i: nat, j: nat | i < j
      ensures Name(i) != Name(j)
    {
      NamesDiffer(i, j);
    }
    assert IsNext(used, |used|) by {
      assert forall m: nat :: m < |used| ==> used[m] == Name(m);
    }
    NextUnique(used, n, |used|);
  }
}
