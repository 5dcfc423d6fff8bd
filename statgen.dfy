// The deterministic stat generator (services/geminiService.ts): a 32-bit string hash
// of the first 100 characters of the portrait, and stats derived from it by remainders.
module StatGen {
  import opened Types

  const Two31: int := 0x8000_0000
  const Two32: int := 0x1_0000_0000

  predicate IsInt32(x: int) { -Two31 <= x < Two31 }

  /** ECMAScript ToInt32 of an integral number: the representative of x modulo 2^32
      in [-2^31, 2^31). */
  function ToInt32(x: int): (r: int)
    ensures IsInt32(r)
    ensures (x - r) % Two32 == 0
  {
    var m := x % Two32;
    if m >= Two31 then m - Two32 else m
  }

  /** `x << 5`: the operand is converted with ToInt32 and the shifted bits wrap. */
  function ShiftLeft5(x: int): int { ToInt32(ToInt32(x) * 32) }

  /** `x & x`: a bitwise operator, so it only applies ToInt32. */
  function AndSelf(x: int): int { ToInt32(x) }

  /** One pass of the loop body: `hash = ((hash << 5) - hash) + char; hash = hash & hash`.
      The subtraction and addition happen on doubles, exactly, since all values stay far
      below 2^53. */
  function Step(hash: int, c: char): int
  {
    AndSelf((ShiftLeft5(hash) - hash) + (c as int))
  }

  /** The value of `hash` once the loop has consumed all of s. */
  function Fold(s: string): (h: int)
    ensures IsInt32(h)
  {
    if s == [] then 0 else Step(Fold(s[..|s| - 1]), s[|s| - 1])
  }

  function Abs(x: int): int { if x < 0 then -x else x }

  /** hashString(s): `Math.abs` of the folded value. */
  function HashOf(s: string): (h: int)
    ensures 0 <= h <= Two31
    ensures s == [] ==> h == 0
  {
    Abs(Fold(s))
  }

  /** Java's String.hashCode polynomial without wrap-around: sum of s[i] * 31^(n-1-i). */
  function Poly(s: string): int
  {
    if s == [] then 0 else 31 * Poly(s[..|s| - 1]) + (s[|s| - 1] as int)
  }

  lemma {:induction false} ResidueShift(y: int, q: int)
    ensures (y + Two32 * q) % Two32 == y % Two32
  {
    var r := y % Two32;
    var d := y / Two32;
    assert y == Two32 * d + r;
    assert y + Two32 * q == Two32 * (d + q) + r;
  }

  /** ToInt32 only depends on the residue modulo 2^32. */
  lemma SameResidue(x: int, y: int)
    requires (x - y) % Two32 == 0
    ensures ToInt32(x) == ToInt32(y)
  {
    var q := (x - y) / Two32;
    assert x == y + Two32 * q;
    ResidueShift(y, q);
  }

  /** The as-written loop body is the Java recurrence `ToInt32(31 * hash + char)`. */
  lemma StepIsJavaRecurrence(hash: int, c: char)
    requires IsInt32(hash)
    ensures Step(hash, c) == ToInt32(31 * hash + (c as int))
  {
    var inner := ToInt32(hash);
    assert inner == hash by {
      SameResidue(hash, hash);
      assert hash % Two32 == (if hash >= 0 then hash else hash + Two32) by {
        if hash < 0 { ResidueShift(hash, 1); }
      }
    }
    var shifted := ToInt32(hash * 32);
    var q := (hash * 32 - shifted) / Two32;
    assert hash * 32 == shifted + Two32 * q;
    var sum := (shifted - hash) + (c as int);
    assert (31 * hash + (c as int)) - sum == Two32 * q;
    ResidueShift(0, q);
    SameResidue(31 * hash + (c as int), sum);
  }

  /** The loop computes Java's String.hashCode: the polynomial hash reduced to 32 bits. */
  lemma {:induction false} FoldIsJavaHashCode(s: string)
    ensures Fold(s) == ToInt32(Poly(s))
  {
    if s != [] {
      var p := s[..|s| - 1];
      var c := s[|s| - 1];
      FoldIsJavaHashCode(p);
      StepIsJavaRecurrence(Fold(p), c);
      var q := (Poly(p) - ToInt32(Poly(p))) / Two32;
      assert Poly(p) == ToInt32(Poly(p)) + Two32 * q;
      assert (31 * Poly(p) + (c as int)) - (31 * Fold(p) + (c as int)) == Two32 * (31 * q);
      ResidueShift(0, 31 * q);
      SameResidue(31 * Poly(p) + (c as int), 31 * Fold(p) + (c as int));
    }
  }

  /** hashString: the loop over the characters, then Math.abs. */
  method HashString(str: string) returns (h: int)
    ensures h == HashOf(str)
    ensures 0 <= h <= Two31
    ensures h == Abs(ToInt32(Poly(str)))
  {
    var hash := 0;
    var i := 0;
    while i < |str|
      invariant 0 <= i <= |str|
      invariant hash == Fold(str[..i])
    {
      var code := str[i] as int;
      hash := (ShiftLeft5(hash) - hash) + code;
      hash := AndSelf(hash);
      assert str[..i + 1][..i] == str[..i];
      i := i + 1;
    }
    assert str[..|str|] == str;
    FoldIsJavaHashCode(str);
    h := Abs(hash);
  }

  const Titles: seq<string> := ["The Destroyer", "The Honoured One", "King of Curses", "The Prodigy",
                                "Shadow Hunter", "Divine General", "The Immortal"]
  const Descriptions: seq<string> := [
    "Possesses an aura that distorts reality.",
    "A warrior from a forgotten timeline.",
    "Standing at the pinnacle of strength.",
    "Eyes that see through all techniques.",
    "Fueled by pure chaotic energy."]
  const Quotes: seq<string> := [
    "You are weak.",
    "Throughout heaven and earth, I alone am the honoured one.",
    "Let's curse each other to death.",
    "Nah, I'd win.",
    "Show me what you've got."]

  /** `s.substring(0, 100)`. */
  function Prefix100(s: string): (p: string)
    ensures |p| <= 100 && p <= s
    ensures |s| <= 100 ==> p == s
  {
    if |s| <= 100 then s else s[..100]
  }

  lemma DoubledSeedResidue(seed: nat)
    ensures (seed * 2) % 6 in {0, 2, 4}
  {
    var r := seed % 3;
    assert seed == 3 * (seed / 3) + r;
    assert seed * 2 == 6 * (seed / 3) + 2 * r;
  }

  /** generateStats: every stat is a remainder of the seed, so each lies in a fixed range
      and every table index is in bounds. */
  function GenerateStats(img: string, defaultName: string): (st: FighterStats)
    ensures 120.0 <= st.hp <= 200.0 && st.hp == st.hp.Floor as real
    ensures 5 <= st.speed <= 10
    ensures st.power in {5, 7, 9}
    ensures st.name == defaultName && st.specialMove == "Signature Move"
    ensures st.title in Titles && st.description in Descriptions && st.quote in Quotes
  {
    var seed := HashOf(Prefix100(img));
    DoubledSeedResidue(seed);
    FighterStats(
      name := defaultName,
      title := Titles[seed % |Titles|],
      description := Descriptions[seed % |Descriptions|],
      hp := (120 + seed % 81) as real,
      speed := 5 + seed % 6,
      power := 5 + (seed * 2) % 6,
      specialMove := "Signature Move",
      quote := Quotes[seed % |Quotes|])
  }

  /** Only the first 100 characters of the portrait matter. */
  lemma SamePrefixSameStats(a: string, b: string, name: string)
    requires |a| >= 100 && |b| >= 100 && a[..100] == b[..100]
    ensures GenerateStats(a, name) == GenerateStats(b, name)
  {
    assert Prefix100(a) == a[..100] == b[..100] == Prefix100(b);
  }

  /** analyzeFighters without its 800 ms delay. */
  function AnalyzeFighters(image1: string, image2: string): (r: (FighterStats, FighterStats))
    ensures r.0 == GenerateStats(image1, "Player 1") && r.0.name == "Player 1"
    ensures r.1 == GenerateStats(image2, "Player 2") && r.1.name == "Player 2"
  {
    (GenerateStats(image1, "Player 1"), GenerateStats(image2, "Player 2"))
  }
}
