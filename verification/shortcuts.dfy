/** Random shortcut generation (internal/service/links_service.go:162-171; the legacy service
    at internal/service/linksService.go:59-70 runs the same code). The random source
    `rand.Intn(52)` is a parameter. */
module Shortcuts {

  /** The alphabet of generated shortcuts, "abc…xyzABC…XYZ": a to z, then A to Z. */
  const Letters: string :=
    seq(52, i requires 0 <= i < 52 =>
      if i < 26 then ('a' as int + i) as char else ('A' as int + (i - 26)) as char)

  /** A value of rand.Intn(len(letters)). */
  type LetterIndex = i: nat | i < 52

  predicate IsLetter(c: char)
  {
    'a' <= c <= 'z' || 'A' <= c <= 'Z'
  }

  /** The shortcut of length `length` spelled by generation g of the random source, where
      `rng(g, i)` is the index drawn for position i. */
  function ShortcutFrom(length: nat, rng: (nat, nat) -> LetterIndex, g: nat): string
  {
    if length == 0 then [] else ShortcutFrom(length - 1, rng, g) + [Letters[rng(g, length - 1)]]
  }

  /** Every shortcut has exactly the requested length, its i-th character is the letter drawn
      for position i, and it consists of ASCII letters only. */
  lemma {:induction false} ShortcutShape(length: nat, rng: (nat, nat) -> LetterIndex, g: nat)
    ensures |ShortcutFrom(length, rng, g)| == length
    ensures forall i | 0 <= i < length :: ShortcutFrom(length, rng, g)[i] == Letters[rng(g, i)]
    ensures forall i | 0 <= i < length :: IsLetter(ShortcutFrom(length, rng, g)[i])
  {
    if length > 0 {
      ShortcutShape(length - 1, rng, g);
    }
  }

  /** generateShortcut: fills a rune buffer of the requested length with drawn letters. */
  method GenerateShortcut(length: nat, rng: (nat, nat) -> LetterIndex, g: nat) returns (s: string)
    ensures s == ShortcutFrom(length, rng, g)
  {
    var result := new char[length];
    for i := 0 to length
      invariant result[..i] == ShortcutFrom(i, rng, g)
    {
      result[i] := Letters[rng(g, i)];
      assert result[..i + 1] == result[..i] + [result[i]];
    }
    s := result[..];
  }
}
