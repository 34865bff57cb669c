/**
 * The email repair every route applies before matching a person: lower-case,
 * trim, then four end-anchored replacements of common misspellings of ".com"
 * (`.replace(/\.con$/, '.com')` and so on, applied in this order).
 */
module EmailNormalizer {
  import opened Text

  /** `s.replace(/<typo>$/, '.com')`: the typo at the very end becomes ".com". */
  function RepairSuffix(s: string, typo: string): string {
    if EndsWith(s, typo) then s[..|s| - |typo|] + ".com" else s
  }

  /** The value of `email` after each of the four replacement lines, starting from `t`. */
  function RepairStages(t: string): (st: seq<string>)
    ensures |st| == 5
  {
    var s1 := RepairSuffix(t, ".con");
    var s2 := RepairSuffix(s1, ".comp");
    var s3 := RepairSuffix(s2, ".como");
    var s4 := RepairSuffix(s3, ".vom");
    [t, s1, s2, s3, s4]
  }

  /** The address after lower-casing and trimming, before any repair. */
  function Canonical(raw: string): string {
    Trim(Lower(raw))
  }

  function Normalize(raw: string): string {
    RepairStages(Canonical(raw))[4]
  }

  predicate HasTypo(s: string) {
    EndsWith(s, ".con") || EndsWith(s, ".comp") || EndsWith(s, ".como") || EndsWith(s, ".vom")
  }

  /** How many of the four replacements matched the value they were applied to. */
  function RewritesFired(raw: string): nat {
    var st := RepairStages(Canonical(raw));
    (if EndsWith(st[0], ".con") then 1 else 0) + (if EndsWith(st[1], ".comp") then 1 else 0)
    + (if EndsWith(st[2], ".como") then 1 else 0) + (if EndsWith(st[3], ".vom") then 1 else 0)
  }

  lemma EndsWithChar(s: string, suffix: string, k: nat)
    requires k < |suffix|
    ensures EndsWith(s, suffix) ==> s[|s| - |suffix| + k] == suffix[k]
  {
    if EndsWith(s, suffix) {
      assert s[|s| - |suffix|..][k] == suffix[k];
    }
  }

  /** The four typo suffixes exclude one another: their last two characters all differ. */
  lemma TyposExclusive(s: string)
    ensures EndsWith(s, ".con") ==> !EndsWith(s, ".comp") && !EndsWith(s, ".como") && !EndsWith(s, ".vom")
    ensures EndsWith(s, ".comp") ==> !EndsWith(s, ".como") && !EndsWith(s, ".vom")
    ensures EndsWith(s, ".como") ==> !EndsWith(s, ".vom")
  {
    EndsWithChar(s, ".con", 3);
    EndsWithChar(s, ".comp", 4);
    EndsWithChar(s, ".como", 4);
    EndsWithChar(s, ".vom", 3);
  }

  /** A string ending in ".com" ends in none of the four typos. */
  lemma DotComHasNoTypo(p: string)
    ensures !HasTypo(p + ".com")
  {
    var s := p + ".com";
    assert s[|s| - 1] == 'm' && s[|s| - 3] == 'c';
    EndsWithChar(s, ".con", 3);
    EndsWithChar(s, ".comp", 4);
    EndsWithChar(s, ".como", 4);
    EndsWithChar(s, ".vom", 1);
  }

  lemma LowerConcat(a: string, b: string)
    requires IsLower(a) && IsLower(b)
    ensures IsLower(a + b)
  {
  }

  /**
   * What the four replacements do to a string: one ending in a typo has that
   * suffix replaced by ".com", any other is left as it is; at most one fires.
   */
  lemma RepairCases(t: string)
    ensures var r := RepairStages(t)[4];
      && (EndsWith(t, ".con") ==> r == t[..|t| - 4] + ".com")
      && (EndsWith(t, ".comp") ==> r == t[..|t| - 5] + ".com")
      && (EndsWith(t, ".como") ==> r == t[..|t| - 5] + ".com")
      && (EndsWith(t, ".vom") ==> r == t[..|t| - 4] + ".com")
      && (!HasTypo(t) ==> r == t)
    ensures var st := RepairStages(t);
      (if EndsWith(st[0], ".con") then 1 else 0) + (if EndsWith(st[1], ".comp") then 1 else 0)
      + (if EndsWith(st[2], ".como") then 1 else 0) + (if EndsWith(st[3], ".vom") then 1 else 0) <= 1
  {
    TyposExclusive(t);
    if EndsWith(t, ".con") {
      DotComHasNoTypo(t[..|t| - 4]);
    } else if EndsWith(t, ".comp") {
      DotComHasNoTypo(t[..|t| - 5]);
    } else if EndsWith(t, ".como") {
      DotComHasNoTypo(t[..|t| - 5]);
    } else if EndsWith(t, ".vom") {
      DotComHasNoTypo(t[..|t| - 4]);
    }
  }

  /**
   * Normalisation replaces a typo at the end of the trimmed, lower-cased address
   * by ".com" and otherwise returns that address unchanged.
   */
  lemma NormalizeCases(raw: string)
    ensures var t := Canonical(raw);
      && (EndsWith(t, ".con") ==> Normalize(raw) == t[..|t| - 4] + ".com")
      && (EndsWith(t, ".comp") ==> Normalize(raw) == t[..|t| - 5] + ".com")
      && (EndsWith(t, ".como") ==> Normalize(raw) == t[..|t| - 5] + ".com")
      && (EndsWith(t, ".vom") ==> Normalize(raw) == t[..|t| - 4] + ".com")
      && (!HasTypo(t) ==> Normalize(raw) == t)
  {
    RepairCases(Canonical(raw));
  }

  /** At most one of the four replacements fires. */
  lemma AtMostOneRewrite(raw: string)
    ensures RewritesFired(raw) <= 1
  {
    RepairCases(Canonical(raw));
  }

  lemma DotComShape(t: string, k: nat)
    requires IsLower(t) && IsTrimmed(t) && k <= |t|
    ensures var r := t[..|t| - k] + ".com"; IsLower(r) && IsTrimmed(r) && !HasTypo(r)
  {
    var p := t[..|t| - k];
    var r := p + ".com";
    DotComHasNoTypo(p);
    assert IsLower(p);
    LowerConcat(p, ".com");
    assert r[|r| - 1] == 'm';
    assert r[0] == if |p| == 0 then '.' else t[0];
  }

  /** Repairing a lower-case, trimmed string keeps it so, and leaves no typo at its end. */
  lemma RepairShape(t: string)
    requires IsLower(t) && IsTrimmed(t)
    ensures var r := RepairStages(t)[4]; IsLower(r) && IsTrimmed(r) && !HasTypo(r)
  {
    var r := RepairStages(t)[4];
    if EndsWith(t, ".con") {
      assert r == t[..|t| - 4] + ".com" by { RepairCases(t); }
      DotComShape(t, 4);
    } else if EndsWith(t, ".comp") {
      assert r == t[..|t| - 5] + ".com" by { RepairCases(t); }
      DotComShape(t, 5);
    } else if EndsWith(t, ".como") {
      assert r == t[..|t| - 5] + ".com" by { RepairCases(t); }
      DotComShape(t, 5);
    } else if EndsWith(t, ".vom") {
      assert r == t[..|t| - 4] + ".com" by { RepairCases(t); }
      DotComShape(t, 4);
    } else {
      assert r == t by { RepairCases(t); }
    }
  }

  /** The result is lower-case, trimmed, and ends in none of the typos. */
  lemma NormalizedShape(raw: string)
    ensures IsLower(Normalize(raw))
    ensures IsTrimmed(Normalize(raw))
    ensures !HasTypo(Normalize(raw))
  {
    LowerIsLower(raw);
    RepairShape(Canonical(raw));
  }

  lemma CanonicalFixed(r: string)
    requires IsLower(r) && IsTrimmed(r)
    ensures Canonical(r) == r
  {
    LowerOfLowerIsFixed(r);
    TrimmedIsFixed(r);
  }

  /** Normalising twice is the same as normalising once. */
  lemma Idempotent(raw: string)
    ensures Normalize(Normalize(raw)) == Normalize(raw)
  {
    var r := Normalize(raw);
    NormalizedShape(raw);
    CanonicalFixed(r);
    RepairCases(r);
  }
}
