/** Python's `str.casefold`, as far as comparisons against ASCII names need it. */
module Text {

  /**
   * Full case folding of one character. ASCII letters fold to lower case;
   * the non-ASCII characters whose folding is ASCII text are listed;
   * every other character is kept, which cannot make the folded string
   * equal to an ASCII name when its true folding also is not ASCII.
   */
  function FoldChar(c: char): string {
    if 'A' <= c <= 'Z' then [(c as int + 32) as char]
    else if c == '\U{17F}' then "s"            // LATIN SMALL LETTER LONG S
    else if c == '\U{212A}' then "k"           // KELVIN SIGN
    else if c == '\U{DF}' || c == '\U{1E9E}' then "ss"  // sharp s, capital sharp s
    else if c == '\U{FB00}' then "ff"
    else if c == '\U{FB01}' then "fi"
    else if c == '\U{FB02}' then "fl"
    else if c == '\U{FB03}' then "ffi"
    else if c == '\U{FB04}' then "ffl"
    else if c == '\U{FB05}' || c == '\U{FB06}' then "st"
    else [c]
  }

  function Casefold(s: string): string {
    if s == [] then [] else FoldChar(s[0]) + Casefold(s[1..])
  }

  /** Folding is a no-op on lower-case ASCII text such as the shape names. */
  lemma {:induction false} CasefoldLowerAscii(s: string)
    requires forall k :: 0 <= k < |s| ==> !('A' <= s[k] <= 'Z') && s[k] < '\U{80}'
    ensures Casefold(s) == s
  {
    if s != [] {
      CasefoldLowerAscii(s[1..]);
    }
  }

  /** A capitalised word over lower-case ASCII folds to its lower-case spelling. */
  lemma CasefoldCapitalised(s: string)
    requires |s| > 0 && 'A' <= s[0] <= 'Z'
    requires forall k :: 1 <= k < |s| ==> !('A' <= s[k] <= 'Z') && s[k] < '\U{80}'
    ensures Casefold(s) == [(s[0] as int + 32) as char] + s[1..]
  {
    CasefoldLowerAscii(s[1..]);
  }
}
