/** Rune-level text helpers shared by the splitter and the compactor. */
module Text {

  /** The four characters SplitMessage skips between chunks. */
  predicate IsBlank(c: char) {
    c == ' ' || c == '\t' || c == '\n' || c == '\r'
  }

  /** White space in the sense of Go's unicode.IsSpace, which strings.TrimSpace uses. */
  predicate IsSpace(c: char) {
    var n := c as int;
    9 <= n <= 13 || n == 32 || n == 0x85 || n == 0xA0 || n == 0x1680 || 0x2000 <= n <= 0x200A
    || n == 0x2028 || n == 0x2029 || n == 0x202F || n == 0x205F || n == 0x3000
  }

  /** The first index of [lo, hi) whose rune is not trimmed, or hi. */
  function TrimStart(s: string, lo: int, hi: int, p: char -> bool): (r: int)
    requires 0 <= lo <= hi <= |s|
    ensures lo <= r <= hi && (r == hi || !p(s[r]))
    ensures forall i :: lo <= i < r ==> p(s[i])
    decreases hi - lo
  {
    if lo < hi && p(s[lo]) then TrimStart(s, lo + 1, hi, p) else lo
  }

  /** The end of s[lo..hi) once its trailing runes in `p` are cut off. */
  function TrimEnd(s: string, lo: int, hi: int, p: char -> bool): (r: int)
    requires 0 <= lo <= hi <= |s|
    ensures lo <= r <= hi && (r == lo || !p(s[r - 1]))
    ensures forall i :: r <= i < hi ==> p(s[i])
    decreases hi - lo
  {
    if lo < hi && p(s[hi - 1]) then TrimEnd(s, lo, hi - 1, p) else hi
  }

  lemma TrimEndIs(s: string, lo: int, hi: int, p: char -> bool, r: int)
    requires 0 <= lo < r <= hi <= |s| && !p(s[r - 1])
    requires forall i :: r <= i < hi ==> p(s[i])
    ensures TrimEnd(s, lo, hi, p) == r
  {
  }

  function TrimRight(s: string, p: char -> bool): string {
    s[..TrimEnd(s, 0, |s|, p)]
  }

  function TrimSpace(s: string): string {
    TrimRight(s[TrimStart(s, 0, |s|, IsSpace)..], IsSpace)
  }

  /** The text without its white space. */
  function Strip(s: string): (r: string) {
    if s == [] then [] else (if IsSpace(s[0]) then [] else [s[0]]) + Strip(s[1..])
  }

  lemma {:induction false} StripConcat(s: string, t: string)
    ensures Strip(s + t) == Strip(s) + Strip(t)
  {
    if s == [] {
      assert s + t == t;
    } else {
      StripConcat(s[1..], t);
      var first := if IsSpace(s[0]) then [] else [s[0]];
      assert (s + t)[1..] == s[1..] + t;
      assert Strip(s + t) == first + Strip(s[1..] + t);
      assert first + (Strip(s[1..]) + Strip(t)) == (first + Strip(s[1..])) + Strip(t);
    }
  }

  lemma {:induction false} StripOfSpace(s: string)
    requires forall i :: 0 <= i < |s| ==> IsSpace(s[i])
    ensures Strip(s) == []
  {
    if s != [] {
      StripOfSpace(s[1..]);
    }
  }

  /** Trimming at the end by any part of white space does not change the stripped text. */
  lemma StripTrimRight(s: string, p: char -> bool)
    requires forall c :: p(c) ==> IsSpace(c)
    ensures Strip(TrimRight(s, p)) == Strip(s)
  {
    var e := TrimEnd(s, 0, |s|, p);
    assert s == s[..e] + s[e..];
    StripConcat(s[..e], s[e..]);
    StripOfSpace(s[e..]);
  }

  lemma StripTrimSpace(s: string)
    ensures Strip(TrimSpace(s)) == Strip(s)
  {
    var b := TrimStart(s, 0, |s|, IsSpace);
    assert s == s[..b] + s[b..];
    StripConcat(s[..b], s[b..]);
    StripOfSpace(s[..b]);
    StripTrimRight(s[b..], IsSpace);
  }

  /** The concatenation of a list of texts. */
  function Flatten(parts: seq<string>): string {
    if parts == [] then "" else parts[0] + Flatten(parts[1..])
  }

  lemma FlattenCons(part: string, parts: seq<string>)
    ensures Flatten([part] + parts) == part + Flatten(parts)
  {
    assert ([part] + parts)[1..] == parts;
  }
}
