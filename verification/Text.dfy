/** Character classes of JavaScript's regular expressions, and ASCII letter case. */
module Text {

  /** The characters JavaScript's `\s` matches. */
  predicate IsSpace(c: char)
  {
    var k := c as int;
    || 9 <= k <= 13 || k == 0x20 || k == 0xA0 || k == 0x1680 || 0x2000 <= k <= 0x200A
    || k == 0x2028 || k == 0x2029 || k == 0x202F || k == 0x205F || k == 0x3000 || k == 0xFEFF
  }

  /** White space and line terminators, one by one (sections 12.2 and 12.3 of ECMA-262). */
  lemma SpacesListed(c: char)
    ensures IsSpace(c) <==>
              c in {'\t', '\n', '\U{0B}', '\U{0C}', '\r', ' ', '\U{A0}', '\U{1680}', '\U{2000}', '\U{2001}', '\U{2002}',
                    '\U{2003}', '\U{2004}', '\U{2005}', '\U{2006}', '\U{2007}', '\U{2008}', '\U{2009}', '\U{200A}',
                    '\U{2028}', '\U{2029}', '\U{202F}', '\U{205F}', '\U{3000}', '\U{FEFF}'}
  {
  }

  function Upper(c: char): (u: char)
    ensures !('a' <= u <= 'z')
    ensures !('a' <= c <= 'z') ==> u == c
  {
    if 'a' <= c <= 'z' then c - 'a' + 'A' else c
  }

  function Lower(c: char): (l: char)
    ensures !('A' <= l <= 'Z')
    ensures !('A' <= c <= 'Z') ==> l == c
  {
    if 'A' <= c <= 'Z' then c - 'A' + 'a' else c
  }

  /** Each letter's two cases belong together, and only they. */
  lemma CasesMatch(c: char, d: char)
    ensures Upper(Lower(c)) == Upper(c) && Lower(Upper(c)) == Lower(c)
    ensures Lower(c) == Lower(d) <==> Upper(c) == Upper(d)
    ensures 'a' <= c <= 'z' ==> Upper(c) as int - 'A' as int == c as int - 'a' as int
    ensures 'A' <= c <= 'Z' ==> Lower(c) as int - 'a' as int == c as int - 'A' as int
  {
  }
}
