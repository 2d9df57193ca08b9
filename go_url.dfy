/** `url.QueryUnescape` from Go's `net/url` package: "+" becomes a space and
    "%XY" becomes the byte with hexadecimal value XY; a '%' that is not
    followed by two hexadecimal digits is an error. Bytes are modelled as
    characters below 256. */
module Url {

  import opened Wrappers

  predicate IsHex(c: char) {
    ('0' <= c <= '9') || ('a' <= c <= 'f') || ('A' <= c <= 'F')
  }

  function HexValue(c: char): (v: nat)
    requires IsHex(c)
    ensures v < 16
  {
    if '0' <= c <= '9' then (c as int) - ('0' as int)
    else if 'a' <= c <= 'f' then (c as int) - ('a' as int) + 10
    else (c as int) - ('A' as int) + 10
  }

  /** Position `i` holds a '%' that does not start a well-formed escape. */
  predicate BadEscapeAt(s: string, i: int)
    requires 0 <= i < |s|
  {
    s[i] == '%' && !(i + 2 < |s| && IsHex(s[i + 1]) && IsHex(s[i + 2]))
  }

  function QueryUnescape(s: string): (r: Option<string>)
    decreases |s|
  {
    if s == [] then Some([])
    else if s[0] == '%' then
      if 2 < |s| && IsHex(s[1]) && IsHex(s[2]) then
        match QueryUnescape(s[3..])
        case None => None
        case Some(rest) => Some([(HexValue(s[1]) * 16 + HexValue(s[2])) as char] + rest)
      else None
    else
      match QueryUnescape(s[1..])
      case None => None
      case Some(rest) => Some([if s[0] == '+' then ' ' else s[0]] + rest)
  }

  /** Unescaping fails exactly when some '%' does not start a well-formed
      escape. */
  lemma {:induction false} QueryUnescapeFailsIffBadEscape(s: string)
    ensures QueryUnescape(s).None? <==> exists i :: 0 <= i < |s| && BadEscapeAt(s, i)
    decreases |s|
  {
    if s == [] {
    } else if s[0] == '%' {
      if 2 < |s| && IsHex(s[1]) && IsHex(s[2]) {
        var t := s[3..];
        QueryUnescapeFailsIffBadEscape(t);
        if exists j :: 0 <= j < |t| && BadEscapeAt(t, j) {
          var j :| 0 <= j < |t| && BadEscapeAt(t, j);
          assert BadEscapeAt(s, j + 3);
        }
        if exists i :: 0 <= i < |s| && BadEscapeAt(s, i) {
          var i :| 0 <= i < |s| && BadEscapeAt(s, i);
          assert 3 <= i;
          assert BadEscapeAt(t, i - 3);
        }
      } else {
        assert BadEscapeAt(s, 0);
      }
    } else {
      var t := s[1..];
      QueryUnescapeFailsIffBadEscape(t);
      if exists j :: 0 <= j < |t| && BadEscapeAt(t, j) {
        var j :| 0 <= j < |t| && BadEscapeAt(t, j);
        assert BadEscapeAt(s, j + 1);
      }
      if exists i :: 0 <= i < |s| && BadEscapeAt(s, i) {
        var i :| 0 <= i < |s| && BadEscapeAt(s, i);
        assert BadEscapeAt(t, i - 1);
      }
    }
  }

  /** A value with no '%' and no '+' unescapes to itself. */
  lemma {:induction false} QueryUnescapePlain(s: string)
    requires forall i :: 0 <= i < |s| ==> s[i] != '%' && s[i] != '+'
    ensures QueryUnescape(s) == Some(s)
    decreases |s|
  {
    if s != [] {
      QueryUnescapePlain(s[1..]);
      assert [s[0]] + s[1..] == s;
    }
  }
}
