/** The `java.lang.String` operations the services rely on, over `seq<char>`. */
module Text {

  /** `Character.isWhitespace`: the Unicode space, line and paragraph separators
      other than the no-break spaces, plus the ASCII controls tab..carriage return
      and the four information separators U+001C..U+001F. */
  predicate IsWhitespace(c: char) {
    || c == ' '
    || ('\t' <= c <= '\r')
    || ('\U{1C}' <= c <= '\U{1F}')
    || c == '\U{1680}'
    || ('\U{2000}' <= c <= '\U{2006}')
    || ('\U{2008}' <= c <= '\U{200A}')
    || c == '\U{2028}' || c == '\U{2029}' || c == '\U{205F}' || c == '\U{3000}'
  }

  /** `String.isBlank`: empty or whitespace only. */
  predicate IsBlank(s: string) {
    forall i :: 0 <= i < |s| ==> IsWhitespace(s[i])
  }

  /** `String.trim` drops every leading character at or below U+0020. */
  function TrimStart(s: string): (r: string)
    ensures |r| <= |s| && r == s[|s| - |r|..]
    ensures forall k :: 0 <= k < |s| - |r| ==> s[k] <= ' '
    ensures r != [] ==> r[0] > ' '
  {
    if s != [] && s[0] <= ' ' then TrimStart(s[1..]) else s
  }

  /** `String.trim` drops every trailing character at or below U+0020. */
  function TrimEnd(s: string): (r: string)
    ensures |r| <= |s| && r == s[..|r|]
    ensures forall k :: |r| <= k < |s| ==> s[k] <= ' '
    ensures r != [] ==> r[|r| - 1] > ' '
  {
    if s != [] && s[|s| - 1] <= ' ' then TrimEnd(s[..|s| - 1]) else s
  }

  /** `r` occurs in `s` at offset `i`. */
  ghost predicate SliceAt(s: string, r: string, i: int) {
    0 <= i <= |s| - |r| && r == s[i..i + |r|]
  }

  /** `String.trim`: a slice of `s` whose two ends are above U+0020, empty
      exactly when every character of `s` is at or below U+0020. */
  function Trim(s: string): (r: string)
    ensures exists i :: SliceAt(s, r, i)
    ensures r != [] ==> r[0] > ' ' && r[|r| - 1] > ' '
    ensures r == [] <==> forall k :: 0 <= k < |s| ==> s[k] <= ' '
  {
    var t := TrimStart(s);
    var r := TrimEnd(t);
    assert r == s[|s| - |t|..][..|r|];
    assert SliceAt(s, r, |s| - |t|);
    r
  }

  /** `s.split("\n")` before Java drops trailing empty pieces: the maximal
      newline-free pieces, in order; there is always at least one. */
  function Pieces(s: string): (r: seq<string>)
    ensures |r| >= 1
  {
    if s == [] then [""]
    else
      var rest := Pieces(s[1..]);
      if s[0] == '\n' then [""] + rest else [[s[0]] + rest[0]] + rest[1..]
  }

  /** No piece contains the separator. */
  lemma {:induction false} PiecesHaveNoNewline(s: string)
    ensures forall i, k :: 0 <= i < |Pieces(s)| && 0 <= k < |Pieces(s)[i]| ==> Pieces(s)[i][k] != '\n'
  {
    if s != [] {
      PiecesHaveNoNewline(s[1..]);
    }
  }

  /** Splitting a non-blank text yields at least one non-blank piece: a
      non-whitespace character is never the newline separator. */
  lemma {:induction false} NonBlankHasNonBlankPiece(s: string)
    requires !IsBlank(s)
    ensures exists i :: 0 <= i < |Pieces(s)| && !IsBlank(Pieces(s)[i])
  {
    var rest := Pieces(s[1..]);
    if !IsWhitespace(s[0]) {
      assert !IsBlank(Pieces(s)[0]) by { assert Pieces(s)[0][0] == s[0]; }
    } else {
      assert !IsBlank(s[1..]) by {
        var k :| 0 <= k < |s| && !IsWhitespace(s[k]);
        assert k > 0 && s[1..][k - 1] == s[k];
      }
      NonBlankHasNonBlankPiece(s[1..]);
      var i :| 0 <= i < |rest| && !IsBlank(rest[i]);
      if s[0] == '\n' {
        assert Pieces(s)[i + 1] == rest[i];
      } else if i == 0 {
        var k :| 0 <= k < |rest[0]| && !IsWhitespace(rest[0][k]);
        assert Pieces(s)[0][k + 1] == rest[0][k];
      } else {
        assert Pieces(s)[i] == rest[i];
      }
    }
  }

  function DigitChar(d: nat): char
    requires d < 10
  {
    "0123456789"[d]
  }

  /** `String.valueOf` on a non-negative integer: its decimal digits. */
  function NatToString(n: nat): (r: string)
    ensures |r| >= 1
    ensures forall k :: 0 <= k < |r| ==> '0' <= r[k] <= '9'
  {
    if n < 10 then [DigitChar(n)] else NatToString(n / 10) + [DigitChar(n % 10)]
  }

  /** `String.valueOf` on an integer. */
  function IntToString(n: int): (r: string)
    ensures r != [] && !IsBlank(r)
  {
    if n < 0 then
      var r := "-" + NatToString(-n);
      assert !IsWhitespace(r[0]);
      r
    else
      var d := NatToString(n);
      assert !IsWhitespace(d[0]);
      d
  }

  /** The integer a string of decimal digits denotes. */
  function DigitsValue(s: string): (v: nat)
    requires forall k :: 0 <= k < |s| ==> '0' <= s[k] <= '9'
  {
    if s == [] then 0 else DigitsValue(s[..|s| - 1]) * 10 + (s[|s| - 1] as int - '0' as int)
  }
}
