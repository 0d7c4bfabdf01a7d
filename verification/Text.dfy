/** The string operations the services rely on. */
module Text {
  import opened Base

  /** White space as Go's unicode.IsSpace defines it. */
  predicate IsSpace(c: char) {
    || '\t' <= c <= '\r'
    || c == ' '
    || c == '\U{85}' || c == '\U{A0}' || c == '\U{1680}'
    || '\U{2000}' <= c <= '\U{200A}'
    || c == '\U{2028}' || c == '\U{2029}' || c == '\U{202F}' || c == '\U{205F}' || c == '\U{3000}'
  }

  /** strings.TrimSpace. */
  function Trim(s: string): (r: string)
    ensures r != "" ==> !IsSpace(r[0]) && !IsSpace(r[|r| - 1])
    ensures |r| <= |s|
  {
    if s != "" && IsSpace(s[0]) then Trim(s[1..])
    else if s != "" && IsSpace(s[|s| - 1]) then Trim(s[..|s| - 1])
    else s
  }

  /** No white space at either end. */
  predicate Trimmed(s: string) {
    s != "" ==> !IsSpace(s[0]) && !IsSpace(s[|s| - 1])
  }

  /** These are exactly the texts that trimming leaves alone. */
  lemma TrimmedIffFixed(s: string)
    ensures Trimmed(s) <==> Trim(s) == s
  {
  }

  /** Trimming finds the longest slice with no white space at either end, and nothing else is dropped. */
  lemma {:induction false} TrimIsSlice(s: string) returns (i: nat, j: nat)
    ensures i <= j <= |s| && Trim(s) == s[i..j]
    ensures forall k :: 0 <= k < i || j <= k < |s| ==> IsSpace(s[k])
  {
    if s != "" && IsSpace(s[0]) {
      var t := s[1..];
      var a, b := TrimIsSlice(t);
      i, j := a + 1, b + 1;
      assert forall k :: 1 <= k < |s| ==> s[k] == t[k - 1];
    } else if s != "" && IsSpace(s[|s| - 1]) {
      var t := s[..|s| - 1];
      i, j := TrimIsSlice(t);
      assert forall k :: 0 <= k < |s| - 1 ==> s[k] == t[k];
    } else {
      i, j := 0, |s|;
    }
  }

  /** nullString: blank becomes NULL, anything else is stored trimmed. */
  function NullString(s: string): (r: Option<string>)
    ensures r.Some? ==> r.value != "" && Trimmed(r.value)
  {
    var t := Trim(s);
    if t == "" then None else Some(t)
  }

  predicate Blank(s: string) {
    forall i :: 0 <= i < |s| ==> IsSpace(s[i])
  }

  /**
    Exactly blank texts become NULL; of any other, what is stored is a slice, and only white space around it is lost.
  */
  lemma StoredOrNull(s: string) returns (i: nat, j: nat)
    ensures NullString(s).None? <==> Blank(s)
    ensures i <= j <= |s| && (NullString(s).Some? ==> NullString(s).value == s[i..j])
    ensures forall k :: 0 <= k < i || j <= k < |s| ==> IsSpace(s[k])
  {
    i, j := TrimIsSlice(s);
    if i < j {
      assert s[i] == Trim(s)[0];
    }
  }

  lemma BlankIffTrimmedAway(s: string)
    ensures Blank(s) <==> Trim(s) == ""
  {
    var i, j := StoredOrNull(s);
  }

  function LowerChar(c: char): char {
    if 'A' <= c <= 'Z' then c - 'A' + 'a' else c
  }

  function UpperChar(c: char): char {
    if 'a' <= c <= 'z' then c - 'a' + 'A' else c
  }

  function Lower(s: string): (r: string)
    ensures |r| == |s| && forall i :: 0 <= i < |s| ==> r[i] == LowerChar(s[i])
  {
    seq(|s|, i requires 0 <= i < |s| => LowerChar(s[i]))
  }

  function Upper(s: string): (r: string)
    ensures |r| == |s| && forall i :: 0 <= i < |s| ==> r[i] == UpperChar(s[i])
  {
    seq(|s|, i requires 0 <= i < |s| => UpperChar(s[i]))
  }

  /** Go's len of a string counts UTF-8 bytes. */
  function ByteLength(s: string): nat {
    if s == "" then 0
    else
      (if s[0] < '\U{80}' then 1 else if s[0] < '\U{800}' then 2 else if s[0] < '\U{10000}' then 3 else 4)
      + ByteLength(s[1..])
  }

  const CAPITALS := "ABCDEFGHIJKLMNOPQRSTUVWXYZ"
  const SMALL := "abcdefghijklmnopqrstuvwxyz"

  /** Capitals become the small letter in the same place of the alphabet; everything else is left alone. */
  lemma LowersCapitals(c: char)
    ensures forall k :: 0 <= k < 26 ==> LowerChar(CAPITALS[k]) == SMALL[k]
    ensures c !in CAPITALS ==> LowerChar(c) == c
  {
    if 'A' <= c <= 'Z' {
      assert CAPITALS[(c - 'A') as int] == c;
    }
  }

  /** And the other way round. */
  lemma RaisesSmall(c: char)
    ensures forall k :: 0 <= k < 26 ==> UpperChar(SMALL[k]) == CAPITALS[k]
    ensures c !in SMALL ==> UpperChar(c) == c
  {
    if 'a' <= c <= 'z' {
      assert SMALL[(c - 'a') as int] == c;
    }
  }

  /** A text is as long in bytes as in characters exactly when it is plain ASCII; otherwise it is longer. */
  lemma {:induction false} BytesOfAscii(s: string)
    ensures |s| <= ByteLength(s) <= 4 * |s|
    ensures ByteLength(s) == |s| <==> forall k :: 0 <= k < |s| ==> s[k] < '\U{80}'
  {
    if s == "" {
    } else {
      BytesOfAscii(s[1..]);
      assert forall k :: 1 <= k < |s| ==> s[k] == s[1..][k - 1];
    }
  }
}
