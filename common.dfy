/** Values shared by the whole model: Go's "value or nil" and "value or error"
    results, and the functions of Go's `strings` package that the code uses. */
module Common {

  /** A Go pointer that may be nil, or a value that may be missing. */
  datatype Option<+T> = None | Some(value: T)

  /** A Go `(value, error)` pair in which exactly one side is meaningful. */
  datatype Result<+T, +E> = Ok(value: T) | Err(error: E)

  /** The outcome of decoding a JSON document into a Go value: the decoded
      value, or a decoding error. Decoding itself is not modelled. */
  datatype Json<+T> = Decoded(value: T) | Malformed

  /** strings.HasPrefix */
  predicate HasPrefix(s: string, prefix: string) {
    |prefix| <= |s| && s[..|prefix|] == prefix
  }

  /** strings.TrimPrefix: removes one leading copy of `prefix`, if present. */
  function TrimPrefix(s: string, prefix: string): (r: string)
    ensures HasPrefix(s, prefix) ==> prefix + r == s
    ensures !HasPrefix(s, prefix) ==> r == s
  {
    if HasPrefix(s, prefix) then s[|prefix|..] else s
  }

  /** unicode.IsSpace: the ASCII spaces '\t', '\n', '\v', '\f', '\r', ' ',
      then U+0085, U+00A0 and the other characters with the White_Space
      property. */
  predicate IsSpace(c: char) {
    || c == ' '
    || ('\t' <= c <= '\r')
    || c == '\U{0085}' || c == '\U{00A0}' || c == '\U{1680}'
    || ('\U{2000}' <= c <= '\U{200A}')
    || c == '\U{2028}' || c == '\U{2029}' || c == '\U{202F}'
    || c == '\U{205F}' || c == '\U{3000}'
  }

  predicate AllSpace(s: string) {
    forall i :: 0 <= i < |s| ==> IsSpace(s[i])
  }

  /** The number of white-space characters `s` starts with. */
  function LeadingSpaces(s: string): (n: nat)
    ensures n <= |s|
    ensures forall i :: 0 <= i < n ==> IsSpace(s[i])
    ensures n == |s| || !IsSpace(s[n])
  {
    if |s| > 0 && IsSpace(s[0]) then 1 + LeadingSpaces(s[1..]) else 0
  }

  /** The number of white-space characters `s` ends with. */
  function TrailingSpaces(s: string): (n: nat)
    ensures n <= |s|
    ensures forall i :: |s| - n <= i < |s| ==> IsSpace(s[i])
    ensures n == |s| || !IsSpace(s[|s| - n - 1])
  {
    if |s| > 0 && IsSpace(s[|s| - 1]) then 1 + TrailingSpaces(s[..|s| - 1]) else 0
  }

  /** strings.TrimLeftFunc(s, unicode.IsSpace) */
  function TrimLeftSpace(s: string): string {
    s[LeadingSpaces(s)..]
  }

  /** strings.TrimRightFunc(s, unicode.IsSpace) */
  function TrimRightSpace(s: string): string {
    s[..|s| - TrailingSpaces(s)]
  }

  /** strings.TrimSpace */
  function TrimSpace(s: string): string {
    TrimRightSpace(TrimLeftSpace(s))
  }

  /** strings.TrimRight with a one-character cutset: removes every trailing
      copy of `c`. */
  function TrimRightChar(s: string, c: char): (r: string)
    ensures |r| <= |s| && r == s[..|r|]
    ensures forall i :: |r| <= i < |s| ==> s[i] == c
    ensures r == [] || r[|r| - 1] != c
  {
    if |s| > 0 && s[|s| - 1] == c then TrimRightChar(s[..|s| - 1], c) else s
  }

  /** TrimSpace cuts `s` into white space, the result, and white space, and
      the result neither starts nor ends with a space. */
  lemma TrimSpaceShape(s: string)
    ensures exists i, j :: 0 <= i <= j <= |s| && TrimSpace(s) == s[i..j]
                           && AllSpace(s[..i]) && AllSpace(s[j..])
    ensures TrimSpace(s) == [] || (!IsSpace(TrimSpace(s)[0]) && !IsSpace(TrimSpace(s)[|TrimSpace(s)| - 1]))
  {
    var i := LeadingSpaces(s);
    var l := s[i..];
    var k := TrailingSpaces(l);
    var j := |s| - k;
    assert TrimSpace(s) == s[i..j];
    assert AllSpace(s[..i]) by {
      forall t | 0 <= t < i ensures IsSpace(s[..i][t]) {
        assert s[..i][t] == s[t];
      }
    }
    assert AllSpace(s[j..]) by {
      forall t | 0 <= t < k ensures IsSpace(s[j..][t]) {
        assert s[j..][t] == l[|l| - k + t];
      }
    }
    if i < j {
      assert TrimSpace(s)[0] == s[i];
      assert TrimSpace(s)[j - i - 1] == l[|l| - k - 1];
    }
  }

  /** TrimSpace yields the empty string exactly when `s` is all white space. */
  lemma TrimSpaceEmpty(s: string)
    ensures TrimSpace(s) == [] <==> AllSpace(s)
  {
    var i := LeadingSpaces(s);
    var l := s[i..];
    var k := TrailingSpaces(l);
    if AllSpace(s) {
      assert i == |s|;
    }
    assert |l| > 0 ==> l[0] == s[i];
    if TrimSpace(s) == [] {
      assert k == |l|;
    }
  }

  /** Trimming twice is trimming once. */
  lemma TrimSpaceIdempotent(s: string)
    ensures TrimSpace(TrimSpace(s)) == TrimSpace(s)
  {
    var t := TrimSpace(s);
    TrimSpaceShape(s);
    if t != [] {
      assert LeadingSpaces(t) == 0;
      assert TrimLeftSpace(t) == t;
      assert TrailingSpaces(t) == 0;
    }
  }
}
