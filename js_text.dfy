/** `String.prototype.trim`, which both widgets apply to the compose text
    before deciding whether there is anything to send. */
module JsText {

  /** The characters ECMAScript's trim removes: WhiteSpace (tab, vertical
      tab, form feed, space, no-break space, byte order mark and every
      other Unicode "Zs" space separator) and LineTerminator (line feed,
      carriage return, line separator, paragraph separator). */
  predicate IsWhiteSpace(c: char) {
    || c == '\U{0009}' || c == '\U{000B}' || c == '\U{000C}' || c == '\U{0020}'
    || c == '\U{00A0}' || c == '\U{FEFF}' || c == '\U{1680}'
    || ('\U{2000}' <= c <= '\U{200A}')
    || c == '\U{202F}' || c == '\U{205F}' || c == '\U{3000}'
    || c == '\U{000A}' || c == '\U{000D}' || c == '\U{2028}' || c == '\U{2029}'
  }

  predicate AllWhiteSpace(s: string) {
    forall i :: 0 <= i < |s| ==> IsWhiteSpace(s[i])
  }

  /** Drops leading white space: the result is the suffix of `s` that
      starts at its first other character. */
  function TrimStart(s: string): (r: string)
    ensures |r| <= |s| && r == s[|s| - |r|..]
    ensures forall k :: 0 <= k < |s| - |r| ==> IsWhiteSpace(s[k])
    ensures r == [] || !IsWhiteSpace(r[0])
  {
    if s != [] && IsWhiteSpace(s[0]) then TrimStart(s[1..]) else s
  }

  /** Drops trailing white space: the result is the prefix of `s` that
      ends at its last other character. */
  function TrimEnd(s: string): (r: string)
    ensures |r| <= |s| && r == s[..|r|]
    ensures forall k :: |r| <= k < |s| ==> IsWhiteSpace(s[k])
    ensures r == [] || !IsWhiteSpace(r[|r| - 1])
  {
    if s != [] && IsWhiteSpace(s[|s| - 1]) then TrimEnd(s[..|s| - 1]) else s
  }

  /** `s` with white space removed from both ends. */
  function Trim(s: string): (r: string)
    ensures |r| <= |s|
    ensures r == [] || (!IsWhiteSpace(r[0]) && !IsWhiteSpace(r[|r| - 1]))
  {
    TrimEnd(TrimStart(s))
  }

  /** `s[i..j]` is what is left of `s` once white space is cut from both
      ends. */
  ghost predicate IsTrimOf(s: string, i: nat, j: nat) {
    && i <= j <= |s|
    && (forall k :: 0 <= k < i ==> IsWhiteSpace(s[k]))
    && (forall k :: j <= k < |s| ==> IsWhiteSpace(s[k]))
    && (i < j ==> !IsWhiteSpace(s[i]) && !IsWhiteSpace(s[j - 1]))
    && (i == j ==> AllWhiteSpace(s))
  }

  /** A string that starts with a character trim keeps is never trimmed
      away entirely. */
  lemma TrimEndKeepsFirst(t: string)
    requires t == [] || !IsWhiteSpace(t[0])
    ensures TrimEnd(t) == [] ==> t == []
  {
  }

  /** Trim cuts exactly the leading and trailing white space: it returns
      the slice that IsTrimOf describes. */
  lemma TrimIsSlice(s: string) returns (i: nat, j: nat)
    ensures IsTrimOf(s, i, j) && Trim(s) == s[i..j]
  {
    var t := TrimStart(s);
    var u := TrimEnd(t);
    i := |s| - |t|;
    j := i + |u|;
    assert t == s[i..] && u == t[..|u|];
    assert u == s[i..j] by {
      assert s[i..j] == s[i..][..|u|];
    }
    assert forall k :: 0 <= k < i ==> IsWhiteSpace(s[k]);
    forall k | j <= k < |s|
      ensures IsWhiteSpace(s[k])
    {
      assert s[k] == t[k - i];
    }
    if i < j {
      assert s[i] == u[0] && s[j - 1] == u[|u| - 1];
    } else {
      TrimEndKeepsFirst(t);
      assert i == |s|;
    }
  }

  /** The slice IsTrimOf describes is unique, so IsTrimOf is an
      independent definition of Trim. */
  lemma TrimOfUnique(s: string, i: nat, j: nat, i': nat, j': nat)
    requires IsTrimOf(s, i, j) && IsTrimOf(s, i', j')
    ensures s[i..j] == s[i'..j']
  {
  }

  /** The compose text counts as empty exactly when it is all white
      space. */
  lemma TrimEmptyIff(s: string)
    ensures Trim(s) == [] <==> AllWhiteSpace(s)
  {
    var i, j := TrimIsSlice(s);
  }

  /** Trimming twice is trimming once. */
  lemma TrimIdempotent(s: string)
    ensures Trim(Trim(s)) == Trim(s)
  {
    var t := Trim(s);
    if t != [] {
      assert IsTrimOf(t, 0, |t|);
      var i, j := TrimIsSlice(t);
      TrimOfUnique(t, i, j, 0, |t|);
      assert t[0..|t|] == t;
    }
  }
}
