/** Trimming of user supplied text, as strings.TrimSpace does it. */
module Text {

  // The code points with the Unicode property White_Space.
  predicate IsSpace(c: char) {
    '\t' <= c <= '\r' || c == ' ' || c == '\U{0085}' || c == '\U{00A0}' || c == '\U{1680}' ||
    '\U{2000}' <= c <= '\U{200A}' || c == '\U{2028}' || c == '\U{2029}' || c == '\U{202F}' ||
    c == '\U{205F}' || c == '\U{3000}'
  }

  predicate Trimmed(s: string) {
    |s| > 0 ==> !IsSpace(s[0]) && !IsSpace(s[|s| - 1])
  }

  /* The longest part of s without a space at either end. */
  function TrimSpace(s: string): (t: string)
    ensures Trimmed(t)
  {
    if s == "" then s
    else if IsSpace(s[0]) then TrimSpace(s[1..])
    else if IsSpace(s[|s| - 1]) then TrimSpace(s[..|s| - 1])
    else s
  }

  /* What is trimmed away at either end are spaces. */
  lemma {:induction false} TrimSpaceCuts(s: string) returns (from: nat, upto: nat)
    ensures from <= upto <= |s| && TrimSpace(s) == s[from..upto]
    ensures forall i :: 0 <= i < from || upto <= i < |s| ==> IsSpace(s[i])
  {
    from, upto := 0, |s|;
    if s != "" && IsSpace(s[0]) {
      from, upto := TrimSpaceCuts(s[1..]);
      from, upto := from + 1, upto + 1;
      assert s[1..][from - 1..upto - 1] == s[from..upto];
      forall i | 0 < i < from || upto <= i < |s| ensures IsSpace(s[i]) {
        assert s[1..][i - 1] == s[i];
      }
    } else if s != "" && IsSpace(s[|s| - 1]) {
      from, upto := TrimSpaceCuts(s[..|s| - 1]);
      assert s[..|s| - 1][from..upto] == s[from..upto];
      forall i | 0 <= i < from || upto <= i < |s| - 1 ensures IsSpace(s[i]) {
        assert s[..|s| - 1][i] == s[i];
      }
    }
  }

  lemma {:induction false} TrimSpaceEmpty(s: string)
    ensures TrimSpace(s) == "" <==> forall i :: 0 <= i < |s| ==> IsSpace(s[i])
  {
    var from, upto := TrimSpaceCuts(s);
    if from < upto {
      assert TrimSpace(s)[0] == s[from];
    }
  }

  lemma {:induction false} TrimIdempotent(s: string)
    ensures TrimSpace(TrimSpace(s)) == TrimSpace(s)
  {}
}
