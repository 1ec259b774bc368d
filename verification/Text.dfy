/** JavaScript's `trim`. */
module Text {

  // White space and line terminators of the language, section 12.2 and 12.3 of ECMA-262.
  predicate IsSpace(c: char) {
    || '\t' <= c <= '\r' || c == ' ' || c == '\U{00A0}' || c == '\U{1680}' || '\U{2000}' <= c <= '\U{200A}'
    || c == '\U{2028}' || c == '\U{2029}' || c == '\U{202F}' || c == '\U{205F}' || c == '\U{3000}' || c == '\U{FEFF}'
  }

  // By code point, 25 of them.
  lemma SpaceMeans(c: char)
    ensures IsSpace(c) <==>
      var n := c as int;
      || 9 <= n <= 13 || n == 32 || n == 160 || n == 5760 || 8192 <= n <= 8202 || n == 8232 || n == 8233
      || n == 8239 || n == 8287 || n == 12288 || n == 65279
  {
  }

  function TrimStart(s: string): string {
    if s != [] && IsSpace(s[0]) then TrimStart(s[1..]) else s
  }

  function TrimEnd(s: string): string {
    if s != [] && IsSpace(s[|s| - 1]) then TrimEnd(s[..|s| - 1]) else s
  }

  function Trim(s: string): string { TrimEnd(TrimStart(s)) }

  predicate Blank(s: string) { Trim(s) == [] }

  predicate Tight(s: string) { s == [] || (!IsSpace(s[0]) && !IsSpace(s[|s| - 1])) }

  lemma {:induction false} TrimStartMeans(s: string)
    ensures var t := TrimStart(s); t == [] || !IsSpace(t[0])
    ensures s == [] || !IsSpace(s[0]) ==> TrimStart(s) == s
  {
    if s != [] { TrimStartMeans(s[1..]); }
  }

  lemma {:induction false} TrimEndMeans(s: string)
    ensures TrimEnd(s) <= s
    ensures var t := TrimEnd(s); t == [] || !IsSpace(t[|t| - 1])
    ensures s == [] || !IsSpace(s[|s| - 1]) ==> TrimEnd(s) == s
  {
    if s != [] { TrimEndMeans(s[..|s| - 1]); }
  }

  // Trimming leaves no space at either end, and changes nothing that has none.
  lemma TrimMeans(s: string)
    ensures Tight(Trim(s)) && (Trim(s) == s <==> Tight(s))
  {
    TrimStartMeans(s);
    TrimEndMeans(TrimStart(s));
    TrimEndMeans(s);
    if Trim(s) != [] { assert Trim(s)[0] == TrimStart(s)[0]; }
  }

  // Trimming takes a stretch of white space off each end and nothing else.
  lemma {:induction false} TrimEndKeeps(s: string)
    ensures var n := |TrimEnd(s)|; n <= |s| && TrimEnd(s) == s[..n] && forall k | n <= k < |s| :: IsSpace(s[k])
  {
    if s != [] && IsSpace(s[|s| - 1]) { TrimEndKeeps(s[..|s| - 1]); }
  }

  lemma {:induction false} TrimStartKeeps(s: string)
    ensures var n := |s| - |TrimStart(s)|; 0 <= n && TrimStart(s) == s[n..] && forall k | 0 <= k < n :: IsSpace(s[k])
  {
    if s != [] && IsSpace(s[0]) {
      TrimStartKeeps(s[1..]);
      var n := |s| - |TrimStart(s)|;
      assert s[1..][n - 1..] == s[n..];
      forall k | 0 <= k < n ensures IsSpace(s[k]) { if k > 0 { assert s[1..][k - 1] == s[k]; } }
    }
  }

  lemma TrimKeeps(s: string) returns (from: nat, to: nat)
    ensures from <= to <= |s| && Trim(s) == s[from..to] && Tight(s[from..to])
    ensures forall k | 0 <= k < |s| && !(from <= k < to) :: IsSpace(s[k])
  {
    TrimMeans(s);
    TrimStartKeeps(s);
    TrimEndKeeps(TrimStart(s));
    from := |s| - |TrimStart(s)|;
    to := from + |Trim(s)|;
    assert s[from..][..|Trim(s)|] == s[from..to];
    forall k | to <= k < |s| ensures IsSpace(s[k]) { assert TrimStart(s)[k - from] == s[k]; }
  }
}
