// The string operations that the configuration reader is built on.
module ConfText {

  const BLANKS := " \t"
  const BRACKETS := "[]"

  // s without the characters of ws at both ends.
  function Trim(s: string, ws: string): string {
    if s == "" then ""
    else if s[0] in ws then Trim(s[1..], ws)
    else if s[|s| - 1] in ws then Trim(s[..|s| - 1], ws)
    else s
  }

  ghost predicate Trimmed(s: string, ws: string) {
    s != "" ==> s[0] !in ws && s[|s| - 1] !in ws
  }

  // Trim cuts a middle piece out of s, all of whose ends it drops.
  lemma {:induction false} TrimMiddle(s: string, ws: string) returns (i: nat, j: nat)
    ensures i <= j <= |s| && Trim(s, ws) == s[i..j] && Trimmed(s[i..j], ws)
    ensures forall k | 0 <= k < |s| && !(i <= k < j) :: s[k] in ws
  {
    if s == "" {
      i, j := 0, 0;
    } else if s[0] in ws {
      i, j := TrimMiddle(s[1..], ws);
      assert s[1..][i..j] == s[i + 1..j + 1];
      forall k | 0 <= k < |s| && !(i + 1 <= k < j + 1) ensures s[k] in ws {
        if k > 0 { assert s[1..][k - 1] == s[k]; }
      }
      i, j := i + 1, j + 1;
    } else if s[|s| - 1] in ws {
      i, j := TrimMiddle(s[..|s| - 1], ws);
      assert s[..|s| - 1][i..j] == s[i..j];
      forall k | 0 <= k < |s| && !(i <= k < j) ensures s[k] in ws {
        if k < |s| - 1 { assert s[..|s| - 1][k] == s[k]; }
      }
    } else {
      i, j := 0, |s|;
    }
  }

  lemma {:induction false} TrimLead(s: string, ws: string, n: nat)
    requires n <= |s| && forall k | 0 <= k < n :: s[k] in ws
    ensures Trim(s, ws) == Trim(s[n..], ws)
    decreases n
  {
    if n > 0 {
      assert s[1..][n - 1..] == s[n..];
      TrimLead(s[1..], ws, n - 1);
    }
  }

  lemma {:induction false} TrimTail(s: string, ws: string, n: nat)
    requires n <= |s| && forall k | n <= k < |s| :: s[k] in ws
    requires n > 0 ==> s[0] !in ws
    ensures Trim(s, ws) == Trim(s[..n], ws)
    decreases |s| - n
  {
    if n == |s| {
      assert s[..n] == s;
    } else if n == 0 {
      TrimLead(s, ws, |s|);
      assert s[|s|..] == s[..0];
    } else {
      assert s[..|s| - 1][..n] == s[..n];
      TrimTail(s[..|s| - 1], ws, n);
    }
  }

  // ConfNull::trimstring.
  method TrimString(s: string, ws: string) returns (r: string)
    ensures r == Trim(s, ws)
  {
    // find_first_not_of
    var pos := 0;
    while pos < |s| && s[pos] in ws
      invariant pos <= |s| && forall k | 0 <= k < pos :: s[k] in ws
    {
      pos := pos + 1;
    }
    TrimLead(s, ws, pos);
    if pos == |s| {
      return "";
    }
    r := s[pos..];
    // find_last_not_of
    var last := |r|;
    while last > 0 && r[last - 1] in ws
      invariant 0 <= last <= |r| && forall k | last <= k < |r| :: r[k] in ws
    {
      last := last - 1;
    }
    assert r[0] == s[pos];
    TrimTail(r, ws, last);
    r := r[..last];
  }

  // Where c first occurs in s, or |s|.
  function IndexOf(s: string, c: char): (i: nat)
    ensures i <= |s|
    ensures c !in s[..i]
    ensures i < |s| ==> s[i] == c
  {
    if s == "" || s[0] == c then 0 else 1 + IndexOf(s[1..], c)
  }

  lemma {:induction false} IndexAt(s: string, c: char, i: nat)
    requires i < |s| && s[i] == c && c !in s[..i]
    ensures IndexOf(s, c) == i
  {
    if i > 0 {
      assert s[..i][0] == s[0];
      assert s[1..][..i - 1] == s[..i][1..];
      IndexAt(s[1..], c, i - 1);
    }
  }

  lemma IndexNone(s: string, c: char)
    requires c !in s
    ensures IndexOf(s, c) == |s|
  {
  }
}
