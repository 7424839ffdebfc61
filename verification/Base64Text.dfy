// Which texts the base64 decoder accepts, character by character.
module Base64Text {
  import opened Wrappers
  import opened Base64

  // The characters before the first that is neither a letter nor white space, less the white space.
  function LettersIn(t: string): string {
    if t == "" then ""
    else if IsLetter(t[0]) then [t[0]] + LettersIn(t[1..])
    else if IsBlank(t[0]) then LettersIn(t[1..])
    else ""
  }

  function Stop(t: string): (i: nat)
    ensures i <= |t|
    ensures forall j | 0 <= j < i :: IsLetter(t[j]) || IsBlank(t[j])
    ensures i < |t| ==> !IsLetter(t[i]) && !IsBlank(t[i])
  {
    if t == "" || (!IsLetter(t[0]) && !IsBlank(t[0])) then 0 else 1 + Stop(t[1..])
  }

  // A text is accepted if it ends, or has an '=', after whole groups of four letters, or with the last
  // two or three of a group before the '='.
  predicate Acceptable(t: string) {
    var n, i := |LettersIn(t)|, Stop(t);
    if i == |t| then n % 4 == 0 else t[i] == '=' && n % 4 >= 2
  }

  lemma {:induction false} CodesInLetters(t: string)
    ensures |CodesIn(t)| == |LettersIn(t)|
    ensures EndOf(t) == if Stop(t) == |t| then AtEnd else if t[Stop(t)] == '=' then AtPad else AtInvalid
  {
    if t != "" {
      SymbolKinds(t[0]);
      if IsLetter(t[0]) || IsBlank(t[0]) { CodesInLetters(t[1..]); }
    }
  }

  lemma DecodedIff(t: string)
    ensures Decoded(t).Some? <==> Acceptable(t)
    ensures Decoded(t).Some? ==> |Decoded(t).value| == |LettersIn(t)| * 3 / 4
  {
    CodesInLetters(t);
  }

  lemma {:induction false} OnlyLetters(s: string, rest: string)
    requires AllLetters(s) && (rest != "" ==> !IsLetter(rest[0]) && !IsBlank(rest[0]))
    ensures LettersIn(s + rest) == s && Stop(s + rest) == |s|
  {
    if s == "" {
      assert s + rest == rest;
    } else {
      OnlyLetters(s[1..], rest);
      assert (s + rest)[1..] == s[1..] + rest;
    }
  }

  // Whole groups of four letters stand for three bytes each; one group more, of two letters and "=="
  // or three and "=", for one or two bytes.
  lemma GroupsAccepted(s: string)
    requires AllLetters(s) && |s| % 4 != 1
    ensures var pads := if |s| % 4 == 2 then "==" else if |s| % 4 == 3 then "=" else "";
            && Acceptable(s + pads) && Decoded(s + pads).Some?
            && |Decoded(s + pads).value| == |s| / 4 * 3 + (if |s| % 4 == 0 then 0 else |s| % 4 - 1)
  {
    var pads := if |s| % 4 == 2 then "==" else if |s| % 4 == 3 then "=" else "";
    OnlyLetters(s, pads);
    assert |s| % 4 != 0 ==> (s + pads)[|s|] == '=';
    DecodedIff(s + pads);
    Thirds(|s|);
  }
}
