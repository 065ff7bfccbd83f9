/** The text operations the source applies to references, providers and currencies.
    Letters outside ASCII are left as they are. */
module Text {
  import opened Prelude

  predicate IsSpace(c: char) {
    c == ' ' || c == '\t' || c == '\n' || c == '\r' || c == '\U{0B}' || c == '\U{0C}'
    || '\U{1C}' <= c <= '\U{1F}'
  }

  function LowerChar(c: char): char {
    if 'A' <= c <= 'Z' then c - 'A' + 'a' else c
  }

  function UpperChar(c: char): char {
    if 'a' <= c <= 'z' then c - 'a' + 'A' else c
  }

  function Lower(s: string): string { seq(|s|, i requires 0 <= i < |s| => LowerChar(s[i])) }

  function Upper(s: string): string { seq(|s|, i requires 0 <= i < |s| => UpperChar(s[i])) }

  function StripLeft(s: string): string {
    if s != [] && IsSpace(s[0]) then StripLeft(s[1..]) else s
  }

  function StripRight(s: string): string {
    if s != [] && IsSpace(s[|s| - 1]) then StripRight(s[..|s| - 1]) else s
  }

  function Strip(s: string): string { StripRight(StripLeft(s)) }

  // A reference as the matcher compares it: trimmed, lower case, and absent when blank.
  function Normalize(value: Option<string>): Option<string> {
    if value.None? then None
    else
      var text := Strip(value.value);
      if text == "" then None else Some(Lower(text))
  }

  // ---------- what trimming and lower case are for ----------

  predicate Blank(s: string) { forall i :: 0 <= i < |s| ==> IsSpace(s[i]) }

  lemma {:induction false} StripLeftPad(pad: string, s: string)
    requires Blank(pad)
    ensures StripLeft(pad + s) == StripLeft(s)
  {
    if pad == "" {
      assert pad + s == s;
    } else {
      assert (pad + s)[1..] == pad[1..] + s;
      StripLeftPad(pad[1..], s);
    }
  }

  lemma {:induction false} StripRightPad(s: string, pad: string)
    requires Blank(pad)
    ensures StripRight(s + pad) == StripRight(s)
  {
    if pad == "" {
      assert s + pad == s;
    } else {
      assert (s + pad)[..|s + pad| - 1] == s + pad[..|pad| - 1];
      StripRightPad(s, pad[..|pad| - 1]);
    }
  }

  lemma {:induction false} StripPadRight(s: string, pad: string)
    requires Blank(pad)
    ensures Strip(s + pad) == Strip(s)
  {
    if s == "" {
      assert s + pad == pad + "" == pad;
      StripLeftPad(pad, "");
    } else if IsSpace(s[0]) {
      assert (s + pad)[1..] == s[1..] + pad;
      StripPadRight(s[1..], pad);
    } else {
      StripRightPad(s, pad);
    }
  }

  // Surrounding blanks make no difference.
  lemma StripPads(before: string, s: string, after: string)
    requires Blank(before) && Blank(after)
    ensures Strip(before + s + after) == Strip(s)
    ensures Normalize(Some(before + s + after)) == Normalize(Some(s))
  {
    StripPadRight(before + s, after);
    StripLeftPad(before, s);
  }

  lemma LowerKeepsSpace(c: char)
    ensures IsSpace(LowerChar(c)) <==> IsSpace(c)
    ensures LowerChar(LowerChar(c)) == LowerChar(c) == LowerChar(UpperChar(c))
  {
  }

  lemma {:induction false} StripLeftLower(s: string)
    ensures StripLeft(Lower(s)) == Lower(StripLeft(s))
  {
    if s != "" && IsSpace(s[0]) {
      assert Lower(s)[1..] == Lower(s[1..]);
      StripLeftLower(s[1..]);
    }
  }

  lemma {:induction false} StripRightLower(s: string)
    ensures StripRight(Lower(s)) == Lower(StripRight(s))
  {
    if s != "" && IsSpace(s[|s| - 1]) {
      assert Lower(s)[..|s| - 1] == Lower(s[..|s| - 1]);
      StripRightLower(s[..|s| - 1]);
    }
  }

  // The case of the letters makes no difference.
  lemma NormalizeIgnoresCase(a: string, b: string)
    requires Lower(a) == Lower(b)
    ensures Normalize(Some(a)) == Normalize(Some(b))
  {
    StripLeftLower(a);
    StripLeftLower(b);
    StripRightLower(StripLeft(a));
    StripRightLower(StripLeft(b));
    assert Lower(Strip(a)) == Lower(Strip(b));
    assert |Strip(a)| == |Lower(Strip(a))| && |Strip(b)| == |Lower(Strip(b))|;
  }

  lemma LowerOfUpper(s: string)
    ensures Lower(Upper(s)) == Lower(s) == Lower(Lower(s))
  {
    forall i | 0 <= i < |s| ensures LowerChar(UpperChar(s[i])) == LowerChar(s[i]) == LowerChar(LowerChar(s[i])) {
      LowerKeepsSpace(s[i]);
    }
  }

  lemma {:induction false} StripLeftExactly(s: string) returns (pad: string)
    ensures Blank(pad) && s == pad + StripLeft(s) && (StripLeft(s) != "" ==> !IsSpace(StripLeft(s)[0]))
  {
    pad := "";
    if s != "" && IsSpace(s[0]) {
      var rest := StripLeftExactly(s[1..]);
      pad := [s[0]] + rest;
      assert s == [s[0]] + s[1..];
    }
  }

  lemma {:induction false} StripRightExactly(s: string) returns (pad: string)
    ensures Blank(pad) && s == StripRight(s) + pad && StripRight(s) <= s
    ensures StripRight(s) != "" ==> !IsSpace(StripRight(s)[|StripRight(s)| - 1])
  {
    pad := "";
    if s != "" && IsSpace(s[|s| - 1]) {
      var rest := StripRightExactly(s[..|s| - 1]);
      pad := rest + [s[|s| - 1]];
      assert s == s[..|s| - 1] + [s[|s| - 1]];
    }
  }

  lemma OneLetter(c: char)
    requires !IsSpace(c)
    ensures Strip([c]) == [c] && Lower([c]) == [LowerChar(c)]
  {
    assert StripLeft([c]) == [c] && StripRight([c]) == [c];
  }

  // Trimming cuts off exactly the blanks at both ends.
  lemma StripExactly(s: string) returns (before: string, after: string)
    ensures Blank(before) && Blank(after) && s == before + Strip(s) + after
    ensures Strip(s) != "" ==> !IsSpace(Strip(s)[0]) && !IsSpace(Strip(s)[|Strip(s)| - 1])
  {
    before := StripLeftExactly(s);
    after := StripRightExactly(StripLeft(s));
  }
}
