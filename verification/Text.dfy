/** Python's notion of white space, stripping and joining. */
module Text {
  predicate IsSpace(c: char) {
    var n := c as int;
    || 0x09 <= n <= 0x0D || 0x1C <= n <= 0x20 || n == 0x85 || n == 0xA0 || n == 0x1680
    || 0x2000 <= n <= 0x200A || n == 0x2028 || n == 0x2029 || n == 0x202F || n == 0x205F || n == 0x3000
  }

  predicate IsBlank(s: string) {
    forall i :: 0 <= i < |s| ==> IsSpace(s[i])
  }

  function LStrip(s: string): string {
    if s == "" || !IsSpace(s[0]) then s else LStrip(s[1..])
  }

  function RStrip(s: string): string {
    if s == "" || !IsSpace(s[|s| - 1]) then s else RStrip(s[..|s| - 1])
  }

  function Strip(s: string): string {
    RStrip(LStrip(s))
  }

  function Concat<T>(parts: seq<seq<T>>): seq<T> {
    if parts == [] then [] else Concat(parts[..|parts| - 1]) + parts[|parts| - 1]
  }

  /** Stripping removes white space at that end, and all of it. */
  lemma {:induction false} LStripParts(s: string)
    ensures var r := LStrip(s);
            |r| <= |s| && r == s[|s| - |r|..] && IsBlank(s[..|s| - |r|]) && (r == "" || !IsSpace(r[0]))
  {
    if s != "" && IsSpace(s[0]) {
      LStripParts(s[1..]);
      var r := LStrip(s);
      assert s[..|s| - |r|] == [s[0]] + s[1..][..|s| - 1 - |r|];
    }
  }

  lemma {:induction false} RStripParts(s: string)
    ensures var r := RStrip(s);
            |r| <= |s| && r == s[..|r|] && IsBlank(s[|r|..]) && (r == "" || !IsSpace(r[|r| - 1]))
  {
    if s != "" && IsSpace(s[|s| - 1]) {
      RStripParts(s[..|s| - 1]);
      var r := RStrip(s);
      assert s[|r|..] == s[..|s| - 1][|r|..] + [s[|s| - 1]];
    }
  }

  /** More text never changes what has been stripped in front. */
  lemma {:induction false} LStripExtends(s: string, t: string)
    ensures LStrip(s) != "" ==> LStrip(s + t) == LStrip(s) + t
    ensures LStrip(s) == "" ==> LStrip(s + t) == LStrip(t)
  {
    if s == "" {
      assert s + t == t;
    } else if IsSpace(s[0]) {
      LStripExtends(s[1..], t);
      assert (s + t)[1..] == s[1..] + t;
    }
  }

  lemma {:induction false} BlankStrips(s: string)
    ensures IsBlank(s) <==> LStrip(s) == ""
    ensures IsBlank(s) <==> Strip(s) == ""
  {
    LStripParts(s);
    RStripParts(LStrip(s));
    var r := LStrip(s);
    if r != "" {
      assert s[|s| - |r|] == r[0] && r[0..] == r;
    }
  }

  /** The printing characters of a text. */
  function Ink(s: string): string {
    if s == "" then ""
    else Ink(s[..|s| - 1]) + if IsSpace(s[|s| - 1]) then "" else [s[|s| - 1]]
  }

  lemma {:induction false} InkConcat(a: string, b: string)
    ensures Ink(a + b) == Ink(a) + Ink(b)
  {
    if b == "" {
      assert a + b == a;
    } else {
      assert (a + b)[..|a + b| - 1] == a + b[..|b| - 1];
      InkConcat(a, b[..|b| - 1]);
    }
  }

  lemma {:induction false} InkBlank(s: string)
    ensures IsBlank(s) <==> Ink(s) == ""
  {
    if s != "" {
      var n := |s| - 1;
      InkBlank(s[..n]);
      assert s == s[..n] + [s[n]];
      if IsBlank(s) {
        assert IsBlank(s[..n]);
      }
    }
  }

  lemma {:induction false} InkStrip(s: string)
    ensures Ink(Strip(s)) == Ink(s)
  {
    hide Ink, LStrip, RStrip, IsBlank;
    var l := LStrip(s);
    var r := RStrip(l);
    LStripParts(s);
    RStripParts(l);
    var before, after := s[..|s| - |l|], l[|r|..];
    InkBlank(before);
    InkBlank(after);
    InkConcat(before, l);
    InkConcat(r, after);
    assert s == before + l && l == r + after;
  }
}
