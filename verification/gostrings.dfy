/** The few pieces of Go's `strings` and `fmt` packages that the workflow
    runner relies on: white-space trimming, splitting into fields and the
    decimal rendering of step numbers.

    The functions carry no postconditions of their own; what they compute is
    stated by the lemmas beside them, which callers invoke where they need
    them. */
module GoStrings {

  /** Go's `unicode.IsSpace`: the Latin-1 spaces plus the other code points
      with the Unicode White_Space property. */
  predicate IsSpace(c: char) {
    var n := c as int;
    (0x09 <= n <= 0x0D) || n == 0x20 || n == 0x85 || n == 0xA0
    || n == 0x1680 || (0x2000 <= n <= 0x200A) || n == 0x2028 || n == 0x2029
    || n == 0x202F || n == 0x205F || n == 0x3000
  }

  predicate AllSpace(s: string) {
    forall i :: 0 <= i < |s| ==> IsSpace(s[i])
  }

  predicate NoSpace(s: string) {
    forall i :: 0 <= i < |s| ==> !IsSpace(s[i])
  }

  /** The characters of `s` that are not white space, in order. */
  function RemoveSpaces(s: string): string {
    if s == [] then []
    else if IsSpace(s[0]) then RemoveSpaces(s[1..])
    else [s[0]] + RemoveSpaces(s[1..])
  }

  lemma {:induction false} RemoveSpacesAppend(a: string, b: string)
    ensures RemoveSpaces(a + b) == RemoveSpaces(a) + RemoveSpaces(b)
  {
    if a == [] {
      assert a + b == b;
    } else {
      assert (a + b)[1..] == a[1..] + b;
      RemoveSpacesAppend(a[1..], b);
    }
  }

  lemma {:induction false} RemoveSpacesOfAllSpace(s: string)
    requires AllSpace(s)
    ensures RemoveSpaces(s) == []
  {
    if s != [] {
      RemoveSpacesOfAllSpace(s[1..]);
    }
  }

  lemma {:induction false} RemoveSpacesOfNoSpace(s: string)
    requires NoSpace(s)
    ensures RemoveSpaces(s) == s
  {
    if s != [] {
      RemoveSpacesOfNoSpace(s[1..]);
    }
  }

  // ---------------------------------------------------------------------
  // strings.TrimSpace

  /** Drops the leading white space. */
  function TrimLeft(s: string): string {
    if s != [] && IsSpace(s[0]) then TrimLeft(s[1..]) else s
  }

  /** Drops the trailing white space. */
  function TrimRight(s: string): string {
    if s != [] && IsSpace(s[|s| - 1]) then TrimRight(s[..|s| - 1]) else s
  }

  /** Go's `strings.TrimSpace`. */
  function TrimSpace(s: string): string {
    TrimRight(TrimLeft(s))
  }

  /** `TrimLeft` removes a prefix made only of white space, up to the first
      character that is not. */
  lemma {:induction false} TrimLeftSpec(s: string)
    ensures |TrimLeft(s)| <= |s| && TrimLeft(s) == s[|s| - |TrimLeft(s)|..]
    ensures AllSpace(s[..|s| - |TrimLeft(s)|])
    ensures TrimLeft(s) == [] || !IsSpace(TrimLeft(s)[0])
  {
    if s != [] && IsSpace(s[0]) {
      TrimLeftSpec(s[1..]);
      var r := TrimLeft(s);
      var pre := s[..|s| - |r|];
      forall i | 0 <= i < |pre|
        ensures IsSpace(pre[i])
      {
        if i > 0 {
          assert pre[i] == s[1..][..|s| - 1 - |r|][i - 1];
        }
      }
    }
  }

  /** `TrimRight` removes a suffix made only of white space, back to the last
      character that is not. */
  lemma {:induction false} TrimRightSpec(s: string)
    ensures |TrimRight(s)| <= |s| && TrimRight(s) == s[..|TrimRight(s)|]
    ensures AllSpace(s[|TrimRight(s)|..])
    ensures TrimRight(s) == [] || !IsSpace(TrimRight(s)[|TrimRight(s)| - 1])
  {
    if s != [] && IsSpace(s[|s| - 1]) {
      TrimRightSpec(s[..|s| - 1]);
      var r := TrimRight(s);
      var post := s[|r|..];
      forall i | 0 <= i < |post|
        ensures IsSpace(post[i])
      {
        if i < |post| - 1 {
          assert post[i] == s[..|s| - 1][|r|..][i];
        }
      }
    }
  }

  lemma TrimLeftKeepsContent(s: string)
    ensures RemoveSpaces(TrimLeft(s)) == RemoveSpaces(s)
  {
    TrimLeftSpec(s);
    var t := TrimLeft(s);
    var pre := s[..|s| - |t|];
    assert s == pre + t;
    RemoveSpacesOfAllSpace(pre);
    RemoveSpacesAppend(pre, t);
  }

  lemma TrimRightKeepsContent(s: string)
    ensures RemoveSpaces(TrimRight(s)) == RemoveSpaces(s)
  {
    TrimRightSpec(s);
    var t := TrimRight(s);
    var post := s[|t|..];
    assert s == t + post;
    RemoveSpacesOfAllSpace(post);
    RemoveSpacesAppend(t, post);
  }

  /** Trimming removes white space from the two ends and nothing else: the
      result is a contiguous slice of the input between an all-space prefix
      and an all-space suffix. It has no white space at either end, keeps
      every character that is not white space, and is empty exactly for an
      all-space input. */
  lemma TrimSpaceSpec(s: string)
    ensures var t := TrimSpace(s);
      exists i :: 0 <= i && i + |t| <= |s| && t == s[i..i + |t|] && AllSpace(s[..i]) && AllSpace(s[i + |t|..])
    ensures TrimSpace(s) == [] || (!IsSpace(TrimSpace(s)[0]) && !IsSpace(TrimSpace(s)[|TrimSpace(s)| - 1]))
    ensures RemoveSpaces(TrimSpace(s)) == RemoveSpaces(s)
    ensures TrimSpace(s) == [] <==> AllSpace(s)
  {
    var l := TrimLeft(s);
    var r := TrimRight(l);
    TrimLeftSpec(s);
    TrimRightSpec(l);
    var i := |s| - |l|;
    assert r == s[i..i + |r|];
    assert s[i + |r|..] == l[|r|..];
    TrimLeftKeepsContent(s);
    TrimRightKeepsContent(l);
    if r != [] {
      assert r[0] == l[0];
    } else if l != [] {
      assert false;
    } else {
      assert s[..|s|] == s;
    }
  }

  // ---------------------------------------------------------------------
  // strings.Fields

  /** The longest prefix of `s` that holds no white space. */
  function Word(s: string): string {
    if s == [] || IsSpace(s[0]) then [] else [s[0]] + Word(s[1..])
  }

  lemma {:induction false} WordSpec(s: string)
    ensures |Word(s)| <= |s| && Word(s) == s[..|Word(s)|]
    ensures NoSpace(Word(s))
    ensures |Word(s)| == |s| || IsSpace(s[|Word(s)|])
  {
    if s != [] && !IsSpace(s[0]) {
      WordSpec(s[1..]);
    }
  }

  /** Go's `strings.Fields`: the maximal runs of non-space characters. */
  function Fields(s: string): seq<string>
    decreases |s|
  {
    TrimLeftSpec(s);
    var t := TrimLeft(s);
    if t == [] then []
    else
      WordSpec(t);
      var w := Word(t);
      [w] + Fields(t[|w|..])
  }

  function Concat(ws: seq<string>): string {
    if ws == [] then [] else ws[0] + Concat(ws[1..])
  }

  /** No field is empty and no field holds white space. */
  lemma {:induction false} FieldsAreWords(s: string)
    ensures forall i :: 0 <= i < |Fields(s)| ==> Fields(s)[i] != [] && NoSpace(Fields(s)[i])
    decreases |s|
  {
    TrimLeftSpec(s);
    var t := TrimLeft(s);
    if t != [] {
      WordSpec(t);
      var w := Word(t);
      FieldsAreWords(t[|w|..]);
    }
  }

  lemma ConcatCons(w: string, ws: seq<string>)
    ensures Concat([w] + ws) == w + Concat(ws)
  {
    assert ([w] + ws)[1..] == ws;
  }

  /** A word followed by the rest loses only the white space of the rest. */
  lemma WordKeepsContent(t: string)
    ensures |Word(t)| <= |t| && RemoveSpaces(t) == Word(t) + RemoveSpaces(t[|Word(t)|..])
  {
    WordSpec(t);
    var w := Word(t);
    assert t == w + t[|w|..];
    RemoveSpacesAppend(w, t[|w|..]);
    RemoveSpacesOfNoSpace(w);
  }

  /** Splitting into fields loses nothing but white space. */
  lemma {:induction false} FieldsKeepContent(s: string)
    ensures Concat(Fields(s)) == RemoveSpaces(s)
    decreases |s|
  {
    TrimLeftSpec(s);
    TrimLeftKeepsContent(s);
    var t := TrimLeft(s);
    if t != [] {
      WordSpec(t);
      var w := Word(t);
      var rest := t[|w|..];
      FieldsKeepContent(rest);
      WordKeepsContent(t);
      ConcatCons(w, Fields(rest));
    }
  }

  /** `seps[0] + ws[0] + seps[1] + ws[1] + ... + seps[|ws|]`. */
  function Interleave(seps: seq<string>, ws: seq<string>): string
    requires |seps| == |ws| + 1
    decreases |ws|
  {
    if ws == [] then seps[0] else seps[0] + ws[0] + Interleave(seps[1..], ws[1..])
  }

  /** `s` is the words `ws` separated by the runs of white space `seps`:
      the words are non-empty and hold no white space, and the separators
      between two words are non-empty (the first and the last may be
      empty). */
  predicate SplitsInto(s: string, ws: seq<string>, seps: seq<string>) {
    && |seps| == |ws| + 1
    && (forall i :: 0 <= i < |ws| ==> ws[i] != [] && NoSpace(ws[i]))
    && (forall i :: 0 <= i < |seps| ==> AllSpace(seps[i]))
    && (forall i :: 0 < i < |ws| ==> seps[i] != [])
    && s == Interleave(seps, ws)
  }

  /** The runs of white space around and between the fields of `s`. */
  function Gaps(s: string): seq<string>
    decreases |s|
  {
    TrimLeftSpec(s);
    var t := TrimLeft(s);
    var lead := s[..|s| - |t|];
    if t == [] then [lead]
    else
      WordSpec(t);
      [lead] + Gaps(t[|Word(t)|..])
  }

  /** White space in front of a string that does not start with it is what
      `TrimLeft` removes. */
  lemma {:induction false} TrimLeftOfSpaces(p: string, t: string)
    requires AllSpace(p) && (t == [] || !IsSpace(t[0]))
    ensures TrimLeft(p + t) == t
  {
    if p != [] {
      assert (p + t)[1..] == p[1..] + t;
      TrimLeftOfSpaces(p[1..], t);
    } else {
      assert p + t == t;
    }
  }

  /** A word followed by nothing or by white space is what `Word` takes. */
  lemma {:induction false} WordOfWord(w: string, r: string)
    requires NoSpace(w) && (r == [] || IsSpace(r[0]))
    ensures Word(w + r) == w
  {
    if w != [] {
      assert (w + r)[1..] == w[1..] + r;
      WordOfWord(w[1..], r);
    } else {
      assert w + r == r;
    }
  }

  /** A word with white space in front of it, put before a split string
      whose first separator is non-empty, splits the same way. */
  lemma SplitsCons(lead: string, w: string, rest: string, ws: seq<string>, seps: seq<string>)
    requires SplitsInto(rest, ws, seps)
    requires AllSpace(lead) && w != [] && NoSpace(w)
    requires ws != [] ==> seps[0] != []
    ensures SplitsInto(lead + w + rest, [w] + ws, [lead] + seps)
  {
    var ws', seps' := [w] + ws, [lead] + seps;
    assert ws'[1..] == ws && seps'[1..] == seps;
    forall i | 0 < i < |ws'|
      ensures seps'[i] != []
    {
      assert seps'[i] == seps[i - 1];
    }
    forall i | 0 <= i < |ws'|
      ensures ws'[i] != [] && NoSpace(ws'[i])
    {
      if i > 0 {
        assert ws'[i] == ws[i - 1];
      }
    }
    forall i | 0 <= i < |seps'|
      ensures AllSpace(seps'[i])
    {
      if i > 0 {
        assert seps'[i] == seps[i - 1];
      }
    }
  }

  /** One step of `Fields` and `Gaps`: the leading white space, the first
      word and the rest. */
  lemma FieldsStep(s: string, lead: string, w: string, rest: string)
    requires TrimLeft(s) != [] && |TrimLeft(s)| <= |s| && lead == s[..|s| - |TrimLeft(s)|]
    requires w == Word(TrimLeft(s)) && |w| <= |TrimLeft(s)| && rest == TrimLeft(s)[|w|..]
    ensures Fields(s) == [w] + Fields(rest) && Gaps(s) == [lead] + Gaps(rest)
    ensures s == lead + w + rest
  {
    TrimLeftSpec(s);
    WordSpec(TrimLeft(s));
    assert s == lead + TrimLeft(s);
    assert TrimLeft(s) == w + rest;
  }

  /** A string that starts with white space has a non-empty first gap. */
  lemma GapsStartWithSpace(s: string)
    requires s != [] && IsSpace(s[0])
    ensures Gaps(s) != [] && Gaps(s)[0] != []
  {
    TrimLeftSpec(s);
  }

  /** Every string is its fields separated by its gaps. */
  lemma {:induction false} FieldsSplit(s: string)
    ensures SplitsInto(s, Fields(s), Gaps(s))
    decreases |s|
  {
    TrimLeftSpec(s);
    var t := TrimLeft(s);
    var lead := s[..|s| - |t|];
    if t == [] {
      assert s == lead;
      assert Fields(s) == [] && Gaps(s) == [lead];
    } else {
      WordSpec(t);
      var w := Word(t);
      var rest := t[|w|..];
      FieldsStep(s, lead, w, rest);
      FieldsSplit(rest);
      if rest != [] {
        // The rest starts with the white space that ended the word.
        GapsStartWithSpace(rest);
      }
      SplitsCons(lead, w, rest, Fields(rest), Gaps(rest));
    }
  }

  /** The fields are the only way to split a string into words separated by
      white space: any such split has exactly the fields as its words. */
  lemma {:induction false} FieldsUnique(s: string, ws: seq<string>, seps: seq<string>)
    requires SplitsInto(s, ws, seps)
    ensures ws == Fields(s)
    decreases |ws|
  {
    if ws == [] {
      TrimLeftOfSpaces(seps[0], []);
      assert seps[0] + [] == seps[0];
    } else {
      var rest := Interleave(seps[1..], ws[1..]);
      assert s == seps[0] + (ws[0] + rest);
      TrimLeftOfSpaces(seps[0], ws[0] + rest);
      assert rest == seps[1] + (if ws[1..] == [] then [] else ws[1] + Interleave(seps[2..], ws[2..]));
      WordOfWord(ws[0], rest);
      assert (ws[0] + rest)[|ws[0]|..] == rest;
      assert SplitsInto(rest, ws[1..], seps[1..]) by {
        forall i | 0 < i < |ws[1..]|
          ensures seps[1..][i] != []
        {
          assert seps[1..][i] == seps[i + 1];
        }
      }
      FieldsUnique(rest, ws[1..], seps[1..]);
    }
  }

  // ---------------------------------------------------------------------
  // fmt.Sprintf("%d", n)

  function DigitChar(d: nat): char
    requires d < 10
  {
    (('0' as int) + d) as char
  }

  predicate IsDecimal(s: string) {
    forall i :: 0 <= i < |s| ==> '0' <= s[i] <= '9'
  }

  /** The decimal rendering of a non-negative number. */
  function NatToString(n: nat): string {
    if n < 10 then [DigitChar(n)] else NatToString(n / 10) + [DigitChar(n % 10)]
  }

  /** Reads a string of decimal digits back as a number. */
  function ParseDecimal(s: string): nat
    requires IsDecimal(s)
  {
    if s == [] then 0
    else 10 * ParseDecimal(s[..|s| - 1]) + ((s[|s| - 1] as int) - ('0' as int))
  }

  /** The rendering is a non-empty string of digits that reads back as the
      number it renders. */
  lemma {:induction false} ParseNatToString(n: nat)
    ensures NatToString(n) != [] && IsDecimal(NatToString(n))
    ensures ParseDecimal(NatToString(n)) == n
  {
    if n >= 10 {
      ParseNatToString(n / 10);
      var s := NatToString(n);
      assert s[..|s| - 1] == NatToString(n / 10);
    }
  }

  /** Different numbers render differently. */
  lemma NatToStringInjective(a: nat, b: nat)
    requires NatToString(a) == NatToString(b)
    ensures a == b
  {
    ParseNatToString(a);
    ParseNatToString(b);
  }
}
