/** String helpers standing for the Python str methods the game uses:
    strip/rstrip, lower, split and the `in` substring test. Only the ASCII
    range is modelled. The functions carry only small contracts; what they
    mean element by element is stated by the lemmas after them, so that
    proofs about documents full of strings stay cheap. */
module Text {

  /** Python str.isspace() restricted to ASCII: tab, line feed, vertical tab,
      form feed, carriage return, the four separators 0x1C-0x1F and space. */
  predicate IsSpace(c: char)
  {
    c == ' ' || ('\t' <= c <= '\r') || ('\U{1C}' <= c <= '\U{1F}')
  }

  ghost predicate AllSpace(s: string)
  {
    forall i :: 0 <= i < |s| ==> IsSpace(s[i])
  }

  /** Python str.lstrip() with no argument. */
  function LStrip(s: string): (r: string)
    ensures |r| <= |s|
    ensures r != [] ==> !IsSpace(r[0])
  {
    if s != [] && IsSpace(s[0]) then LStrip(s[1..]) else s
  }

  /** Python str.rstrip() with no argument. */
  function RStrip(s: string): (r: string)
    ensures |r| <= |s|
    ensures r != [] ==> !IsSpace(r[|r| - 1]) && r[0] == s[0]
  {
    if s != [] && IsSpace(s[|s| - 1]) then RStrip(s[..|s| - 1]) else s
  }

  /** Python str.strip() with no argument. */
  function Strip(s: string): (r: string)
    ensures |r| <= |s|
    ensures r != [] ==> !IsSpace(r[0]) && !IsSpace(r[|r| - 1])
  {
    RStrip(LStrip(s))
  }

  /** lstrip drops a whitespace prefix and keeps the rest. */
  lemma {:induction false} LStripSlice(s: string)
    ensures LStrip(s) == s[|s| - |LStrip(s)|..]
    ensures AllSpace(s[..|s| - |LStrip(s)|])
  {
    if s != [] && IsSpace(s[0]) {
      LStripSlice(s[1..]);
      assert s[1..][|s| - 1 - |LStrip(s)|..] == s[|s| - |LStrip(s)|..];
      assert forall i :: 1 <= i < |s| - |LStrip(s)| ==> s[i] == s[1..][..|s| - 1 - |LStrip(s)|][i - 1];
    }
  }

  /** rstrip drops a whitespace suffix and keeps the rest. */
  lemma {:induction false} RStripSlice(s: string)
    ensures RStrip(s) == s[..|RStrip(s)|]
    ensures AllSpace(s[|RStrip(s)|..])
  {
    if s != [] && IsSpace(s[|s| - 1]) {
      var t := s[..|s| - 1];
      RStripSlice(t);
      assert t[..|RStrip(s)|] == s[..|RStrip(s)|];
      assert forall i :: |RStrip(s)| <= i < |s| - 1 ==> s[i] == t[|RStrip(t)|..][i - |RStrip(s)|];
    }
  }

  /** strip removes a whitespace prefix and a whitespace suffix and keeps the
      rest as it is. */
  lemma {:induction false} StripSlice(s: string)
    ensures var k := |s| - |LStrip(s)|; var r := Strip(s);
      k + |r| <= |s| && r == s[k..k + |r|] && AllSpace(s[..k]) && AllSpace(s[k + |r|..])
  {
    var l := LStrip(s);
    var r := RStrip(l);
    var k := |s| - |l|;
    LStripSlice(s);
    RStripSlice(l);
    assert l == s[k..];
    assert r == l[..|r|];
    assert s[k..][..|r|] == s[k..k + |r|];
    assert s[k + |r|..] == l[|r|..];
  }

  /** A string with no surrounding whitespace is its own strip. */
  lemma StripNoop(s: string)
    requires s != [] ==> !IsSpace(s[0]) && !IsSpace(s[|s| - 1])
    ensures Strip(s) == s
  {
  }

  predicate IsUpper(c: char)
  {
    'A' <= c <= 'Z'
  }

  function LowerChar(c: char): (d: char)
    ensures !IsUpper(d)
    ensures !IsUpper(c) ==> d == c
  {
    if IsUpper(c) then (c as int + 32) as char else c
  }

  /** Python str.lower(), ASCII letters only. */
  function ToLower(s: string): (r: string)
    ensures |r| == |s|
  {
    if s == [] then [] else [LowerChar(s[0])] + ToLower(s[1..])
  }

  /** Lowering works character by character. */
  lemma {:induction false} ToLowerAt(s: string, i: int)
    requires 0 <= i < |s|
    ensures ToLower(s)[i] == LowerChar(s[i])
  {
    if i > 0 {
      ToLowerAt(s[1..], i - 1);
    }
  }

  /** The index of the first whitespace character of s, or |s| if none. */
  function FirstSpace(s: string): (i: nat)
    ensures i <= |s|
    ensures i < |s| ==> IsSpace(s[i])
  {
    if s == [] then 0 else if IsSpace(s[0]) then 0 else 1 + FirstSpace(s[1..])
  }

  /** No whitespace comes before FirstSpace. */
  lemma {:induction false} FirstSpaceIsFirst(s: string, j: int)
    requires 0 <= j < FirstSpace(s)
    ensures !IsSpace(s[j])
  {
    if j > 0 {
      FirstSpaceIsFirst(s[1..], j - 1);
    }
  }

  predicate StartsWith(s: string, prefix: string)
  {
    |prefix| <= |s| && s[..|prefix|] == prefix
  }

  /** Python `needle in s` for strings, found by scanning. */
  function Contains(s: string, needle: string): bool
    decreases |s|
  {
    StartsWith(s, needle) || (s != [] && Contains(s[1..], needle))
  }

  ghost predicate OccursAt(s: string, needle: string, k: int)
  {
    0 <= k && k + |needle| <= |s| && s[k..k + |needle|] == needle
  }

  /** The scan finds exactly the contiguous occurrences. */
  lemma {:induction false} ContainsIff(s: string, needle: string)
    ensures Contains(s, needle) <==> exists k :: OccursAt(s, needle, k)
    decreases |s|
  {
    if StartsWith(s, needle) {
      assert OccursAt(s, needle, 0);
    } else if s == [] {
    } else {
      ContainsIff(s[1..], needle);
      if exists k :: OccursAt(s[1..], needle, k) {
        var k :| OccursAt(s[1..], needle, k);
        assert s[k + 1..k + 1 + |needle|] == s[1..][k..k + |needle|];
        assert OccursAt(s, needle, k + 1);
      }
      if exists k :: OccursAt(s, needle, k) {
        var k :| OccursAt(s, needle, k);
        if k > 0 {
          assert s[1..][k - 1..k - 1 + |needle|] == s[k..k + |needle|];
          assert OccursAt(s[1..], needle, k - 1);
        }
      }
    }
  }
}
