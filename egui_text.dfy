/** The text clean-up of src/compat/egui.rs: pasted clipboard text has its CRLF line ends turned into LF. */
module EguiText {
  /**
   * `str::replace("\r\n", "\n")`: scanning from the left, each carriage
   * return that starts a CRLF pair is dropped.
   */
  function ReplaceCrlf(s: string): (r: string)
    ensures |r| <= |s|
    ensures r == [] <==> s == []
    decreases |s|
  {
    if |s| >= 2 && s[0] == '\r' && s[1] == '\n' then
      "\n" + ReplaceCrlf(s[2..])
    else if s == [] then []
    else
      assert s == [s[0]] + s[1..];
      [s[0]] + ReplaceCrlf(s[1..])
  }

  /** The number of times `c` occurs in `s`. */
  function Count(s: string, c: char): (n: nat)
    ensures n <= |s|
    ensures n == 0 <==> forall i :: 0 <= i < |s| ==> s[i] != c
  {
    if s == [] then 0 else (if s[0] == c then 1 else 0) + Count(s[1..], c)
  }

  /** Replacing CRLF by LF only removes carriage returns: every other character occurs as often as before. */
  lemma {:induction false} ReplaceCrlfKeepsOtherChars(s: string, c: char)
    requires c != '\r'
    ensures Count(ReplaceCrlf(s), c) == Count(s, c)
    decreases |s|
  {
    if |s| >= 2 && s[0] == '\r' && s[1] == '\n' {
      ReplaceCrlfKeepsOtherChars(s[2..], c);
      assert ("\n" + ReplaceCrlf(s[2..]))[1..] == ReplaceCrlf(s[2..]);
      assert s[1..][1..] == s[2..];
    } else if s != [] {
      ReplaceCrlfKeepsOtherChars(s[1..], c);
      assert ([s[0]] + ReplaceCrlf(s[1..]))[1..] == ReplaceCrlf(s[1..]);
    }
  }

  /** Text without carriage returns is left as it is. */
  lemma {:induction false} ReplaceCrlfWithoutCr(s: string)
    requires forall i :: 0 <= i < |s| ==> s[i] != '\r'
    ensures ReplaceCrlf(s) == s
    decreases |s|
  {
    if s != [] {
      ReplaceCrlfWithoutCr(s[1..]);
    }
  }

  /**
   * The clean-up can be applied piecewise, provided the cut does not split a
   * CRLF pair (a text ending in CR followed by one starting with LF).
   */
  lemma {:induction false} ReplaceCrlfAppend(a: string, t: string)
    requires !(a != [] && a[|a| - 1] == '\r' && t != [] && t[0] == '\n')
    ensures ReplaceCrlf(a + t) == ReplaceCrlf(a) + ReplaceCrlf(t)
    decreases |a|
  {
    if a == [] {
      assert a + t == t;
    } else if |a| >= 2 && a[0] == '\r' && a[1] == '\n' {
      var s := a + t;
      assert s[2..] == a[2..] + t;
      UnfoldPair(s);
      UnfoldPair(a);
      ReplaceCrlfAppend(a[2..], t);
      ConcatAssoc("\n", ReplaceCrlf(a[2..]), ReplaceCrlf(t));
    } else {
      var s := a + t;
      assert s[1..] == a[1..] + t;
      assert !(|s| >= 2 && s[0] == '\r' && s[1] == '\n');
      UnfoldPlain(s);
      UnfoldPlain(a);
      ReplaceCrlfAppend(a[1..], t);
      ConcatAssoc([a[0]], ReplaceCrlf(a[1..]), ReplaceCrlf(t));
    }
  }

  /** Concatenation regroups freely. */
  lemma ConcatAssoc(x: string, y: string, z: string)
    ensures x + (y + z) == (x + y) + z
  {
  }

  /** A leading CRLF pair becomes one LF. */
  lemma UnfoldPair(s: string)
    requires |s| >= 2 && s[0] == '\r' && s[1] == '\n'
    ensures ReplaceCrlf(s) == "\n" + ReplaceCrlf(s[2..])
  {
  }

  /** Away from a CRLF pair, the first character is kept as it is. */
  lemma UnfoldPlain(s: string)
    requires s != [] && !(|s| >= 2 && s[0] == '\r' && s[1] == '\n')
    ensures ReplaceCrlf(s) == [s[0]] + ReplaceCrlf(s[1..])
  {
  }

  /** Every CRLF pair becomes a single LF, wherever it stands in the text. */
  lemma CrlfBecomesLf(a: string, b: string)
    ensures ReplaceCrlf(a + "\r\n" + b) == ReplaceCrlf(a) + "\n" + ReplaceCrlf(b)
  {
    assert a + "\r\n" + b == a + ("\r\n" + b);
    ReplaceCrlfAppend(a, "\r\n" + b);
    assert ("\r\n" + b)[2..] == b;
  }
}
