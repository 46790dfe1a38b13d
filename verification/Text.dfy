// The string operations signing rests on, over ASCII: splitting on blanks, cutting at
// a separator, and decimal numbers as they are printed and parsed.
module Text {
  import opened Delivery

  predicate IsBlank(c: char) {
    c == ' ' || '\t' <= c <= '\r' || (28 as char) <= c <= (31 as char)
  }

  predicate IsDigit(c: char) {
    '0' <= c <= '9'
  }

  predicate NoBlank(s: string) {
    forall i :: 0 <= i < |s| ==> !IsBlank(s[i])
  }

  predicate Without(s: string, c: char) {
    forall i :: 0 <= i < |s| ==> s[i] != c
  }

  function Strip(s: string): string {
    if s == [] then s
    else if IsBlank(s[0]) then Strip(s[1..])
    else if IsBlank(s[|s| - 1]) then Strip(s[..|s| - 1])
    else s
  }

  function LowerChar(c: char): char {
    if 'A' <= c <= 'Z' then (c as int + 32) as char else c
  }

  function Lower(s: string): string {
    seq(|s|, i requires 0 <= i < |s| => LowerChar(s[i]))
  }

  // ---- split() and ' '.join --------------------------------------------------------------

  function TokenEnd(s: string): (e: nat)
    ensures e <= |s|
    ensures NoBlank(s[..e]) && (e < |s| ==> IsBlank(s[e]))
  {
    if s == [] || IsBlank(s[0]) then 0 else 1 + TokenEnd(s[1..])
  }

  function Split(s: string): seq<string>
    decreases |s|
  {
    if s == [] then []
    else if IsBlank(s[0]) then Split(s[1..])
    else [s[..TokenEnd(s)]] + Split(s[TokenEnd(s)..])
  }

  function Join(parts: seq<string>): string {
    if |parts| == 0 then ""
    else if |parts| == 1 then parts[0]
    else parts[0] + " " + Join(parts[1..])
  }

  lemma {:induction false} TokenEndsAt(s: string, e: nat)
    requires e <= |s| && NoBlank(s[..e]) && (e < |s| ==> IsBlank(s[e]))
    ensures TokenEnd(s) == e
  {
    if e > 0 {
      assert s[..e][0] == s[0];
      assert s[1..][..e - 1] == s[..e][1..];
      TokenEndsAt(s[1..], e - 1);
    }
  }

  // A joined list of words splits back into the words.
  lemma {:induction false} SplitInvertsJoin(parts: seq<string>)
    requires forall i :: 0 <= i < |parts| ==> parts[i] != [] && NoBlank(parts[i])
    ensures Split(Join(parts)) == parts
  {
    if |parts| > 0 {
      var s, word := Join(parts), parts[0];
      assert s[..|word|] == word;
      TokenEndsAt(s, |word|);
      assert !IsBlank(word[0]) && s[0] == word[0];
      if |parts| == 1 {
        assert s[|word|..] == [];
      } else {
        SplitInvertsJoin(parts[1..]);
        assert s[|word|..] == " " + Join(parts[1..]);
        assert s[|word|..][1..] == Join(parts[1..]);
      }
    }
  }

  // The ASCII characters that count as blanks.
  const BLANKS: string := " \t\n\U{b}\U{c}\r\U{1c}\U{1d}\U{1e}\U{1f}"

  // A word of a text: a stretch without blanks, between blanks or the ends of the text.
  ghost predicate IsWordAt(s: string, w: string, i: nat) {
    && w != "" && i + |w| <= |s| && s[i..i + |w|] == w
    && (forall k :: 0 <= k < |w| ==> w[k] !in BLANKS)
    && (i > 0 ==> s[i - 1] in BLANKS) && (i + |w| < |s| ==> s[i + |w|] in BLANKS)
  }

  ghost predicate IsWord(s: string, w: string) {
    exists i: nat :: IsWordAt(s, w, i)
  }

  lemma BlanksAreListed(c: char)
    ensures IsBlank(c) <==> c in BLANKS
  {
    assert BLANKS[0] == ' ' && BLANKS[1] == '\t' && BLANKS[2] == '\n' && BLANKS[3] == '\U{b}' && BLANKS[4] == '\U{c}';
    assert BLANKS[5] == '\r' && BLANKS[6] == '\U{1c}' && BLANKS[7] == '\U{1d}' && BLANKS[8] == '\U{1e}';
    assert BLANKS[9] == '\U{1f}';
  }

  lemma WordAtFront(s: string, w: string)
    requires s != [] && !IsBlank(s[0])
    ensures IsWordAt(s, w, 0) <==> w == s[..TokenEnd(s)]
  {
    var e := TokenEnd(s);
    forall c ensures IsBlank(c) <==> c in BLANKS {
      BlanksAreListed(c);
    }
    if IsWordAt(s, w, 0) {
      assert s[..|w|] == w;
      TokenEndsAt(s, |w|);
    }
    assert s[0..e] == s[..e];
  }

  // Cutting a text at a place where no word goes through splits its words.
  lemma WordsAfter(s: string, e: nat, w: string, i: nat)
    requires e <= |s| && e <= i && (e == 0 || IsBlank(s[e - 1]) || (e < |s| && IsBlank(s[e])))
    ensures IsWordAt(s, w, i) <==> IsWordAt(s[e..], w, i - e)
  {
    forall c ensures IsBlank(c) <==> c in BLANKS {
      BlanksAreListed(c);
    }
    if i + |w| <= |s| {
      assert s[e..][i - e..i - e + |w|] == s[i..i + |w|];
    }
    if i == e && e < |s| && IsBlank(s[e]) && w != "" && i + |w| <= |s| {
      assert s[i..i + |w|][0] == s[e];
    }
  }

  // Splitting gives exactly the words, whatever the blanks between and around them.
  lemma {:induction false} SplitGivesTheWords(s: string, w: string)
    ensures w in Split(s) <==> IsWord(s, w)
    decreases |s|
  {
    if s != [] {
      var e := if IsBlank(s[0]) then 1 else TokenEnd(s);
      SplitGivesTheWords(s[e..], w);
      if IsBlank(s[0]) {
        NoWordAtBlank(s, w);
      } else {
        WordAtFront(s, w);
        NoWordInside(s, e, w);
      }
      WordsGoOn(s, e, w);
    }
  }

  lemma NoWordAtBlank(s: string, w: string)
    requires s != [] && IsBlank(s[0])
    ensures !IsWordAt(s, w, 0)
  {
    BlanksAreListed(s[0]);
    if w != "" && |w| <= |s| && s[0..0 + |w|] == w {
      assert w[0] == s[0];
    }
  }

  lemma NoWordInside(s: string, e: nat, w: string)
    requires e <= |s| && NoBlank(s[..e])
    ensures forall i: nat :: 0 < i < e ==> !IsWordAt(s, w, i)
  {
    forall i: nat | 0 < i < e ensures !IsWordAt(s, w, i) {
      assert s[..e][i - 1] == s[i - 1];
      BlanksAreListed(s[i - 1]);
    }
  }

  // The words beyond a cut are those of the rest.
  lemma WordsGoOn(s: string, e: nat, w: string)
    requires 0 < e <= |s| && (IsBlank(s[e - 1]) || (e < |s| ==> IsBlank(s[e])))
    ensures (exists i: nat :: i >= e && IsWordAt(s, w, i)) <==> IsWord(s[e..], w)
  {
    if i: nat :| i >= e && IsWordAt(s, w, i) {
      if e < |s| {
        WordsAfter(s, e, w, i);
      }
      assert IsWordAt(s[e..], w, i - e);
    }
    if IsWord(s[e..], w) {
      var j: nat :| IsWordAt(s[e..], w, j);
      WordsAfter(s, e, w, j + e);
      assert IsWordAt(s, w, j + e);
    }
  }

  // ---- partition --------------------------------------------------------------------------

  function Find(s: string, c: char): (i: nat)
    ensures i <= |s| && Without(s[..i], c) && (i < |s| ==> s[i] == c)
  {
    if s == [] || s[0] == c then 0 else 1 + Find(s[1..], c)
  }

  function Partition(s: string, c: char): (string, string) {
    var i := Find(s, c);
    if i < |s| then (s[..i], s[i + 1..]) else (s, "")
  }

  lemma FoundFirst(s: string, c: char, i: nat)
    requires i < |s| && s[i] == c && Without(s[..i], c)
    ensures Find(s, c) == i
  {
    var f := Find(s, c);
    forall k | 0 <= k < i ensures s[k] != c {
      assert s[..i][k] == s[k];
    }
    forall k | 0 <= k < f ensures s[k] != c {
      assert s[..f][k] == s[k];
    }
  }

  // Text cut at its first separator: the two halves are determined.
  lemma CutAtFirst(a: string, x: string, b: string, y: string, c: char)
    requires Without(a, c) && Without(b, c)
    requires a + [c] + x == b + [c] + y
    ensures a == b && x == y
  {
    var s, t := a + [c] + x, b + [c] + y;
    assert s[..|a|] == a && t[..|b|] == b;
    FoundFirst(s, c, |a|);
    FoundFirst(t, c, |b|);
    assert s[|a| + 1..] == x && t[|b| + 1..] == y;
  }

  // ... and likewise when cut at its last one.
  lemma CutAtLast(x: string, a: string, y: string, b: string, c: char)
    requires Without(a, c) && Without(b, c)
    requires x + [c] + a == y + [c] + b
    ensures x == y && a == b
  {
    var s := x + [c] + a;
    assert s == y + [c] + b;
    assert s[|x|] == s[|y|] == c;
    assert forall k :: |x| < k < |s| ==> s[k] == a[k - |x| - 1];
    assert forall k :: |y| < k < |s| ==> s[k] == b[k - |y| - 1];
    assert s[..|x|] == x && s[..|y|] == y;
    assert s[|x| + 1..] == a && s[|y| + 1..] == b;
  }

  // ---- Decimal numbers ----------------------------------------------------------------------

  function Digit(d: nat): (c: char)
    requires d < 10
    ensures IsDigit(c)
  {
    (d + '0' as int) as char
  }

  function Value(c: char): nat
    requires IsDigit(c)
  {
    c as int - '0' as int
  }

  function ShowNat(n: nat): (s: string)
    ensures |s| > 0 && forall i :: 0 <= i < |s| ==> IsDigit(s[i])
  {
    if n < 10 then [Digit(n)] else ShowNat(n / 10) + [Digit(n % 10)]
  }

  function Show(n: int): string {
    if n < 0 then "-" + ShowNat(-n) else ShowNat(n)
  }

  // Digits, with single underscores allowed between them.
  function ParseNat(s: string): Option<nat>
    decreases |s|
  {
    if s == [] || !IsDigit(s[|s| - 1]) then None
    else
      var low, front := Value(s[|s| - 1]), s[..|s| - 1];
      if front == [] then Some(low)
      else
        var high := ParseNat(if front[|front| - 1] == '_' then front[..|front| - 1] else front);
        if high.None? then None else Some(10 * high.value + low)
  }

  function Signed(sign: int, n: Option<nat>): Option<int> {
    if n.None? then None else Some(sign * n.value)
  }

  // int(text): blanks around it and a sign in front are allowed.
  function ParseInt(raw: string): Option<int> {
    var s := Strip(raw);
    if s == [] then None
    else if s[0] == '-' then Signed(-1, ParseNat(s[1..]))
    else if s[0] == '+' then Signed(1, ParseNat(s[1..]))
    else Signed(1, ParseNat(s))
  }

  lemma {:induction false} ParseNatInvertsShow(n: nat)
    ensures ParseNat(ShowNat(n)) == Some(n)
  {
    if n >= 10 {
      ParseNatInvertsShow(n / 10);
      var s := ShowNat(n);
      assert s[..|s| - 1] == ShowNat(n / 10);
      assert IsDigit(ShowNat(n / 10)[|ShowNat(n / 10)| - 1]);
    }
  }

  // Every printed number parses back to itself, negative ones included.
  lemma ParseInvertsShow(n: int)
    ensures ParseInt(Show(n)) == Some(n)
  {
    var s := Show(n);
    assert !IsBlank(s[0]) && !IsBlank(s[|s| - 1]);
    if n < 0 {
      ParseNatInvertsShow(-n);
      assert s[1..] == ShowNat(-n);
    } else {
      ParseNatInvertsShow(n);
      assert IsDigit(s[0]);
    }
  }

  // What int() takes for a number: digits, with single underscores between them.
  predicate IsNumeral(s: string) {
    && s != "" && IsDigit(s[0]) && IsDigit(s[|s| - 1])
    && (forall i :: 0 <= i < |s| ==> IsDigit(s[i]) || s[i] == '_')
    && (forall i :: 0 < i < |s| ==> s[i - 1] != '_' || s[i] != '_')
  }

  const DIGITS := "0123456789"

  // The number its digits spell, read from the left.
  ghost function ReadOn(n: nat, s: string): nat
    decreases |s|
  {
    if s == "" then n else ReadOn(if IsDigit(s[0]) then 10 * n + Value(s[0]) else n, s[1..])
  }

  lemma DigitsAreInOrder(d: nat)
    requires d < 10
    ensures Digit(d) == DIGITS[d] && Value(DIGITS[d]) == d
  {
    assert DIGITS[d] as int == '0' as int + d;
  }

  lemma DigitsAreListed(c: char)
    ensures IsDigit(c) <==> c in DIGITS
  {
    if IsDigit(c) {
      DigitsAreInOrder(Value(c));
      assert DIGITS[Value(c)] == c;
    }
  }

  lemma {:induction false} ReadsOneMore(n: nat, s: string, c: char)
    ensures ReadOn(n, s + [c]) == if IsDigit(c) then 10 * ReadOn(n, s) + Value(c) else ReadOn(n, s)
    decreases |s|
  {
    if s == "" {
      assert (s + [c])[1..] == "";
    } else {
      assert (s + [c])[1..] == s[1..] + [c];
      ReadsOneMore(if IsDigit(s[0]) then 10 * n + Value(s[0]) else n, s[1..], c);
    }
  }

  // A parsed number is a numeral, read from the left; anything else is refused.
  lemma {:induction false} ParseNatReads(s: string)
    ensures ParseNat(s) == if IsNumeral(s) then Some(ReadOn(0, s)) else None
    decreases |s|
  {
    if s != "" && IsDigit(s[|s| - 1]) {
      var front := s[..|s| - 1];
      assert s == front + [s[|s| - 1]];
      ReadsOneMore(0, front, s[|s| - 1]);
      if front == "" {
        assert ReadOn(0, front) == 0;
      } else if front[|front| - 1] == '_' {
        var head := front[..|front| - 1];
        assert front == head + ['_'];
        ReadsOneMore(0, head, '_');
        ParseNatReads(head);
        UnderscoreInside(head, s[|s| - 1]);
        assert s == head + ['_', s[|s| - 1]];
      } else {
        ParseNatReads(front);
        DigitAtEnd(front, s[|s| - 1]);
      }
    }
  }

  lemma DigitAtEnd(s: string, c: char)
    requires s != "" && s[|s| - 1] != '_' && IsDigit(c)
    ensures IsNumeral(s + [c]) <==> IsNumeral(s)
  {
    var t := s + [c];
    assert forall i :: 0 <= i < |s| ==> t[i] == s[i];
    assert t[|s|] == c;
  }

  lemma UnderscoreInside(s: string, c: char)
    requires IsDigit(c)
    ensures IsNumeral(s + ['_', c]) <==> IsNumeral(s)
  {
    var t := s + ['_', c];
    assert forall i :: 0 <= i < |s| ==> t[i] == s[i];
    assert t[|s|] == '_' && t[|s| + 1] == c;
    if s != "" {
      assert t[|s| - 1] == s[|s| - 1];
    }
  }

  lemma {:induction false} StripKeepsMiddle(pre: string, mid: string, post: string)
    requires forall i :: 0 <= i < |pre| ==> pre[i] in BLANKS
    requires forall i :: 0 <= i < |post| ==> post[i] in BLANKS
    requires mid != "" && mid[0] !in BLANKS && mid[|mid| - 1] !in BLANKS
    ensures Strip(pre + mid + post) == mid
    decreases |pre| + |post|
  {
    var s := pre + mid + post;
    BlanksAreListed(s[0]);
    BlanksAreListed(s[|s| - 1]);
    if pre != "" {
      assert s[1..] == pre[1..] + mid + post;
      StripKeepsMiddle(pre[1..], mid, post);
    } else if post != "" {
      assert s[..|s| - 1] == pre + mid + post[..|post| - 1];
      StripKeepsMiddle(pre, mid, post[..|post| - 1]);
    } else {
      assert s == mid;
    }
  }

  // int(): one sign in front of a numeral; anything else is refused.
  lemma SignedReads(sign: string, body: string)
    requires sign == "" || sign == "+" || sign == "-"
    requires body != "" && !IsBlank((sign + body)[0]) && !IsBlank(body[|body| - 1])
    requires sign == "" ==> body[0] != '+' && body[0] != '-'
    ensures ParseInt(sign + body) == if IsNumeral(body) then Some(SignedValue(sign, body)) else None
  {
    var mid := sign + body;
    assert mid[|mid| - 1] == body[|body| - 1];
    ParseNatReads(body);
    if sign == "" {
      assert mid == body;
    } else {
      assert mid[0] == sign[0] && mid[1..] == body;
    }
  }

  ghost function SignedValue(sign: string, body: string): int {
    if sign == "-" then -(ReadOn(0, body) as int) else ReadOn(0, body)
  }

  // ... with any blanks around it.
  lemma ParseIntReads(pre: string, sign: string, body: string, post: string)
    requires forall i :: 0 <= i < |pre| ==> pre[i] in BLANKS
    requires forall i :: 0 <= i < |post| ==> post[i] in BLANKS
    requires sign == "" || sign == "+" || sign == "-"
    requires body != "" && body[0] !in BLANKS && body[|body| - 1] !in BLANKS
    requires sign == "" ==> body[0] != '+' && body[0] != '-'
    ensures ParseInt(pre + (sign + body) + post) == if IsNumeral(body) then Some(SignedValue(sign, body)) else None
  {
    var mid := sign + body;
    BlanksAreListed(mid[0]);
    BlanksAreListed(body[|body| - 1]);
    BlanksAreListed('+');
    BlanksAreListed('-');
    assert mid[|mid| - 1] == body[|body| - 1];
    assert mid[0] == if sign == "" then body[0] else sign[0];
    StripKeepsMiddle(pre, mid, post);
    StripKeepsMiddle("", mid, "");
    assert "" + mid + "" == mid;
    SignedReads(sign, body);
  }

  // No leading zeros: a number is printed in one way only.
  lemma {:induction false} ShownWithoutZeros(n: nat)
    ensures IsNumeral(ShowNat(n)) && ReadOn(0, ShowNat(n)) == n
    ensures n > 0 ==> ShowNat(n)[0] != '0'
  {
    ParseNatInvertsShow(n);
    ParseNatReads(ShowNat(n));
    if n >= 10 {
      ShownWithoutZeros(n / 10);
    }
  }

  // Only the 26 ASCII letters are folded.
  const UPPER := "ABCDEFGHIJKLMNOPQRSTUVWXYZ"
  const LOWER := "abcdefghijklmnopqrstuvwxyz"

  lemma LowerFoldsLetters(s: string, i: nat)
    requires i < |s|
    ensures |Lower(s)| == |s|
    ensures forall k :: 0 <= k < 26 && s[i] == UPPER[k] ==> Lower(s)[i] == LOWER[k]
    ensures s[i] !in UPPER ==> Lower(s)[i] == s[i]
  {
    forall k | 0 <= k < 26 ensures UPPER[k] as int == 'A' as int + k && LOWER[k] as int == 'a' as int + k {
    }
    if 'A' <= s[i] <= 'Z' {
      assert UPPER[s[i] as int - 'A' as int] == s[i];
    }
  }

  lemma ShownNumbersHaveNoDot(n: int)
    ensures Without(Show(n), '.') && Show(n) != []
  {
  }
}
