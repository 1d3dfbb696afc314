/**
 * The JavaScript string operations the application relies on: `trim`,
 * `toLowerCase`, `includes`, `split` on one character, `join`, and decimal
 * digits (the regex class `\d` and `Number` on a digit string).
 */
module Text {
  import opened Seqs

  /**
   * White space as `String.prototype.trim` and the regex class `\s` see it:
   * the ECMAScript WhiteSpace and LineTerminator code points.
   */
  predicate IsSpace(c: char) {
    || c == '\t' || c == '\n' || c == '\U{000B}' || c == '\U{000C}' || c == '\r' || c == ' '
    || c == '\U{00A0}' || c == '\U{1680}' || ('\U{2000}' <= c <= '\U{200A}')
    || c == '\U{2028}' || c == '\U{2029}' || c == '\U{202F}' || c == '\U{205F}'
    || c == '\U{3000}' || c == '\U{FEFF}'
  }

  predicate AllSpace(s: string) {
    forall i :: 0 <= i < |s| ==> IsSpace(s[i])
  }

  /** Neither starts nor ends with white space. */
  predicate Trimmed(s: string) {
    s == [] || (!IsSpace(s[0]) && !IsSpace(s[|s| - 1]))
  }

  /** The index of the first non-space character at or after `i`, or `|s|`. */
  function SkipSpaces(s: string, i: nat): (j: nat)
    requires i <= |s|
    ensures i <= j <= |s|
    ensures forall k :: i <= k < j ==> IsSpace(s[k])
    ensures j < |s| ==> !IsSpace(s[j])
    decreases |s| - i
  {
    if i < |s| && IsSpace(s[i]) then SkipSpaces(s, i + 1) else i
  }

  /** The end of `s[..j]` once its trailing white space is dropped, never going below `lo`. */
  function BackSpaces(s: string, lo: nat, j: nat): (k: nat)
    requires lo <= j <= |s|
    ensures lo <= k <= j
    ensures forall m :: k <= m < j ==> IsSpace(s[m])
    ensures k > lo ==> !IsSpace(s[k - 1])
    decreases j
  {
    if j > lo && IsSpace(s[j - 1]) then BackSpaces(s, lo, j - 1) else j
  }

  lemma {:induction false} SkipSpacesTo(s: string, i: nat, j: nat)
    requires i <= j < |s| && !IsSpace(s[j])
    requires forall k :: i <= k < j ==> IsSpace(s[k])
    ensures SkipSpaces(s, i) == j
    decreases j - i
  {
    if i < j {
      SkipSpacesTo(s, i + 1, j);
    }
  }

  lemma {:induction false} BackSpacesTo(s: string, lo: nat, k: nat, j: nat)
    requires lo < k <= j <= |s| && !IsSpace(s[k - 1])
    requires forall m :: k <= m < j ==> IsSpace(s[m])
    ensures BackSpaces(s, lo, j) == k
    decreases j
  {
    if k < j {
      BackSpacesTo(s, lo, k, j - 1);
    }
  }

  /** Drop the trailing white space (the regex `\s*` before an anchored suffix). */
  function TrimEnd(s: string): (r: string)
    ensures |r| <= |s| && r == s[..|r|]
    ensures r == [] || !IsSpace(r[|r| - 1])
  {
    s[..BackSpaces(s, 0, |s|)]
  }

  /** String.prototype.trim: drop the leading and trailing white space. */
  function Trim(s: string): (r: string)
    ensures Trimmed(r) && |r| <= |s|
    ensures forall c {:trigger c in r} :: c in r ==> c in s
    ensures r == [] <==> AllSpace(s)
    ensures Trimmed(s) ==> r == s
  {
    var a := SkipSpaces(s, 0);
    var b := BackSpaces(s, a, |s|);
    assert b > a ==> s[a..b][0] == s[a] && s[a..b][b - a - 1] == s[b - 1];
    assert s != [] && Trimmed(s) ==> a == 0 && b == |s|;
    s[a..b]
  }

  /** Trimming white space off both sides of a word gives the word back. */
  lemma {:induction false} TrimPadded(w: string, x: string, v: string)
    requires AllSpace(w) && AllSpace(v)
    requires x != [] && Trimmed(x)
    ensures Trim(w + x + v) == x
  {
    var s := w + x + v;
    assert s[|w|] == x[0];
    SkipSpacesTo(s, 0, |w|);
    assert s[|w| + |x| - 1] == x[|x| - 1];
    BackSpacesTo(s, |w|, |w| + |x|, |s|);
    assert s[|w|..|w| + |x|] == x;
  }

  /** Dropping trailing white space off a word followed by spaces gives the word back. */
  lemma {:induction false} TrimEndSpaces(x: string, v: string)
    requires AllSpace(v) && x != [] && !IsSpace(x[|x| - 1])
    ensures TrimEnd(x + v) == x
  {
    var s := x + v;
    assert s[|x| - 1] == x[|x| - 1];
    BackSpacesTo(s, 0, |x|, |s|);
    assert s[..|x|] == x;
  }

  /** ASCII case mapping of one character. */
  function LowerChar(c: char): char {
    if 'A' <= c <= 'Z' then (c as int + 32) as char else c
  }

  /** String.prototype.toLowerCase, on the ASCII letters. */
  function ToLower(s: string): (r: string)
    ensures |r| == |s|
  {
    seq(|s|, i requires 0 <= i < |s| => LowerChar(s[i]))
  }

  /** String.prototype.includes: `q` occurs in `s` at some offset. */
  predicate Contains(s: string, q: string) {
    exists i :: 0 <= i <= |s| - |q| && OccursAt(s, q, i)
  }

  predicate OccursAt(s: string, q: string, i: int) {
    0 <= i <= |s| - |q| && s[i..i + |q|] == q
  }

  /** Position of the first `c` in `s`. */
  function IndexOf(s: string, c: char): (k: nat)
    requires c in s
    ensures k < |s| && s[k] == c && c !in s[..k]
  {
    if s[0] == c then 0 else 1 + IndexOf(s[1..], c)
  }

  /**
   * String.prototype.split with a one-character separator: the maximal
   * separator-free pieces between separators. Never empty: `""` splits to `[""]`.
   */
  function Split(s: string, sep: char): (parts: seq<string>)
    ensures |parts| >= 1
    ensures forall i :: 0 <= i < |parts| ==> sep !in parts[i]
    decreases |s|
  {
    if sep !in s then [s]
    else
      var k := IndexOf(s, sep);
      [s[..k]] + Split(s[k + 1..], sep)
  }

  /** Array.prototype.join. */
  function Join(parts: seq<string>, delim: string): string {
    if parts == [] then ""
    else if |parts| == 1 then parts[0]
    else parts[0] + delim + Join(parts[1..], delim)
  }

  /** Split undoes Join with the same separator. */
  lemma {:induction false} SplitJoin(parts: seq<string>, sep: char)
    requires |parts| >= 1
    requires forall i :: 0 <= i < |parts| ==> sep !in parts[i]
    ensures Split(Join(parts, [sep]), sep) == parts
  {
    if |parts| > 1 {
      SplitJoin(parts[1..], sep);
      SplitAfter(parts[0], [sep], Join(parts[1..], [sep]), sep);
      assert parts == [parts[0]] + parts[1..];
    }
  }

  /** Join undoes Split: splitting loses no characters. */
  lemma {:induction false} JoinSplit(s: string, sep: char)
    ensures Join(Split(s, sep), [sep]) == s
    decreases |s|
  {
    if sep in s {
      var k := IndexOf(s, sep);
      JoinSplit(s[k + 1..], sep);
      var rest := Split(s[k + 1..], sep);
      assert ([s[..k]] + rest)[1..] == rest;
      assert s == s[..k] + [sep] + s[k + 1..];
    }
  }

  /** Splitting a separator-free head followed by the separator. */
  lemma SplitAfter(a: string, sepText: string, b: string, sep: char)
    requires sep !in a && sepText == [sep]
    ensures Split(a + sepText + b, sep) == [a] + Split(b, sep)
  {
    var s := a + sepText + b;
    assert s[|a|] == sep;
    assert s[..|a|] == a;
    IndexOfAfter(a, sep, s);
    assert s[|a| + 1..] == b;
  }

  lemma {:induction false} IndexOfAfter(a: string, sep: char, s: string)
    requires sep !in a && |s| > |a| && s[..|a|] == a && s[|a|] == sep
    ensures sep in s && IndexOf(s, sep) == |a|
  {
    assert s[|a|] in s;
    if a != [] {
      assert s[1..][..|a| - 1] == a[1..];
      IndexOfAfter(a[1..], sep, s[1..]);
    }
  }

  /** Trim every element. */
  function TrimEach(parts: seq<string>): (r: seq<string>)
    ensures |r| == |parts|
    ensures forall i :: 0 <= i < |r| ==> r[i] == Trim(parts[i])
  {
    if parts == [] then [] else [Trim(parts[0])] + TrimEach(parts[1..])
  }

  /**
   * The comma-list idiom `text.split(',').map((s) => s.trim()).filter(Boolean)`:
   * the comma-separated pieces, trimmed, without the empty ones.
   */
  function SplitList(text: string): (items: seq<string>)
    ensures forall i :: 0 <= i < |items| ==> items[i] != "" && Trimmed(items[i]) && ',' !in items[i]
  {
    var parts := Split(text, ',');
    var trimmed := TrimEach(parts);
    var items := Filter(trimmed, NonEmpty);
    forall i | 0 <= i < |items|
      ensures items[i] != "" && Trimmed(items[i]) && ',' !in items[i]
    {
      assert items[i] in items;
      assert items[i] in trimmed;
      var j :| 0 <= j < |trimmed| && trimmed[j] == items[i];
      assert ',' !in parts[j];
    }
    items
  }

  /**
   * Which items SplitList keeps: exactly the non-empty trimmed comma pieces,
   * in the order of the text and as often as they occur in it.
   */
  lemma SplitListItems(text: string)
    ensures forall x {:trigger x in SplitList(text)} ::
              x in SplitList(text) <==> x != "" && exists p :: p in Split(text, ',') && x == Trim(p)
    ensures IsSubsequence(SplitList(text), TrimEach(Split(text, ',')))
    ensures forall x :: multiset(SplitList(text))[x] == if x != "" then multiset(TrimEach(Split(text, ',')))[x] else 0
  {
    var parts := Split(text, ',');
    var trimmed := TrimEach(parts);
    assert SplitList(text) == Filter(trimmed, NonEmpty);
    FilterMultiset(trimmed, NonEmpty);
    TrimmedPieces(parts);
  }

  /** The trimmed pieces are the pieces' trims. */
  lemma TrimmedPieces(parts: seq<string>)
    ensures forall x {:trigger x in TrimEach(parts)} :: x in TrimEach(parts) <==> exists p :: p in parts && x == Trim(p)
  {
    var trimmed := TrimEach(parts);
    forall x
      ensures x in trimmed <==> exists p :: p in parts && x == Trim(p)
    {
      if x in trimmed {
        var j :| 0 <= j < |trimmed| && trimmed[j] == x;
        assert parts[j] in parts;
      }
      if exists p :: p in parts && x == Trim(p) {
        var p :| p in parts && x == Trim(p);
        var j :| 0 <= j < |parts| && parts[j] == p;
        assert trimmed[j] == x;
      }
    }
  }

  predicate NonEmpty(s: string) {
    s != ""
  }

  /** A blank text lists nothing, which is why `text.trim() ? … : []` equals SplitList. */
  lemma BlankListsNothing(text: string)
    requires AllSpace(text)
    ensures SplitList(text) == []
  {
    assert Split(text, ',') == [text];
  }

  /**
   * Showing a list with `join(', ')` and reading it back with SplitList gives
   * the list back, when every item is non-empty, trimmed and comma-free.
   */
  lemma ListRoundTrip(items: seq<string>)
    requires forall i :: 0 <= i < |items| ==> items[i] != "" && Trimmed(items[i]) && ',' !in items[i]
    ensures SplitList(Join(items, ", ")) == items
  {
    var text := Join(items, ", ");
    assert "" + text == text;
    PaddedListRoundTrip("", items);
  }

  lemma {:induction false} PaddedListRoundTrip(w: string, items: seq<string>)
    requires AllSpace(w)
    requires forall i :: 0 <= i < |items| ==> items[i] != "" && Trimmed(items[i]) && ',' !in items[i]
    ensures SplitList(w + Join(items, ", ")) == items
    decreases |items|
  {
    if items == [] {
      assert w + Join(items, ", ") == w;
      BlankListsNothing(w);
    } else if |items| == 1 {
      assert Join(items, ", ") == items[0];
      SplitListSingle(w, items[0]);
      assert items == [items[0]];
    } else {
      var x, tail := items[0], items[1..];
      var rest := Join(tail, ", ");
      assert Join(items, ", ") == x + ", " + rest;
      assert w + (x + ", " + rest) == w + x + [','] + (" " + rest);
      SplitListCons(w, x, " " + rest);
      assert AllSpace(" ");
      PaddedListRoundTrip(" ", tail);
      assert items == [x] + tail;
    }
  }

  /** One padded item reads back as that item. */
  lemma SplitListSingle(w: string, x: string)
    requires AllSpace(w) && x != "" && Trimmed(x) && ',' !in x
    ensures SplitList(w + x) == [x]
  {
    TrimPadded(w, x, "");
    assert w + x + "" == w + x;
    assert ',' !in w + x by {
      assert forall i :: 0 <= i < |w| ==> w[i] != ',';
    }
    assert Split(w + x, ',') == [w + x];
    assert TrimEach([w + x]) == [x];
  }

  /** The first comma-separated item is read off the front. */
  lemma SplitListCons(w: string, x: string, rest: string)
    requires AllSpace(w) && x != "" && Trimmed(x) && ',' !in x
    ensures SplitList(w + x + [','] + rest) == [x] + SplitList(rest)
  {
    assert ',' !in w + x by {
      assert forall i :: 0 <= i < |w| ==> w[i] != ',';
    }
    SplitAfter(w + x, [','], rest, ',');
    var tail := Split(rest, ',');
    TrimPadded(w, x, "");
    assert w + x + "" == w + x;
    assert TrimEach([w + x] + tail) == [x] + TrimEach(tail) by {
      assert ([w + x] + tail)[1..] == tail;
    }
    FilterAppend([x], TrimEach(tail), NonEmpty);
    assert Filter([x], NonEmpty) == [x];
  }

  predicate IsDigit(c: char) {
    '0' <= c <= '9'
  }

  predicate AllDigits(s: string) {
    forall i :: 0 <= i < |s| ==> IsDigit(s[i])
  }

  function DigitChar(d: nat): (c: char)
    requires d < 10
    ensures IsDigit(c)
  {
    ('0' as int + d) as char
  }

  /** `Number(s)` for a string of decimal digits. */
  function DigitsValue(s: string): nat
    requires AllDigits(s)
  {
    if s == [] then 0
    else 10 * DigitsValue(s[..|s| - 1]) + ((s[|s| - 1] as int) - ('0' as int))
  }

  /** Decimal text of a natural number, no leading zeros. */
  function NatText(n: nat): (s: string)
    ensures s != [] && AllDigits(s)
  {
    if n < 10 then [DigitChar(n)] else NatText(n / 10) + [DigitChar(n % 10)]
  }

  /** A template literal `${n}` for an integer. */
  function IntText(n: int): string {
    if n < 0 then "-" + NatText(-n) else NatText(n)
  }

  /** Reading back the decimal text of a number gives the number. */
  lemma {:induction false} NatTextRoundTrip(n: nat)
    ensures DigitsValue(NatText(n)) == n
  {
    if n >= 10 {
      NatTextRoundTrip(n / 10);
      var s := NatText(n);
      assert s[..|s| - 1] == NatText(n / 10);
    }
  }
}
