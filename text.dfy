/** Python string behaviour the client, the dispatcher and the configuration
    check rely on: `str.lower` (ASCII only), `str.rstrip(c)`, `str.split`
    followed by indexing, decimal rendering of integers in f-strings, and the
    built-in `int()` applied to a string. */
module Text {
  import opened Results

  // ---------------------------------------------------------------------
  // Case folding

  predicate IsUpper(c: char) { 'A' <= c <= 'Z' }

  function LowerChar(c: char): char {
    if IsUpper(c) then (c as int + 32) as char else c
  }

  /** `s.lower()`, restricted to the ASCII letters. */
  function Lower(s: string): (r: string)
    ensures |r| == |s|
    ensures forall i :: 0 <= i < |s| ==> r[i] == LowerChar(s[i])
  {
    seq(|s|, i requires 0 <= i < |s| => LowerChar(s[i]))
  }

  /** `a.lower() == b.lower()`: the name comparison used for taxonomy terms. */
  predicate SameName(a: string, b: string) {
    Lower(a) == Lower(b)
  }

  /** Lower-casing twice is lower-casing once, so a folded name is its own fold. */
  lemma LowerIdempotent(s: string)
    ensures Lower(Lower(s)) == Lower(s)
  {
  }

  /** Name comparison is an equivalence relation on names. */
  lemma SameNameEquivalence(a: string, b: string, c: string)
    ensures SameName(a, a)
    ensures SameName(a, b) ==> SameName(b, a)
    ensures SameName(a, b) && SameName(b, c) ==> SameName(a, c)
  {
  }

  // ---------------------------------------------------------------------
  // Stripping and splitting

  /** `s.rstrip(c)` for a single character: every trailing `c` is removed. */
  function RStrip(s: string, c: char): (r: string)
    ensures r <= s
    ensures r == [] || r[|r| - 1] != c
    ensures forall i :: |r| <= i < |s| ==> s[i] == c
  {
    if s != [] && s[|s| - 1] == c then RStrip(s[..|s| - 1], c) else s
  }

  /** `s.split(c)[-1]`: the text after the last `c`, or all of `s` when it has none. */
  function AfterLast(s: string, c: char): (r: string)
    ensures c !in r && |r| <= |s|
  {
    if s == [] then []
    else if s[|s| - 1] == c then []
    else AfterLast(s[..|s| - 1], c) + [s[|s| - 1]]
  }

  /** The text after the last `c` is a suffix of `s`, preceded by a `c`
      unless it is all of `s`. */
  lemma {:induction false} AfterLastSuffix(s: string, c: char)
    ensures var r := AfterLast(s, c);
      && r == s[|s| - |r|..]
      && (|r| < |s| ==> s[|s| - |r| - 1] == c)
  {
    if s != [] && s[|s| - 1] != c {
      var init := s[..|s| - 1];
      AfterLastSuffix(init, c);
      var r := AfterLast(init, c);
      assert s[|s| - |r| - 1..] == init[|init| - |r|..] + [s[|s| - 1]];
    }
  }

  /** When `s[k]` is the last `c`, the text after it is what follows `k`. */
  lemma {:induction false} AfterLastAt(s: string, c: char, k: nat)
    requires k < |s| && s[k] == c && c !in s[k + 1..]
    ensures AfterLast(s, c) == s[k + 1..]
    decreases |s|
  {
    if k < |s| - 1 {
      var init := s[..|s| - 1];
      assert s[|s| - 1] in s[k + 1..];
      assert init[k + 1..] <= s[k + 1..];
      AfterLastAt(init, c, k);
      assert s[k + 1..] == init[k + 1..] + [s[|s| - 1]];
    }
  }

  /** `s.split(c)[0]`: the text before the first `c`, or all of `s` when it has none. */
  function Before(s: string, c: char): (r: string)
    ensures c !in r && |r| <= |s|
  {
    if s == [] || s[0] == c then [] else [s[0]] + Before(s[1..], c)
  }

  /** When `s[k]` is the first `c` (or `k` is the end and there is none),
      the text before it is `s[..k]`. */
  lemma {:induction false} BeforeAt(s: string, c: char, k: nat)
    requires k <= |s| && c !in s[..k] && (k < |s| ==> s[k] == c)
    ensures Before(s, c) == s[..k]
  {
    if k > 0 {
      assert s[0] in s[..k];
      assert s[1..][..k - 1] == s[1..k];
      BeforeAt(s[1..], c, k - 1);
      assert s[..k] == [s[0]] + s[1..k];
    }
  }

  /** The text before the first `c` is a prefix of `s`, followed by a `c`
      unless it is all of `s`. */
  lemma {:induction false} BeforePrefix(s: string, c: char)
    ensures var r := Before(s, c);
      && r <= s
      && (|r| < |s| ==> s[|r|] == c)
  {
    if s != [] && s[0] != c {
      BeforePrefix(s[1..], c);
    }
  }

  /** `sep.join(items)`. */
  function Join(items: seq<string>, sep: string): string {
    if items == [] then ""
    else if |items| == 1 then items[0]
    else items[0] + sep + Join(items[1..], sep)
  }

  /** Joining one more item adds the separator and the item at the end. */
  lemma {:induction false} JoinAppend(items: seq<string>, x: string, sep: string)
    ensures Join([], sep) == "" && Join([x], sep) == x
    ensures items != [] ==> Join(items + [x], sep) == Join(items, sep) + sep + x
    decreases |items|
  {
    if |items| == 1 {
      assert items + [x] == [items[0], x];
      assert [items[0], x][1..] == [x];
    } else if |items| > 1 {
      assert (items + [x])[0] == items[0];
      assert (items + [x])[1..] == items[1..] + [x];
      JoinAppend(items[1..], x, sep);
    }
  }

  /** `"".join(blocks)`. */
  function Concat(blocks: seq<string>): string {
    if blocks == [] then "" else Concat(blocks[..|blocks| - 1]) + blocks[|blocks| - 1]
  }

  /** Each block stands in the joined text in its position, after the blocks
      before it. */
  lemma {:induction false} ConcatSplit(blocks: seq<string>, k: nat)
    requires k < |blocks|
    ensures Concat(blocks) == Concat(blocks[..k]) + blocks[k] + Concat(blocks[k + 1..])
    decreases |blocks|
  {
    var last := |blocks| - 1;
    if k == last {
      assert blocks[..k] == blocks[..last];
      assert blocks[k + 1..] == [];
    } else {
      var init := blocks[..last];
      ConcatSplit(init, k);
      assert init[..k] == blocks[..k];
      assert init[k + 1..] == blocks[k + 1..last];
      var rest := blocks[k + 1..];
      assert rest[..|rest| - 1] == blocks[k + 1..last];
      assert rest[|rest| - 1] == blocks[last];
      calc {
        Concat(blocks);
        Concat(init) + blocks[last];
        Concat(blocks[..k]) + blocks[k] + Concat(blocks[k + 1..last]) + blocks[last];
        Concat(blocks[..k]) + blocks[k] + (Concat(blocks[k + 1..last]) + blocks[last]);
        Concat(blocks[..k]) + blocks[k] + Concat(rest);
      }
    }
  }

  lemma ConcatThree(a: string, b: string, c: string)
    ensures Concat([a, b, c]) == a + b + c
  {
    assert [a, b, c][..2] == [a, b];
    assert [a, b][..1] == [a];
    assert [a][..0] == [];
    assert Concat([a]) == a;
  }

  // ---------------------------------------------------------------------
  // Decimal integers

  predicate IsDigit(c: char) { '0' <= c <= '9' }

  function DigitChar(d: nat): (c: char)
    requires d < 10
    ensures IsDigit(c) && c as int - '0' as int == d
  {
    ('0' as int + d) as char
  }

  /** The decimal digits of `n`, without leading zeros. */
  function NatText(n: nat): (r: string)
    ensures |r| >= 1
    ensures forall i :: 0 <= i < |r| ==> IsDigit(r[i])
    ensures n > 0 ==> r[0] != '0'
  {
    if n < 10 then [DigitChar(n)] else NatText(n / 10) + [DigitChar(n % 10)]
  }

  /** `f"{n}"` for an integer: an optional minus sign and the digits. */
  function Decimal(n: int): string {
    if n < 0 then "-" + NatText(-n) else NatText(n)
  }

  // ---------------------------------------------------------------------
  // Python's int() on a string

  /** The characters below 128 that `int()` strips as white space: the space
      and tab through carriage return. The separators '\U{1C}'-'\U{1F}' are
      not among them, although `str.isspace` holds of them. */
  predicate IsSpace(c: char) {
    c == ' ' || ('\t' <= c <= '\r')
  }

  /** The leading white space `int()` ignores: what is left is the suffix of
      `s` after its leading white space. */
  function TrimStart(s: string): (r: string)
    ensures |r| <= |s| && (r == [] || !IsSpace(r[0]))
  {
    if s != [] && IsSpace(s[0]) then TrimStart(s[1..]) else s
  }

  /** The trailing white space `int()` ignores: what is left is the prefix of
      `s` before its trailing white space. */
  function TrimEnd(s: string): (r: string)
    ensures |r| <= |s| && (r == [] || !IsSpace(r[|r| - 1]))
  {
    if s != [] && IsSpace(s[|s| - 1]) then TrimEnd(s[..|s| - 1]) else s
  }

  /** `TrimStart` removes exactly the leading white space: the result is the
      suffix of `s` after it. */
  lemma {:induction false} TrimStartSuffix(s: string)
    ensures var r := TrimStart(s);
      r == s[|s| - |r|..] && forall i :: 0 <= i < |s| - |r| ==> IsSpace(s[i])
    decreases |s|
  {
    if s != [] && IsSpace(s[0]) {
      TrimStartSuffix(s[1..]);
    }
  }

  /** `TrimEnd` removes exactly the trailing white space: the result is the
      prefix of `s` before it. */
  lemma {:induction false} TrimEndPrefix(s: string)
    ensures var r := TrimEnd(s);
      r == s[..|r|] && forall i :: |r| <= i < |s| ==> IsSpace(s[i])
    decreases |s|
  {
    if s != [] && IsSpace(s[|s| - 1]) {
      TrimEndPrefix(s[..|s| - 1]);
    }
  }

  /** What `int()` accepts after the sign: digits, with single underscores
      allowed between two digits. */
  predicate DigitGroups(s: string) {
    && |s| > 0
    && IsDigit(s[0]) && IsDigit(s[|s| - 1])
    && (forall i :: 0 <= i < |s| ==> IsDigit(s[i]) || s[i] == '_')
    && (forall i, j :: 0 <= i < |s| && 0 <= j < |s| && j == i + 1 ==> !(s[i] == '_' && s[j] == '_'))
  }

  /** The value of a digit string, underscores skipped. */
  function DigitsValue(s: string): nat
    requires forall i :: 0 <= i < |s| ==> IsDigit(s[i]) || s[i] == '_'
  {
    if s == [] then 0
    else if s[|s| - 1] == '_' then DigitsValue(s[..|s| - 1])
    else
      assert IsDigit(s[|s| - 1]);
      DigitsValue(s[..|s| - 1]) * 10 + (s[|s| - 1] as int - '0' as int)
  }

  /** `int(s)`: `Some(value)`, or `None` where Python raises `ValueError`. */
  function ParseInt(s: string): Option<int> {
    var t := TrimEnd(TrimStart(s));
    if |t| > 0 && (t[0] == '+' || t[0] == '-') then
      var digits := t[1..];
      if DigitGroups(digits) then
        assert t[1] == digits[0];
        var v: int := DigitsValue(digits);
        Some(if t[0] == '-' then -v else v)
      else None
    else if DigitGroups(t) then
      Some(DigitsValue(t))
    else None
  }

  /** A control separator before the digits makes `int()` raise. */
  lemma SeparatorRejected()
    ensures ParseInt("\U{1C}80") == None
  {
    assert !IsSpace('\U{1C}');
    assert TrimStart("\U{1C}80") == "\U{1C}80";
    assert TrimEnd("\U{1C}80") == "\U{1C}80";
  }

  lemma {:induction false} NatTextValue(n: nat)
    ensures DigitsValue(NatText(n)) == n
  {
    var r := NatText(n);
    if n >= 10 {
      var front := NatText(n / 10);
      assert r[..|r| - 1] == front;
      NatTextValue(n / 10);
    }
  }

  /** Rendering an integer and reading it back with `int()` gives the integer:
      a status code or port printed into a message can be recovered from it. */
  lemma DecimalRoundTrip(n: int)
    ensures ParseInt(Decimal(n)) == Some(n)
  {
    var d := Decimal(n);
    var digits := NatText(if n < 0 then -n else n);
    assert d[0] == '-' || IsDigit(d[0]);
    assert IsDigit(d[|d| - 1]);
    assert TrimStart(d) == d;
    assert TrimEnd(d) == d;
    NatTextValue(if n < 0 then -n else n);
    if n < 0 {
      assert d[1..] == digits;
    }
  }

  /** Distinct integers render differently. */
  lemma DecimalInjective(m: int, n: int)
    requires Decimal(m) == Decimal(n)
    ensures m == n
  {
    DecimalRoundTrip(m);
    DecimalRoundTrip(n);
  }
}
