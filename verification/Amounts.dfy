/**
 Printing and parsing of grouped VND amounts: FormatVND (internal/bark/formatter.go) and
 parseAmountVND (internal/sepay/parser.go).
 */
module Amounts {
  import opened Options
  import opened Decimal
  import PaymentTables

  const MAX_AMOUNT: int := 9007199254740991

  // ---------------------------------------------------------------- the accepted texts

  predicate Plain(raw: string) { raw != "" && AllDigits(raw) }

  /** A first group of one to three digits, then groups of three behind one kind of separator. */
  predicate Grouped(raw: string) {
    var f := |raw| % 4;
    f != 0 && |raw| > 4 && (raw[f] == ',' || raw[f] == '.')
    && forall i :: 0 <= i < |raw| ==> if i >= f && (i - f) % 4 == 0 then raw[i] == raw[f] else IsDigit(raw[i])
  }

  function Strip(raw: string): (s: string)
    ensures AllDigits(s)
  {
    if raw == "" then ""
    else Strip(raw[..|raw| - 1]) + (if IsDigit(raw[|raw| - 1]) then [raw[|raw| - 1]] else "")
  }

  /** What an amount text means. */
  function AmountOf(raw: string): Option<int> {
    if (Plain(raw) || Grouped(raw)) && 1 <= FromDigits(Strip(raw)) <= MAX_AMOUNT then Some(FromDigits(Strip(raw))) else None
  }

  // ---------------------------------------------------------------- parsing

  /** strings.ReplaceAll(s, c, "") */
  function Remove(s: string, c: char): string {
    if s == "" then "" else Remove(s[..|s| - 1], c) + (if s[|s| - 1] == c then "" else [s[|s| - 1]])
  }

  lemma {:induction false} RemoveStrips(s: string, c: char)
    requires !IsDigit(c) && forall i :: 0 <= i < |s| ==> s[i] == c || IsDigit(s[i])
    ensures Remove(s, c) == Strip(s)
    decreases |s|
  {
    if s != "" { RemoveStrips(s[..|s| - 1], c); }
  }

  lemma {:induction false} StripOfDigits(s: string)
    requires AllDigits(s)
    ensures Strip(s) == s
    decreases |s|
  {
    if s != "" {
      StripOfDigits(s[..|s| - 1]);
      assert s == s[..|s| - 1] + [s[|s| - 1]];
    }
  }

  /** What the scan has seen of a text: complete groups up to `p`, then the digits of one more. */
  ghost predicate Scanned(raw: string, i: nat, separator: Option<char>, groupLength: nat, groups: nat, f: nat) {
    && i <= |raw| && groupLength <= i
    && (forall j :: i - groupLength <= j < i ==> IsDigit(raw[j]))
    && (groups == 0 ==> separator.None? && groupLength == i)
    && (groups > 0 ==>
          && separator.Some? && (separator.value == ',' || separator.value == '.') && 1 <= f <= 3
          && i - groupLength == f + 4 * (groups - 1) + 1
          && forall j :: 0 <= j < i - groupLength ==> if j >= f && (j - f) % 4 == 0 then raw[j] == separator.value else IsDigit(raw[j]))
  }

  /** In a grouped text the separators, and only they, stand every fourth place from the first. */
  lemma SeparatorPlaces(raw: string, j: nat)
    requires Grouped(raw) && j < |raw|
    ensures IsDigit(raw[j]) <==> j < |raw| % 4 || (j - |raw| % 4) % 4 != 0
    ensures !IsDigit(raw[j]) ==> raw[j] == raw[|raw| % 4]
  {
  }

  /** The first separator seen is the first of the text, if the text is grouped at all. */
  lemma FirstSeparator(raw: string, i: nat, separator: Option<char>, groupLength: nat, groups: nat, f: nat)
    requires Scanned(raw, i, separator, groupLength, groups, f) && groups > 0
    ensures f < |raw| && raw[f] == separator.value
    ensures Grouped(raw) ==> |raw| % 4 == f
  {
    if Grouped(raw) {
      SeparatorPlaces(raw, f);
      SeparatorPlaces(raw, |raw| % 4);
    }
  }

  /** A separator in the wrong place, or of another kind, cannot be part of an amount. */
  lemma MisplacedSeparator(raw: string, i: nat, separator: Option<char>, groupLength: nat, groups: nat, f: nat)
    requires Scanned(raw, i, separator, groupLength, groups, f) && i < |raw| && !IsDigit(raw[i])
    requires || (raw[i] != ',' && raw[i] != '.')
             || (separator.Some? && separator.value != raw[i])
             || (groups == 0 && !(1 <= groupLength <= 3))
             || (groups > 0 && groupLength != 3)
    ensures !Plain(raw) && !Grouped(raw)
  {
    if groups > 0 {
      FirstSeparator(raw, i, separator, groupLength, groups, f);
      GroupEndsInThree(raw, i, separator, groupLength, groups, f);
    }
  }

  /** Inside a grouped text a digit run behind a separator is three digits long, and never longer. */
  lemma GroupEndsInThree(raw: string, i: nat, separator: Option<char>, groupLength: nat, groups: nat, f: nat)
    requires Scanned(raw, i, separator, groupLength, groups, f) && groups > 0
    ensures Grouped(raw) ==> groupLength <= 3 && (i == |raw| || !IsDigit(raw[i]) ==> groupLength == 3)
  {
    FirstSeparator(raw, i, separator, groupLength, groups, f);
    var p := i - groupLength;
    assert groupLength > 3 ==> IsDigit(raw[p + 3]);
  }

  /** A last group that is not three digits long. */
  lemma ShortLastGroup(raw: string, separator: Option<char>, groupLength: nat, groups: nat, f: nat)
    requires Scanned(raw, |raw|, separator, groupLength, groups, f) && groups > 0 && groupLength != 3
    ensures !Plain(raw) && !Grouped(raw)
  {
    FirstSeparator(raw, |raw|, separator, groupLength, groups, f);
    GroupEndsInThree(raw, |raw|, separator, groupLength, groups, f);
  }

  lemma CompleteGroups(raw: string, separator: Option<char>, groupLength: nat, groups: nat, f: nat)
    requires Scanned(raw, |raw|, separator, groupLength, groups, f) && groups > 0 && groupLength == 3
    ensures Grouped(raw) && Remove(raw, separator.value) == Strip(raw) && !Plain(raw)
  {
    FirstSeparator(raw, |raw|, separator, groupLength, groups, f);
    assert |raw| == f + 4 * groups;
    LastGroupPlaces(f, groups);
    RemoveStrips(raw, separator.value);
  }

  lemma LastGroupPlaces(f: nat, groups: nat)
    requires 1 <= f <= 3 && groups > 0
    ensures (f + 4 * groups) % 4 == f
  {
  }

  /** Accepts exactly the plain and the uniformly grouped texts of 1 to 2^53-1, and reads their value. */
  method ParseAmountVND(raw: string) returns (amount: Option<int>)
    ensures amount == AmountOf(raw)
  {
    if raw == "" { return None; }
    var separator: Option<char> := None;
    var groupLength, groups := 0, 0;
    ghost var f := 0;
    for i := 0 to |raw|
      invariant Scanned(raw, i, separator, groupLength, groups, f)
    {
      var ch := raw[i];
      if IsDigit(ch) {
        groupLength := groupLength + 1;
      } else {
        var wrong := if groups == 0 then groupLength < 1 || groupLength > 3 else groupLength != 3;
        if (ch != ',' && ch != '.') || (separator.Some? && separator.value != ch) || wrong {
          MisplacedSeparator(raw, i, separator, groupLength, groups, f);
          return None;
        }
        if groups == 0 { f := i; }
        separator, groupLength, groups := Some(ch), 0, groups + 1;
      }
    }
    if groups > 0 && groupLength != 3 {
      ShortLastGroup(raw, separator, groupLength, groups, f);
      return None;
    }
    var digits := raw;
    if separator.Some? {
      CompleteGroups(raw, separator, groupLength, groups, f);
      digits := Remove(raw, separator.value);
    } else {
      StripOfDigits(raw);
    }
    assert digits == Strip(raw);
    var n := ParseInt64(digits);
    DigitsHaveNoSign(digits);
    if n.None? { return None; }
    if n.value <= 0 || n.value > MAX_AMOUNT { return None; }
    return n;
  }

  // ---------------------------------------------------------------- printing

  /** A dot before every third digit from the right. */
  function Group(s: string): string {
    if |s| <= 3 then s else Group(s[..|s| - 3]) + "." + s[|s| - 3..]
  }

  /** The builder after the first i characters of s. */
  function Built(s: string, i: nat): string
    requires i <= |s|
  {
    if i == 0 then "" else Built(s, i - 1) + (if i - 1 > 0 && (|s| - (i - 1)) % 3 == 0 then "." else "") + [s[i - 1]]
  }

  lemma {:induction false} BuiltOfFront(s: string, i: nat)
    requires |s| > 3 && i <= |s| - 3
    ensures Built(s, i) == Built(s[..|s| - 3], i)
    decreases i
  {
    if i > 0 { BuiltOfFront(s, i - 1); }
  }

  lemma BuiltStep(s: string, i: nat)
    requires i < |s|
    ensures i > 0 && (|s| - i) % 3 == 0 ==> Built(s, i + 1) == Built(s, i) + "." + [s[i]]
    ensures i == 0 || (|s| - i) % 3 != 0 ==> Built(s, i + 1) == Built(s, i) + [s[i]]
  {
    assert Built(s, i) + "" == Built(s, i);
  }

  lemma {:induction false} BuiltOfThree(s: string, i: nat)
    requires |s| <= 3 && i <= |s|
    ensures Built(s, i) == s[..i]
    decreases i
  {
    if i > 0 {
      BuiltOfThree(s, i - 1);
      BuiltStep(s, i - 1);
      assert s[..i] == s[..i - 1] + [s[i - 1]];
    }
  }

  lemma JoinThree(head: string, a: char, b: char, c: char)
    ensures head + "." + [a] + [b] + [c] == head + "." + [a, b, c]
  {
  }

  /** The last three characters, given what the builder holds before them. */
  lemma BuiltLastThree(s: string, n: nat, head: string)
    requires n == |s| > 3 && head == Built(s, n - 3)
    ensures Built(s, n) == head + "." + s[n - 3..]
  {
    var a, b, c := s[n - 3], s[n - 2], s[n - 1];
    var one, two := head + "." + [a], head + "." + [a] + [b];
    BuiltStep(s, n - 3);
    assert Built(s, n - 2) == one;
    BuiltStep(s, n - 2);
    assert Built(s, n - 1) == two;
    BuiltStep(s, n - 1);
    JoinThree(head, a, b, c);
    assert s[n - 3..] == [a, b, c];
  }

  lemma {:induction false} BuiltIsGroup(s: string)
    ensures Built(s, |s|) == Group(s)
    decreases |s|
  {
    if |s| <= 3 {
      BuiltOfThree(s, |s|);
      assert s[..|s|] == s;
    } else {
      BuiltOfFront(s, |s| - 3);
      BuiltIsGroup(s[..|s| - 3]);
      BuiltLastThree(s, |s|, Built(s, |s| - 3));
    }
  }

  function TrimSpace(s: string): string {
    if s == "" then ""
    else if PaymentTables.IsSpace(s[0]) then TrimSpace(s[1..])
    else if PaymentTables.IsSpace(s[|s| - 1]) then TrimSpace(s[..|s| - 1])
    else s
  }

  /** The digits printed for n; negating the least int64 leaves it negative. */
  function Magnitude(n: int): string {
    if n == MIN_INT64 then IntText(n) else Digits(if n < 0 then -n else n)
  }

  function Signed(n: int, digits: string): string { if n < 0 then "-" + digits else digits }

  function Formatted(text: string): string {
    var n := ParseInt64(TrimSpace(text));
    if n.None? then text + "đ"
    else Signed(n.value, Group(Magnitude(n.value))) + "đ"
  }

  /** The builder loop. */
  method InsertDots(s: string) returns (b: string)
    ensures b == Group(s)
  {
    b := "";
    for i := 0 to |s|
      invariant b == Built(s, i)
    {
      BuiltStep(s, i);
      if i > 0 && (|s| - i) % 3 == 0 { b := b + "."; }
      b := b + [s[i]];
    }
    BuiltIsGroup(s);
  }

  method FormatVND(text: string) returns (res: string)
    ensures res == Formatted(text)
  {
    var n := ParseInt64(TrimSpace(text));
    if n.None? { return text + "đ"; }
    res := InsertDots(Magnitude(n.value));
    if n.value < 0 { res := "-" + res; }
    res := res + "đ";
  }

  // ---------------------------------------------------------------- inverses

  lemma {:induction false} StripAppend(a: string, b: string)
    ensures Strip(a + b) == Strip(a) + Strip(b)
    decreases |b|
  {
    if b == "" {
      assert a + b == a;
    } else {
      assert (a + b)[..|a + b| - 1] == a + b[..|b| - 1];
      StripAppend(a, b[..|b| - 1]);
    }
  }

  lemma StripOfDot(front: string)
    ensures Strip(front + ".") == Strip(front)
  {
    assert (front + ".")[..|front|] == front;
  }

  lemma StripOfParts(front: string, tail: string)
    requires AllDigits(tail)
    ensures Strip(front + "." + tail) == Strip(front) + tail
  {
    StripOfDigits(tail);
    StripAppend(front + ".", tail);
    StripOfDot(front);
  }

  lemma TailSplits(raw: string)
    requires |raw| > 4 && raw[|raw| - 4] == '.'
    ensures raw == raw[..|raw| - 4] + "." + raw[|raw| - 3..]
  {
  }

  lemma StripOfTail(raw: string)
    requires |raw| > 4 && raw[|raw| - 4] == '.' && AllDigits(raw[|raw| - 3..])
    ensures Strip(raw) == Strip(raw[..|raw| - 4]) + raw[|raw| - 3..]
  {
    TailSplits(raw);
    StripOfParts(raw[..|raw| - 4], raw[|raw| - 3..]);
  }

  lemma {:induction false} StripOfGroup(s: string)
    requires AllDigits(s)
    ensures Strip(Group(s)) == s
    decreases |s|
  {
    if |s| <= 3 {
      StripOfDigits(s);
    } else {
      StripOfGroup(s[..|s| - 3]);
      StripOfParts(Group(s[..|s| - 3]), s[|s| - 3..]);
      assert s == s[..|s| - 3] + s[|s| - 3..];
    }
  }

  predicate Dotted(raw: string) { Grouped(raw) && raw[|raw| % 4] == '.' }

  /** One more group of three behind a dotted text, or behind a first group. */
  lemma GroupedGrows(head: string, tail: string)
    requires (Plain(head) && |head| <= 3) || Dotted(head)
    requires |tail| == 3 && AllDigits(tail)
    ensures Dotted(head + "." + tail)
  {
    var raw := head + "." + tail;
    assert |raw| == |head| + 4 && |raw| % 4 == |head| % 4;
    forall i | 0 <= i < |raw| ensures var f := |raw| % 4; if i >= f && (i - f) % 4 == 0 then raw[i] == '.' else IsDigit(raw[i]) {
      if i < |head| {
        assert raw[i] == head[i];
        if |head| > 4 { SeparatorPlaces(head, i); }
      }
    }
  }

  lemma {:induction false} GroupIsGrouped(s: string)
    requires AllDigits(s) && s != ""
    ensures if |s| <= 3 then Plain(Group(s)) && |Group(s)| <= 3 else Dotted(Group(s))
    decreases |s|
  {
    if |s| > 3 {
      GroupIsGrouped(s[..|s| - 3]);
      GroupedGrows(Group(s[..|s| - 3]), s[|s| - 3..]);
    }
  }

  /** Parsing inverts printing on the whole range. */
  lemma FormatThenParse(n: int)
    requires 1 <= n <= MAX_AMOUNT
    ensures AmountOf(Group(Digits(n))) == Some(n)
  {
    FromDigitsOfDigits(n);
    GroupIsGrouped(Digits(n));
    StripOfGroup(Digits(n));
  }

  lemma FormattedAmount(n: int)
    requires 1 <= n <= MAX_AMOUNT
    ensures Formatted(Digits(n)) == Group(Digits(n)) + "đ"
  {
    ParsedDigits(n, Digits(n));
  }

  lemma ParsedDigits(n: int, text: string)
    requires 1 <= n <= MAX_AMOUNT && text == Digits(n)
    ensures ParseInt64(TrimSpace(text)) == Some(n)
  {
    FromDigitsOfDigits(n);
    DigitsAreTrimmed(text);
    DigitsHaveNoSign(text);
  }

  lemma DigitsAreTrimmed(s: string)
    requires AllDigits(s) && s != ""
    ensures TrimSpace(s) == s
  {
    assert IsDigit(s[0]) && IsDigit(s[|s| - 1]);
    assert forall c :: IsDigit(c) ==> !PaymentTables.IsSpace(c);
  }

  /** Printing gives back every dotted text of an amount without leading zeros: those are exactly
      the printed forms. */
  lemma ParseThenFormat(raw: string)
    requires AmountOf(raw).Some? && raw[0] != '0'
    requires (Plain(raw) && |raw| <= 3) || Dotted(raw)
    ensures Group(Digits(AmountOf(raw).value)) == raw
  {
    assert IsDigit(raw[0]);
    StripKeepsFirst(raw);
    DigitsOfFromDigits(Strip(raw));
    if Plain(raw) { StripOfDigits(raw); } else { GroupOfStrip(raw); }
  }

  lemma {:induction false} StripKeepsFirst(raw: string)
    requires raw != "" && IsDigit(raw[0])
    ensures Strip(raw) != "" && Strip(raw)[0] == raw[0]
    decreases |raw|
  {
    if |raw| > 1 {
      StripKeepsFirst(raw[..|raw| - 1]);
    } else {
      assert Strip(raw[..0]) == "";
    }
  }

  /** A grouped text ends in a separator and three digits, behind a shorter text of the same kind. */
  lemma DottedTail(raw: string)
    requires Dotted(raw)
    ensures var n := |raw|;
      && raw[n - 4] == '.' && AllDigits(raw[n - 3..]) && IsDigit(raw[0])
      && ((Plain(raw[..n - 4]) && n - 4 <= 3) || Dotted(raw[..n - 4]))
  {
    var n := |raw|;
    var f, front := n % 4, raw[..n - 4];
    SeparatorPlaces(raw, n - 4);
    SeparatorPlaces(raw, n - 3);
    SeparatorPlaces(raw, n - 2);
    SeparatorPlaces(raw, n - 1);
    SeparatorPlaces(raw, 0);
    if n > 8 {
      assert |front| % 4 == f;
      forall i | 0 <= i < |front| ensures if i >= f && (i - f) % 4 == 0 then front[i] == front[f] else IsDigit(front[i]) {
        SeparatorPlaces(raw, i);
      }
    } else {
      assert n - 4 == f;
    }
  }

  /** Three digits more are one group more. */
  lemma GroupAppends(head: string, tail: string)
    requires head != "" && |tail| == 3
    ensures Group(head + tail) == Group(head) + "." + tail
  {
    var s := head + tail;
    assert s[..|s| - 3] == head && s[|s| - 3..] == tail;
  }

  lemma {:induction false} GroupOfStrip(raw: string)
    requires Dotted(raw)
    ensures Group(Strip(raw)) == raw
    decreases |raw|
  {
    var front, tail := raw[..|raw| - 4], raw[|raw| - 3..];
    DottedTail(raw);
    StripOfTail(raw);
    if Dotted(front) { GroupOfStrip(front); } else { StripOfDigits(front); }
    StripKeepsFirst(front);
    GroupAppends(Strip(front), tail);
    TailSplits(raw);
  }
}
