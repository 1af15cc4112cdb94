/** The names of the binary log files between two given ones, and what they read back as. */
module Binlog {

  import opened Prelude
  import opened Strings

  // ---------- decimal numbers ----------

  predicate IsDigit(c: char)
  {
    '0' <= c <= '9'
  }

  function Digit(d: nat): (c: char)
    requires d < 10
    ensures IsDigit(c)
  {
    '0' + d as char
  }

  function Digits(n: nat): string
  {
    if n < 10 then [Digit(n)] else Digits(n / 10) + [Digit(n % 10)]
  }

  predicate AllDigits(s: string)
  {
    forall i :: 0 <= i < |s| ==> IsDigit(s[i])
  }

  function DigitValue(c: char): (d: nat)
    requires IsDigit(c)
    ensures d < 10 && Digit(d) == c
  {
    c as nat - '0' as nat
  }

  function Value(s: string): nat
    requires AllDigits(s)
  {
    if s == [] then 0 else Value(s[..|s| - 1]) * 10 + DigitValue(s[|s| - 1])
  }

  const MAX_INT64: int := 0x7FFF_FFFF_FFFF_FFFF

  function Unsigned(s: string): Option<int>
  {
    if s != [] && AllDigits(s) then Some(Value(s)) else None
  }

  /** A decimal number with an optional sign, absent when it is none or does not fit 64 bits. */
  function ParseInt(s: string): Option<int>
  {
    var negative := s != [] && s[0] == '-';
    var parsed := Unsigned(if s != [] && (s[0] == '-' || s[0] == '+') then s[1..] else s);
    if parsed.None? then None
    else if negative then if parsed.value <= MAX_INT64 + 1 then Some(-parsed.value) else None
    else if parsed.value <= MAX_INT64 then parsed else None
  }

  /** How a number is written. */
  function Text(n: int): string
  {
    if n < 0 then "-" + Digits(-n) else Digits(n)
  }

  function Zeros(k: nat): string
  {
    seq(k, i => '0')
  }

  function Pow10(k: nat): nat
  {
    if k == 0 then 1 else 10 * Pow10(k - 1)
  }

  lemma {:induction false} DigitsReadBack(n: nat)
    ensures Digits(n) != [] && AllDigits(Digits(n)) && Value(Digits(n)) == n
  {
    if n >= 10 {
      DigitsReadBack(n / 10);
      assert Digits(n)[..|Digits(n)| - 1] == Digits(n / 10);
    }
  }

  lemma {:induction false} DigitsLength(n: nat, k: nat)
    requires 0 < k
    ensures |Digits(n)| <= k <==> n < Pow10(k)
  {
    if k == 1 {
      assert Pow10(1) == 10 * Pow10(0) == 10;
      assert n >= 10 ==> |Digits(n / 10)| > 0 by { DigitsReadBack(n / 10); }
    } else if n < 10 {
      PowPositive(k - 1);
    } else {
      DigitsLength(n / 10, k - 1);
    }
  }

  lemma PowPositive(k: nat)
    ensures Pow10(k) > 0
  {
  }

  lemma {:induction false} ZerosCountNothing(k: nat, s: string)
    requires AllDigits(s)
    ensures AllDigits(Zeros(k) + s) && Value(Zeros(k) + s) == Value(s)
    decreases |s|, k
  {
    var z := Zeros(k) + s;
    if s != [] {
      assert z[..|z| - 1] == Zeros(k) + s[..|s| - 1];
      ZerosCountNothing(k, s[..|s| - 1]);
    } else if k > 0 {
      assert z[..|z| - 1] == Zeros(k - 1) + s;
      ZerosCountNothing(k - 1, s);
    } else {
      assert z == s;
    }
  }

  // ---------- string order and number order ----------

  /** Two strings first differ at `i`, where `s` has the smaller character. */
  predicate LessAt(s: string, t: string, i: nat)
  {
    i < |s| && i < |t| && s[..i] == t[..i] && s[i] < t[i]
  }

  /** The order of strings of the same length. */
  predicate Less(s: string, t: string)
  {
    exists i :: 0 <= i < |s| && LessAt(s, t, i)
  }

  /** Digit strings of the same length are equal when their numbers are, and in the order of their numbers. */
  lemma {:induction false} OrderIsNumeric(s: string, t: string)
    requires |s| == |t| && AllDigits(s) && AllDigits(t)
    ensures Value(s) == Value(t) ==> s == t
    ensures Value(s) < Value(t) ==> Less(s, t)
  {
    if s != [] {
      var n := |s| - 1;
      var s', t' := s[..n], t[..n];
      OrderIsNumeric(s', t');
      if Value(s') < Value(t') {
        var i :| 0 <= i < |s'| && LessAt(s', t', i);
        assert s[..i] == s'[..i] && t[..i] == t'[..i];
        assert LessAt(s, t, i);
      } else if Value(s') == Value(t') {
        assert s == s' + [s[n]] && t == t' + [t[n]];
        assert Value(s) < Value(t) ==> LessAt(s, t, n);
      }
    }
  }

  // ---------- the list ----------

  const WIDTH: nat := 6

  /** The number is written with at most six characters. */
  predicate Fits(n: int)
  {
    -n < Pow10(WIDTH - 1) && n < Pow10(WIDTH)
  }

  lemma FitsExactly(n: int)
    ensures Text(n) != [] && (|Text(n)| <= WIDTH <==> Fits(n))
  {
    if n < 0 {
      DigitsReadBack(-n);
      DigitsLength(-n, WIDTH - 1);
    } else {
      DigitsReadBack(n);
      DigitsLength(n, WIDTH);
      PowPositive(WIDTH - 1);
    }
  }

  /** The suffix of the file numbered `n`. */
  function Suffix(n: int): string
    requires Fits(n)
  {
    FitsExactly(n);
    Zeros(WIDTH - |Text(n)|) + Text(n)
  }

  /** The digits of a number filled up to six, by cases on how many there are. */
  method Pad(text: string) returns (r: Option<string>)
    requires text != []
    ensures r == if |text| <= WIDTH then Some(Zeros(WIDTH - |text|) + text) else None
  {
    if |text| == 1 {
      assert Zeros(5) == "00000";
      r := Some("00000" + text);
    } else if |text| == 2 {
      assert Zeros(4) == "0000";
      r := Some("0000" + text);
    } else if |text| == 3 {
      assert Zeros(3) == "000";
      r := Some("000" + text);
    } else if |text| == 4 {
      assert Zeros(2) == "00";
      r := Some("00" + text);
    } else if |text| == 5 {
      assert Zeros(1) == "0";
      r := Some("0" + text);
    } else if |text| == 6 {
      assert Zeros(0) + text == text;
      r := Some(text);
    } else {
      r := None;
    }
  }

  /** Reading a number back: every 64-bit one, with or without a sign, and no other. */
  lemma ParseIntExactly(n: int)
    ensures ParseInt(Text(n)) == if -0x8000_0000_0000_0000 <= n < 0x8000_0000_0000_0000 then Some(n) else None
    ensures 0 <= n ==> ParseInt("+" + Text(n)) == ParseInt(Text(n))
  {
    var digits := Digits(if n < 0 then -n else n);
    DigitsReadBack(if n < 0 then -n else n);
    assert IsDigit(digits[0]);
    assert ("-" + digits)[1..] == digits && ("+" + digits)[1..] == digits;
  }

  lemma SuffixReadsBack(n: nat)
    requires Fits(n)
    ensures |Suffix(n)| == WIDTH && AllDigits(Suffix(n)) && Value(Suffix(n)) == n
    ensures ParseInt(Suffix(n)) == Some(n)
  {
    FitsExactly(n);
    DigitsReadBack(n);
    ZerosCountNothing(WIDTH - |Digits(n)|, Digits(n));
    assert Pow10(WIDTH) == 1000000;
  }

  /** A negative number that has to be filled up does not read back: the zeros come before the sign. */
  lemma NegativeDoesNotReadBack(n: int)
    requires Fits(n) && n < 0 && |Text(n)| < WIDTH
    ensures ParseInt(Suffix(n)).None?
  {
    FitsExactly(n);
    var s := Suffix(n);
    assert s[0] == '0' && s[WIDTH - |Text(n)|] == '-' && !IsDigit('-');
  }

  /** Files are listed in the order in which their names sort. */
  lemma SuffixesSort(m: nat, n: nat)
    requires m < n && Fits(n)
    ensures Fits(m) && Less(Suffix(m), Suffix(n))
  {
    PowPositive(WIDTH - 1);
    SuffixReadsBack(m);
    SuffixReadsBack(n);
    OrderIsNumeric(Suffix(m), Suffix(n));
  }

  function Name(prefix: string, suffix: string): string
  {
    prefix + "." + suffix
  }

  /** The files numbered from `start` up to but not including `end`, as far as their numbers fit. */
  function Names(prefix: string, start: int, end: int): seq<string>
    decreases end - start
  {
    if end <= start then []
    else Names(prefix, start, end - 1) + if Fits(end - 1) then [Name(prefix, Suffix(end - 1))] else []
  }

  /** A file name is split at its dots; the source looks at the second part without asking whether there is one. */
  predicate HasSuffix(file: string)
  {
    |Split(file, '.')| >= 2
  }

  /** The number of the last file, whose name may end in a quote. */
  function LastNumber(file: string): Option<int>
    requires HasSuffix(file)
  {
    ParseInt(Split(Split(file, '.')[1], '"')[0])
  }

  /**
   The files from the number of the first to that of the last.  A number of more than six
   characters is passed over with a message.
   */
  method GetBinlogList(first: string, last: string) returns (r: Option<seq<string>>)
    requires HasSuffix(first) && HasSuffix(last)
    ensures r.None? <==> ParseInt(Split(first, '.')[1]).None? || LastNumber(last).None?
    ensures r.Some? ==>
              r.value == Names(Split(first, '.')[0], ParseInt(Split(first, '.')[1]).value, LastNumber(last).value + 1)
  {
    var prefix := Split(first, '.')[0];
    var start, stop := ParseInt(Split(first, '.')[1]), LastNumber(last);
    if start.None? || stop.None? {
      return None;
    }
    var names := NamesBetween(prefix, start.value, stop.value);
    return Some(names);
  }

  method NamesBetween(prefix: string, start: int, stop: int) returns (names: seq<string>)
    ensures names == Names(prefix, start, stop + 1)
  {
    names := [];
    var i := start;
    while i <= stop
      invariant start <= i && (i == start || i <= stop + 1)
      invariant names == Names(prefix, start, i)
    {
      FitsExactly(i);
      var padded := Pad(Text(i));
      if padded.Some? {
        names := names + [Name(prefix, padded.value)];
      }
      i := i + 1;
    }
  }

  /** A name without another dot is split at its dot into the prefix and the suffix. */
  lemma NameSplits(prefix: string, n: nat)
    requires Fits(n) && '.' !in prefix
    ensures Split(Name(prefix, Suffix(n)), '.') == [prefix, Suffix(n)]
    ensures HasSuffix(Name(prefix, Suffix(n))) && LastNumber(Name(prefix, Suffix(n))) == Some(n)
    ensures var quoted := Name(prefix, Suffix(n)) + "\""; HasSuffix(quoted) && LastNumber(quoted) == Some(n)
  {
    SuffixReadsBack(n);
    var s := Suffix(n);
    assert forall c :: c in s ==> IsDigit(c);
    assert !IsDigit('.') && !IsDigit('"');
    SplitPart(prefix, s, '.');
    SplitPart(s, "", '.');
    SplitPart(s, "", '"');
    QuotedSplits(prefix, s);
  }

  lemma QuotedSplits(prefix: string, s: string)
    requires '.' !in prefix && '.' !in s && '"' !in s
    ensures Split(Name(prefix, s) + "\"", '.') == [prefix, s + "\""]
    ensures Split(s + "\"", '"')[0] == s
  {
    assert Name(prefix, s) + "\"" == prefix + "." + (s + "\"");
    SplitPart(prefix, s + "\"", '.');
    SplitPart(s + "\"", "", '.');
    assert s + "\"" == s + ['"'] + "";
    SplitPart(s, "", '"');
  }

  /** From file `a` to file `b` of one prefix: the list is these two and all the files between them. */
  method ListBetween(prefix: string, a: nat, b: nat) returns (names: seq<string>)
    requires '.' !in prefix && Fits(a) && Fits(b)
    ensures names == Names(prefix, a, b + 1)
  {
    NameSplits(prefix, a);
    NameSplits(prefix, b);
    SuffixReadsBack(a);
    var r := GetBinlogList(Name(prefix, Suffix(a)), Name(prefix, Suffix(b)));
    names := r.value;
  }

  // ---------- what the list holds ----------

  /** No more files than numbers, and as many exactly when the first and the last number fit. */
  lemma {:induction false} CompleteExactly(prefix: string, start: int, stop: int)
    requires start <= stop
    ensures |Names(prefix, start, stop + 1)| <= stop - start + 1
    ensures |Names(prefix, start, stop + 1)| == stop - start + 1 <==> Fits(start) && Fits(stop)
    decreases stop - start
  {
    if start < stop {
      CompleteExactly(prefix, start, stop - 1);
    } else {
      assert Names(prefix, start, start) == [];
    }
  }

  lemma {:induction false} NamesAt(prefix: string, start: int, end: int, k: nat)
    requires k < end - start && Fits(start) && Fits(end - 1)
    ensures |Names(prefix, start, end)| == end - start
    ensures Fits(start + k) && Names(prefix, start, end)[k] == Name(prefix, Suffix(start + k))
    decreases end - start
  {
    CompleteExactly(prefix, start, end - 1);
    if k < end - 1 - start {
      NamesAt(prefix, start, end - 1, k);
    } else if start < end - 1 {
      CompleteExactly(prefix, start, end - 2);
    }
  }

  lemma PrefixKeepsOrder(prefix: string, s: string, t: string)
    requires Less(s, t)
    ensures Less(Name(prefix, s), Name(prefix, t))
  {
    var i :| 0 <= i < |s| && LessAt(s, t, i);
    var j := |prefix| + 1 + i;
    assert Name(prefix, s)[..j] == prefix + "." + s[..i] && Name(prefix, t)[..j] == prefix + "." + t[..i];
    assert LessAt(Name(prefix, s), Name(prefix, t), j);
  }

  lemma NamesSort(prefix: string, m: nat, n: nat)
    requires m < n && Fits(n)
    ensures Fits(m) && Less(Name(prefix, Suffix(m)), Name(prefix, Suffix(n)))
  {
    SuffixesSort(m, n);
    PrefixKeepsOrder(prefix, Suffix(m), Suffix(n));
  }

  /** Entry `k` is the file numbered `start + k`. */
  predicate IsFile(prefix: string, names: seq<string>, start: nat, k: nat)
  {
    k < |names| && Fits(start + k) && names[k] == Name(prefix, Suffix(start + k))
  }

  lemma FileReadsBack(prefix: string, names: seq<string>, start: nat, k: nat)
    requires IsFile(prefix, names, start, k)
    ensures |names[k]| == |prefix| + 1 + WIDTH && ParseInt(names[k][|prefix| + 1..]) == Some(start + k)
    ensures '.' !in prefix ==> Split(names[k], '.') == [prefix, names[k][|prefix| + 1..]]
  {
    SuffixReadsBack(start + k);
    assert Name(prefix, Suffix(start + k))[|prefix| + 1..] == Suffix(start + k);
    if '.' !in prefix {
      NameSplits(prefix, start + k);
    }
  }

  lemma FilesInOrder(prefix: string, names: seq<string>, start: nat, j: nat, k: nat)
    requires j < k && IsFile(prefix, names, start, j) && IsFile(prefix, names, start, k)
    ensures Less(names[j], names[k])
  {
    NamesSort(prefix, start + j, start + k);
  }

  lemma AllFiles(prefix: string, start: nat, stop: nat) returns (names: seq<string>)
    requires start <= stop && Fits(stop)
    ensures names == Names(prefix, start, stop + 1) && |names| == stop - start + 1
    ensures forall k :: 0 <= k < |names| ==> IsFile(prefix, names, start, k)
  {
    PowPositive(WIDTH - 1);
    names := Names(prefix, start, stop + 1);
    NamesAt(prefix, start, stop + 1, 0);
    forall k | 0 <= k < |names| ensures IsFile(prefix, names, start, k) {
      NamesAt(prefix, start, stop + 1, k);
    }
  }

  /**
   The list of a complete range: every number once, in order, each name split at its dot
   into the prefix and a suffix that reads back, and the names sorted as strings.
   */
  lemma ListReadsBack(prefix: string, start: nat, stop: nat)
    requires start <= stop && Fits(stop)
    ensures var names := Names(prefix, start, stop + 1);
            && |names| == stop - start + 1
            && (forall k :: 0 <= k < |names| ==>
                  |names[k]| == |prefix| + 1 + WIDTH && ParseInt(names[k][|prefix| + 1..]) == Some(start + k))
            && (forall k :: 0 <= k < |names| && '.' !in prefix ==>
                  Split(names[k], '.') == [prefix, names[k][|prefix| + 1..]])
            && (forall j, k :: 0 <= j < k < |names| ==> Less(names[j], names[k]))
  {
    var names := AllFiles(prefix, start, stop);
    forall k | 0 <= k < |names|
      ensures |names[k]| == |prefix| + 1 + WIDTH && ParseInt(names[k][|prefix| + 1..]) == Some(start + k)
      ensures '.' !in prefix ==> Split(names[k], '.') == [prefix, names[k][|prefix| + 1..]]
    {
      FileReadsBack(prefix, names, start, k);
    }
    forall j, k | 0 <= j < k < |names| ensures Less(names[j], names[k]) {
      FilesInOrder(prefix, names, start, j, k);
    }
  }
}
