/** The string primitives of Go's `strings` and `strconv` packages that the modelled code calls,
    each with the law that undoes it. */
module Text {

  datatype Option<+T> = None | Some(value: T)

  // strings.SplitN(s, sep, 2) with a one-character separator: None stands for a result of length 1.

  function Cut(s: string, sep: char): (r: Option<(string, string)>) {
    if s == [] then None
    else if s[0] == sep then Some(([], s[1..]))
    else match Cut(s[1..], sep)
      case None => None
      case Some((before, after)) => Some(([s[0]] + before, after))
  }

  /** Cutting finds the first separator: the text splits there, with no separator before it. */
  lemma {:induction false} CutCorrect(s: string, sep: char)
    ensures Cut(s, sep).None? <==> sep !in s
    ensures Cut(s, sep).Some? ==>
      var (before, after) := Cut(s, sep).value;
      sep !in before && s == before + [sep] + after
  {
    if s != [] {
      assert s == [s[0]] + s[1..];
      CutCorrect(s[1..], sep);
    }
  }

  lemma {:induction false} CutJoined(before: string, sep: char, after: string)
    requires sep !in before
    ensures Cut(before + [sep] + after, sep) == Some((before, after))
  {
    var s := before + [sep] + after;
    if before != [] {
      CutJoined(before[1..], sep, after);
      assert s[1..] == before[1..] + [sep] + after;
      assert before == [before[0]] + before[1..];
    } else {
      assert s[1..] == after;
    }
  }

  // strings.Split and strings.Join with a one-character separator.

  function Split(s: string, sep: char): (parts: seq<string>)
    ensures |parts| >= 1
    decreases |s|
  {
    match Cut(s, sep)
    case None => [s]
    case Some((before, after)) =>
      CutCorrect(s, sep);
      [before] + Split(after, sep)
  }

  function Join(parts: seq<string>, sep: char): (s: string) {
    if parts == [] then []
    else if |parts| == 1 then parts[0]
    else parts[0] + [sep] + Join(parts[1..], sep)
  }

  ghost predicate Free(parts: seq<string>, c: char) {
    forall p :: p in parts ==> c !in p
  }

  lemma {:induction false} JoinSplit(s: string, sep: char)
    ensures Join(Split(s, sep), sep) == s
    ensures Free(Split(s, sep), sep)
    ensures |Split(s, sep)| == 1 ==> Split(s, sep)[0] == s
    decreases |s|
  {
    CutCorrect(s, sep);
    match Cut(s, sep)
    case None =>
    case Some((before, after)) =>
      JoinSplit(after, sep);
      assert Split(s, sep)[1..] == Split(after, sep);
  }

  lemma {:induction false} SplitJoin(parts: seq<string>, sep: char)
    requires parts != [] && Free(parts, sep)
    ensures Split(Join(parts, sep), sep) == parts
  {
    if |parts| == 1 {
      CutCorrect(parts[0], sep);
      assert parts == [parts[0]];
    } else {
      CutJoined(parts[0], sep, Join(parts[1..], sep));
      SplitJoin(parts[1..], sep);
      assert parts == [parts[0]] + parts[1..];
    }
  }

  /** Joining is injective on nonempty lists whose parts do not contain the separator. */
  lemma JoinInjective(a: seq<string>, b: seq<string>, sep: char)
    requires a != [] && b != [] && Free(a, sep) && Free(b, sep)
    requires Join(a, sep) == Join(b, sep)
    ensures a == b
  {
    SplitJoin(a, sep);
    SplitJoin(b, sep);
  }

  lemma {:induction false} JoinFree(parts: seq<string>, sep: char, c: char)
    requires Free(parts, c) && c != sep
    ensures c !in Join(parts, sep)
  {
    if |parts| > 1 {
      JoinFree(parts[1..], sep, c);
    }
  }

  predicate HasSuffix(s: string, suffix: string) {
    |suffix| <= |s| && s[|s| - |suffix|..] == suffix
  }

  // strconv.Itoa and strconv.Atoi on 64-bit integers.

  const MinInt: int := -0x8000_0000_0000_0000
  const MaxInt: int := 0x7fff_ffff_ffff_ffff

  function DigitChar(d: nat): char
    requires d < 10
  {
    '0' + d as char
  }

  predicate IsDigit(c: char) { '0' <= c <= '9' }

  function Digits(n: nat): (s: string)
    ensures |s| >= 1 && forall c :: c in s ==> IsDigit(c)
  {
    if n < 10 then [DigitChar(n)] else Digits(n / 10) + [DigitChar(n % 10)]
  }

  function Itoa(n: int): (s: string) {
    if n < 0 then "-" + Digits(-n) else Digits(n)
  }

  predicate AllDigits(s: string) { |s| >= 1 && forall c :: c in s ==> IsDigit(c) }

  function Value(s: string): (n: nat)
    requires forall c :: c in s ==> IsDigit(c)
  {
    if s == [] then 0
    else
      assert IsDigit(s[|s| - 1]);
      10 * Value(s[..|s| - 1]) + (s[|s| - 1] - '0') as nat
  }

  /** An optional sign, at least one decimal digit, and a value that fits: anything else is an error. */
  function Atoi(s: string): (r: Option<int>)
    ensures r.Some? ==> MinInt <= r.value <= MaxInt
  {
    var signed := s != [] && (s[0] == '+' || s[0] == '-');
    var body := if signed then s[1..] else s;
    if !AllDigits(body) then None
    else
      var v: int := Value(body);
      var n := if signed && s[0] == '-' then -v else v;
      if MinInt <= n <= MaxInt then Some(n) else None
  }

  lemma {:induction false} ValueDigits(n: nat)
    ensures Value(Digits(n)) == n
  {
    if n >= 10 {
      ValueDigits(n / 10);
      var s := Digits(n);
      assert s[..|s| - 1] == Digits(n / 10);
    }
  }

  /** Reading back a printed integer gives it, exactly when it fits in 64 bits. */
  lemma AtoiItoa(n: int)
    ensures Atoi(Itoa(n)) == if MinInt <= n <= MaxInt then Some(n) else None
  {
    var s := Itoa(n);
    if n < 0 {
      assert s[1..] == Digits(-n);
      ValueDigits(-n);
    } else {
      assert IsDigit(s[0]);
      ValueDigits(n);
    }
  }

  /** The number a printed integer stands for. */
  ghost function Denoted(s: string): int
    requires s != [] && forall i :: 1 <= i < |s| ==> IsDigit(s[i])
    requires s[0] == '-' || IsDigit(s[0])
  {
    if s[0] == '-' then -(Value(s[1..]) as int) else Value(s)
  }

  lemma ItoaDenotes(n: int)
    ensures var s := Itoa(n);
      s != [] && (forall i :: 1 <= i < |s| ==> IsDigit(s[i])) && (s[0] == '-' || IsDigit(s[0])) && Denoted(s) == n
  {
    var s := Itoa(n);
    if n < 0 {
      assert s[1..] == Digits(-n);
      ValueDigits(-n);
    } else {
      assert IsDigit(s[0]);
      ValueDigits(n);
    }
  }

  lemma ItoaInjective(m: int, n: int)
    requires Itoa(m) == Itoa(n)
    ensures m == n
  {
    ItoaDenotes(m);
    ItoaDenotes(n);
  }

  lemma ItoaFree(n: int, c: char)
    requires c != '-' && !IsDigit(c)
    ensures c !in Itoa(n)
  {}
}
