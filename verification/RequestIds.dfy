/** The printed form of request identities: client number, `#`, request number. */
module RequestIds {

  // ---------- printing and reading numbers ----------

  const MAX_INT64 := 0x7FFF_FFFF_FFFF_FFFF
  const MIN_INT64 := -0x8000_0000_0000_0000

  predicate IsInt64(n: int) {
    MIN_INT64 <= n <= MAX_INT64
  }

  predicate IsDigit(c: char) {
    '0' <= c <= '9'
  }

  predicate AllDigits(s: string) {
    forall i :: 0 <= i < |s| ==> IsDigit(s[i])
  }

  function Digit(d: nat): (c: char)
    requires d < 10
    ensures IsDigit(c) && DigitValue(c) == d
  {
    ['0', '1', '2', '3', '4', '5', '6', '7', '8', '9'][d]
  }

  function DigitValue(c: char): nat
    requires IsDigit(c)
  {
    c as nat - '0' as nat
  }

  function Digits(n: nat): (s: string)
    ensures s != [] && AllDigits(s)
  {
    if n < 10 then [Digit(n)] else Digits(n / 10) + [Digit(n % 10)]
  }

  function Itoa(n: int): string {
    if n < 0 then "-" + Digits(-n) else Digits(n)
  }

  /** The value of a number without sign, or nothing if it is not one. */
  datatype Parsed = Bad | Number(n: nat)

  function ParseDigits(s: string): Parsed {
    if s == [] || !IsDigit(s[|s| - 1]) then Bad
    else
      var d := DigitValue(s[|s| - 1]);
      if |s| == 1 then Number(d)
      else
        match ParseDigits(s[..|s| - 1])
        case Bad => Bad
        case Number(n) => Number(10 * n + d)
  }

  lemma {:induction false} DigitsParse(n: nat)
    ensures ParseDigits(Digits(n)) == Number(n)
  {
    if n >= 10 {
      DigitsParse(n / 10);
      assert Digits(n)[..|Digits(n)| - 1] == Digits(n / 10);
    }
  }

  function Clip(n: int): int {
    if n > MAX_INT64 then MAX_INT64 else if n < MIN_INT64 then MIN_INT64 else n
  }

  /** What the code makes of a piece of text: malformed text reads as zero, and numbers out of
      range as the nearest one in range, since errors are ignored. */
  function Atoi(s: string): int {
    var signed := s != [] && (s[0] == '-' || s[0] == '+');
    match ParseDigits(if signed then s[1..] else s)
    case Bad => 0
    case Number(n) => Clip(if signed && s[0] == '-' then 0 - n as int else n)
  }

  /** Reading a printed number gives it back, or the nearest one in range. */
  lemma ItoaAtoi(n: int)
    ensures Atoi(Itoa(n)) == if n > MAX_INT64 then MAX_INT64 else if n < MIN_INT64 then MIN_INT64 else n
  {
    DigitsParse(if n < 0 then -n else n);
    if n < 0 {
      assert Itoa(n)[1..] == Digits(-n);
    } else {
      assert IsDigit(Digits(n)[0]);
    }
  }

  lemma {:induction false} ParseDigitsBad(s: string)
    ensures ParseDigits(s) == Bad <==> s == [] || !AllDigits(s)
  {
    if s != [] && IsDigit(s[|s| - 1]) {
      var init := s[..|s| - 1];
      ParseDigitsBad(init);
      assert AllDigits(s) <==> AllDigits(init);
    }
  }

  /** Text that is not a number, with or without sign, reads as zero; a plus sign is ignored. */
  lemma AtoiOther(s: string)
    ensures (s == [] || !AllDigits(s)) && (s == [] || (s[0] != '-' && s[0] != '+')) ==> Atoi(s) == 0
    ensures s == [] || !AllDigits(s) ==> Atoi("-" + s) == 0 && Atoi("+" + s) == 0
    ensures s != [] && AllDigits(s) ==> Atoi("+" + s) == Atoi(s)
  {
    ParseDigitsBad(s);
    assert ("-" + s)[1..] == s && ("+" + s)[1..] == s;
  }

  // ---------- identities ----------

  const SEPARATOR := '#'

  function Print(client: int, number: int): string {
    Itoa(client) + [SEPARATOR] + Itoa(number)
  }

  /** The position of the first separator at or after `from`, or the end. */
  function NextSeparator(s: string, from: nat): (i: nat)
    requires from <= |s|
    ensures from <= i <= |s| && (forall k :: from <= k < i ==> s[k] != SEPARATOR)
    ensures i < |s| ==> s[i] == SEPARATOR
    decreases |s| - from
  {
    if from == |s| || s[from] == SEPARATOR then from else NextSeparator(s, from + 1)
  }

  datatype Id = Malformed | Id(client: int, number: int)

  /** The first two fields; with fewer the code would stop with an index error. */
  function ParseId(s: string): Id {
    var i := NextSeparator(s, 0);
    if i == |s| then Malformed
    else Id(Atoi(s[..i]), Atoi(s[i + 1..NextSeparator(s, i + 1)]))
  }

  predicate Plain(s: string) {
    forall i :: 0 <= i < |s| ==> s[i] != SEPARATOR
  }

  lemma ItoaPlain(n: int)
    ensures Plain(Itoa(n))
  {
    if n < 0 {
      assert AllDigits(Digits(-n));
    } else {
      assert AllDigits(Digits(n));
    }
  }

  lemma TwoFields(a: string, b: string)
    requires Plain(a) && Plain(b)
    ensures ParseId(a + [SEPARATOR] + b) == Id(Atoi(a), Atoi(b))
  {
    var s := a + [SEPARATOR] + b;
    assert s[|a|] == SEPARATOR;
    assert forall k :: 0 <= k < |a| ==> s[k] == a[k];
    assert forall k :: |a| < k < |s| ==> s[k] == b[k - |a| - 1];
    var i := NextSeparator(s, 0);
    assert i == |a|;
    var j := NextSeparator(s, i + 1);
    assert j == |s|;
    assert s[..i] == a && s[i + 1..j] == b;
  }

  lemma {:induction false} SeparatorIff(s: string, from: nat)
    requires from <= |s|
    ensures NextSeparator(s, from) == |s| <==> Plain(s[from..])
    decreases |s| - from
  {
    if from < |s| {
      SeparatorIff(s, from + 1);
      assert s[from..] == [s[from]] + s[from + 1..];
    }
  }

  /** An identity without separator cannot be read; of one with more fields the first two are. */
  lemma FieldsOf(a: string, b: string, rest: string)
    requires Plain(a) && Plain(b)
    ensures ParseId(a) == Malformed
    ensures ParseId(a + [SEPARATOR] + b + [SEPARATOR] + rest) == Id(Atoi(a), Atoi(b))
  {
    assert a[0..] == a;
    SeparatorIff(a, 0);
    var s := a + [SEPARATOR] + b + [SEPARATOR] + rest;
    assert s[|a|] == SEPARATOR && s[|a| + 1 + |b|] == SEPARATOR;
    assert forall k :: 0 <= k < |a| ==> s[k] == a[k];
    assert forall k :: |a| < k < |a| + 1 + |b| ==> s[k] == b[k - |a| - 1];
    var i := NextSeparator(s, 0);
    assert i == |a|;
    var j := NextSeparator(s, i + 1);
    assert j == |a| + 1 + |b|;
    assert s[..i] == a && s[i + 1..j] == b;
  }

  /** Reading a printed identity gives it back, for all numbers the machine has. */
  lemma PrintParse(client: int, number: int)
    requires IsInt64(client) && IsInt64(number)
    ensures ParseId(Print(client, number)) == Id(client, number)
  {
    ItoaPlain(client);
    ItoaPlain(number);
    TwoFields(Itoa(client), Itoa(number));
    ItoaAtoi(client);
    ItoaAtoi(number);
  }

  /** Different requests have different identities. */
  lemma PrintInjective(c: int, n: int, c': int, n': int)
    requires IsInt64(c) && IsInt64(n) && IsInt64(c') && IsInt64(n')
    ensures Print(c, n) == Print(c', n') ==> c == c' && n == n'
  {
    PrintParse(c, n);
    PrintParse(c', n');
  }

  /** The part of a client that numbers its requests. */
  class Clerk {
    const me: int
    var seqNo: int

    constructor (me: int)
      ensures this.me == me && seqNo == 0
    {
      this.me := me;
      seqNo := 0;
    }

    /** The next identity; it reads back as the client and the number one up. */
    method GetId() returns (id: string)
      requires IsInt64(me) && 0 <= seqNo < MAX_INT64
      modifies this
      ensures seqNo == old(seqNo) + 1 && id == Print(me, seqNo)
      ensures ParseId(id) == Id(me, old(seqNo) + 1)
    {
      seqNo := seqNo + 1;
      id := Itoa(me) + "#" + Itoa(seqNo);
      PrintParse(me, seqNo);
    }
  }
}
