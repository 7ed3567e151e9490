/** The keys of the retry maps: the decimal block height followed by the decimal request hash
    (common/requests_queue.go), read back as one big integer when a batch is sorted. */
module DecimalKeys {
  import opened Common

  function Digit(d: int): char
    requires 0 <= d < 10
  {
    (48 + d) as char
  }

  function DigitValue(c: char): int {
    c as int - 48
  }

  predicate AllDigits(s: string) {
    forall i :: 0 <= i < |s| ==> 0 <= DigitValue(s[i]) < 10
  }

  /** big.Int.String and strconv.FormatInt of a natural number. */
  function Decimal(n: nat): (s: string)
    ensures |s| >= 1 && AllDigits(s)
  {
    if n < 10 then [Digit(n)] else Decimal(n / 10) + [Digit(n % 10)]
  }

  function FormatInt(n: int): string {
    if n < 0 then "-" + Decimal(-n) else Decimal(n)
  }

  function ParseDigits(s: string): int {
    if s == "" then 0 else 10 * ParseDigits(s[..|s| - 1]) + DigitValue(s[|s| - 1])
  }

  /** big.Int.SetString(s, 10) on a printed number. */
  function Parse(s: string): int {
    if s != "" && s[0] == '-' then -ParseDigits(s[1..]) else ParseDigits(s)
  }

  /** Index: FormatInt(height) followed by the hash in decimal. */
  function Key(height: int, hash: nat): string {
    FormatInt(height) + Decimal(hash)
  }

  /** No leading zero, unless the string is a single digit. */
  predicate Canonical(s: string) {
    AllDigits(s) && s != "" && (|s| == 1 || s[0] != '0')
  }

  lemma {:induction false} DecimalCanonical(n: nat)
    ensures Canonical(Decimal(n)) && ParseDigits(Decimal(n)) == n
    ensures Decimal(n)[0] == '0' <==> n == 0
  {
    if n >= 10 {
      DecimalCanonical(n / 10);
      assert Decimal(n)[..|Decimal(n)| - 1] == Decimal(n / 10);
    } else {
      assert Decimal(n)[..0] == "";
    }
  }

  lemma {:induction false} ParseDigitsBounds(s: string)
    requires AllDigits(s)
    ensures 0 <= ParseDigits(s) < Pow10(|s|)
    ensures s != "" && s[0] != '0' ==> ParseDigits(s) >= Pow10(|s| - 1)
  {
    if s != "" {
      ParseDigitsBounds(s[..|s| - 1]);
    }
  }

  /** A canonical string is the printing of the number it reads as. */
  lemma {:induction false} CanonicalIsPrinted(s: string)
    requires Canonical(s)
    ensures ParseDigits(s) >= 0 && Decimal(ParseDigits(s)) == s
  {
    ParseDigitsBounds(s);
    var init, last := s[..|s| - 1], s[|s| - 1];
    assert s == init + [last];
    if |s| > 1 {
      CanonicalIsPrinted(init);
      ParseDigitsBounds(init);
      if |init| > 1 {
        assert Pow10(|init| - 1) >= 1;
      }
      assert ParseDigits(init) >= 1 by {
        assert init[0] != '0';
      }
      var n := ParseDigits(s);
      assert n / 10 == ParseDigits(init) && n % 10 == DigitValue(last);
    } else {
      assert init == "";
    }
  }

  lemma ShiftDigit(a: int, p: int, c: int, d: int)
    ensures 10 * (a * p + c) + d == a * (10 * p) + (10 * c + d)
  {
  }

  lemma {:induction false} ParseConcat(a: string, b: string)
    requires AllDigits(a) && AllDigits(b)
    ensures ParseDigits(a + b) == ParseDigits(a) * Pow10(|b|) + ParseDigits(b)
  {
    if b == "" {
      assert a + b == a;
    } else {
      var c := b[..|b| - 1];
      ParseConcat(a, c);
      assert (a + b)[..|a + b| - 1] == a + c && (a + b)[|a + b| - 1] == b[|b| - 1];
      ShiftDigit(ParseDigits(a), Pow10(|c|), ParseDigits(c), DigitValue(b[|b| - 1]));
    }
  }

  /** The number a key is sorted by. */
  function KeyValue(height: int, hash: nat): int {
    if height < 0 then -Shifted(-height, hash) else Shifted(height, hash)
  }

  function Shifted(n: nat, hash: nat): int {
    n * Pow10(|Decimal(hash)|) + hash
  }

  lemma DigitsOf(n: nat, hash: nat)
    ensures var digits := Decimal(n) + Decimal(hash);
            && AllDigits(digits) && |digits| >= 2
            && ParseDigits(digits) == Shifted(n, hash)
            && (n == 0 ==> digits == "0" + Decimal(hash) && Shifted(n, hash) == hash)
            && (n > 0 ==> Canonical(digits) && ParseDigits(digits) >= 1)
  {
    DecimalCanonical(n);
    DecimalCanonical(hash);
    ParseConcat(Decimal(n), Decimal(hash));
    assert (Decimal(n) + Decimal(hash))[0] == Decimal(n)[0];
    if n > 0 {
      MulMono(1, n, Pow10(|Decimal(hash)|));
    }
  }

  lemma ParseUnsigned(s: string)
    requires s != "" && AllDigits(s)
    ensures Parse(s) == ParseDigits(s)
  {
    assert 0 <= DigitValue(s[0]);
  }

  lemma AppendSigned(a: string, b: string)
    ensures ("-" + a) + b == "-" + (a + b)
    ensures ("-" + (a + b))[1..] == a + b
    ensures Parse("-" + (a + b)) == -ParseDigits(a + b)
  {
    var s := a + b;
    assert ("-" + s)[1..] == s;
  }

  lemma SignedKey(n: int, hash: nat)
    requires n > 0
    ensures Key(-n, hash) == ("-" + Decimal(n)) + Decimal(hash)
  {
  }

  lemma PositiveKeyReads(n: nat, hash: nat)
    ensures Key(n, hash) == Decimal(n) + Decimal(hash) && Parse(Key(n, hash)) == Shifted(n, hash)
    ensures n == 0 ==> Key(n, hash) == "0" + Decimal(hash) && Shifted(n, hash) == hash
    ensures n > 0 ==> Canonical(Key(n, hash)) && Shifted(n, hash) >= 1
  {
    DigitsOf(n, hash);
    ParseUnsigned(Key(n, hash));
  }

  lemma NegativeKeyReads(n: int, hash: nat)
    requires n > 0
    ensures Key(-n, hash) == "-" + (Decimal(n) + Decimal(hash))
    ensures Key(-n, hash)[1..] == Decimal(n) + Decimal(hash) && Canonical(Decimal(n) + Decimal(hash))
    ensures Parse(Key(-n, hash)) == -Shifted(n, hash) && Shifted(n, hash) >= 1
  {
    DigitsOf(n, hash);
    SignedKey(n, hash);
    AppendSigned(Decimal(n), Decimal(hash));
  }

  lemma KeyReads(height: int, hash: nat)
    ensures Parse(Key(height, hash)) == KeyValue(height, hash)
    ensures height > 0 ==> Canonical(Key(height, hash)) && KeyValue(height, hash) >= 1
    ensures height < 0 ==> Key(height, hash)[0] == '-' && Canonical(Key(height, hash)[1..]) && KeyValue(height, hash) <= -1
    ensures height == 0 ==> Key(height, hash) == "0" + Decimal(hash) && KeyValue(height, hash) == hash
  {
    if height < 0 {
      NegativeKeyReads(-height, hash);
    } else {
      PositiveKeyReads(height, hash);
    }
  }

  lemma CanonicalInjective(a: string, b: string)
    requires Canonical(a) && Canonical(b)
    ensures ParseDigits(a) == ParseDigits(b) ==> a == b
  {
    CanonicalIsPrinted(a);
    CanonicalIsPrinted(b);
  }

  /** Away from height 0 a key and the number it reads as determine each other, so two different
      keys never tie. */
  lemma NonZeroHeightsNeverTie(h1: int, x1: nat, h2: int, x2: nat)
    requires h1 != 0 && h2 != 0
    ensures Parse(Key(h1, x1)) == Parse(Key(h2, x2)) <==> Key(h1, x1) == Key(h2, x2)
  {
    KeyReads(h1, x1);
    KeyReads(h2, x2);
    var a, b := Key(h1, x1), Key(h2, x2);
    if h1 > 0 && h2 > 0 {
      CanonicalInjective(a, b);
    } else if h1 < 0 && h2 < 0 {
      CanonicalInjective(a[1..], b[1..]);
      assert a == "-" + a[1..] && b == "-" + b[1..];
    }
  }

  /** Exactly when two different keys read as the same number: one of them has height 0 and its hash
      is the value of the other. */
  lemma TieIff(h1: int, x1: nat, h2: int, x2: nat)
    ensures (Key(h1, x1) != Key(h2, x2) && Parse(Key(h1, x1)) == Parse(Key(h2, x2)))
            <==> (h1 == 0 && h2 != 0 && x1 == KeyValue(h2, x2)) || (h2 == 0 && h1 != 0 && x2 == KeyValue(h1, x1))
  {
    KeyReads(h1, x1);
    KeyReads(h2, x2);
    if h1 != 0 && h2 != 0 {
      NonZeroHeightsNeverTie(h1, x1, h2, x2);
    }
  }

  /** Different requests can share a key, because no separator is printed between height and hash. */
  lemma KeysCollide()
    ensures Key(1, 23) == Key(12, 3) == "123"
  {
    assert Decimal(23) == Decimal(2) + Decimal(3);
    assert Decimal(12) == Decimal(1) + Decimal(2);
    assert "1" + "23" == "12" + "3" == "123";
  }

  /** Requests with positive heights share a key exactly when these numbers agree. */
  lemma SameKeyIff(h1: int, x1: nat, h2: int, x2: nat)
    requires 0 < h1 && 0 < h2
    ensures Key(h1, x1) == Key(h2, x2)
            <==> h1 * Pow10(|Decimal(x1)|) + x1 == h2 * Pow10(|Decimal(x2)|) + x2
    ensures |Decimal(x1)| == |Decimal(x2)| && Key(h1, x1) == Key(h2, x2) ==> h1 == h2 && x1 == x2
  {
    KeyReads(h1, x1);
    KeyReads(h2, x2);
    NonZeroHeightsNeverTie(h1, x1, h2, x2);
    if |Decimal(x1)| == |Decimal(x2)| && Key(h1, x1) == Key(h2, x2) {
      OlderFirst(h1, x1, h2, x2);
      OlderFirst(h2, x2, h1, x1);
    }
  }

  /** Keys are sorted by height first exactly between hashes of the same number of digits. */
  lemma OlderFirst(h1: int, x1: nat, h2: int, x2: nat)
    requires 0 < h1 && 0 < h2
    requires |Decimal(x1)| == |Decimal(x2)|
    ensures h1 < h2 ==> Parse(Key(h1, x1)) < Parse(Key(h2, x2))
    ensures h1 == h2 ==> Parse(Key(h1, x1)) - Parse(Key(h2, x2)) == x1 - x2
  {
    KeyReads(h1, x1);
    KeyReads(h2, x2);
    DecimalCanonical(x1);
    DecimalCanonical(x2);
    ParseDigitsBounds(Decimal(x1));
    ParseDigitsBounds(Decimal(x2));
    var p := Pow10(|Decimal(x1)|);
    if h1 < h2 {
      HigherWins(h1, x1, h2, x2, p);
    }
  }

  lemma HigherWins(h1: int, x1: int, h2: int, x2: int, p: int)
    requires 0 < h1 < h2 && 0 <= x1 < p && 0 <= x2
    ensures h1 * p + x1 < h2 * p + x2
  {
    MulMono(h1 + 1, h2, p);
  }

  /** A shorter hash can put a younger request before an older one. */
  lemma YoungerMayComeFirst()
    ensures Parse(Key(2, 5)) < Parse(Key(1, 50))
  {
    KeyReads(2, 5);
    KeyReads(1, 50);
    assert Decimal(50) == Decimal(5) + Decimal(0);
  }
}
