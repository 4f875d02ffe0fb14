/** The D-Bus object path of a backend session: printed from its identity, and recognized again. */
module SessionPath {
  import opened Common

  const PATH_PREFIX := "/io/github/pronkproject/Pronk/Backend/Sessions/"

  datatype PathError = InvalidSessionId | ZeroGeneration

  predicate LowerHex(c: char) { '0' <= c <= '9' || 'a' <= c <= 'f' }

  predicate AllLowerHex(s: string) { forall i :: 0 <= i < |s| ==> LowerHex(s[i]) }

  /** A UUID in its canonical lower-case text form. */
  predicate ValidSessionId(s: string) {
    |s| == 36 && forall i :: 0 <= i < 36 ==> if i in {8, 13, 18, 23} then s[i] == '-' else LowerHex(s[i])
  }

  function WithoutDashes(s: string): string {
    if s == [] then [] else (if s[0] == '-' then [] else [s[0]]) + WithoutDashes(s[1..])
  }

  function Digit(n: nat): (c: char)
    requires n < 16
    ensures LowerHex(c)
  {
    if n < 10 then '0' + n as char else 'a' + (n - 10) as char
  }

  /** The `width` lowest hexadecimal digits of a number, most significant first. */
  function Digits(n: nat, width: nat): (s: string)
    ensures |s| == width
  {
    if width == 0 then [] else Digits(n / 16, width - 1) + [Digit(n % 16)]
  }

  function Element(digits: string, number: string): string { "s_" + digits + "_g" + number }

  /** `session_object_path`. */
  function SessionObjectPath(id: string, generation: u64): (r: Result<string, PathError>) {
    if !ValidSessionId(id) then Err(InvalidSessionId)
    else if generation == 0 then Err(ZeroGeneration)
    else Ok(PATH_PREFIX + Element(WithoutDashes(id), Digits(generation, 16)))
  }

  /** What follows the prefix is a session element. */
  predicate ValidElement(e: string) {
    && |e| == 52 && e[..2] == "s_" && e[34..36] == "_g"
    && AllLowerHex(e[2..34]) && AllLowerHex(e[36..])
    && exists i :: 36 <= i < 52 && e[i] != '0'
  }

  /** `validate_session_object_path`. */
  predicate ValidPath(path: string) {
    PATH_PREFIX <= path && ValidElement(path[|PATH_PREFIX|..])
  }

  // ----- Reading the path back -----

  function Value(c: char): (n: nat)
    requires LowerHex(c)
    ensures n < 16 && Digit(n) == c
  {
    if c <= '9' then (c - '0') as nat else (c - 'a') as nat + 10
  }

  function Number(s: string): nat
    requires AllLowerHex(s)
  {
    if s == [] then 0 else Number(s[..|s| - 1]) * 16 + Value(s[|s| - 1])
  }

  function WithDashes(s: string): string
    requires |s| == 32
  {
    s[..8] + "-" + s[8..12] + "-" + s[12..16] + "-" + s[16..20] + "-" + s[20..]
  }

  function IdOf(path: string): string
    requires ValidPath(path)
  {
    WithDashes(path[|PATH_PREFIX|..][2..34])
  }

  function GenerationOf(path: string): nat
    requires ValidPath(path)
  {
    Number(path[|PATH_PREFIX|..][36..])
  }

  // ----- Digits and numbers are inverse -----

  lemma {:induction false} DigitsHex(n: nat, width: nat)
    ensures AllLowerHex(Digits(n, width))
  {
    if width == 0 {
    } else {
      DigitsHex(n / 16, width - 1);
    }
  }

  lemma {:induction false} NumberOfDigits(n: nat, width: nat)
    requires n < Power(16, width)
    ensures AllLowerHex(Digits(n, width)) && Number(Digits(n, width)) == n
  {
    DigitsHex(n, width);
    if width == 0 {
    } else {
      NumberOfDigits(n / 16, width - 1);
      var s := Digits(n, width);
      assert s[..width - 1] == Digits(n / 16, width - 1);
      assert Value(s[width - 1]) == n % 16 by { DigitInjective(Value(s[width - 1]), n % 16); }
    }
  }

  lemma DigitInjective(m: nat, n: nat)
    requires m < 16 && n < 16 && Digit(m) == Digit(n)
    ensures m == n
  {
  }

  lemma {:induction false} DigitsOfNumber(s: string)
    requires AllLowerHex(s)
    ensures Number(s) < Power(16, |s|) && Digits(Number(s), |s|) == s
  {
    if s == [] {
    } else {
      var front, last := s[..|s| - 1], s[|s| - 1];
      DigitsOfNumber(front);
      assert Number(s) / 16 == Number(front) && Number(s) % 16 == Value(last);
      assert s == front + [last];
    }
  }

  lemma {:induction false} ZeroIffZeros(s: string)
    requires AllLowerHex(s)
    ensures Number(s) == 0 <==> forall i :: 0 <= i < |s| ==> s[i] == '0'
  {
    if s == [] {
    } else {
      var n := |s| - 1;
      ZeroIffZeros(s[..n]);
      assert Value(s[n]) == 0 <==> s[n] == '0';
      assert forall i :: 0 <= i < n ==> s[..n][i] == s[i];
    }
  }

  lemma PowerOf16()
    ensures Power(16, 16) == U64_MAX + 1
  {
    assert Power(16, 4) == 0x1_0000;
    assert Power(16, 8) == 0x1_0000_0000;
    assert Power(16, 12) == 0x1_0000_0000_0000;
  }

  // ----- Dashes -----

  lemma Associates(a: string, b: string, c: string)
    ensures a + (b + c) == a + b + c
  {
  }

  lemma {:induction false} StripConcat(s: string, t: string)
    ensures WithoutDashes(s + t) == WithoutDashes(s) + WithoutDashes(t)
  {
    if s == [] {
      assert s + t == t;
    } else {
      var head := if s[0] == '-' then [] else [s[0]];
      StripConcat(s[1..], t);
      assert (s + t)[1..] == s[1..] + t && (s + t)[0] == s[0];
      Associates(head, WithoutDashes(s[1..]), WithoutDashes(t));
    }
  }

  lemma {:induction false} StripHex(s: string)
    requires AllLowerHex(s)
    ensures WithoutDashes(s) == s
  {
    if s == [] {
    } else {
      StripHex(s[1..]);
    }
  }

  lemma StripGroup(front: string, group: string)
    requires AllLowerHex(group)
    ensures WithoutDashes(front + "-" + group) == WithoutDashes(front) + group
  {
    StripConcat(front + "-", group);
    StripConcat(front, "-");
    StripHex(group);
    assert WithoutDashes("-") == "";
  }

  /** Taking the dashes out undoes putting them in. */
  lemma StripWithDashes(s: string)
    requires |s| == 32 && AllLowerHex(s)
    ensures WithoutDashes(WithDashes(s)) == s
  {
    var a := s[..8];
    var b := a + "-" + s[8..12];
    var c := b + "-" + s[12..16];
    var d := c + "-" + s[16..20];
    StripHex(a);
    StripGroup(a, s[8..12]);
    StripGroup(b, s[12..16]);
    StripGroup(c, s[16..20]);
    StripGroup(d, s[20..]);
    assert WithDashes(s) == d + "-" + s[20..];
    assert s[..8] + s[8..12] + s[12..16] + s[16..20] + s[20..] == s;
  }

  lemma WithDashesValid(s: string)
    requires |s| == 32 && AllLowerHex(s)
    ensures ValidSessionId(WithDashes(s))
  {
  }

  /** A valid identifier is its own digits with the dashes put back. */
  lemma IdSplits(id: string) returns (s: string)
    requires ValidSessionId(id)
    ensures |s| == 32 && AllLowerHex(s) && id == WithDashes(s)
  {
    s := id[..8] + id[9..13] + id[14..18] + id[19..23] + id[24..];
    assert s[..8] == id[..8] && s[8..12] == id[9..13] && s[12..16] == id[14..18] && s[16..20] == id[19..23]
        && s[20..] == id[24..];
    assert id == id[..8] + "-" + id[9..13] + "-" + id[14..18] + "-" + id[19..23] + "-" + id[24..];
  }

  // ----- The bijection -----

  /** The parts of a printed element. */
  lemma ElementParts(digits: string, number: string)
    requires |digits| == 32 && |number| == 16
    ensures var e := Element(digits, number);
            |e| == 52 && e[..2] == "s_" && e[2..34] == digits && e[34..36] == "_g" && e[36..] == number
  {
  }

  lemma PrintedParts(id: string, generation: u64) returns (path: string)
    requires ValidSessionId(id) && generation > 0
    ensures SessionObjectPath(id, generation) == Ok(path) && PATH_PREFIX <= path
    ensures |path[|PATH_PREFIX|..]| == 52 && path[|PATH_PREFIX|..][..2] == "s_" && path[|PATH_PREFIX|..][34..36] == "_g"
    ensures AllLowerHex(path[|PATH_PREFIX|..][2..34]) && WithDashes(path[|PATH_PREFIX|..][2..34]) == id
    ensures path[|PATH_PREFIX|..][36..] == Digits(generation, 16)
  {
    var digits := IdSplits(id);
    StripWithDashes(digits);
    var number := Digits(generation, 16);
    var e := Element(digits, number);
    path := PATH_PREFIX + e;
    ElementParts(digits, number);
    assert path[|PATH_PREFIX|..] == e;
  }

  /** What is printed is accepted, and reads back as what was printed; so printing is injective. */
  lemma PrintedReadsBack(id: string, generation: u64)
    requires ValidSessionId(id) && generation > 0
    ensures var r := SessionObjectPath(id, generation);
            r.Ok? && ValidPath(r.value) && IdOf(r.value) == id && GenerationOf(r.value) == generation
  {
    var path := PrintedParts(id, generation);
    PowerOf16();
    NumberOfDigits(generation, 16);
    var number := Digits(generation, 16);
    ZeroIffZeros(number);
    var i :| 0 <= i < 16 && number[i] != '0';
    assert path[|PATH_PREFIX|..][36..][i] == path[|PATH_PREFIX|..][36 + i];
  }

  lemma ElementSplits(e: string)
    requires ValidElement(e)
    ensures e == Element(e[2..34], e[36..])
  {
    assert e == e[..2] + e[2..34] + e[34..36] + e[36..];
  }

  lemma NonzeroNumber(e: string)
    requires ValidElement(e)
    ensures 0 < Number(e[36..]) <= U64_MAX && Digits(Number(e[36..]), 16) == e[36..]
  {
    var number := e[36..];
    DigitsOfNumber(number);
    PowerOf16();
    ZeroIffZeros(number);
    var i :| 36 <= i < 52 && e[i] != '0';
    assert number[i - 36] == e[i];
  }

  /** Every accepted path is printed from exactly one session. */
  lemma AcceptedIsPrinted(path: string)
    requires ValidPath(path)
    ensures ValidSessionId(IdOf(path)) && 0 < GenerationOf(path) <= U64_MAX
    ensures SessionObjectPath(IdOf(path), GenerationOf(path)) == Ok(path)
  {
    var e := path[|PATH_PREFIX|..];
    WithDashesValid(e[2..34]);
    StripWithDashes(e[2..34]);
    NonzeroNumber(e);
    ElementSplits(e);
    assert path == PATH_PREFIX + e;
  }

  /** The validator accepts exactly the paths that are printed, each from one session only. */
  lemma PathBijection(path: string)
    ensures ValidPath(path) <==> exists id: string, g: u64 :: SessionObjectPath(id, g) == Ok(path)
    ensures forall id: string, g: u64, other: string, h: u64 ::
              SessionObjectPath(id, g) == Ok(path) && SessionObjectPath(other, h) == Ok(path) ==> id == other && g == h
  {
    if ValidPath(path) { AcceptedIsPrinted(path); }
    forall id: string, g: u64 | SessionObjectPath(id, g) == Ok(path)
      ensures ValidPath(path) && id == IdOf(path) && g == GenerationOf(path)
    {
      PrintedReadsBack(id, g);
    }
  }
}
