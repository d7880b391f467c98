/** Block and stack ids: `IdGenerator` (Build.kt).  In deterministic mode an id is the
    base-62 spelling of a running counter, least significant digit first; otherwise
    it is a string of random characters. */
module Ids {

  /** `count` consecutive characters starting at `first`. */
  function CharRange(first: char, count: nat): (s: string)
    requires first as int + count <= 0xD800
    ensures |s| == count
    ensures forall i | 0 <= i < count :: s[i] as int == first as int + i
  {
    if count == 0 then "" else CharRange(first, count - 1) + [(first as int + count - 1) as char]
  }

  /** The 62 id characters: `a`-`z`, then `A`-`Z`, then `0`-`9`. */
  const ALLOWED_CHARS: string := CharRange('a', 26) + CharRange('A', 26) + CharRange('0', 10)

  /** Position of an id character in `ALLOWED_CHARS`. */
  function DigitValue(c: char): nat
  {
    if 'a' <= c <= 'z' then c as nat - 'a' as nat
    else if 'A' <= c <= 'Z' then c as nat - 'A' as nat + 26
    else if '0' <= c <= '9' then c as nat - '0' as nat + 52
    else 0
  }

  /** Character `d` of `ALLOWED_CHARS`, computed from its position. */
  function Digit(d: nat): char
    requires d < 62
  {
    if d < 26 then ('a' as int + d) as char
    else if d < 52 then ('A' as int + d - 26) as char
    else ('0' as int + d - 52) as char
  }

  lemma DigitIsAllowed(d: nat)
    requires d < 62
    ensures |ALLOWED_CHARS| == 62 && Digit(d) == ALLOWED_CHARS[d]
    ensures DigitValue(Digit(d)) == d
  {
  }

  /** Base-62 spelling of `n`, least significant digit first (the do-while of `makeId`). */
  function Base62(n: nat): string
  {
    [Digit(n % 62)] + (if n / 62 > 0 then Base62(n / 62) else "")
  }

  /** What the do-while still appends for a residue: nothing once it is 0. */
  function Digits(residue: nat): string
  {
    if residue == 0 then "" else Base62(residue)
  }

  /** Reads a least-significant-first base-62 spelling back as a number. */
  function FromBase62(s: string): nat
  {
    if s == [] then 0 else DigitValue(s[0]) + 62 * FromBase62(s[1..])
  }

  /** Every id is non-empty and uses only id characters. */
  lemma {:induction false} Base62Alphabet(n: nat)
    ensures |Base62(n)| >= 1
    ensures forall c | c in Base62(n) :: c in ALLOWED_CHARS
    decreases n
  {
    DigitIsAllowed(n % 62);
    if n / 62 > 0 {
      Base62Alphabet(n / 62);
      assert Base62(n) == [Digit(n % 62)] + Base62(n / 62);
    }
  }

  /** Reading an id back gives its counter value. */
  lemma {:induction false} Base62RoundTrip(n: nat)
    ensures FromBase62(Base62(n)) == n
    decreases n
  {
    var s := Base62(n);
    var tail := if n / 62 > 0 then Base62(n / 62) else "";
    assert s == [Digit(n % 62)] + tail;
    assert s[1..] == tail;
    if n / 62 > 0 {
      Base62RoundTrip(n / 62);
    }
    assert FromBase62(tail) == n / 62;
    calc {
      FromBase62(s);
      DigitValue(s[0]) + 62 * FromBase62(s[1..]);
      n % 62 + 62 * (n / 62);
    }
  }

  /** Distinct counter values give distinct ids. */
  lemma Base62Injective(m: nat, n: nat)
    ensures Base62(m) == Base62(n) <==> m == n
  {
    Base62RoundTrip(m);
    Base62RoundTrip(n);
  }

  function Pow62(k: nat): (p: nat)
    ensures p >= 1
  {
    if k == 0 then 1 else 62 * Pow62(k - 1)
  }

  /** A number below 62^k has at most k base-62 digits. */
  lemma {:induction false} Base62Length(n: nat, k: nat)
    requires 1 <= k && n < Pow62(k)
    ensures |Base62(n)| <= k
    decreases k
  {
    if n / 62 > 0 {
      assert n / 62 < Pow62(k - 1);
      Base62Length(n / 62, k - 1);
    }
  }

  /** Every non-negative 32-bit counter value gives an id of at most 6 characters. */
  lemma Base62OfIntCounter(n: nat)
    requires n < 0x8000_0000
    ensures 1 <= |Base62(n)| <= 6
  {
    assert Pow62(6) == 56_800_235_584;
    Base62Length(n, 6);
    Base62Alphabet(n);
  }

  /** `makeRandomId`: each random byte (a signed value in -128..127) picks
      `ALLOWED_CHARS[b.mod(62)]`; `mod` is the non-negative remainder. */
  function RandomIdOf(bytes: seq<int>): (id: string)
    ensures |id| == |bytes|
    ensures forall i | 0 <= i < |bytes| :: id[i] == ALLOWED_CHARS[bytes[i] % 62]
  {
    seq(|bytes|, i requires 0 <= i < |bytes| => ALLOWED_CHARS[bytes[i] % 62])
  }

  predicate IsByte(b: int) { -128 <= b < 128 }

  class IdGenerator {
    var currentIdIdx: nat
    var isModifying: bool

    constructor ()
      ensures currentIdIdx == 0 && isModifying
    {
      currentIdIdx := 0;
      isModifying := true;
    }

    /** `makeId`: the counter's base-62 spelling in deterministic mode (the counter
        then moves on by one), a 16-character random id otherwise. */
    method MakeId() returns (id: string)
      modifies this
      ensures isModifying == old(isModifying)
      ensures !isModifying ==> id == Base62(old(currentIdIdx)) && currentIdIdx == old(currentIdIdx) + 1
      ensures isModifying ==> |id| == 16 && currentIdIdx == old(currentIdIdx)
      ensures |id| >= 1 && forall c | c in id :: c in ALLOWED_CHARS
    {
      if !isModifying {
        id := SpellCounter(currentIdIdx);
        Base62Alphabet(currentIdIdx);
        currentIdIdx := currentIdIdx + 1;
      } else {
        id := MakeRandomId(16);
      }
    }

    /** The do-while loop of `makeId`: emits `residue % 62`, divides by 62, and stops
        once the residue is zero. */
    static method SpellCounter(counter: nat) returns (name: string)
      ensures name == Base62(counter)
    {
      var residue := counter;
      name := "";
      DigitIsAllowed(residue % 62);
      name := name + [ALLOWED_CHARS[residue % 62]];
      residue := residue / 62;
      assert name + Digits(residue) == Base62(counter);
      while residue > 0
        invariant name + Digits(residue) == Base62(counter)
        decreases residue
      {
        DigitIsAllowed(residue % 62);
        assert Digits(residue) == [ALLOWED_CHARS[residue % 62]] + Digits(residue / 62);
        name := name + [ALLOWED_CHARS[residue % 62]];
        residue := residue / 62;
      }
    }

    /** `makeRandomId(length)`: `length` random bytes mapped into the id alphabet. */
    method MakeRandomId(length: nat) returns (id: string)
      ensures |id| == length
      ensures forall c | c in id :: c in ALLOWED_CHARS
    {
      assert forall b | b in seq(length, _ => 0) :: IsByte(b);
      var bytes: seq<int> :| |bytes| == length && forall b | b in bytes :: IsByte(b);
      id := RandomIdOf(bytes);
    }
  }
}
