/** Byte strings. Text is modelled by its UTF-8 bytes. */
module ByteStrings {
  newtype byte = x: int | 0 <= x < 256

  type Bytes = seq<byte>

  const NEWLINE: byte := 10

  /** `b"".join(chunks)` */
  function Join(chunks: seq<Bytes>): Bytes {
    if chunks == [] then [] else Join(chunks[..|chunks| - 1]) + chunks[|chunks| - 1]
  }

  lemma {:induction false} JoinConcat(a: seq<Bytes>, b: seq<Bytes>)
    ensures Join(a + b) == Join(a) + Join(b)
  {
    if b == [] {
      assert a + b == a;
    } else {
      hide Join;
      var init, last := b[..|b| - 1], b[|b| - 1];
      JoinConcat(a, init);
      JoinLast(a + init, last);
      JoinLast(init, last);
      assert a + b == a + init + [last] && b == init + [last];
      assert Join(a) + Join(init) + last == Join(a) + (Join(init) + last);
    }
  }

  lemma JoinOne(a: Bytes)
    ensures Join([a]) == a
  {
    assert [a][..0] == [];
  }

  lemma JoinLast(chunks: seq<Bytes>, c: Bytes)
    ensures Join(chunks + [c]) == Join(chunks) + c
  {
    assert (chunks + [c])[..|chunks|] == chunks;
  }

  /** The literal `text`, which must be ASCII to be exact. */
  function Ascii(text: string): Bytes {
    seq(|text|, i requires 0 <= i < |text| => if text[i] as int < 256 then text[i] as int as byte else 63)
  }

  /** Decimal digits of `n`. */
  function Digits(n: nat): (r: Bytes)
    ensures r != [] && forall b :: b in r ==> 48 <= b <= 57
  {
    var last := [(48 + n % 10) as byte];
    if n < 10 then last else Digits(n / 10) + last
  }

  /** The number that decimal digits stand for. */
  function NumberOf(digits: Bytes): int {
    if digits == [] then 0 else 10 * NumberOf(digits[..|digits| - 1]) + digits[|digits| - 1] as int - 48
  }

  /** The digits stand for the number, without a leading zero. */
  lemma {:induction false} DigitsRead(n: nat)
    ensures NumberOf(Digits(n)) == n && (n > 0 ==> Digits(n)[0] != 48) && (n == 0 ==> Digits(n) == [48])
  {
    if n >= 10 {
      DigitsRead(n / 10);
      assert Digits(n)[..|Digits(n)| - 1] == Digits(n / 10);
    } else {
      assert Digits(n)[..0] == [];
    }
  }
}
