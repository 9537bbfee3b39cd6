/** Shared value types: failure carriers, 16-bit arithmetic and the substring test. */
module Basics {

  datatype Option<+T> = None | Some(value: T)

  datatype Result<+T, +E> = Ok(value: T) | Err(error: E)

  /** Rust's `u16`. */
  type U16 = n: nat | n < 0x10000

  /** The cast `as u16`, and also what a `u16` addition leaves in a release build. */
  function Truncate16(n: nat): (r: U16) {
    if n < 0x10000 then n else n % 0x10000
  }

  ghost predicate NoDuplicates<T>(s: seq<T>) {
    forall i, j | 0 <= i < j < |s| :: s[i] != s[j]
  }

  /** `str::contains`: try the pattern at every offset. */
  predicate Contains(text: string, part: string) {
    part <= text || (text != [] && Contains(text[1..], part))
  }

  /** The search finds the pattern exactly when it occurs somewhere. */
  lemma {:induction false} ContainsIffOccurs(text: string, part: string)
    ensures Contains(text, part) <==> exists a: string, b: string :: text == a + part + b
  {
    if part <= text {
      assert text == "" + part + text[|part|..];
    } else if text != [] {
      ContainsIffOccurs(text[1..], part);
      if Contains(text[1..], part) {
        var a: string, b: string :| text[1..] == a + part + b;
        assert text == [text[0]] + a + part + b;
      }
      forall a: string, b: string | text == a + part + b
        ensures Contains(text[1..], part)
      {
        assert a != "";
        assert text[1..] == a[1..] + part + b;
      }
    }
  }
}
