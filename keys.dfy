/**
 * The literal cache key strings of the terms-of-service gate, and the decimal
 * rendering of a user id that the staff index embeds in them.
 */
module Keys {

  /** The one unversioned counter; it lives at the cache's default version. */
  const KeyVersionKey: string := "django:tos:key_version"

  const SkipPrefix: string := "django:tos:skip_tos_check:"

  const AgreedPrefix: string := "django:tos:agreed:"

  /** `django:tos:skip_tos_check:<id>`: a cached "this user may bypass the check". */
  function SkipKey(userId: string): string
  {
    SkipPrefix + userId
  }

  /** `django:tos:agreed:<id>`: a cached "this user agreed to the active terms". */
  function AgreedKey(userId: string): string
  {
    AgreedPrefix + userId
  }

  /** The three key families never collide: they differ right after `django:tos:`. */
  lemma KeyFamiliesDisjoint(a: string, b: string)
    ensures SkipKey(a) != AgreedKey(b)
    ensures SkipKey(a) != KeyVersionKey
    ensures AgreedKey(b) != KeyVersionKey
  {
    assert SkipKey(a)[11] == 's';
    assert AgreedKey(b)[11] == 'a';
    assert KeyVersionKey[11] == 'k';
  }

  lemma SkipKeyInjective(a: string, b: string)
    ensures SkipKey(a) == SkipKey(b) ==> a == b
  {
    if SkipKey(a) == SkipKey(b) {
      assert a == SkipKey(a)[|SkipPrefix|..];
      assert b == SkipKey(b)[|SkipPrefix|..];
    }
  }

  lemma AgreedKeyInjective(a: string, b: string)
    ensures AgreedKey(a) == AgreedKey(b) ==> a == b
  {
    if AgreedKey(a) == AgreedKey(b) {
      assert a == AgreedKey(a)[|AgreedPrefix|..];
      assert b == AgreedKey(b)[|AgreedPrefix|..];
    }
  }

  function Digit(d: nat): (c: char)
    requires d < 10
    ensures '0' <= c <= '9'
  {
    (d + '0' as int) as char
  }

  /** Python's `f'{n}'` for a non-negative int: decimal, no leading zeros. */
  function Decimal(n: nat): (s: string)
    ensures 1 <= |s|
    ensures n >= 10 ==> 2 <= |s|
    ensures forall i :: 0 <= i < |s| ==> '0' <= s[i] <= '9'
    decreases n
  {
    if n < 10 then [Digit(n)] else Decimal(n / 10) + [Digit(n % 10)]
  }

  /** Distinct ids give distinct decimal renderings, hence distinct cache keys. */
  lemma {:induction false} DecimalInjective(a: nat, b: nat)
    ensures Decimal(a) == Decimal(b) ==> a == b
    decreases a
  {
    if Decimal(a) == Decimal(b) && 10 <= a && 10 <= b {
      var s := Decimal(a);
      assert s[..|s| - 1] == Decimal(a / 10);
      assert s[..|s| - 1] == Decimal(b / 10);
      assert Digit(a % 10) == s[|s| - 1] == Digit(b % 10);
      DecimalInjective(a / 10, b / 10);
    }
  }

  /** The staff-skip keys of two user ids coincide only when the ids do. */
  lemma SkipKeysOfIdsInjective()
    ensures forall a: nat, b: nat :: SkipKey(Decimal(a)) == SkipKey(Decimal(b)) ==> a == b
  {
    forall a: nat, b: nat | SkipKey(Decimal(a)) == SkipKey(Decimal(b))
      ensures a == b
    {
      SkipKeyInjective(Decimal(a), Decimal(b));
      DecimalInjective(a, b);
    }
  }
}
