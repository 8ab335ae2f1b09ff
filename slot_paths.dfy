/**
 * The dotted field path `data.slots.slot<L>.prepared.<S>` that addresses one slot of a
 * spellcasting entry in a partial update, and its reading back by the host.
 */
module SlotPaths {
  import opened Wrappers

  /** Where a slot lives: spell level and slot index. */
  datatype SlotAddress = SlotAddress(level: nat, slot: nat)

  const LevelPrefix := "data.slots.slot"
  const SlotInfix := ".prepared."

  predicate IsDigit(c: char) {
    '0' <= c <= '9'
  }

  predicate AllDigits(s: string) {
    forall i :: 0 <= i < |s| ==> IsDigit(s[i])
  }

  function DigitChar(d: nat): (c: char)
    requires d < 10
    ensures IsDigit(c)
  {
    ('0' as int + d) as char
  }

  /** Decimal rendering of a natural number (the source's template-string interpolation). */
  function NatToString(n: nat): (s: string)
    ensures |s| > 0 && AllDigits(s)
    decreases n
  {
    if n < 10 then [DigitChar(n)] else NatToString(n / 10) + [DigitChar(n % 10)]
  }

  /** The value of a string of decimal digits. */
  function DigitsValue(s: string): nat
    requires AllDigits(s)
  {
    if s == [] then 0
    else DigitsValue(s[..|s| - 1]) * 10 + (s[|s| - 1] as int - '0' as int)
  }

  /** The length of the run of digits that starts `s`. */
  function LeadingDigits(s: string): (n: nat)
    ensures n <= |s| && AllDigits(s[..n])
    ensures n < |s| ==> !IsDigit(s[n])
  {
    if s == [] || !IsDigit(s[0]) then 0
    else
      var n := 1 + LeadingDigits(s[1..]);
      assert s[..n] == [s[0]] + s[1..][..n - 1];
      n
  }

  /** The update key `data.slots.slot{level}.prepared.{slot}` the sheet writes. */
  function SlotKey(level: nat, slot: nat): (k: string)
    ensures |k| > |LevelPrefix| + |SlotInfix| && k[..|LevelPrefix|] == LevelPrefix
    ensures |k| >= |NatToString(slot)| && k[|k| - |NatToString(slot)|..] == NatToString(slot)
  {
    LevelPrefix + NatToString(level) + SlotInfix + NatToString(slot)
  }

  /** How the host reads such a key back; `None` for any other path. */
  function ParseSlotKey(k: string): Option<SlotAddress> {
    if |k| < |LevelPrefix| || k[..|LevelPrefix|] != LevelPrefix then None
    else
      var rest := k[|LevelPrefix|..];
      var n := LeadingDigits(rest);
      var tail := rest[n..];
      if n == 0 || |tail| < |SlotInfix| || tail[..|SlotInfix|] != SlotInfix then None
      else
        var slot := tail[|SlotInfix|..];
        if slot == [] || LeadingDigits(slot) != |slot| then None
        else
          assert slot[..|slot|] == slot;
          Some(SlotAddress(DigitsValue(rest[..n]), DigitsValue(slot)))
  }

  lemma {:induction false} DigitsRoundTrip(n: nat)
    ensures DigitsValue(NatToString(n)) == n
    decreases n
  {
    var s := NatToString(n);
    if n >= 10 {
      assert s[..|s| - 1] == NatToString(n / 10);
      DigitsRoundTrip(n / 10);
    }
  }

  /** A digit run followed by a non-digit is read exactly up to that character. */
  lemma {:induction false} LeadingDigitsOfRun(d: string, rest: string)
    requires AllDigits(d)
    requires rest != [] && !IsDigit(rest[0])
    ensures LeadingDigits(d + rest) == |d|
    decreases |d|
  {
    if d != [] {
      assert (d + rest)[1..] == d[1..] + rest;
      LeadingDigitsOfRun(d[1..], rest);
    }
  }

  /** A digit string is one run of digits. */
  lemma {:induction false} LeadingDigitsOfDigits(d: string)
    requires AllDigits(d)
    ensures LeadingDigits(d) == |d|
    decreases |d|
  {
    if d != [] {
      LeadingDigitsOfDigits(d[1..]);
    }
  }

  /** The host reads back exactly the level and slot the key was built from. */
  lemma SlotKeyRoundTrip(level: nat, slot: nat)
    ensures ParseSlotKey(SlotKey(level, slot)) == Some(SlotAddress(level, slot))
  {
    var k := SlotKey(level, slot);
    var l, s := NatToString(level), NatToString(slot);
    assert k == LevelPrefix + (l + (SlotInfix + s));
    var rest := k[|LevelPrefix|..];
    assert rest == l + (SlotInfix + s);
    LeadingDigitsOfRun(l, SlotInfix + s);
    assert rest[..|l|] == l;
    assert rest[|l|..] == SlotInfix + s;
    LeadingDigitsOfDigits(s);
    DigitsRoundTrip(level);
    DigitsRoundTrip(slot);
  }

  /** Distinct slots are written under distinct keys. */
  lemma SlotKeyInjective(l1: nat, s1: nat, l2: nat, s2: nat)
    ensures SlotKey(l1, s1) == SlotKey(l2, s2) <==> l1 == l2 && s1 == s2
  {
    SlotKeyRoundTrip(l1, s1);
    SlotKeyRoundTrip(l2, s2);
  }
}
