/** Session identifiers: sixty random bits in Crockford's base 32, and the page's URL fragment. */
module SessionId {
  import opened Protocol

  const CROCKFORD: string := "0123456789abcdefghjkmnpqrstvwxyz"
  const TWO_TO_60: nat := 0x1000_0000_0000_0000

  /** The characters of the session-id pattern. */
  predicate Symbol(c: char) {
    '0' <= c <= '9' || 'a' <= c <= 'h' || c == 'j' || c == 'k' || c == 'm' || c == 'n' || 'p' <= c <= 't'
    || 'v' <= c <= 'z'
  }

  /** Three groups of four symbols. */
  predicate ValidSessionId(id: string) {
    |id| == 14 && id[4] == '-' && id[9] == '-' && forall i | 0 <= i < 14 && i != 4 && i != 9 :: Symbol(id[i])
  }

  function Power(n: nat): nat {
    if n == 0 then 1 else 32 * Power(n - 1)
  }

  /** The n lowest base-32 digits of a value. */
  function Digits(value: nat, n: nat): (s: string)
    ensures |s| == n
  {
    if n == 0 then [] else Digits(value / 32, n - 1) + [CROCKFORD[value % 32]]
  }

  function Worth(c: char): (v: nat)
    requires Symbol(c)
    ensures v < 32 && CROCKFORD[v] == c
  {
    if c <= '9' then c as int - '0' as int
    else if c <= 'h' then c as int - 'a' as int + 10
    else if c <= 'k' then c as int - 'j' as int + 18
    else if c <= 'n' then c as int - 'm' as int + 20
    else if c <= 't' then c as int - 'p' as int + 22
    else c as int - 'v' as int + 27
  }

  lemma SymbolWorth(v: nat)
    requires v < 32
    ensures Symbol(CROCKFORD[v]) && Worth(CROCKFORD[v]) == v
  {
  }

  ghost predicate Symbols(s: string) {
    forall i | 0 <= i < |s| :: Symbol(s[i])
  }

  function Value(s: string): nat
    requires Symbols(s)
  {
    if s == [] then 0 else Value(s[..|s| - 1]) * 32 + Worth(s[|s| - 1])
  }

  lemma {:induction false} DigitsSymbols(value: nat, n: nat)
    ensures Symbols(Digits(value, n))
  {
    if n > 0 {
      DigitsSymbols(value / 32, n - 1);
      SymbolWorth(value % 32);
    }
  }

  lemma {:induction false} ValueOfDigits(value: nat, n: nat)
    requires value < Power(n)
    ensures Symbols(Digits(value, n)) && Value(Digits(value, n)) == value
  {
    DigitsSymbols(value, n);
    if n > 0 {
      ValueOfDigits(value / 32, n - 1);
      SymbolWorth(value % 32);
      assert Digits(value, n)[..n - 1] == Digits(value / 32, n - 1);
    }
  }

  lemma OneDigit(high: nat, low: nat)
    requires low < 32
    ensures (high * 32 + low) / 32 == high && (high * 32 + low) % 32 == low
  {
  }

  lemma {:induction false} DigitsOfValue(s: string)
    requires Symbols(s)
    ensures Value(s) < Power(|s|) && Digits(Value(s), |s|) == s
  {
    hide Worth;
    hide Symbol;
    if s != [] {
      var front := s[..|s| - 1];
      DigitsOfValue(front);
      OneDigit(Value(front), Worth(s[|s| - 1]));
      assert s == front + [s[|s| - 1]];
    }
  }

  lemma Powers()
    ensures Power(12) == TWO_TO_60
  {
    assert Power(4) == 1_048_576;
    assert Power(8) == 1_048_576 * Power(4);
    assert Power(12) == 1_048_576 * Power(8);
  }

  function Grouped(s: string): string
    requires |s| == 12
  {
    s[..4] + "-" + s[4..8] + "-" + s[8..]
  }

  function Ungrouped(id: string): string
    requires |id| == 14
  {
    id[..4] + id[5..9] + id[10..]
  }

  /** The identifier of a sixty-bit value. */
  function Printed(value: nat): string {
    Grouped(Digits(value, 12))
  }

  /** randomSessionID, given eight random bytes as one number: the array is filled from its end. */
  method RandomSessionId(raw: nat) returns (id: string)
    requires raw < 16 * TWO_TO_60
    ensures id == Printed(raw % TWO_TO_60)
  {
    var value := raw % TWO_TO_60;
    var encoded := new char[12];
    var index := 11;
    ghost var low: string := [];
    while index >= 0
      invariant -1 <= index <= 11 && value >= 0 && |low| == 11 - index && encoded[index + 1..] == low
      invariant Digits(raw % TWO_TO_60, 12) == Digits(value, index + 1) + low
      decreases index
    {
      encoded[index] := CROCKFORD[value % 32];
      ghost var before := low;
      low := [CROCKFORD[value % 32]] + low;
      assert encoded[index + 1..] == before;
      assert Digits(value, index + 1) + before == Digits(value / 32, index) + ([CROCKFORD[value % 32]] + before);
      value := value / 32;
      index := index - 1;
    }
    assert encoded[..] == low && Digits(value, 0) + low == low;
    id := encoded[0..4] + "-" + encoded[4..8] + "-" + encoded[8..12];
    assert encoded[0..4] == low[..4] && encoded[4..8] == low[4..8] && encoded[8..12] == low[8..];
    assert id == Grouped(low);
  }

  /** The number an identifier stands for. */
  function Number(id: string): nat
    requires ValidSessionId(id)
  {
    UngroupedSymbols(id);
    Value(Ungrouped(id))
  }

  lemma UngroupedSymbols(id: string)
    requires ValidSessionId(id)
    ensures Symbols(Ungrouped(id)) && Grouped(Ungrouped(id)) == id
  {
  }

  /** Every sixty-bit value has its own valid identifier. */
  lemma PrintedIsValid(value: nat)
    requires value < TWO_TO_60
    ensures ValidSessionId(Printed(value)) && Number(Printed(value)) == value
  {
    hide Digits;
    hide Value;
    hide Symbol;
    hide Power;
    Powers();
    ValueOfDigits(value, 12);
    assert Ungrouped(Printed(value)) == Digits(value, 12);
  }

  /** Every valid identifier is that of exactly one sixty-bit value. */
  lemma ValidIsPrinted(id: string)
    requires ValidSessionId(id)
    ensures Number(id) < TWO_TO_60 && Printed(Number(id)) == id
    ensures forall value: nat | value < TWO_TO_60 && Printed(value) == id :: value == Number(id)
  {
    Powers();
    UngroupedSymbols(id);
    DigitsOfValue(Ungrouped(id));
    forall value: nat | value < TWO_TO_60 && Printed(value) == id ensures value == Number(id) {
      PrintedIsValid(value);
    }
  }

  // ---------- The URL fragment ----------

  datatype Fragment = Root | Session(id: string) | Invalid

  /** parseSessionFragment. */
  function ParseFragment(hash: string): Fragment {
    if hash == "" || hash == "#" then Root
    else if |hash| < 5 || hash[..4] != "#/s/" || '/' in hash[4..] || !ValidSessionId(hash[4..]) then Invalid
    else Session(hash[4..])
  }

  /** sessionFragment; None stands for its TypeError. */
  function PrintFragment(id: string): Option<string> {
    if ValidSessionId(id) then Some("#/s/" + id) else None
  }

  /** Parsing a fragment gives a session exactly when printing that session gives the fragment. */
  lemma FragmentExact(hash: string, id: string)
    ensures ParseFragment(hash) == Session(id) <==> PrintFragment(id) == Some(hash)
  {
    if PrintFragment(id) == Some(hash) {
      assert hash[..4] == "#/s/" && hash[4..] == id;
    }
    if ParseFragment(hash) == Session(id) {
      assert hash == hash[..4] + hash[4..];
    }
  }

  /** A fragment is the root exactly when it is empty, and invalid exactly when it is neither that nor printed for any
      session. */
  lemma FragmentKinds(hash: string)
    ensures ParseFragment(hash) == Root <==> hash == "" || hash == "#"
    ensures ParseFragment(hash) == Invalid <==>
              hash != "" && hash != "#" && forall id :: PrintFragment(id) != Some(hash)
  {
    forall id ensures ParseFragment(hash) == Session(id) <==> PrintFragment(id) == Some(hash) {
      FragmentExact(hash, id);
    }
    if ParseFragment(hash).Session? {
      assert PrintFragment(ParseFragment(hash).id) == Some(hash);
    }
  }
}
