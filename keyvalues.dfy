/** SteamKit's KeyValue tree, as far as the product-info records read it.

    A node has a name, an optional string value and ordered children.
    `None` stands for `KeyValue.Invalid`, the node the indexer returns for a
    missing key; indexing `Invalid` again gives `Invalid`. */
module KeyValues {
  import opened Options

  datatype KeyValue = KeyValue(name: string, value: Option<string>, children: seq<KeyValue>)

  /** ASCII lower-casing of one character: the result is never an upper-case
      letter, and only an upper-case letter changes. */
  function LowerChar(c: char): (r: char)
    ensures !('A' <= r <= 'Z')
    ensures r == c || ('A' <= c <= 'Z' && r as int == c as int + 32)
  {
    if 'A' <= c <= 'Z' then (c as int + 32) as char else c
  }

  /** `ToLower`, on ASCII letters. */
  function Lower(s: string): string {
    seq(|s|, i requires 0 <= i < |s| => LowerChar(s[i]))
  }

  /** Lower-casing twice is lower-casing once. */
  lemma LowerIdempotent(s: string)
    ensures Lower(Lower(s)) == Lower(s)
  {
  }

  /** `StringComparison.OrdinalIgnoreCase`, on ASCII letters. */
  predicate SameName(a: string, b: string) {
    Lower(a) == Lower(b)
  }

  /** The first of `children` whose name matches `key`, or `Invalid`. */
  function FirstChild(children: seq<KeyValue>, key: string): Option<KeyValue> {
    if children == [] then None
    else if SameName(children[0].name, key) then Some(children[0])
    else FirstChild(children[1..], key)
  }

  /** The lookup finds nothing exactly when no child has the name, and
      otherwise finds the earliest child that has it. */
  lemma {:induction false} FirstChildSpec(children: seq<KeyValue>, key: string)
    ensures FirstChild(children, key).None? <==> forall i | 0 <= i < |children| :: !SameName(children[i].name, key)
    ensures FirstChild(children, key).Some? ==> exists i | 0 <= i < |children| ::
      && children[i] == FirstChild(children, key).value
      && SameName(children[i].name, key)
      && forall j | 0 <= j < i :: !SameName(children[j].name, key)
  {
    if children != [] && !SameName(children[0].name, key) {
      var rest := children[1..];
      FirstChildSpec(rest, key);
      var r := FirstChild(rest, key);
      if r.Some? {
        var i :| 0 <= i < |rest| && rest[i] == r.value
          && SameName(rest[i].name, key)
          && forall j | 0 <= j < i :: !SameName(rest[j].name, key);
        assert children[i + 1] == r.value;
        forall j | 0 <= j < i + 1 ensures !SameName(children[j].name, key) {
          if j > 0 { assert children[j] == rest[j - 1]; }
        }
      } else {
        forall i | 0 <= i < |children| ensures !SameName(children[i].name, key) {
          if i > 0 { assert children[i] == rest[i - 1]; }
        }
      }
    }
  }

  /** The indexer `node[key]`. */
  function Child(node: Option<KeyValue>, key: string): Option<KeyValue> {
    match node
    case None => None
    case Some(kv) => FirstChild(kv.children, key)
  }

  /** The children of a node; `Invalid` has none. */
  function Children(node: Option<KeyValue>): seq<KeyValue> {
    match node
    case None => []
    case Some(kv) => kv.children
  }

  /** `AsString()`: the node's value, `null` for `Invalid`. */
  function AsString(node: Option<KeyValue>): Option<string> {
    match node
    case None => None
    case Some(kv) => kv.value
  }

  /** Decimal text: digits only, at least one. */
  predicate IsDigits(s: string) {
    |s| > 0 && forall i | 0 <= i < |s| :: '0' <= s[i] <= '9'
  }

  /** The value of a string of decimal digits. */
  function DigitsValue(s: string): nat
    requires forall i | 0 <= i < |s| :: '0' <= s[i] <= '9'
  {
    if s == [] then 0
    else DigitsValue(s[..|s| - 1]) * 10 + (s[|s| - 1] as int - '0' as int)
  }

  const UInt32Max: nat := 0xFFFF_FFFF
  const Int32Min: int := -0x8000_0000
  const Int32Max: int := 0x7FFF_FFFF

  /** `uint.TryParse` on plain decimal text. */
  function ParseUInt32(s: string): (r: Option<nat>)
    ensures r.Some? ==> r.value <= UInt32Max
  {
    if IsDigits(s) && DigitsValue(s) <= UInt32Max then Some(DigitsValue(s)) else None
  }

  /** `int.TryParse` on plain decimal text with an optional minus sign. */
  function ParseInt32(s: string): (r: Option<int>)
    ensures r.Some? ==> Int32Min <= r.value <= Int32Max
  {
    if |s| > 0 && s[0] == '-' then
      if IsDigits(s[1..]) && DigitsValue(s[1..]) <= -Int32Min then Some(0 - DigitsValue(s[1..]) as int) else None
    else if IsDigits(s) && DigitsValue(s) <= Int32Max then Some(DigitsValue(s))
    else None
  }

  /** `AsUnsignedInteger()`: the parsed value, 0 when absent or not a number. */
  function AsUnsignedInteger(node: Option<KeyValue>): (r: nat)
    ensures r <= UInt32Max
    ensures AsString(node).None? ==> r == 0
    ensures AsString(node).Some? && ParseUInt32(AsString(node).value).None? ==> r == 0
    ensures AsString(node).Some? && ParseUInt32(AsString(node).value).Some? ==> r == ParseUInt32(AsString(node).value).value
  {
    match AsString(node)
    case None => 0
    case Some(s) => match ParseUInt32(s) case None => 0 case Some(n) => n
  }

  /** `AsInteger()`: the parsed value, 0 when absent or not a number. */
  function AsInteger(node: Option<KeyValue>): (r: int)
    ensures Int32Min <= r <= Int32Max
    ensures AsString(node).None? ==> r == 0
    ensures AsString(node).Some? && ParseInt32(AsString(node).value).None? ==> r == 0
    ensures AsString(node).Some? && ParseInt32(AsString(node).value).Some? ==> r == ParseInt32(AsString(node).value).value
  {
    match AsString(node)
    case None => 0
    case Some(s) => match ParseInt32(s) case None => 0 case Some(n) => n
  }

  /** Decimal text of a natural number, the way the product info writes numbers. */
  function NatToDecimal(n: nat): (s: string)
    ensures IsDigits(s)
  {
    if n < 10 then [('0' as int + n) as char]
    else NatToDecimal(n / 10) + [('0' as int + n % 10) as char]
  }

  function IntToDecimal(i: int): string {
    if i < 0 then "-" + NatToDecimal(-i) else NatToDecimal(i)
  }

  lemma {:induction false} DigitsRoundTrip(n: nat)
    ensures DigitsValue(NatToDecimal(n)) == n
  {
    if n >= 10 {
      DigitsRoundTrip(n / 10);
      var s := NatToDecimal(n);
      assert s[..|s| - 1] == NatToDecimal(n / 10);
    }
  }

  /** Writing a 32-bit unsigned number and reading it back gives the number. */
  lemma UInt32RoundTrip(n: nat)
    requires n <= UInt32Max
    ensures ParseUInt32(NatToDecimal(n)) == Some(n)
  {
    DigitsRoundTrip(n);
  }

  /** Writing a 32-bit signed number and reading it back gives the number. */
  lemma Int32RoundTrip(i: int)
    requires Int32Min <= i <= Int32Max
    ensures ParseInt32(IntToDecimal(i)) == Some(i)
  {
    if i < 0 {
      DigitsRoundTrip(-i);
      assert IntToDecimal(i)[1..] == NatToDecimal(-i);
    } else {
      DigitsRoundTrip(i);
    }
  }
}
