/** Amount fields that may list one amount per payment instrument, separated by `|`
    (`"100.00|50.00"` for a payment split over two cards), and their total. */
module MultiCard {
  import opened PhpStrings
  import opened PhpFloat
  import opened Decimal

  const Delimiter: char := '|'

  /** One instrument's amount: the token with every space deleted, cast to a number. */
  function TokenValue(token: string): real
  {
    ParseFloat(RemoveChar(token, ' '))
  }

  /** The token values added from left to right. */
  function SumTokens(tokens: seq<string>): real
  {
    if tokens == [] then 0.0
    else SumTokens(tokens[..|tokens| - 1]) + TokenValue(tokens[|tokens| - 1])
  }

  /** The total a multi-instrument field stands for. */
  function MultiCardSum(fullValue: string): real
  {
    SumTokens(Explode(fullValue, Delimiter))
  }

  /** `_getMultiCardValue`: split on the delimiter and accumulate the token values. */
  method GetMultiCardValue(fullValue: string) returns (finalValue: real)
    ensures finalValue == MultiCardSum(fullValue)
  {
    finalValue := 0.0;
    var values := Explode(fullValue, Delimiter);
    for i := 0 to |values|
      invariant finalValue == SumTokens(values[..i])
    {
      var value := ParseFloat(RemoveChar(values[i], ' '));
      assert values[..i + 1][..i] == values[..i];
      finalValue := finalValue + value;
    }
    assert values[..|values|] == values;
  }

  lemma {:induction false} SumTokensAppend(a: seq<string>, b: seq<string>)
    ensures SumTokens(a + b) == SumTokens(a) + SumTokens(b)
  {
    if b == [] {
      assert a + b == a;
    } else {
      assert (a + b)[..|a + b| - 1] == a + b[..|b| - 1];
      SumTokensAppend(a, b[..|b| - 1]);
    }
  }

  /** An empty field totals 0. */
  lemma EmptyFieldIsZero()
    ensures MultiCardSum("") == 0.0
  {
    assert Explode("", Delimiter) == [""];
    assert RemoveChar("", ' ') == "";
    NoNumeralIsZero("");
    assert SumTokens([""]) == SumTokens([]) + TokenValue("");
  }

  /** A field without the delimiter is a single amount: its spaceless text cast to a number. */
  lemma SingleAmount(s: string)
    requires Delimiter !in s
    ensures MultiCardSum(s) == ParseFloat(RemoveChar(s, ' '))
  {
    ExplodeNoDelimiter(s, Delimiter);
    assert [s][..0] == [];
    assert SumTokens([s]) == SumTokens([]) + TokenValue(s);
  }

  /** The total of two fields joined by the delimiter is the sum of their totals. */
  lemma JoinedFieldsAdd(a: string, b: string)
    ensures MultiCardSum(a + [Delimiter] + b) == MultiCardSum(a) + MultiCardSum(b)
  {
    ExplodeConcat(a, b, Delimiter);
    SumTokensAppend(Explode(a, Delimiter), Explode(b, Delimiter));
  }

  /** The total of delimiter-free tokens joined by the delimiter is the sum of the token values. */
  lemma ImplodedTokensAdd(tokens: seq<string>)
    requires |tokens| >= 1
    requires forall i :: 0 <= i < |tokens| ==> Delimiter !in tokens[i]
    ensures MultiCardSum(Implode(tokens, Delimiter)) == SumTokens(tokens)
  {
    ExplodeImplode(tokens, Delimiter);
  }

  /** Sum of amounts given in cents. */
  function CentsTotal(cs: seq<nat>): nat
  {
    if cs == [] then 0 else CentsTotal(cs[..|cs| - 1]) + cs[|cs| - 1]
  }

  /** The field the provider writes for several instruments: each amount with two decimals. */
  function CentsField(cs: seq<nat>): string
    requires |cs| >= 1
  {
    if |cs| == 1 then CentsToString(cs[0])
    else CentsField(cs[..|cs| - 1]) + [Delimiter] + CentsToString(cs[|cs| - 1])
  }

  /** A field listing two-decimal amounts totals exactly their sum. */
  lemma {:induction false} CentsFieldTotal(cs: seq<nat>)
    requires |cs| >= 1
    ensures MultiCardSum(CentsField(cs)) == CentsTotal(cs) as real / 100.0
  {
    var last := CentsToString(cs[|cs| - 1]);
    assert Delimiter !in last && ' ' !in last by {
      assert last == NatToString(cs[|cs| - 1] / 100) + "." + [DigitChar(cs[|cs| - 1] / 10 % 10), DigitChar(cs[|cs| - 1] % 10)];
      assert forall i :: 0 <= i < |last| ==> IsDigit(last[i]) || last[i] == '.';
    }
    SingleAmount(last);
    RemoveCharAbsent(last, ' ');
    CentsRoundTrip(cs[|cs| - 1]);
    if |cs| > 1 {
      var init := cs[..|cs| - 1];
      CentsFieldTotal(init);
      JoinedFieldsAdd(CentsField(init), last);
    } else {
      assert cs[..0] == [];
    }
  }

  /** A whole amount written in decimal totals itself. */
  lemma WholeAmount(n: nat)
    ensures MultiCardSum(NatToString(n)) == n as real
  {
    var t := NatToString(n);
    assert Delimiter !in t && ' ' !in t by {
      assert forall i :: 0 <= i < |t| ==> IsDigit(t[i]);
    }
    SingleAmount(t);
    RemoveCharAbsent(t, ' ');
    NatPrefixRoundTrip(n, []);
    assert t + [] == t;
  }
}
