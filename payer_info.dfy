/** Flattening the nested card and payer data of a payment record into top-level entries. */
module PayerInfo {
  import opened PhpValues

  const CardMask: string := "xxxx xxxx xxxx "

  /** The entries `setPayerInfo` writes. */
  const FlatKeys: set<string> := {"trunc_card", "cardholder_name", "payer_first_name", "payer_last_name", "payer_email"}

  /** A payment record, a PHP array passed by reference so that updates are seen by the caller. */
  class PaymentRecord {
    var entries: map<string, PhpValue>

    constructor (entries: map<string, PhpValue>)
      ensures this.entries == entries
    {
      this.entries := entries;
    }

    /** `setPayerInfo`: masks the card number down to its last four digits and copies the
        cardholder name and the payer's names and e-mail to top-level entries; it returns
        the updated record. */
    method SetPayerInfo() returns (r: map<string, PhpValue>)
      modifies this
      ensures var card := At(old(entries), "card");
        var payer := At(old(entries), "payer");
        entries == old(entries)
          ["trunc_card" := Str(CardMask + ToPhpString(Index(card, "last_four_digits")))]
          ["cardholder_name" := Index(Index(card, "cardholder"), "name")]
          ["payer_first_name" := Index(payer, "first_name")]
          ["payer_last_name" := Index(payer, "last_name")]
          ["payer_email" := Index(payer, "email")]
      ensures forall k :: k in old(entries) && k !in FlatKeys ==> k in entries && entries[k] == old(entries)[k]
      ensures entries.Keys == old(entries).Keys + FlatKeys
      ensures r == entries
    {
      ghost var card, payer := At(entries, "card"), At(entries, "payer");
      entries := entries["trunc_card" := Str(CardMask + ToPhpString(Index(At(entries, "card"), "last_four_digits")))];
      assert At(entries, "card") == card;
      entries := entries["cardholder_name" := Index(Index(At(entries, "card"), "cardholder"), "name")];
      assert At(entries, "payer") == payer;
      entries := entries["payer_first_name" := Index(At(entries, "payer"), "first_name")];
      assert At(entries, "payer") == payer;
      entries := entries["payer_last_name" := Index(At(entries, "payer"), "last_name")];
      assert At(entries, "payer") == payer;
      entries := entries["payer_email" := Index(At(entries, "payer"), "email")];
      r := entries;
    }
  }
}
