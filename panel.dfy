/** The decision `bankNameMessage` takes about what the suggestion list
    under the bank-name input shows. */
module Panel {
  import opened Search

  /** One clickable entry: keyed by the bank code, captioned with the bank's
      canonical name, which is also what clicking it selects. */
  datatype Item = Item(key: string, caption: string)

  /** What the list shows: nothing at all, the single "no such bank" line,
      or one entry per suggested bank. */
  datatype Message = Nothing | NotFound | Listing(items: seq<Item>)

  function ItemOf(bank: Bank): Item
  {
    Item(bank.code, bank.normalize.name)
  }

  /** One entry per bank, in the same order. */
  function Items(banks: seq<Bank>): seq<Item>
  {
    seq(|banks|, k requires 0 <= k < |banks| => ItemOf(banks[k]))
  }

  /** `bankNameMessage`, returning which of its three outputs it renders. */
  function BankNameMessage(isFocused: bool, bankName: string, suggestedBanks: seq<Bank>): Message
  {
    if !isFocused && |bankName| == 0 then Nothing
    else if |bankName| == 0 || |suggestedBanks| == 0 then NotFound
    else Listing(Items(suggestedBanks))
  }

  /** What the list shows right after `value` has been typed over a loaded
      directory: nothing only for an unfocused empty field; the "no such
      bank" line for a focused empty field or when no bank matches; and
      otherwise an entry for every matching bank and for no other. */
  lemma MessageAfterEdit(allBanks: seq<Bank>, value: string, isFocused: bool)
    ensures var m := BankNameMessage(isFocused, value, Suggest(allBanks, value));
      (m.Nothing? <==> !isFocused && value == []) &&
      (m.NotFound? <==>
        (isFocused && value == []) || (value != [] && forall b :: b in allBanks ==> !Matches(b, value))) &&
      (m.Listing? ==> forall it :: it in m.items ==>
        exists b :: b in allBanks && Matches(b, value) && it == ItemOf(b)) &&
      (forall b :: value != [] && b in allBanks && Matches(b, value) ==>
        m.Listing? && ItemOf(b) in m.items)
  {
    var s := Suggest(allBanks, value);
    var m := BankNameMessage(isFocused, value, s);
    if value != [] {
      FilterEmpty(allBanks, value);
      if m.Listing? {
        forall it | it in m.items
          ensures exists b :: b in allBanks && Matches(b, value) && it == ItemOf(b)
        {
          var k :| 0 <= k < |m.items| && m.items[k] == it;
          assert s[k] in s;
        }
      }
      forall b | b in allBanks && Matches(b, value)
        ensures m.Listing? && ItemOf(b) in m.items
      {
        FilterComplete(allBanks, value, b);
        var k :| 0 <= k < |s| && s[k] == b;
        assert m.items[k] == ItemOf(b);
      }
    }
  }

  /** When every suggestion matches the field, every listed entry names a
      suggestion matching the field, and a list is shown only for a
      non-empty field with suggestions, one entry per suggestion in order. */
  lemma ListingShowsSuggestions(isFocused: bool, bankName: string, suggestedBanks: seq<Bank>)
    requires forall b :: b in suggestedBanks ==> Matches(b, bankName)
    ensures var m := BankNameMessage(isFocused, bankName, suggestedBanks);
      m.Listing? ==>
        bankName != [] && suggestedBanks != [] && |m.items| == |suggestedBanks| &&
        (forall k :: 0 <= k < |m.items| ==>
          m.items[k].caption == suggestedBanks[k].normalize.name && Matches(suggestedBanks[k], bankName))
  {
  }
}
