/** The state of the search form component and its event handlers. Each
    React state variable is a field; each handler is a method that makes
    the state updates it issues. */
module Form {
  import opened Search
  import opened Directory
  import opened Panel

  /** The invariant the handlers keep: an empty field has no suggestions,
      and every suggestion matches the text in the field. */
  predicate Consistent(bankName: string, suggestedBanks: seq<Bank>)
  {
    (bankName == [] ==> suggestedBanks == []) &&
    forall b :: b in suggestedBanks ==> Matches(b, bankName)
  }

  class BankForm {
    var bankName: string
    var suggestedBanks: seq<Bank>
    var isFocused: bool
    var isSuggestedOpen: bool
    /** Declared by the component but never written by it. */
    var bankCode: string
    /** Declared by the component but never written by it. */
    var branchCode: string
    var allBanks: seq<Bank>

    ghost predicate Valid()
      reads this
    {
      Consistent(bankName, suggestedBanks)
    }

    /** The initial state: empty fields, nothing loaded, the list open. */
    constructor ()
      ensures Valid()
      ensures bankName == [] && suggestedBanks == [] && allBanks == []
      ensures !isFocused && isSuggestedOpen
      ensures bankCode == [] && branchCode == []
    {
      bankName := [];
      suggestedBanks := [];
      isFocused := false;
      isSuggestedOpen := true;
      bankCode := [];
      branchCode := [];
      allBanks := [];
    }

    /** What the list under the input shows when it is rendered. */
    function Shown(): Message
      reads this
    {
      BankNameMessage(isFocused, bankName, suggestedBanks)
    }

    /** The list under the input: rendered only while the panel is open. */
    function Rendered(): Option<Message>
      reads this
    {
      if isSuggestedOpen then Some(Shown()) else None
    }

    /** The start-up effect: load the whole directory, then publish it.
        The suggestions already computed are not recomputed. */
    method LoadAllBanks(source: PageSource)
      requires Valid()
      modifies this
      ensures Valid()
      ensures allBanks == LoadedBanks(source)
      ensures bankName == old(bankName) && suggestedBanks == old(suggestedBanks)
      ensures isFocused == old(isFocused) && isSuggestedOpen == old(isSuggestedOpen)
      ensures bankCode == old(bankCode) && branchCode == old(branchCode)
    {
      var fetchedBanks, _ := FetchAllBanks(source);
      allBanks := fetchedBanks;
    }

    /** `handleBankNameInputChange`: the panel opens, the field takes the
        typed value, and the suggestions become those for that value. */
    method HandleBankNameInputChange(value: string)
      requires Valid()
      modifies this
      ensures Valid()
      ensures isSuggestedOpen && bankName == value
      ensures suggestedBanks == Suggest(allBanks, value)
      ensures isFocused == old(isFocused) && allBanks == old(allBanks)
      ensures bankCode == old(bankCode) && branchCode == old(branchCode)
    {
      isSuggestedOpen := true;
      bankName := value;
      if value != [] {
        var filteredData := Filter(allBanks, value);
        suggestedBanks := filteredData;
      } else {
        suggestedBanks := [];
      }
    }

    /** `handleFocus`: only the focus flag changes. */
    method HandleFocus()
      requires Valid()
      modifies this
      ensures Valid()
      ensures isFocused
      ensures bankName == old(bankName) && suggestedBanks == old(suggestedBanks)
      ensures isSuggestedOpen == old(isSuggestedOpen) && allBanks == old(allBanks)
      ensures bankCode == old(bankCode) && branchCode == old(branchCode)
    {
      isFocused := true;
    }

    /** `handleBlur`: only the focus flag changes. */
    method HandleBlur()
      requires Valid()
      modifies this
      ensures Valid()
      ensures !isFocused
      ensures bankName == old(bankName) && suggestedBanks == old(suggestedBanks)
      ensures isSuggestedOpen == old(isSuggestedOpen) && allBanks == old(allBanks)
      ensures bankCode == old(bankCode) && branchCode == old(branchCode)
    {
      isFocused := false;
    }

    /** `handleBankNameClick`: the field takes the chosen name, the
        suggestions are dropped and the panel closes. */
    method HandleBankNameClick(name: string)
      requires Valid()
      modifies this
      ensures Valid()
      ensures bankName == name && suggestedBanks == [] && !isSuggestedOpen
      ensures Rendered() == None
      ensures isFocused == old(isFocused) && allBanks == old(allBanks)
      ensures bankCode == old(bankCode) && branchCode == old(branchCode)
    {
      bankName := name;
      suggestedBanks := [];
      isSuggestedOpen := false;
    }

    /** A click on entry `k` of the rendered list selects that entry's caption,
        the canonical name of the `k`-th suggestion. */
    method ClickSuggestion(k: nat)
      requires Valid()
      requires Shown().Listing? && k < |Shown().items|
      modifies this
      ensures Valid()
      ensures bankName == old(suggestedBanks)[k].normalize.name
      ensures suggestedBanks == [] && !isSuggestedOpen
      ensures isFocused == old(isFocused) && allBanks == old(allBanks)
      ensures bankCode == old(bankCode) && branchCode == old(branchCode)
    {
      var name := Shown().items[k].caption;
      HandleBankNameClick(name);
    }
  }

  /** In any state the handlers reach, a shown list is one entry per
      suggestion, in order, each suggestion matching the text in the input. */
  lemma ShownListingMatches(form: BankForm)
    requires form.Valid()
    ensures var m := form.Shown();
      m.Listing? ==>
        form.bankName != [] && |m.items| == |form.suggestedBanks| &&
        forall k :: 0 <= k < |m.items| ==>
          m.items[k] == ItemOf(form.suggestedBanks[k]) && Matches(form.suggestedBanks[k], form.bankName)
  {
  }

  /** Text typed before the directory has loaded: its suggestions were
      computed over the empty directory, and loading does not recompute
      them, so the "no such bank" line stays until the next edit. */
  method TypedBeforeLoadScenario()
  {
    var mizuho := Bank("0001", "みずほ銀行", "みずほ", "ミズホ", Normalize("みずほ銀行"));
    var source: PageSource := (p: nat) => if p == 1 then Some([mizuho]) else None;
    var form := new BankForm();
    form.HandleFocus();
    form.HandleBankNameInputChange("みずほ");
    assert form.suggestedBanks == [];
    form.LoadAllBanks(source);
    StopsAtEmptyPage(source, 1);
    assert form.allBanks == [mizuho];
    assert form.Rendered() == Some(NotFound);
    form.HandleBankNameInputChange("みずほ");
    assert "みずほ" <= mizuho.hira;
    assert form.suggestedBanks == [mizuho];
  }

  /** The form on a one-bank directory: typing a reading suggests the bank,
      clicking it fills in its canonical name and closes the list. */
  method OneBankScenario()
  {
    var mizuho := Bank("0001", "みずほ銀行", "みずほ", "ミズホ", Normalize("みずほ銀行"));
    var source: PageSource := (p: nat) => if p == 1 then Some([mizuho]) else Some([]);
    var form := new BankForm();
    form.LoadAllBanks(source);
    StopsAtEmptyPage(source, 1);
    assert form.allBanks == [mizuho];
    form.HandleFocus();
    form.HandleBankNameInputChange("みずほ");
    assert "みずほ" <= mizuho.hira;
    assert form.suggestedBanks == [mizuho];
    assert Items([mizuho]) == [Item("0001", "みずほ銀行")];
    assert form.Rendered() == Some(Listing([Item("0001", "みずほ銀行")]));
    form.ClickSuggestion(0);
    assert form.bankName == "みずほ銀行";
    assert form.Rendered() == None && form.bankCode == [];
  }
}
